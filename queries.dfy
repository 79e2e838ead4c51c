/** The two statement builders of the loader: one parsed movie record and one identifier
    become a parameter-bound insert into `movie.movies` and one into `movie.movies_by_genre`,
    each embedding a nested `metadata` value resolved by name from the schema snapshot.

    Each builder is a method that fills a driver statement position by position, proved
    equal to a value-level definition (MoviesInsert, MoviesByGenreInsert); the lemmas state
    what those definitions mean: which value lands in which column, what the nested value
    holds, and exactly when building fails. */
module Queries {
  import opened Results
  import opened Ints
  import opened Driver

  /** One parsed input record. */
  datatype Movie = Movie(
    genre: string,
    title: string,
    trailer: string,
    releaseYear: U16,
    synopsis: string,
    duration: U16)

  /** Why building a statement stops (each is a panic of an `unwrap()` in the loader). */
  datatype BuildError =
    | KeyspaceMissing(keyspace: string)
    | UserTypeMissing(keyspace: string, typeName: string)
    | ReleaseYearOutOfRange(year: int)
    | FieldMissing(typeName: string, field: string)

  const MovieKeyspace: string := "movie"
  const MetadataTypeName: string := "metadata"
  const MetadataFields: set<string> := {"release_year", "duration", "genres"}

  /** Column lists of the two insert statements, in parameter order. */
  const MoviesColumns: seq<string> := ["id", "title", "is_original", "synopsis", "metadata"]
  const MoviesByGenreColumns: seq<string> := ["movie_id", "genre", "is_original", "title", "metadata"]

  // ---------------------------------------------------------------------------
  // Value-level definitions of what the builders produce

  /** Resolving the `metadata` user type of keyspace `movie`. */
  function MetadataType(schema: SchemaMeta): (r: Result<UserTypeMeta, BuildError>)
    ensures r.Success? <==> MovieKeyspace in schema && MetadataTypeName in schema[MovieKeyspace]
    ensures r.Success? ==> r.value.name == MetadataTypeName
                           && r.value.fieldNames == schema[MovieKeyspace][MetadataTypeName]
    ensures MovieKeyspace !in schema ==> r == Failure(KeyspaceMissing(MovieKeyspace))
    ensures MovieKeyspace in schema && MetadataTypeName !in schema[MovieKeyspace] ==>
              r == Failure(UserTypeMissing(MovieKeyspace, MetadataTypeName))
  {
    if MovieKeyspace !in schema then
      Failure(KeyspaceMissing(MovieKeyspace))
    else if MetadataTypeName !in schema[MovieKeyspace] then
      Failure(UserTypeMissing(MovieKeyspace, MetadataTypeName))
    else
      Success(UserTypeMeta(MetadataTypeName, schema[MovieKeyspace][MetadataTypeName]))
  }

  /** The nested value a builder binds, in the order the builder sets its fields: the
      year is narrowed before its field is looked up. */
  function MetadataValue(t: UserTypeMeta, movie: Movie): Result<Value, BuildError>
  {
    match TryIntoI16(movie.releaseYear)
    case None => Failure(ReleaseYearOutOfRange(movie.releaseYear))
    case Some(year) =>
      if "release_year" !in t.fieldNames then Failure(FieldMissing(t.name, "release_year"))
      else if "duration" !in t.fieldNames then Failure(FieldMissing(t.name, "duration"))
      else if "genres" !in t.fieldNames then Failure(FieldMissing(t.name, "genres"))
      else Success(Udt(t.name, map[
        "release_year" := Int16(year),
        "duration" := Int64(IntoI64(movie.duration)),
        "genres" := TextSet({movie.genre})]))
  }

  function MoviesInsert(schema: SchemaMeta, id: Uuid, movie: Movie): Result<StatementValue, BuildError>
  {
    var t :- MetadataType(schema);
    var meta :- MetadataValue(t, movie);
    Success(StatementValue(MovieKeyspace, "movies", MoviesColumns, map[
      0 := UuidValue(id),
      1 := Text(movie.title),
      2 := Bool(false),
      3 := Text(movie.synopsis),
      4 := meta]))
  }

  function MoviesByGenreInsert(schema: SchemaMeta, id: Uuid, movie: Movie): Result<StatementValue, BuildError>
  {
    var t :- MetadataType(schema);
    var meta :- MetadataValue(t, movie);
    Success(StatementValue(MovieKeyspace, "movies_by_genre", MoviesByGenreColumns, map[
      0 := UuidValue(id),
      1 := Text(movie.genre),
      2 := Bool(false),
      3 := Text(movie.title),
      4 := meta]))
  }

  // ---------------------------------------------------------------------------
  // The builders, over the driver's mutable objects

  function ObserveUserType(r: Result<UserType, BuildError>): Result<Value, BuildError>
    reads if r.Success? then {r.value} else {}
  {
    match r
    case Success(u) => Success(u.AsValue())
    case Failure(e) => Failure(e)
  }

  function ObserveStatement(r: Result<Statement, BuildError>): Result<StatementValue, BuildError>
    reads if r.Success? then {r.value} else {}
  {
    match r
    case Success(s) => Success(s.Snapshot())
    case Failure(e) => Failure(e)
  }

  /** Instantiates the metadata type and sets its three fields by name. Both builders of
      the loader run these same steps. */
  method NewMetadata(t: UserTypeMeta, movie: Movie) returns (r: Result<UserType, BuildError>)
    ensures r.Success? ==> fresh(r.value)
    ensures ObserveUserType(r) == MetadataValue(t, movie)
  {
    var metaData := new UserType(t);
    var year := TryIntoI16(movie.releaseYear);
    if year.None? {
      return Failure(ReleaseYearOutOfRange(movie.releaseYear));
    }
    var ok := metaData.SetByName("release_year", Int16(year.value));
    if !ok {
      return Failure(FieldMissing(t.name, "release_year"));
    }
    ok := metaData.SetByName("duration", Int64(IntoI64(movie.duration)));
    if !ok {
      return Failure(FieldMissing(t.name, "duration"));
    }
    var genres := new CollectionSet();
    genres.AppendString(movie.genre);
    assert genres.Elements() == {movie.genre};
    ok := metaData.SetByName("genres", TextSet(genres.Elements()));
    if !ok {
      return Failure(FieldMissing(t.name, "genres"));
    }
    return Success(metaData);
  }

  /** `insert_into_movies`. Binding by index cannot fail here: every index used has a
      parameter, so those `unwrap()` calls never panic. */
  method InsertIntoMovies(schema: SchemaMeta, id: Uuid, movie: Movie) returns (r: Result<Statement, BuildError>)
    ensures r.Success? ==> fresh(r.value)
    ensures ObserveStatement(r) == MoviesInsert(schema, id, movie)
  {
    var metaDataType :- MetadataType(schema);
    var statement := new Statement(MovieKeyspace, "movies", MoviesColumns);
    var ok := statement.Bind(0, UuidValue(id));
    assert ok;
    ok := statement.Bind(1, Text(movie.title));
    assert ok;
    ok := statement.Bind(2, Bool(false));
    assert ok;
    ok := statement.Bind(3, Text(movie.synopsis));
    assert ok;
    var metaData :- NewMetadata(metaDataType, movie);
    ok := statement.Bind(4, metaData.AsValue());
    assert ok;
    return Success(statement);
  }

  /** `insert_into_movies_by_genre`; as above, no bind by index can fail. */
  method InsertIntoMoviesByGenre(schema: SchemaMeta, id: Uuid, movie: Movie) returns (r: Result<Statement, BuildError>)
    ensures r.Success? ==> fresh(r.value)
    ensures ObserveStatement(r) == MoviesByGenreInsert(schema, id, movie)
  {
    var metaDataType :- MetadataType(schema);
    var statement := new Statement(MovieKeyspace, "movies_by_genre", MoviesByGenreColumns);
    var ok := statement.Bind(0, UuidValue(id));
    assert ok;
    ok := statement.Bind(1, Text(movie.genre));
    assert ok;
    ok := statement.Bind(2, Bool(false));
    assert ok;
    ok := statement.Bind(3, Text(movie.title));
    assert ok;
    var metaData :- NewMetadata(metaDataType, movie);
    ok := statement.Bind(4, metaData.AsValue());
    assert ok;
    return Success(statement);
  }

  // ---------------------------------------------------------------------------
  // What a statement means

  /** The metadata record as the database reads it back. */
  datatype Metadata = Metadata(releaseYear: I16, duration: I64, genres: set<string>)

  function DecodeMetadata(v: Value): Option<Metadata>
  {
    if v.Udt? && v.typeName == MetadataTypeName
       && "release_year" in v.fields && v.fields["release_year"].Int16?
       && "duration" in v.fields && v.fields["duration"].Int64?
       && "genres" in v.fields && v.fields["genres"].TextSet?
    then Some(Metadata(v.fields["release_year"].i16, v.fields["duration"].i64, v.fields["genres"].texts))
    else None
  }

  predicate Distinct(columns: seq<string>)
  {
    forall i, j :: 0 <= i < j < |columns| ==> columns[i] != columns[j]
  }

  /** Every parameter is bound, and nothing beyond the parameters. */
  predicate FullyBound(s: StatementValue)
  {
    (forall i: nat | i < |s.columns| :: i in s.bound) && (forall i | i in s.bound :: i < |s.columns|)
  }

  /** The row a statement writes: each column with the value bound at its position. */
  function Row(s: StatementValue): map<string, Value>
  {
    RowFrom(s.columns, s.bound, 0)
  }

  /** The row written by the columns from position `from` on; where a column is listed twice,
      the earlier position wins. */
  function RowFrom(columns: seq<string>, bound: map<nat, Value>, from: nat): map<string, Value>
    decreases |columns| - from
  {
    if from >= |columns| then map[]
    else if from in bound then RowFrom(columns, bound, from + 1)[columns[from] := bound[from]]
    else RowFrom(columns, bound, from + 1)
  }

  /** The row of a fully bound five-parameter statement with distinct columns, column by column. */
  lemma RowOfFive(s: StatementValue)
    requires |s.columns| == 5 && Distinct(s.columns) && FullyBound(s)
    ensures Row(s) == map[
      s.columns[0] := s.bound[0], s.columns[1] := s.bound[1], s.columns[2] := s.bound[2],
      s.columns[3] := s.bound[3], s.columns[4] := s.bound[4]]
  {
    var c, b := s.columns, s.bound;
    assert RowFrom(c, b, 5) == map[];
    assert RowFrom(c, b, 4) == map[c[4] := b[4]];
    assert RowFrom(c, b, 3) == map[c[4] := b[4]][c[3] := b[3]];
    assert RowFrom(c, b, 2) == map[c[4] := b[4]][c[3] := b[3]][c[2] := b[2]];
    assert RowFrom(c, b, 1) == map[c[4] := b[4]][c[3] := b[3]][c[2] := b[2]][c[1] := b[1]];
    assert RowFrom(c, b, 0) == map[c[4] := b[4]][c[3] := b[3]][c[2] := b[2]][c[1] := b[1]][c[0] := b[0]];
  }

  predicate MetadataResolvable(schema: SchemaMeta)
  {
    MovieKeyspace in schema && MetadataTypeName in schema[MovieKeyspace]
    && MetadataFields <= schema[MovieKeyspace][MetadataTypeName]
  }

  predicate IsSchemaError(e: BuildError)
  {
    e.KeyspaceMissing? || e.UserTypeMissing? || e.FieldMissing?
  }

  /** The columns the builders fill in are one column per parameter. */
  lemma ColumnsDistinct()
    ensures Distinct(MoviesColumns) && Distinct(MoviesByGenreColumns)
  {
  }

  // ---------------------------------------------------------------------------
  // Properties of the builders

  /** The nested value is built exactly when the year fits `i16` and the type declares the
      three fields; a too-large year is reported before any field name is looked up. Once
      built, it reads back as the record's own year, its duration widened without loss and
      the set holding just its genre. */
  lemma MetadataValueSpec(t: UserTypeMeta, movie: Movie)
    ensures MetadataValue(t, movie).Success? <==> movie.releaseYear <= I16Max && MetadataFields <= t.fieldNames
    ensures movie.releaseYear > I16Max ==> MetadataValue(t, movie) == Failure(ReleaseYearOutOfRange(movie.releaseYear))
    ensures movie.releaseYear <= I16Max && !(MetadataFields <= t.fieldNames) ==>
              MetadataValue(t, movie).Failure? && MetadataValue(t, movie).error.FieldMissing?
    ensures MetadataValue(t, movie).Success? ==>
              MetadataValue(t, movie).value.Udt? && MetadataValue(t, movie).value.fields.Keys == MetadataFields
    ensures MetadataValue(t, movie).Success? && t.name == MetadataTypeName ==>
              DecodeMetadata(MetadataValue(t, movie).value) == Some(Metadata(movie.releaseYear, movie.duration, {movie.genre}))
  {
  }

  /** Building the `movies` insert fails on a schema that does not declare the metadata
      type with its fields, or on a year outside `i16`, and succeeds otherwise, whatever the
      identifier. */
  lemma MoviesInsertOutcome(schema: SchemaMeta, id: Uuid, movie: Movie)
    ensures MoviesInsert(schema, id, movie).Success? <==> MetadataResolvable(schema) && movie.releaseYear <= I16Max
    ensures MovieKeyspace !in schema ==> MoviesInsert(schema, id, movie) == Failure(KeyspaceMissing(MovieKeyspace))
    ensures MovieKeyspace in schema && MetadataTypeName !in schema[MovieKeyspace] ==>
              MoviesInsert(schema, id, movie) == Failure(UserTypeMissing(MovieKeyspace, MetadataTypeName))
    ensures MovieKeyspace in schema && MetadataTypeName in schema[MovieKeyspace] && movie.releaseYear > I16Max ==>
              MoviesInsert(schema, id, movie) == Failure(ReleaseYearOutOfRange(movie.releaseYear))
    ensures movie.releaseYear <= I16Max && !MetadataResolvable(schema) ==>
              MoviesInsert(schema, id, movie).Failure? && IsSchemaError(MoviesInsert(schema, id, movie).error)
  {
    match MetadataType(schema)
    case Failure(_) =>
    case Success(t) => MetadataValueSpec(t, movie);
  }

  /** The two builders fail on exactly the same inputs and give the same error, whatever
      identifiers they are given: a record never yields one statement without the other. */
  lemma BuildersFailTogether(schema: SchemaMeta, id1: Uuid, id2: Uuid, movie: Movie)
    ensures MoviesInsert(schema, id1, movie).Failure? <==> MoviesByGenreInsert(schema, id2, movie).Failure?
    ensures MoviesInsert(schema, id1, movie).Failure? ==>
              MoviesInsert(schema, id1, movie).error == MoviesByGenreInsert(schema, id2, movie).error
  {
  }

  /** The `movies` insert targets `movie.movies`, binds every parameter and nothing else, and
      writes the identifier, title, `is_original = false`, synopsis and metadata to their
      columns; the trailer is not written. */
  lemma MoviesInsertRow(schema: SchemaMeta, id: Uuid, movie: Movie, s: StatementValue)
    requires MoviesInsert(schema, id, movie) == Success(s)
    ensures s.keyspace == MovieKeyspace && s.table == "movies"
    ensures Distinct(s.columns) && FullyBound(s)
    ensures Row(s).Keys == {"id", "title", "is_original", "synopsis", "metadata"}
    ensures Row(s)["id"] == UuidValue(id)
    ensures Row(s)["title"] == Text(movie.title)
    ensures Row(s)["is_original"] == Bool(false)
    ensures Row(s)["synopsis"] == Text(movie.synopsis)
    ensures DecodeMetadata(Row(s)["metadata"]) == Some(Metadata(movie.releaseYear, movie.duration, {movie.genre}))
    ensures Row(s)["metadata"].Udt? && Row(s)["metadata"].fields.Keys == MetadataFields
  {
    var t := MetadataType(schema).value;
    MetadataValueSpec(t, movie);
    var meta := MetadataValue(t, movie).value;
    assert s == StatementValue(MovieKeyspace, "movies", MoviesColumns, map[0 := UuidValue(id), 1 := Text(movie.title), 2 := Bool(false), 3 := Text(movie.synopsis), 4 := meta]);
    ColumnsDistinct();
    assert FullyBound(s);
    RowOfFive(s);
  }

  /** The `movies_by_genre` insert targets `movie.movies_by_genre`, binds every parameter and
      nothing else, and writes the identifier as `movie_id`, the genre, `is_original = false`,
      the title and the metadata; neither synopsis nor trailer is written. */
  lemma MoviesByGenreInsertRow(schema: SchemaMeta, id: Uuid, movie: Movie, s: StatementValue)
    requires MoviesByGenreInsert(schema, id, movie) == Success(s)
    ensures s.keyspace == MovieKeyspace && s.table == "movies_by_genre"
    ensures Distinct(s.columns) && FullyBound(s)
    ensures Row(s).Keys == {"movie_id", "genre", "is_original", "title", "metadata"}
    ensures Row(s)["movie_id"] == UuidValue(id)
    ensures Row(s)["genre"] == Text(movie.genre)
    ensures Row(s)["is_original"] == Bool(false)
    ensures Row(s)["title"] == Text(movie.title)
    ensures DecodeMetadata(Row(s)["metadata"]) == Some(Metadata(movie.releaseYear, movie.duration, {movie.genre}))
    ensures Row(s)["metadata"].Udt? && Row(s)["metadata"].fields.Keys == MetadataFields
  {
    var t := MetadataType(schema).value;
    MetadataValueSpec(t, movie);
    var meta := MetadataValue(t, movie).value;
    assert s == StatementValue(MovieKeyspace, "movies_by_genre", MoviesByGenreColumns, map[0 := UuidValue(id), 1 := Text(movie.genre), 2 := Bool(false), 3 := Text(movie.title), 4 := meta]);
    ColumnsDistinct();
    assert FullyBound(s);
    RowOfFive(s);
  }

  /** Both builders embed the very same metadata value for one record. */
  lemma BuildersShareMetadata(schema: SchemaMeta, id1: Uuid, id2: Uuid, movie: Movie, s1: StatementValue, s2: StatementValue)
    requires MoviesInsert(schema, id1, movie) == Success(s1)
    requires MoviesByGenreInsert(schema, id2, movie) == Success(s2)
    ensures Distinct(s1.columns) && Distinct(s2.columns)
    ensures "metadata" in Row(s1) && "metadata" in Row(s2)
    ensures Row(s1)["metadata"] == Row(s2)["metadata"]
  {
    MoviesInsertRow(schema, id1, movie, s1);
    MoviesByGenreInsertRow(schema, id2, movie, s2);
    assert s1.bound[4] == s2.bound[4];
  }

  /** The trailer reaches neither statement, and the synopsis does not reach the
      `movies_by_genre` insert: changing them changes nothing that is built. */
  lemma UnwrittenFields(schema: SchemaMeta, id: Uuid, movie: Movie, synopsis: string, trailer: string)
    ensures MoviesInsert(schema, id, movie) == MoviesInsert(schema, id, movie.(trailer := trailer))
    ensures MoviesByGenreInsert(schema, id, movie)
            == MoviesByGenreInsert(schema, id, movie.(synopsis := synopsis, trailer := trailer))
  {
  }
}
