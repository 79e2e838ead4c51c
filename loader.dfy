/** The ingest loop of the loader: for every parsed record, one fresh identifier, both insert
    statements built with it, and a fresh LOGGED batch holding exactly those two statements,
    submitted before the next record is read. An `unwrap()` that panics ends the run, so the
    loop stops at the first record whose statements cannot be built.

    Identifiers come from a random generator; here they are an input, one per record. The
    submitted batches are returned in the order they are submitted. */
module Loader {
  import opened Results
  import opened Ints
  import opened Driver
  import opened Queries

  /** The batch submitted for one record. */
  function RecordBatch(schema: SchemaMeta, id: Uuid, movie: Movie): Result<BatchValue, BuildError>
  {
    var primary :- MoviesInsert(schema, id, movie);
    var byGenre :- MoviesByGenreInsert(schema, id, movie);
    Success(BatchValue(Logged, [primary, byGenre]))
  }

  /** One iteration of the loop body, up to the submission of the batch. */
  method WriteMovie(schema: SchemaMeta, id: Uuid, movie: Movie) returns (r: Result<BatchValue, BuildError>)
    ensures r == RecordBatch(schema, id, movie)
  {
    var batch := new Batch(Logged);
    var primary :- InsertIntoMovies(schema, id, movie);
    batch.AddStatement(primary);
    ghost var first := primary.Snapshot();
    var byGenre :- InsertIntoMoviesByGenre(schema, id, movie);
    batch.AddStatement(byGenre);
    assert batch.statements == [first, byGenre.Snapshot()];
    return Success(batch.Snapshot());
  }

  /** The outcome of a run: the batches submitted, in order, and the error that stopped it. */
  datatype Run = Run(submitted: seq<BatchValue>, failure: Option<BuildError>)

  function Prepend(batches: seq<BatchValue>, run: Run): Run
  {
    Run(batches + run.submitted, run.failure)
  }

  /** The batches a run over `movies` submits, given the identifier of each record. */
  function Ingest(schema: SchemaMeta, movies: seq<Movie>, ids: seq<Uuid>): Run
    requires |ids| == |movies|
    decreases |movies|
  {
    if movies == [] then Run([], None)
    else
      match RecordBatch(schema, ids[0], movies[0])
      case Failure(e) => Run([], Some(e))
      case Success(b) => Prepend([b], Ingest(schema, movies[1..], ids[1..]))
  }

  /** The loop of `main` over the parsed records. */
  method Load(schema: SchemaMeta, movies: seq<Movie>, ids: seq<Uuid>)
    returns (submitted: seq<BatchValue>, failure: Option<BuildError>)
    requires |ids| == |movies|
    ensures Run(submitted, failure) == Ingest(schema, movies, ids)
  {
    submitted := [];
    failure := None;
    var i := 0;
    while i < |movies|
      invariant 0 <= i <= |movies|
      invariant failure == None
      invariant Ingest(schema, movies, ids) == Prepend(submitted, Ingest(schema, movies[i..], ids[i..]))
    {
      assert movies[i..][1..] == movies[i + 1..] && ids[i..][1..] == ids[i + 1..];
      var r := WriteMovie(schema, ids[i], movies[i]);
      match r {
        case Failure(e) =>
          failure := Some(e);
          return;
        case Success(b) =>
          submitted := submitted + [b];
      }
      i := i + 1;
    }
    assert movies[i..] == [];
  }

  // ---------------------------------------------------------------------------
  // Properties of one record's batch

  /** A record's batch exists exactly when both statements can be built; otherwise the
      error is the one the first builder reports, and no batch is submitted. */
  lemma RecordBatchOutcome(schema: SchemaMeta, id: Uuid, movie: Movie)
    ensures RecordBatch(schema, id, movie).Success? <==> MetadataResolvable(schema) && movie.releaseYear <= I16Max
    ensures RecordBatch(schema, id, movie).Failure? ==>
              MoviesInsert(schema, id, movie) == Failure(RecordBatch(schema, id, movie).error)
  {
    MoviesInsertOutcome(schema, id, movie);
    BuildersFailTogether(schema, id, id, movie);
  }

  /** A record's batch is LOGGED and holds exactly two statements, the `movies` insert and
      then the `movies_by_genre` insert, which carry the same identifier, the same title and
      the same metadata. */
  lemma RecordBatchShape(schema: SchemaMeta, id: Uuid, movie: Movie, b: BatchValue)
    requires RecordBatch(schema, id, movie) == Success(b)
    ensures b.kind == Logged && |b.statements| == 2
    ensures b.statements[0].table == "movies" && b.statements[1].table == "movies_by_genre"
    ensures Distinct(b.statements[0].columns) && Distinct(b.statements[1].columns)
    ensures "id" in Row(b.statements[0]) && "movie_id" in Row(b.statements[1])
    ensures Row(b.statements[0])["id"] == Row(b.statements[1])["movie_id"] == UuidValue(id)
    ensures "title" in Row(b.statements[0]) && "title" in Row(b.statements[1])
    ensures Row(b.statements[0])["title"] == Row(b.statements[1])["title"]
    ensures "metadata" in Row(b.statements[0]) && "metadata" in Row(b.statements[1])
    ensures Row(b.statements[0])["metadata"] == Row(b.statements[1])["metadata"]
  {
    var primary := MoviesInsert(schema, id, movie).value;
    var byGenre := MoviesByGenreInsert(schema, id, movie).value;
    assert b.statements == [primary, byGenre];
    MoviesInsertRow(schema, id, movie, primary);
    MoviesByGenreInsertRow(schema, id, movie, byGenre);
    BuildersShareMetadata(schema, id, id, movie, primary, byGenre);
  }

  /** Writing a record twice with two identifiers submits two different batches: nothing
      deduplicates equal records. */
  lemma NotIdempotent(schema: SchemaMeta, id1: Uuid, id2: Uuid, movie: Movie)
    requires id1 != id2
    requires RecordBatch(schema, id1, movie).Success?
    ensures RecordBatch(schema, id2, movie).Success?
    ensures RecordBatch(schema, id1, movie) != RecordBatch(schema, id2, movie)
  {
    RecordBatchOutcome(schema, id1, movie);
    RecordBatchOutcome(schema, id2, movie);
    RecordBatchShape(schema, id1, movie, RecordBatch(schema, id1, movie).value);
    RecordBatchShape(schema, id2, movie, RecordBatch(schema, id2, movie).value);
  }

  // ---------------------------------------------------------------------------
  // Properties of a run

  /** The i-th submitted batch is the batch of the i-th record, built with the i-th
      identifier: no statement of one record appears in the batch of another. */
  lemma {:induction false} IngestSubmitted(schema: SchemaMeta, movies: seq<Movie>, ids: seq<Uuid>, i: nat)
    requires |ids| == |movies|
    requires i < |Ingest(schema, movies, ids).submitted|
    ensures i < |movies|
    ensures RecordBatch(schema, ids[i], movies[i]) == Success(Ingest(schema, movies, ids).submitted[i])
  {
    if i > 0 {
      IngestSubmitted(schema, movies[1..], ids[1..], i - 1);
    }
  }

  /** A run submits one batch per record until it meets the first record whose batch cannot
      be built; it then stops with that record's error. Without such a record, every record
      is submitted. */
  lemma {:induction false} IngestStops(schema: SchemaMeta, movies: seq<Movie>, ids: seq<Uuid>)
    requires |ids| == |movies|
    ensures |Ingest(schema, movies, ids).submitted| <= |movies|
    ensures Ingest(schema, movies, ids).failure.None? <==> |Ingest(schema, movies, ids).submitted| == |movies|
    ensures var run := Ingest(schema, movies, ids);
      run.failure.Some? ==>
        RecordBatch(schema, ids[|run.submitted|], movies[|run.submitted|]) == Failure(run.failure.value)
  {
    if movies != [] && RecordBatch(schema, ids[0], movies[0]).Success? {
      IngestStops(schema, movies[1..], ids[1..]);
    }
  }

  /** Every submitted batch is a LOGGED pair of statements sharing its record's identifier. */
  lemma IngestPairs(schema: SchemaMeta, movies: seq<Movie>, ids: seq<Uuid>, i: nat)
    requires |ids| == |movies|
    requires i < |Ingest(schema, movies, ids).submitted|
    ensures i < |movies|
    ensures var b := Ingest(schema, movies, ids).submitted[i];
      && b.kind == Logged && |b.statements| == 2
      && Distinct(b.statements[0].columns) && Distinct(b.statements[1].columns)
      && "id" in Row(b.statements[0]) && "movie_id" in Row(b.statements[1])
      && Row(b.statements[0])["id"] == Row(b.statements[1])["movie_id"] == UuidValue(ids[i])
  {
    IngestSubmitted(schema, movies, ids, i);
    RecordBatchShape(schema, ids[i], movies[i], Ingest(schema, movies, ids).submitted[i]);
  }

  /** On a schema declaring the metadata type, a run stops exactly at the first record whose
      release year does not fit `i16`; on one that does not, nothing is submitted at all. */
  lemma IngestUntilYearOutOfRange(schema: SchemaMeta, movies: seq<Movie>, ids: seq<Uuid>)
    requires |ids| == |movies|
    ensures var run := Ingest(schema, movies, ids);
      MetadataResolvable(schema) ==>
        && |run.submitted| <= |movies|
        && (forall j :: 0 <= j < |run.submitted| ==> movies[j].releaseYear <= I16Max)
        && (run.failure.Some? ==>
              |run.submitted| < |movies|
              && run.failure == Some(ReleaseYearOutOfRange(movies[|run.submitted|].releaseYear)))
        && (run.failure.None? <==> forall j :: 0 <= j < |movies| ==> movies[j].releaseYear <= I16Max)
    ensures !MetadataResolvable(schema) && movies != [] ==>
              Ingest(schema, movies, ids).submitted == [] && Ingest(schema, movies, ids).failure.Some?
  {
    var run := Ingest(schema, movies, ids);
    IngestStops(schema, movies, ids);
    forall j | 0 <= j < |run.submitted|
      ensures movies[j].releaseYear <= I16Max
    {
      IngestSubmitted(schema, movies, ids, j);
      RecordBatchOutcome(schema, ids[j], movies[j]);
    }
    if run.failure.Some? {
      var k := |run.submitted|;
      RecordBatchOutcome(schema, ids[k], movies[k]);
      MoviesInsertOutcome(schema, ids[k], movies[k]);
    }
    if movies != [] {
      RecordBatchOutcome(schema, ids[0], movies[0]);
    }
  }

  // ---------------------------------------------------------------------------
  // A worked record

  /** A drama from 2001 running 120 minutes, on a schema declaring the metadata type, yields
      one batch whose two rows share the identifier, the title and the metadata. */
  lemma DramaExample(id: Uuid)
    ensures var schema: SchemaMeta := map[MovieKeyspace := map[MetadataTypeName := MetadataFields]];
      var movie := Movie("drama", "X", "u", 2001, "s", 120);
      var meta := Udt(MetadataTypeName, map[
        "release_year" := Int16(2001), "duration" := Int64(120), "genres" := TextSet({"drama"})]);
      && RecordBatch(schema, id, movie).Success?
      && var b := RecordBatch(schema, id, movie).value;
      && b.kind == Logged && |b.statements| == 2
      && Row(b.statements[0]) == map[
           "id" := UuidValue(id), "title" := Text("X"), "is_original" := Bool(false),
           "synopsis" := Text("s"), "metadata" := meta]
      && Row(b.statements[1]) == map[
           "movie_id" := UuidValue(id), "genre" := Text("drama"), "is_original" := Bool(false),
           "title" := Text("X"), "metadata" := meta]
  {
    var schema: SchemaMeta := map[MovieKeyspace := map[MetadataTypeName := MetadataFields]];
    var movie := Movie("drama", "X", "u", 2001, "s", 120);
    ColumnsDistinct();
    var b := RecordBatch(schema, id, movie).value;
    RowOfFive(b.statements[0]);
    RowOfFive(b.statements[1]);
  }
}
