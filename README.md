# Dual-write row builder of the movie catalog loader

The loader reads movie records and writes each one into two tables of a wide-column store:
`movie.movies` keyed by a generated identifier, and `movie.movies_by_genre` keyed by
genre and the same identifier. For every record it builds two parameter-bound insert
statements, each embedding a nested `metadata` value (a user-defined type resolved by name
from the schema snapshot, with fields `release_year`, `duration` and `genres`), places both
in a fresh LOGGED batch and submits the batch.

This project models that path in Dafny:

- `results.dfy` (`Results`): Option and Result types; every `unwrap()` inside the two
  statement builders that can panic becomes a `Failure`.
- `ints.dfy` (`Ints`): `u16`, `i16` and `i64` as integer ranges, the fallible narrowing
  `u16 -> i16` (`try_into`) and the lossless widening `u16 -> i64` (`into`).
- `driver.dfy` (`Driver`): what the loader uses of the database driver. Statements,
  user-type values, set collections and batches are mutable classes, filled by `Bind`,
  `SetByName`, `AppendString` and `AddStatement` as the loader fills them. The schema
  snapshot is a map from keyspace to user-type name to field names.
- `queries.dfy` (`Queries`): the `Movie` record and the two builders. Each builder is a
  method over the driver classes, proved equal to a value-level definition
  (`MoviesInsert`, `MoviesByGenreInsert`). Lemmas say what those statements mean: the row
  each writes (`Row`, column name to value), the decoded metadata (`DecodeMetadata`), and
  exactly when building fails.
- `loader.dfy` (`Loader`): one loop iteration (`WriteMovie`, specified by `RecordBatch`)
  and the whole loop (`Load`, specified by `Ingest`), with lemmas about the submitted
  batches.

Identifiers are an input, one per record. The submitted batches are returned as a
sequence, in submission order.

Points worth knowing about the loader's code, all of which the model follows:

- The metadata value is built twice, once inside each builder, not once per record.
  `BuildersShareMetadata` proves the two copies are equal.
- The batch order is fixed: the `movies` insert comes first, then the `movies_by_genre`
  insert.
- A failure does not return an error to a caller that then goes on. It is a panic that
  ends the run, so `Ingest` stops at the first record that fails.
- The trailer is parsed but written to neither table (`UnwrittenFields`).
- A release year above 32767 is reported before any field name of the metadata type is
  looked up. This is because `try_into().unwrap()` runs before `set_int16_by_name`.

## Model

| member | source | states |
|---|---|---|
| `Driver.Statement.constructor` | server/src/main.rs:37-38 | a new statement has the table and column list of its insert text, with nothing bound |
| `Driver.Statement.Bind` | server/src/main.rs:40-43 | binding succeeds exactly when the index has a parameter, and then sets only that position |
| `Driver.UserType.constructor` | server/src/main.rs:45 | a new value of the resolved user type has no field set |
| `Driver.UserType.SetByName` | server/src/main.rs:46-54 | setting a field succeeds exactly when the type declares that field name, and then sets only that field |
| `Driver.CollectionSet.AppendString` | server/src/main.rs:52-53 | appending to the fresh set collection adds exactly that string |
| `Driver.CollectionSet.constructor` | server/src/main.rs:52 | `Set::new()` gives an empty collection, with no elements |
| `Ints.TryIntoI16` | server/src/main.rs:47 | the narrowing to `i16` succeeds exactly when the value lies in -32768..32767 and then keeps the value; for a `u16` it fails exactly above 32767 |
| `Ints.IntoI64` | server/src/main.rs:50 | the widening of a `u16` to `i64` is total and keeps the value |
| `Queries.MetadataType` | server/src/main.rs:25-26 | resolving `metadata` in keyspace `movie` succeeds exactly when both are declared, and gives that type's declared field names; a missing keyspace or a missing type gives its own error |
| `Driver.Batch.constructor` | server/src/main.rs:146 | a new batch has the requested kind and no statements |
| `Driver.Batch.AddStatement` | server/src/main.rs:150-152 | adding a statement appends the statement's contents at the time it is added after the earlier ones; whether the driver copies or references the statement cannot be observed, since the loader never changes a statement after adding it |
| `Queries.NewMetadata` | server/src/main.rs:45-54 | the metadata value built field by field equals `MetadataValue`, including which error stops it |
| `Queries.InsertIntoMovies` | server/src/main.rs:24-59 | the statement built position by position equals `MoviesInsert`, and every bind-by-index `unwrap()` is proved never to panic |
| `Queries.InsertIntoMoviesByGenre` | server/src/main.rs:61-100 | the statement built position by position equals `MoviesByGenreInsert`, and every bind-by-index `unwrap()` is proved never to panic |
| `Queries.ColumnsDistinct` | server/src/main.rs:38 | each insert's column list has no repeated column |
| `Queries.MetadataValueSpec` | server/src/main.rs:45-54 | the nested value is built exactly when the year fits `i16` and the type declares all three fields; a year above 32767 fails first with a range error; once built it sets exactly the three fields `release_year`, `duration` and `genres` and decodes to the same year, the duration unchanged by widening, and exactly `{genre}` |
| `Queries.MoviesInsertOutcome` | server/src/main.rs:25-54 | building succeeds exactly when keyspace `movie` declares `metadata` with all three fields and the year is at most 32767; a missing keyspace, type or field gives a schema error; a resolvable type with a year above 32767 gives the range error |
| `Queries.BuildersFailTogether` | server/src/main.rs:61-97 | the two builders fail on the same inputs with the same error, whatever identifiers they get |
| `Queries.MoviesInsertRow` | server/src/main.rs:37-56 | the `movies` insert binds every parameter and nothing more; its row holds exactly id, title, `is_original = false`, synopsis and metadata, with the given id, the record's title and synopsis, and metadata that sets exactly its three fields and decodes to (year, duration, {genre}) |
| `Queries.MoviesByGenreInsertRow` | server/src/main.rs:77-97 | the `movies_by_genre` insert binds every parameter and nothing more; its row holds exactly movie_id, genre, `is_original = false`, title and metadata, with the given id and metadata that sets exactly its three fields and decodes to (year, duration, {genre}); there is no synopsis or trailer column |
| `Queries.BuildersShareMetadata` | server/src/main.rs:86-97 | both statements built for one record carry the identical metadata value |
| `Queries.UnwrittenFields` | server/src/main.rs:28-35 | the trailer affects neither statement, and the synopsis does not affect the `movies_by_genre` insert |
| `Loader.WriteMovie` | server/src/main.rs:146-152 | one loop iteration yields exactly `RecordBatch`: a fresh LOGGED batch with the two statements built with the same id, or the builder's error |
| `Loader.Load` | server/src/main.rs:145-154 | the loop submits exactly the batches `Ingest` lists and stops with the error `Ingest` gives |
| `Loader.RecordBatchOutcome` | server/src/main.rs:149-152 | a record's batch exists exactly when the schema resolves and the year fits `i16`; otherwise the error is the first builder's, and no half-filled batch is submitted |
| `Loader.RecordBatchShape` | server/src/main.rs:146-152 | a record's batch is LOGGED with exactly two statements, `movies` then `movies_by_genre`, sharing the id (as `id` and `movie_id`), the title and the metadata |
| `Loader.NotIdempotent` | server/src/main.rs:148-152 | the same record written with two different ids gives two different batches |
| `Loader.IngestSubmitted` | server/src/main.rs:145-154 | the i-th submitted batch is exactly the batch of the i-th record with the i-th id, so no statement carries over between records |
| `Loader.IngestStops` | server/src/main.rs:145-154 | a run submits one batch per record up to the first failing record, then stops with that record's error; with no failure every record is submitted |
| `Loader.IngestPairs` | server/src/main.rs:146-152 | every submitted batch is a LOGGED pair whose two statements carry that record's id |
| `Loader.IngestUntilYearOutOfRange` | server/src/main.rs:145-154 | on a resolvable schema every submitted year fits, a stop is the range error of the next record, and the run fails exactly when some record has a year above 32767; on a schema without the metadata type nothing is submitted |
| `Loader.DramaExample` | server/src/main.rs:145-152 | a drama from 2001 running 120 minutes yields the two expected rows, with `is_original = false` and metadata (2001, 120, {"drama"}) |

## Left out

- Cluster connection, credentials, reconnect policy and load balancing (server/src/main.rs:125-133): driver configuration and network I/O.
- Reading and deserialising the CSV file (server/src/main.rs:136-147): file I/O and a foreign parser. The ingest loop runs only when a fourth command-line argument is given (server/src/main.rs:135); the model starts at the loop. The input is a given sequence of parsed `Movie` records. A record that fails to parse, which panics in the source, is not modelled.
- Loader.Load: assumes every `execute_batch` succeeds. In the source a failed submission panics and ends the run (server/src/main.rs:153). Submission is modelled as appending the batch to the returned sequence. The all-or-nothing application of a LOGGED batch belongs to the database.
- Identifier generation (server/src/main.rs:143, 148): random and library-provided. Identifiers are an input, one per record, and nothing is claimed about their distinctness.
- `get_movies_by_genre` (server/src/main.rs:14-22) and the SELECT and print block (server/src/main.rs:157-165): unused code, and read-back I/O with terminal output.
- `load_config` (server/src/main.rs:169-188): unused, and does file I/O and PEM parsing.
- Driver internals: the statement text, the wire encoding and server-side type checking.
  - A bound value is not checked against its column's type.
  - A field value is not checked against the field's declared type. The schema records only field names.
- The keyspace lookup (server/src/main.rs:25, 66) is not checked in the source. The model treats a missing keyspace as a failure of the same kind as a missing user type.
- Driver.Batch.AddStatement and Driver.CollectionSet.AppendString: modelled as never failing, because the driver accepts any statement into a batch and any string into an untyped collection. Their `unwrap()` calls (server/src/main.rs:53, 94, 150, 152) therefore never panic in the model.
