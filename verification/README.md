# Movies REST service: a Dafny model

This project models the core of a small REST service over a "movies"
collection. It has four parts:

- **The in-memory movie store** (`models/movie.js`). This is a module-level
  array of movie objects. Its model class can list movies (optionally by
  genre), get one by id, create, update and delete.
- **The payload schema** (`schemas/movies.js`). It has one rule per field,
  with a full form for creation and a partial form for patches.
- **The CORS origin decision** of the reusable middleware (`middleware/cors.js`).
- **The stand-alone application** (`app.js`). It has its own copy of the
  origin callback, and route handlers that work directly on their own
  `movies` array.

The files, one module each:

- `js_values.dfy` (`JsValues`): decoded JSON values, plain objects as
  `map<string, Json>`, `undefined` as `Option`, and a thrown `TypeError` as
  `Result.TypeError`. It also holds an ASCII `toLowerCase` and JavaScript
  truthiness of an optional string.
- `schema.dfy` (`Schema`): the field rules, `safeParse` for the full and the
  partial schema, and their characterisation field by field.
- `cors.dfy` (`Cors`): the allow-list decision.
- `store.dfy` (`Store`): the array operations the source uses (`findIndex`,
  `find`, genre `filter`/`find`/`some`, object spread, `splice`), the class
  `MovieModel` holding the `movies` sequence, and the lemmas about them.
- `app.dfy` (`App`): the class `MoviesApp` holding the application's own
  `movies` sequence. Each handler is modelled by the response the client
  receives.

A stored movie is an arbitrary object: the array is loaded from a file, so
nothing forces its shape. A genre search therefore models what JavaScript
does with a malformed movie. `movie.genre.some(...)` throws when `genre` is
missing or is not an array. `g.toLowerCase()` throws on a non-string element
reached before a match. In `app.js` such a throw becomes a 500 response.

The model follows the code in these places:

- `genre` may be an empty array.
- `title` may be the empty string.
- `update` in `models/movie.js` does not store the merged movie (see Findings).
- The application's genre query returns one movie (`find`), not a list.

## Model

| member | source | states |
|---|---|---|
| Schema.IssuesIn | schemas/movies.js:3-31 | every reported issue names a shape key whose rule fails (or that is required and missing), and every such key is reported |
| Schema.NoIssuesIff | schemas/movies.js:3-39 | parsing an object yields no issue exactly when the object satisfies the schema written out field by field (full or partial) |
| Schema.ValidateMovie | schemas/movies.js:33-35 | success iff the body is an object with a string title, an integer year in [1900, 2025], a string director, a positive integer duration, a URL poster, a genre array of listed labels, and a rate in [0, 10] if present; the data has exactly the seven shape keys with the input's values and rate defaulted to 0; a non-object body fails with one NotAnObject issue; on failure the issues are exactly the failing fields |
| Schema.ValidatePartialMovie | schemas/movies.js:37-39 | success iff the body is an object whose present shape fields each obey their rule; the data is the body restricted to the shape keys; on failure the issues are exactly the failing present fields |
| Schema.FullImpliesPartial | schemas/movies.js:33-39 | every body accepted by full validation is accepted by partial validation |
| Schema.EmptyPatchAccepted | schemas/movies.js:37-39 | the empty object is a valid patch and yields the empty patch |
| Schema.MissingTitleIsTheOnlyIssue | schemas/movies.js:4-7 | a body that is complete and well-typed except for a missing title fails, and its issues name only `title` |
| Schema.RuleBoundaries | schemas/movies.js:8-30 | year bounds are inclusive and need a whole number; duration must be a whole number above 0; an empty genre list is valid; labels are case-sensitive; rate bounds are inclusive; title must be a string |
| Schema.ParsedDataHasNoId | schemas/movies.js:3-39 | parsed data never carries an `id` key, so a client cannot choose a movie's id |
| Cors.CorsOrigin | middleware/cors.js:3-17 | the origin is allowed iff it is absent, empty, or exactly one of the four localhost URLs; otherwise it is denied with "No permitido por CORS" |
| Cors.OptionIgnored | middleware/cors.js:9-12 | the decision does not depend on the `acceptedOrigins` option |
| Cors.MatchIsCaseSensitive | middleware/cors.js:12-15 | a different spelling of an accepted origin (upper case, trailing slash) is denied |
| Store.FindIndex | models/movie.js:31 | -1 iff no movie has the id; otherwise the index of a movie with the id, with none before it |
| Store.Find | models/movie.js:17 | nothing iff no movie has the id; otherwise the movie at the first matching index |
| Store.Merge | models/movie.js:35-38 | spread: keys of either object, patch values override, other base values kept |
| Store.NewRecord | models/movie.js:22-25 | the new movie has the payload's keys plus `id`, the payload's values, and the generated id when the payload has none |
| Store.SomeGenre | models/movie.js:10 | decided by order, as `some` stops at the first match: true only if some string element equals the genre ignoring case; false iff all elements are strings and none matches; throws iff a non-string element comes before every matching one (so `["Drama", 1]` answers true for "drama" and `[1, "Drama"]` throws) |
| Store.SomeGenreOrderMatters | models/movie.js:10 | for genre "drama", `["Drama", 1]` answers true (the match stops the search) while `[1, "Drama"]` throws |
| Store.GenreMatch | models/movie.js:10 | throws when `genre` is missing or not an array; otherwise answers exactly what the order-dependent `some` over that array answers, which for an array of strings is whether one equals the genre ignoring case |
| Store.FilterByGenre | models/movie.js:9-11 | succeeds iff no movie's genre test throws; then holds exactly the movies the genre selects, and no more than the array |
| Store.FilterPreservesOrder | models/movie.js:9-11 | the filtered list is the selected movies at strictly increasing positions, and every selected position appears |
| Store.FindByGenre | app.js:40-42 | the first movie that the test does not skip decides: none means no movie, a selected one is returned, one whose test throws makes the search throw |
| Store.FindIsHeadOfFilter | app.js:40-42 | when filtering succeeds, the application's `find` answers the head of the store's filtered list, or nothing when it is empty |
| Store.GenreListedNeverThrows | models/movie.js:9-11 | when every movie has a genre array of strings, neither genre `filter` nor genre `find` throws |
| Store.CreateThenFind | models/movie.js:21-28 | after appending a movie with a fresh id, looking the id up finds that movie, at the last index |
| Store.CreateKeepsIdsUnique | models/movie.js:21-28 | appending a movie with a fresh id keeps ids unique |
| Store.DeleteRemovesId | models/movie.js:43-51 | with unique ids, after removing the first match no movie has the id, so a second delete finds nothing |
| Store.DeleteKeepsIdsUnique | models/movie.js:48 | splicing out one movie keeps ids unique |
| Store.UpdateIsNotStored | models/movie.js:30-41 | after `update`, a lookup still answers the old movie, which differs from the returned one whenever the patch changes a field |
| Store.StoredUpdateThenFind | models/movie.js:30-41 | writing the merged movie back at its index makes a later lookup answer the merged movie |
| Store.MovieModel.constructor | models/movie.js:4 | the store starts with an arbitrary array |
| Store.MovieModel.GetAll | models/movie.js:7-14 | without a truthy genre, the whole array unchanged; with one, the genre filter: it succeeds iff no genre test throws, and it holds exactly the selected movies |
| Store.MovieModel.GetById | models/movie.js:16-19 | nothing iff no movie has the id; otherwise the first movie with it |
| Store.MovieModel.Create | models/movie.js:21-28 | appends exactly one movie, `{ id, ...dataMovie }`, at the end and returns it; earlier movies are unchanged |
| Store.MovieModel.Update | models/movie.js:30-41 | nothing iff the id is unknown; otherwise the first matching movie with every patch field overriding and every other field kept; the array is only read |
| Store.MovieModel.UpdateStored | models/movie.js:30-41 | the corrected update: same answer, and the merged movie replaces the stored one at its index |
| Store.MovieModel.Delete | models/movie.js:43-51 | false and nothing changes for an unknown id; otherwise true, and the movie at the first matching index is removed, the rest keeping their order, length down by one |
| App.OriginCallback | app.js:12-24 | allows exactly absent or empty origins and the four listed ones, and agrees with the middleware's decision whatever list that is given |
| App.MoviesApp.constructor | app.js:4 | the application starts with an arbitrary array |
| App.MoviesApp.GetMovies | app.js:30-47 | without a truthy genre, 200 with the whole array; with one, 200 with the first selected movie, or 200 with an empty body when every movie is skipped, or 500 when a genre test throws first |
| App.MoviesApp.GetMovie | app.js:50-57 | 404 "Movie not found" iff no movie has the id; otherwise 200 with the first movie with it |
| App.MoviesApp.Patch | app.js:60-82 | 400 with exactly the partial validator's (non-empty) issues for an invalid patch, whatever the id; 404 for an unknown id; else 200 with the stored movie and the patch's schema fields spread over it; the array is only read |
| App.MoviesApp.Post | app.js:84-103 | always appends one movie: `{ id, ...data }` with 201 for a valid body; for an invalid body 422 with exactly the validator's (non-empty) issues, and the appended movie is `{ id }` alone |
| App.MoviesApp.PostChecked | app.js:84-103 | the corrected POST: 422 with exactly the validator's (non-empty) issues and no change for an invalid body; otherwise appends a movie with the fresh id that satisfies the full schema (so has a genre array of strings), and answers 201 |
| App.MoviesApp.Delete | app.js:105-116 | 404 and no change for an unknown id; otherwise 200 "Movie deleted", with the first match spliced out and the rest keeping their order |
| App.ValidPostIsGenreListed | app.js:86-97 | a movie created from a valid body has a genre array of strings |
| App.PatchKeepsFullPayload | app.js:60-82 | a movie satisfying the full schema still satisfies it after a patch accepted by the partial schema is spread over it |
| App.FailedPostBreaksGenreSearch | app.js:88-100 | after a failed POST pushed `{ id }` behind movies that a genre skips, a search for that genre throws instead of answering an empty body |

## Left out

- `models/mysql/movie.js`, the relational store: every operation there is SQL
  run by the database, including its transactions. `models/mysql/movie.js` is
  not part of this model.
- `controllers/movies.js`: the HTTP glue over the store. Its status codes
  match the application's handlers, and it has the same missing `return`
  after a 422.
- `utils.js`: loading the JSON file. The initial array is an arbitrary
  constructor argument.
- Express routing, JSON body parsing, `app.listen` and logging. The `cors`
  package itself is left out too: only the origin callbacks are modelled.
- `crypto.randomUUID`: the new id is a parameter. Create and POST require that
  no stored movie already has it.
- The URL check of the schema (`z.string().url()`) is a parameter
  `isUrl: string -> bool` of the validators. WHATWG URL parsing is not
  modelled.
- Zod's error messages and issue paths: a failed parse reports one issue per
  failing field (in schema order), or one `NotAnObject` issue. A genre array
  with several bad elements gives one issue, not one per element.
- The schema follows Zod 3, whose options the source uses: in the partial
  schema an absent `rate` stays absent (no default of 0 is applied).
- `toLowerCase` is modelled for ASCII letters only. Unicode case mapping is
  not modelled.
- Numbers are reals: JavaScript's double precision and rounding are not
  modelled. Only bound checks and integrality are applied to them.
- The `genre` query parameter is modelled as an optional string. A repeated
  parameter or a bracketed one (`?genre[x]=1`), which the query parser turns
  into an array or an object on which `toLowerCase` throws, is not modelled.
- When a handler throws, the model records only the status (500, or the 422
  already sent by POST). The framework's error page, and the closing of the
  connection after the second response of POST, are not modelled.
- The store's operations are `async`; the model gives the value each
  promise settles with. A `TypeError` in `getAll` rejects the promise, and
  what its caller then does is not modelled.
- Every element of the movies file is taken to be an object. A `null` or
  other non-object element, on which `movie.id` and `movie.genre` throw,
  cannot be expressed.
- JavaScript object key order (the order of fields in a JSON response) is
  not modelled: objects are maps.

## Findings

| source | as written | input that shows it | evidently intended | confidence | as-written member | corrected member |
|---|---|---|---|---|---|---|
| app.js:88-100 | after sending 422 for an invalid body, the handler does not return, so it pushes `{ id }` (the spread of `undefined`) into the array | POST with body `{}`, then GET `/movies?genre=Drama` on a store whose other movies are not dramas: the search throws (500) on the pushed movie instead of answering an empty body | return after the 422, leaving the array unchanged | high, not executed | App.MoviesApp.Post, App.FailedPostBreaksGenreSearch | App.MoviesApp.PostChecked |
| models/movie.js:30-41 | `update` builds the merged movie and returns it, but never stores it | PATCH `{ "rate": 9 }` on a stored movie whose rate is 8.8, then get it by id: the answer still has rate 8.8 | write the merged movie back at its index | high, not executed | Store.MovieModel.Update, Store.UpdateIsNotStored | Store.MovieModel.UpdateStored, Store.StoredUpdateThenFind |
