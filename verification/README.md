# QuizRush leaderboard handler, modelled in Dafny

This project models the serverless leaderboard endpoint of QuizRush
(`api/api/leaderboard.js`). The endpoint reads the top scores (GET) and
records a score submission together with the player's achievements (POST)
in a Supabase database.

What is modelled:

- the sanitizers, as pure functions with lemmas (`sanitize.dfy`):
  - the `limit` of a read: defaults to 10, capped at 50;
  - the player name: trimmed, cut to 30 characters, `"Guest"` when empty;
  - the 400 guard on `score`;
  - the coercion of `stage` to 1 and of `totalCorrect` to 0;
  - the cleaning of `achievements`: trim each element, drop the empty ones.
- the JavaScript built-ins these rely on (`jsvalues.dfy`):
  - the shapes a numeric field can take;
  - `Number.isInteger` and the `< 0` comparison;
  - `String.prototype.trim` with the ECMAScript whitespace set, characterised by lemmas;
  - `slice(0, n)`.
- the handlers, as methods (`leaderboard.dfy`):
  - `Handler`, `HandleGetLeaderboard` and `HandlePostScore` change a `Response` object (status, headers, body);
  - they call a `Supabase` client object. Its outcome for each kind of call is fixed when it is built, and it logs every call it gets.
  - Each handler is proved against specification functions. `GetReply`, `PostReply` and `PostCalls` give the reply and the calls for any request and any backend outcome. Lemmas about those functions state the handler's guarantees.

The Supabase library (`createClient` and its query builder), the process
environment and logging are not modelled; the `Supabase` class stands in
for the client the library returns.
"Client available" is whether the `db` argument is null.
A backend call has three possible outcomes: a result, an `error` field in
the result, or an exception. An exception reaches the handler's
`catch` and gives 500 `Unexpected server error`.

Two consequences of the code as written:

- The guard at `api/api/leaderboard.js:95` has no finiteness check, so a
  score of `+Infinity` is accepted.
- The name is trimmed before it is cut to 30 characters, so a cut inside a
  long name can leave whitespace at its end
  (`Sanitize.SanitizedNameMayEndInWhitespace`).

## Model

| member | source | states |
|---|---|---|
| `JsValues.Slice` | api/api/leaderboard.js:93 | `slice(0, n)` returns a prefix of the string, of length min(length, n) |
| `JsValues.TrimStartSplit` | api/api/leaderboard.js:93 | trimming the start removes exactly a whitespace prefix; what is left is empty or starts with non-whitespace |
| `JsValues.TrimEndSplit` | api/api/leaderboard.js:93 | trimming the end removes exactly a whitespace suffix; what is left is empty or ends with non-whitespace |
| `JsValues.TrimSplit` | api/api/leaderboard.js:93 | `trim` keeps one contiguous slice of its input, with only whitespace on either side of it, and that slice is trimmed |
| `JsValues.TrimProperties` | api/api/leaderboard.js:106 | the result of `trim` is trimmed and no longer than the input; it is empty exactly when the input is all whitespace |
| `JsValues.TrimStartSkips` | api/api/leaderboard.js:106 | trimming the start of whitespace followed by text that starts with non-whitespace gives that text |
| `JsValues.TrimEndSkips` | api/api/leaderboard.js:106 | trimming the end of text that ends with non-whitespace followed by whitespace gives that text |
| `JsValues.TrimFrame` | api/api/leaderboard.js:106 | trimmed text between two whitespace runs is exactly what `trim` returns, so `trim` is uniquely determined |
| `JsValues.TrimOfTrimmed` | api/api/leaderboard.js:106 | `trim` is the identity on trimmed text, hence idempotent |
| `Sanitize.EffectiveLimit` | api/api/leaderboard.js:47-49 | the limit lies in 1..50; it is 10 exactly when the parsed value is NaN, non-positive or 10; it is 50 exactly when the parsed value is at least 50; it is the parsed value itself when that lies in 1..50 |
| `Sanitize.NormalizeLimit` | api/api/leaderboard.js:46-49 | the step-by-step limit computation gives 1..50: 10 for NaN or ≤ 0, 50 above 50, the value itself otherwise |
| `Sanitize.SanitizeName` | api/api/leaderboard.js:93 | the name has 1..30 characters and starts with non-whitespace; it is `"Guest"` when the input is absent, falsy or all whitespace; otherwise it is the first min(30, length) characters of the trimmed input |
| `Sanitize.SanitizeNameKeepsCleanName` | api/api/leaderboard.js:93 | a trimmed, non-empty name of at most 30 characters is stored unchanged |
| `Sanitize.SanitizedNameMayEndInWhitespace` | api/api/leaderboard.js:93 | a 31-character name whose 30th character is a space is stored ending in a space, and sanitizing the stored name again changes it |
| `Sanitize.ScoreAcceptedExactly` | api/api/leaderboard.js:95-97 | a score passes the guard exactly when it is a non-negative finite number or +Infinity |
| `Sanitize.SafeStage` | api/api/leaderboard.js:99-100 | the stage is at least 1; it equals the input when the input is a positive integer, and is 1 otherwise |
| `Sanitize.SafeTotalCorrect` | api/api/leaderboard.js:101-102 | the total is at least 0; it equals the input when the input is a non-negative integer, and is 0 otherwise |
| `Sanitize.TrimEach` | api/api/leaderboard.js:106 | the trimming map keeps the number of elements; each element is the trim of the element at the same position, and is trimmed |
| `Sanitize.DropEmpty` | api/api/leaderboard.js:107 | the filter never lengthens the list; it keeps no empty string; a string is kept exactly when it is in the input and non-empty |
| `Sanitize.DropEmptyAppend` | api/api/leaderboard.js:107 | the filter keeps order: it distributes over concatenation |
| `Sanitize.CleanAchievements` | api/api/leaderboard.js:104-108 | a non-array gives the empty list; an array gives no more ids than it has elements |
| `Sanitize.CleanAchievementsProperties` | api/api/leaderboard.js:104-108 | every cleaned id is non-empty and trimmed; a string is an id exactly when it is the non-empty trim of some element |
| `Sanitize.CleanAchievementsAppend` | api/api/leaderboard.js:104-108 | cleaning keeps the original order: it distributes over concatenation |
| `Sanitize.CleanAchievementsSingle` | api/api/leaderboard.js:106-107 | one element gives its trim, or nothing when it trims to the empty string |
| `Sanitize.CleanAchievementsKeepsDuplicates` | api/api/leaderboard.js:104-108 | n copies of an id give n copies of its trim: duplicates are not removed |
| `Sanitize.Validate` | api/api/leaderboard.js:92-108 | a row is produced exactly when the score passes the guard; that row keeps the score, takes its name, stage, total and ids from `SanitizeName`, `SafeStage`, `SafeTotalCorrect` and `CleanAchievements`, and satisfies the entry invariant (name of 1..30 characters, stage ≥ 1, total ≥ 0, ids non-empty and trimmed) |
| `Sanitize.AchievementRows` | api/api/leaderboard.js:132-135 | one row per id, in order, each pairing the given name with that id |
| `Leaderboard.GetReplyOutcomes` | api/api/leaderboard.js:58-64 | a read answers 200 exactly when the select succeeded, otherwise 500; a select error gives the fixed message; the rows returned are the rows sent, and no data gives an empty list |
| `Leaderboard.PostRejectsInvalidScore` | api/api/leaderboard.js:95-97 | a rejected score gives 400 with the fixed message and makes no database call |
| `Leaderboard.PostInsertsOneValidEntry` | api/api/leaderboard.js:111-121 | an accepted submission's first call inserts the sanitized row, which satisfies the entry invariant; no other call is an insert |
| `Leaderboard.PostOmittedNameIsGuest` | api/api/leaderboard.js:93 | a submission without a player name inserts a row named `"Guest"` |
| `Leaderboard.PostInsertFailureIsFatal` | api/api/leaderboard.js:123-126 | a failed insert gives 500, and the insert is the only call: no upsert is attempted |
| `Leaderboard.PostUpsertRows` | api/api/leaderboard.js:130-142 | after a successful insert, the upsert is attempted exactly when the cleaned ids are non-empty; it sends one row per id, in order, each with the sanitized name |
| `Leaderboard.PostUpsertErrorIsNotFatal` | api/api/leaderboard.js:144-150 | an upsert error leaves the reply unchanged: 201 with the first inserted row |
| `Leaderboard.PostUpsertThrowIsFatalAfterInsert` | api/api/leaderboard.js:137-154 | when the upsert throws after a successful insert, the reply is 500 `Unexpected server error` although the insert was made |
| `Leaderboard.Supabase.Select` | api/api/leaderboard.js:51-56 | a select is logged with its limit and returns the scripted outcome |
| `Leaderboard.Supabase.Insert` | api/api/leaderboard.js:111-121 | an insert is logged with its row and returns the scripted outcome |
| `Leaderboard.Supabase.Upsert` | api/api/leaderboard.js:137-142 | an upsert is logged with its rows and returns the scripted outcome |
| `Leaderboard.Response.SetHeader` | api/api/leaderboard.js:35 | setting a header changes that header only |
| `Leaderboard.Response.Send` | api/api/leaderboard.js:60 | `status(..).json(..)` sets the status and the body; it leaves alone the headers the handler itself sets (the headers `res.json` adds are not modelled) |
| `Leaderboard.HandleGetLeaderboard` | api/api/leaderboard.js:44-69 | exactly one select is made, with the effective limit; the reply is `GetReply` of its outcome; the handler sets no header of its own |
| `Leaderboard.HandlePostScore` | api/api/leaderboard.js:82-155 | the calls made are `PostCalls` and the reply is `PostReply` for the body's fields and the backend's outcomes; the handler sets no header of its own |
| `Leaderboard.Handler` | api/api/leaderboard.js:20-37 | a missing client gives 500 with no call; GET and POST behave as their handlers; any other method gives 405 with `Allow: GET, POST` and no call |

## Left out

- Client construction and the environment variables it reads (`api/api/leaderboard.js:5-18`): modelled only as a null or non-null client.
- What the database does with the calls: the ordering by `score` then `created_at`, the `.limit` applied to the result, and the conflict handling of the upsert. The rows the database returns are opaque inputs.
- `console.error` logging.
- `parseInt` on arbitrary strings: the model starts from its result, an integer or NaN.
- `String(x)` on non-string values. A truthy non-string `playerName` and the elements of `achievements` are taken as already converted to strings. A `toString` that throws is not modelled.
- Holes in a sparse `achievements` array are not modelled (`map` and `filter` skip them).
- UTF-16 code units: strings are sequences of code points. The 30-character cap on the name counts code points in the model but UTF-16 code units in the source. A name of characters outside the Basic Multilingual Plane is therefore cut later in the model than in the source, and a cut that splits a surrogate pair is not modelled.
- Floating-point behaviour of `score`, `stage` and `totalCorrect` beyond the checks the handler makes: numbers are exact reals plus NaN and the two infinities.
- `Response.headers` holds only the headers the handler sets itself (`Allow`). The headers the runtime's `res.json` adds (`content-type`, `content-length`, `etag`) are not modelled, so the handler contracts that keep `headers` unchanged speak only of headers set by the handler's own code.
- Header names are compared as given, not case-insensitively.
- `async`/`await`: each request is handled to completion, one at a time.
- `api/generate.js`, the prompt relay: a pass-through to an external HTTP API with no logic of its own beyond two guards. It is not part of this model.
