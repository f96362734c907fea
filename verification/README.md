# User service core, modelled in Dafny

This project models the core of a small user-management REST service. The
service runs on Express and uses Cloudflare D1 as its store. It has four
parts:

- **Input validation** (`validator.dfy`). Two string predicates check email
  and phone shapes. The `validateUserData` middleware collects one error per
  bad field, in the order username, email, phone, and either calls `next()`
  or answers 400.
- **The database module** (`database.dfy`). The module-level handle that
  `initializeDatabase` sets and `getDatabase` guards. The in-memory mock
  store that stands in for D1 when there is no binding: a list of records
  and an auto-increment counter behind `prepare`/`bind`/`first`/`all`/`run`.
  The schema bootstrap `initializeSchema`.
- **The user repository** (`users.dfy`):
  - `create`, with its gating checks, INSERT, read-back by `last_row_id`
    and translation of uniqueness failures;
  - `findById`, `findAll`, `findByEmail` and `findByUsername`;
  - `update` and `delete`.

  Each decision is stated as a function of the store's answers, so it holds
  for the mock and for a real store. Each operation is also a method that
  runs against the mock.
- **Error handling** (`error_handler.dfy`). The mapping from a thrown error
  to an HTTP status and JSON envelope, and the 404 handler.

Shared pieces:

- `text.dfy`: JavaScript `String.prototype.trim` (over the ECMAScript
  white-space and line-terminator set), ASCII `toLowerCase` and `includes`.
- `http.dfy`: the JSON response envelope.
- `wrappers.dfy`: `Option` and `Result`.

`user_routes.dfy` uses the trim/lower-case step of `POST /user/add` only to
state what the validator and `create` do together. This includes two quirks
that are reproduced rather than fixed:

- The validator measures the untrimmed username, so a stored username can be
  shorter than 3 characters.
- A phone padded to 10 characters passes the validator but can fall below 10
  once trimmed, and then `create` refuses it.

Mock-specific behaviour is also reproduced:

- Bound `first()` always compares `params[0]` with `id`, so `findByEmail` and
  `findByUsername` find nothing.
- The mock enforces no uniqueness.
- `all()` returns insertion order.
- `update` and `delete` change nothing.
- `initializeSchema` returns false, because the unbound statement has no
  `run`.

The model's imperative parts keep the source's form:

- `MockDatabase` is a class whose `records` and `nextId` fields its `Run`
  method updates. Each method is proved against a specification function
  (`RunEffect`, `FirstAnswer`) whose properties are lemmas.
- `DatabaseModule` is a class holding the module-level `db` handle.

## Model

| member | source | states |
|---|---|---|
| Validator.IsValidEmail | src/middleware/validator.js:8-11 | accepts exactly the strings matching `^[^\s@]+@[^\s@]+\.[^\s@]+$`, i.e. those with some split into a non-empty `[^\s@]` run, "@", a non-empty run, ".", a non-empty run |
| Validator.EmailPatternIff | src/middleware/validator.js:8-11 | the pattern holds iff the string has no white space, its first "@" is not at the start, no further "@" follows, and after it comes a "." with a character on each side (exactly one "@") |
| Validator.EmailPatternHasShape | src/middleware/validator.js:9 | any split matching the pattern places its "@" at the only "@" of the string, with no white space anywhere |
| Validator.EmailShapeMatchesPattern | src/middleware/validator.js:9 | a string of that shape has a split matching the pattern |
| Validator.ValidEmailHasNoWhitespace | src/middleware/validator.js:9 | a valid email is non-empty and contains no white space |
| Validator.IndexOf | src/middleware/validator.js:9 | the returned index is the first occurrence of the character, or the length when it is absent |
| Validator.IsValidPhone | src/middleware/validator.js:16-19 | true iff the length is 10 to 20 and every character is a digit, `+`, `-`, `(`, `)` or space |
| Validator.AllPhoneChars | src/middleware/validator.js:17 | true iff every character is in `[0-9+\-() ]` |
| Validator.UsernameError | src/middleware/validator.js:29-33 | any error it gives is about the username field |
| Validator.EmailError | src/middleware/validator.js:36-40 | any error it gives is about the email field |
| Validator.PhoneError | src/middleware/validator.js:43-47 | any error it gives is about the phone field |
| Validator.Validate | src/middleware/validator.js:26-47 | at most three errors, in strictly increasing field order username, email, phone (so at most one per field) |
| Validator.PushedInOrder | src/middleware/validator.js:26-47 | three per-field verdicts pushed in checking order give an ordered list in which each field's entry is that field's verdict |
| Validator.ValidateReportsEachField | src/middleware/validator.js:28-47 | the entry for each field in the list is exactly what that field's own check decided, independent of the other fields |
| Validator.ErrorForAppend | src/middleware/validator.js:30 | looking a field up in a concatenation finds it in the first part when it is there, else in the second |
| Validator.BlankFieldIsRequired | src/middleware/validator.js:29-47 | a missing or all-white-space field gets its "required" error and never its length or format error |
| Validator.UsernameAcceptedIff | src/middleware/validator.js:31-32 | a non-blank username passes iff its untrimmed length is in [3, 50] |
| Validator.ValidateEmptyIff | src/middleware/validator.js:28-50 | the list is empty iff every field is non-blank and passes its length or format check |
| Validator.ValidateUserData | src/middleware/validator.js:24-60 | `next()` exactly when the list is empty; otherwise 400, success false, "Validation failed" and one `{field, message}` per error, in order |
| Text.Trim | src/middleware/validator.js:29 | the result is the input without leading and trailing white space, begins and ends with non-white space, and is empty iff the input is all white space |
| Text.SkipForward | src/middleware/validator.js:29 | the index reached is after a run of white space and is at the end or at a non-white-space character |
| Text.SkipBackward | src/middleware/validator.js:29 | the index reached is before a run of white space and is at the lower bound or after a non-white-space character |
| Text.TrimUnpadded | src/routes/userRoutes.js:18-20 | trimming a string that neither begins nor ends with white space returns it unchanged |
| Text.TrimNoWhitespace | src/routes/userRoutes.js:19 | trimming a string with no white space at all returns it unchanged |
| Text.TrimDropsTrailing | src/routes/userRoutes.js:18-20 | trimming an unpadded string followed by white space gives back the unpadded string |
| Text.ToLower | src/routes/userRoutes.js:19 | same length, each character lower-cased on its own |
| Database.FirstMatch | src/config/database.js:52 | the index of the first record whose id strictly equals the key, or the length when there is none |
| Database.LookupById | src/config/database.js:52 | a record is found iff some record's id equals the key, and the one found is in the store and has that id |
| Database.NonNumberFindsNothing | src/config/database.js:52 | a key that is not a number never finds a record (strict equality) |
| Database.IdsDistinct | src/config/database.js:41-71 | in a well-numbered store all ids differ |
| Database.InsertAppendsOne | src/config/database.js:62-78 | an INSERT appends exactly one record with `id = nextId` and the three bound params, keeps the old records, increments `nextId`, reports `changes = 1` and `last_row_id` = that id, which exceeds every stored id |
| Database.RunKeepsNumbering | src/config/database.js:41-71 | every `run` keeps ids positive, strictly increasing and below `nextId`, and never decreases `nextId` (ids are never reused) |
| Database.OtherRunChangesNothing | src/config/database.js:60-90 | a `run` other than a bound INSERT leaves the store unchanged; bound it reports `changes = 0`, unbound it fails |
| Database.InsertThenFind | src/config/database.js:50-78 | looking up the `last_row_id` an INSERT reports finds exactly the record it appended |
| Database.FirstAnswer | src/config/database.js:48-86 | what `first()` answers: any record returned is in the store; a bound statement other than SELECT…WHERE gives null; a bound SELECT…WHERE finds a record iff some id equals `params[0]`, and that record has that id; unbound gives null iff the store is empty |
| Database.RunEffect | src/config/database.js:60-90 | what `run()` does: the old records stay as a prefix and at most one record is added; it fails iff the statement is unbound; the reported `changes` equals the number of records added, and `nextId` grows by the same number |
| Database.MockDatabase.constructor | src/config/database.js:39-41 | a new mock holds no records and its counter starts at 1 |
| Database.MockDatabase.First | src/config/database.js:48-86 | bound SELECT…WHERE gives the first record whose id equals `params[0]`, else null; other bound statements give null; unbound gives the first record or null |
| Database.MockDatabase.All | src/config/database.js:56-89 | bound or unbound, every record in insertion order |
| Database.MockDatabase.Run | src/config/database.js:60-90 | the new state and the outcome are those of `RunEffect` on the old state, and the numbering invariant is kept |
| Database.DatabaseModule.constructor | src/config/database.js:6 | the handle starts out unset |
| Database.DatabaseModule.InitializeDatabase | src/config/database.js:12-23 | the mock is chosen iff `env` or `env.agenticdb` is absent, is fresh and empty; otherwise the D1 binding is stored; the stored handle is returned |
| Database.DatabaseModule.GetDatabase | src/config/database.js:28-33 | fails with "Database not initialized…" iff no handle is set; otherwise returns the stored handle |
| Database.DatabaseModule.InitializeSchema | src/config/database.js:99-121 | uninitialised: the getDatabase error; mock: false with the store unchanged; D1: whether the CREATE TABLE `run` succeeded |
| Users.CreateGate | src/models/User.js:18-32 | none of the checks fails iff all fields are truthy, the email is valid and the phone is valid; "Missing required fields…" iff a field is empty or absent; "Invalid email format" iff the fields are present and the email is invalid; "Invalid phone number format" iff only the phone is invalid |
| Users.TranslateFailure | src/models/User.js:48-59 | a changed message implies a uniqueness failure; a uniqueness failure naming `username` becomes "Username already exists" (username wins); otherwise one naming `email` becomes "Email already exists"; any other message, including a uniqueness failure naming neither, is rethrown unchanged |
| Users.SqliteUniqueMessages | src/models/User.js:50-56 | SQLite's uniqueness messages for the two UNIQUE columns become "Username already exists" and "Email already exists" |
| Users.CreateChecksComeFirst | src/models/User.js:18-34 | whatever the store would answer, a failing check alone decides the outcome of `create` |
| Users.CreateResult | src/models/User.js:13-60 | `create` against any store: success only when every check passed and the insert succeeded, and then it is the read-back of the reported `last_row_id`; an error is the failing check's message, or the translated message of a failed insert or of a failed read-back (see `CreateChecksComeFirst` and `CreateAfterChecks`) |
| Users.CreateAfterChecks | src/models/User.js:34-58 | once the checks pass, a successful insert yields the row read back by its `last_row_id`; a failed insert yields its translated message; a failed read-back, inside the same `try`, yields its translated message too |
| Users.UpdateResult | src/models/User.js:136-148 | a failed write propagates; otherwise the result is the read-back by id, so a missing id gives null, not an error |
| Users.DeleteResult | src/models/User.js:154-161 | true iff the statement reported `changes > 0`, false iff it reported none, an error iff it failed |
| Users.FindAllResult | src/models/User.js:93-94 | absent `results` give the empty list, otherwise the results themselves |
| Users.FindById | src/models/User.js:66-79 | the first stored record whose id equals the argument, or null |
| Users.FindByEmail | src/models/User.js:101-112 | in the mock, the lookup compares against ids, so a string email always gives null |
| Users.FindByUsername | src/models/User.js:118-129 | in the mock, a string username always gives null |
| Users.FindAll | src/models/User.js:84-95 | in the mock, every record in insertion order |
| Users.Create | src/models/User.js:13-60 | a failing check returns its error and leaves the store unchanged; otherwise exactly one record with the next id and the given fields is appended and returned |
| Users.Update | src/models/User.js:136-148 | in the mock, the store is unchanged and the result is the current row with that id, or null |
| Users.Delete | src/models/User.js:154-161 | in the mock, the store is unchanged and the result is always false |
| ErrorHandler.ValidationEntries | src/middleware/errorHandler.js:14-17 | one `{field: path, message}` per inner error, same order and count |
| ErrorHandler.DuplicateEntries | src/middleware/errorHandler.js:28-31 | one `{field: path, message: "<path> already exists"}` per inner error, same order and count |
| ErrorHandler.HandleError | src/middleware/errorHandler.js:9-64 | success is always false; validation gives 400 with the entries; uniqueness gives 409 with "already exists" entries; database gives 500 and connection gives 503, each echoing the message; anything else gets a truthy `err.status` else 500, its message else "Internal server error", and a stack only in development |
| ErrorHandler.NotFound | src/middleware/errorHandler.js:69-75 | 404, success false, "Route not found" and the requested path echoed |
| UserRoutes.LowerCharKeepsClass | src/routes/userRoutes.js:19 | lower-casing a character keeps it in or out of `[^\s@]` and keeps "." and "@" |
| UserRoutes.LowerKeepsEmailValid | src/routes/userRoutes.js:19 | lower-casing a valid email keeps it valid |
| UserRoutes.AllEmailPartSlice | src/routes/userRoutes.js:19 | a slice of `[^\s@]` characters stays so when each character keeps its class |
| UserRoutes.NormalisedEmailValid | src/routes/userRoutes.js:19 | the trimmed, lower-cased form of a valid email is its lower-cased form, non-empty and valid |
| UserRoutes.TrimmedPhone | src/routes/userRoutes.js:20 | a valid, non-blank phone stays valid after trimming iff at least 10 characters remain |
| UserRoutes.ValidatedBodyMeetsCreateChecks | src/routes/userRoutes.js:12-21 | a body the validator accepts, once normalised, passes `create`'s field and email checks; it reaches the insert iff its trimmed phone has at least 10 characters, else gets "Invalid phone number format" |
| UserRoutes.NormalisedGate | src/routes/userRoutes.js:17-21 | for normalised non-blank fields with a valid email and phone, only the phone check can fail, exactly when fewer than 10 characters remain |
| UserRoutes.NormalisedFields | src/routes/userRoutes.js:17-21 | the normalised fields are all present, the email is valid, and the phone is valid iff its trimmed length is at least 10 |
| UserRoutes.GateAfterEmailCheck | src/models/User.js:18-32 | with all fields present and the email valid, `create`'s gate fails only with the phone error, exactly when the phone is invalid |
| UserRoutes.PaddedUsernamePassesValidation | src/middleware/validator.js:31 | a username padded with trailing white space to 3-50 characters passes the validator, while the trimmed username stored is the unpadded core, however short |
| UserRoutes.PaddedPhonePassesValidation | src/middleware/validator.js:45 | a phone padded with trailing spaces to 10-20 characters passes the validator, while the phone handed to `create` is the unpadded core |
| UserRoutes.CreateTwiceInFreshMock | src/config/database.js:62-78 | creating the same user twice in a fresh mock stores it twice, as ids 1 and 2: the mock enforces no uniqueness |

## Left out

- `server.js` and `src/models/index.js` are not part of this model. They are Express and Cloudflare bootstrap plus wiring that calls `initializeDatabase` then `initializeSchema`, both of which are modelled.
- The Express routing and response shaping of `src/routes/userRoutes.js` are left out. This includes the `isNaN`/`parseInt` id check. Only the trim/lower-case step of `POST /user/add` is modelled.
- Real D1 and SQL semantics (UNIQUE enforcement, `ORDER BY createdAt DESC`, `datetime('now')`, `CREATE TABLE IF NOT EXISTS`) are left out. A real store's answers are parameters: the `RunOutcome` of an insert, update or delete, and a read-back function.
- Timestamps are a single `now` parameter, used for both `createdAt` and `updatedAt`. `console` output, `async`/`await` and `process.env` are left out. The development environment is a boolean parameter.
- The repository methods take the mock store directly instead of calling `getDatabase()`. The "Database not initialized" error those calls would throw first is modelled only in `DatabaseModule.GetDatabase` and `InitializeSchema`.
- SQL text is modelled as a `Statement` datatype, not as substring tests. A statement is read as the mock reads it: "INSERT" is an insert, "SELECT" together with "WHERE" is a keyed select, anything else is neither.
- `all()` returns the live `mockData` array. Aliasing between that array and later inserts is not modelled: the model returns the record sequence as a value.
- Request-body fields are modelled as absent or strings. Non-string values, and the TypeError `trim` would raise on them, are left out.
- Text.ToLower: lower-cases ASCII letters only, because full Unicode case mapping is not modelled. `LowerKeepsEmailValid` proves that an email stays valid under this ASCII lowering only. JavaScript's full `toLowerCase` can change a string's length (U+0130 becomes two characters) and is not covered.
- String length is counted in characters, not UTF-16 code units, so surrogate pairs count once.
- ErrorHandler.HandleError: on a classified error, `err.errors` is assumed to be a list. The TypeError that `map` raises when it is absent is not modelled. An invalid HTTP status passed to `res.status` is not modelled either.
