/**
 * `src/models/User.js`: the user repository. The decisions it takes are
 * functions of what the store answers, so they hold for the mock and for a
 * real D1 binding alike; the operations themselves are methods that run
 * those steps against the mock store.
 */
module Users {
  import opened Wrappers
  import opened Text
  import opened Validator
  import opened Database

  /** The `{ username, email, phone }` object passed to `create` and `update`. */
  datatype UserData = UserData(username: Option<string>, email: Option<string>, phone: Option<string>)

  /** JavaScript truthiness of a string field: present and not "". */
  predicate Truthy(v: Option<string>) {
    v.Some? && v.value != []
  }

  /** All three fields are truthy. */
  predicate AllPresent(d: UserData) {
    Truthy(d.username) && Truthy(d.email) && Truthy(d.phone)
  }

  /** A field as a bound parameter: absent becomes `undefined`. */
  function AsValue(v: Option<string>): Value {
    if v.Some? then Str(v.value) else Undefined
  }

  const MissingFields := "Missing required fields: username, email, phone"
  const InvalidEmailFormat := "Invalid email format"
  const InvalidPhoneFormat := "Invalid phone number format"

  /**
   * The checks `create` makes before touching the store
   * (src/models/User.js:18-32): missing fields, then the email pattern, then
   * the phone pattern. The first failing check names the error; None lets the
   * insert go ahead.
   */
  function CreateGate(d: UserData): (r: Option<string>)
    ensures r.None? <==> AllPresent(d) && IsValidEmail(d.email.value) && IsValidPhone(d.phone.value)
    ensures r == Some(MissingFields) <==> !AllPresent(d)
    ensures r == Some(InvalidEmailFormat) <==> AllPresent(d) && !IsValidEmail(d.email.value)
    ensures r == Some(InvalidPhoneFormat) <==>
              AllPresent(d) && IsValidEmail(d.email.value) && !IsValidPhone(d.phone.value)
  {
    if !Truthy(d.username) || !Truthy(d.email) || !Truthy(d.phone) then Some(MissingFields)
    else if !IsValidEmail(d.email.value) then Some(InvalidEmailFormat)
    else if !IsValidPhone(d.phone.value) then Some(InvalidPhoneFormat)
    else None
  }

  const UniqueFailed := "UNIQUE constraint failed"
  const UsernameExists := "Username already exists"
  const EmailExists := "Email already exists"

  /**
   * The `catch` of `create` (src/models/User.js:48-59): a uniqueness failure
   * that mentions `username` or `email` becomes a domain error naming that
   * field, `username` first; every other message passes through unchanged.
   */
  function TranslateFailure(message: string): (r: string)
    ensures r != message ==> Contains(message, UniqueFailed) && (r == UsernameExists || r == EmailExists)
    ensures Contains(message, UniqueFailed) && Contains(message, "username") ==> r == UsernameExists
    ensures (Contains(message, UniqueFailed) && !Contains(message, "username") && Contains(message, "email"))
              ==> r == EmailExists
    ensures !Contains(message, "username") && !Contains(message, "email") ==> r == message
  {
    if Contains(message, UniqueFailed) then
      if Contains(message, "username") then UsernameExists
      else if Contains(message, "email") then EmailExists
      else message
    else message
  }

  /** The messages SQLite gives for the two UNIQUE columns are translated. */
  lemma SqliteUniqueMessages()
    ensures TranslateFailure("UNIQUE constraint failed: Users.username") == UsernameExists
    ensures TranslateFailure("UNIQUE constraint failed: Users.email") == EmailExists
  {
    var m1 := "UNIQUE constraint failed: Users.username";
    var m2 := "UNIQUE constraint failed: Users.email";
    assert OccursAt(m1, UniqueFailed, 0);
    assert OccursAt(m1, "username", 32);
    assert OccursAt(m2, UniqueFailed, 0);
    assert OccursAt(m2, "email", 32);
    assert !Contains(m2, "username") by {
      forall i | 0 <= i <= |m2| ensures !OccursAt(m2, "username", i) {
        if i + 8 <= |m2| {
          assert m2[i..i + 8][0] == m2[i];
          assert m2[i..i + 8][1] == m2[i + 1];
        }
      }
    }
  }

  // ---------------------------------------------------------------------
  // The repository against any store
  // ---------------------------------------------------------------------

  /**
   * `create` given the store's answers: the outcome of the INSERT and the
   * lookup by id that follows it. Both run inside the `try`, so a failure of
   * either goes through `TranslateFailure`.
   */
  function CreateResult(d: UserData, insert: RunOutcome, readBack: Value -> Result<Option<Record>, string>)
    : (r: Result<Option<Record>, string>)
    ensures r.Ok? ==> CreateGate(d).None? && insert.RunOk? && r == readBack(insert.lastRowId)
    ensures r.Err? ==> || CreateGate(d) == Some(r.error)
                       || (CreateGate(d).None? && insert.RunFailed? && r.error == TranslateFailure(insert.message))
                       || (CreateGate(d).None? && insert.RunOk? && readBack(insert.lastRowId).Err?
                           && r.error == TranslateFailure(readBack(insert.lastRowId).error))
  {
    if CreateGate(d).Some? then Err(CreateGate(d).value)
    else if insert.RunFailed? then Err(TranslateFailure(insert.message))
    else
      var found := readBack(insert.lastRowId);
      if found.Err? then Err(TranslateFailure(found.error)) else found
  }

  /**
   * Whatever the store would answer, a failing check decides the outcome, so
   * the store's answers are never consulted.
   */
  lemma CreateChecksComeFirst(d: UserData, insert1: RunOutcome, insert2: RunOutcome,
                              read1: Value -> Result<Option<Record>, string>,
                              read2: Value -> Result<Option<Record>, string>)
    requires CreateGate(d).Some?
    ensures CreateResult(d, insert1, read1) == CreateResult(d, insert2, read2) == Err(CreateGate(d).value)
  {
  }

  /**
   * Once the checks pass, a successful INSERT yields the row read back by its
   * `last_row_id`, a failed one yields its translated message, and a failed
   * read-back, being inside the same `try`, is translated too.
   */
  lemma CreateAfterChecks(d: UserData, insert: RunOutcome, readBack: Value -> Result<Option<Record>, string>)
    requires CreateGate(d).None?
    ensures insert.RunOk? && readBack(insert.lastRowId).Ok? ==>
              CreateResult(d, insert, readBack) == readBack(insert.lastRowId)
    ensures insert.RunFailed? ==> CreateResult(d, insert, readBack) == Err(TranslateFailure(insert.message))
    ensures insert.RunOk? && readBack(insert.lastRowId).Err? ==>
              CreateResult(d, insert, readBack) == Err(TranslateFailure(readBack(insert.lastRowId).error))
  {
  }

  /**
   * `update` given the store's answers (src/models/User.js:136-148): a failed
   * write propagates; otherwise the row is read back by id whether or not the
   * write touched anything.
   */
  function UpdateResult(write: RunOutcome, id: Value, readBack: Value -> Result<Option<Record>, string>)
    : (r: Result<Option<Record>, string>)
    ensures write.RunFailed? ==> r == Err(write.message)
    ensures write.RunOk? ==> r == readBack(id)
  {
    if write.RunFailed? then Err(write.message) else readBack(id)
  }

  /**
   * `delete` given the store's answer (src/models/User.js:154-161): true
   * exactly when the statement reported some changed row.
   */
  function DeleteResult(outcome: RunOutcome): (r: Result<bool, string>)
    ensures r == Ok(true) <==> outcome.RunOk? && outcome.changes > 0
    ensures r == Ok(false) <==> outcome.RunOk? && outcome.changes <= 0
    ensures r.Err? <==> outcome.RunFailed?
  {
    if outcome.RunFailed? then Err(outcome.message) else Ok(outcome.changes > 0)
  }

  /** `findAll` given `result.results` (src/models/User.js:93-94): absent means empty. */
  function FindAllResult(results: Option<seq<Record>>): (r: seq<Record>)
    ensures results.None? ==> r == []
    ensures results.Some? ==> r == results.value
  {
    if results.Some? then results.value else []
  }

  // ---------------------------------------------------------------------
  // The repository against the mock store
  // ---------------------------------------------------------------------

  /** The mock's `first()` by id, as a read-back function for the results above. */
  function MockReadBack(records: seq<Record>): Value -> Result<Option<Record>, string> {
    (k: Value) => Ok(LookupById(records, k))
  }

  /**
   * `User.findById(id)` (src/models/User.js:66-79): the first record whose id
   * is `id`, or null.
   */
  method FindById(db: MockDatabase, id: Value) returns (r: Option<Record>)
    ensures r == LookupById(db.records, id)
  {
    r := db.First(Bound(SelectWhere(ById), [id]));
  }

  /**
   * `User.findByEmail(email)` (src/models/User.js:101-112): the mock compares
   * the email with the ids, so a string email never finds a row.
   */
  method FindByEmail(db: MockDatabase, email: Value) returns (r: Option<Record>)
    ensures r == LookupById(db.records, email)
    ensures email.Str? ==> r == None
  {
    r := db.First(Bound(SelectWhere(ByEmail), [email]));
    if email.Str? {
      NonNumberFindsNothing(db.records, email);
    }
  }

  /**
   * `User.findByUsername(username)` (src/models/User.js:118-129): as for email,
   * a string username never finds a row in the mock.
   */
  method FindByUsername(db: MockDatabase, username: Value) returns (r: Option<Record>)
    ensures r == LookupById(db.records, username)
    ensures username.Str? ==> r == None
  {
    r := db.First(Bound(SelectWhere(ByUsername), [username]));
    if username.Str? {
      NonNumberFindsNothing(db.records, username);
    }
  }

  /**
   * `User.findAll()` (src/models/User.js:84-95): every record, in insertion
   * order (the mock ignores `ORDER BY`).
   */
  method FindAll(db: MockDatabase) returns (r: seq<Record>)
    ensures r == db.records
  {
    var results := db.All(Unbound(SelectAll));
    r := FindAllResult(Some(results));
  }

  /**
   * `User.create(data)` (src/models/User.js:13-60) on the mock. A failing
   * check leaves the store as it was. Otherwise exactly one record is
   * appended, with the next id and the given username, email and phone, and
   * that record is what `create` returns.
   */
  method Create(db: MockDatabase, d: UserData, now: string) returns (r: Result<Option<Record>, string>)
    requires db.Valid()
    modifies db
    ensures db.Valid()
    ensures r == CreateResult(d, RunEffect(old(db.State()), Bound(Insert, [AsValue(d.username), AsValue(d.email), AsValue(d.phone)]), now).1,
                              MockReadBack(db.records))
    ensures CreateGate(d).Some? ==> r == Err(CreateGate(d).value) && db.State() == old(db.State())
    ensures CreateGate(d).None? ==>
              var row := Record(old(db.nextId), Str(d.username.value), Str(d.email.value), Str(d.phone.value), now, now);
              && r == Ok(Some(row))
              && db.records == old(db.records) + [row]
              && db.nextId == old(db.nextId) + 1
  {
    var gate := CreateGate(d);
    if gate.Some? {
      return Err(gate.value);
    }
    var ps := [AsValue(d.username), AsValue(d.email), AsValue(d.phone)];
    ghost var before := db.State();
    var outcome := db.Run(Bound(Insert, ps), now);
    match outcome {
      case RunFailed(message) =>
        r := Err(TranslateFailure(message));
      case RunOk(_, lastRowId) =>
        InsertThenFind(before, ps, now);
        var row := FindById(db, lastRowId);
        r := Ok(row);
    }
  }

  /**
   * `User.update(id, data)` (src/models/User.js:136-148) on the mock: the
   * UPDATE changes nothing, and the row is read back by id, so a missing id
   * gives null and an existing one comes back as it was.
   */
  method Update(db: MockDatabase, id: Value, d: UserData, now: string) returns (r: Result<Option<Record>, string>)
    requires db.Valid()
    modifies db
    ensures db.Valid() && db.State() == old(db.State())
    ensures r == UpdateResult(RunOk(0, Undefined), id, MockReadBack(db.records))
    ensures r == Ok(LookupById(db.records, id))
  {
    var outcome := db.Run(Bound(Statement.Update, [AsValue(d.username), AsValue(d.email), AsValue(d.phone), id]), now);
    match outcome {
      case RunFailed(message) =>
        r := Err(message);
      case RunOk(_, _) =>
        var row := FindById(db, id);
        r := Ok(row);
    }
  }

  /**
   * `User.delete(id)` (src/models/User.js:154-161) on the mock: the DELETE
   * reports no changes, so the answer is always false and nothing is removed.
   */
  method Delete(db: MockDatabase, id: Value, now: string) returns (r: Result<bool, string>)
    requires db.Valid()
    modifies db
    ensures db.Valid() && db.State() == old(db.State())
    ensures r == DeleteResult(RunOk(0, Undefined))
    ensures r == Ok(false)
  {
    var outcome := db.Run(Bound(Statement.Delete, [id]), now);
    r := DeleteResult(outcome);
  }
}
