/**
 * `src/config/database.js`: the module-level database handle, the in-memory
 * mock that stands in for the D1 binding, and the schema bootstrap.
 */
module Database {
  import opened Wrappers

  /** A JavaScript value bound to a statement or stored in a mock record. */
  datatype Value = Undefined | Null | Num(n: int) | Str(s: string)

  /** One row of the `Users` table as the mock stores it. */
  datatype Record = Record(
    id: int,
    username: Value,
    email: Value,
    phone: Value,
    createdAt: string,
    updatedAt: string)

  /** The column a `SELECT … WHERE` statement filters on. */
  datatype Column = ById | ByEmail | ByUsername

  /**
   * The statements the repository and the bootstrap issue. The mock tells
   * them apart by the keywords in their text: `Insert` contains "INSERT",
   * `SelectWhere` contains both "SELECT" and "WHERE", and the others contain
   * neither combination.
   */
  datatype Statement = Insert | Update | Delete | SelectWhere(key: Column) | SelectAll | CreateTable

  /** What `prepare(sql)` returns, and what `bind(...params)` turns it into. */
  datatype Prepared = Unbound(statement: Statement) | Bound(statement: Statement, params: seq<Value>)

  /** `params[i]`, which is `undefined` past the end of the list. */
  function Param(ps: seq<Value>, i: nat): Value {
    if i < |ps| then ps[i] else Undefined
  }

  /**
   * What `run()` settles with: `{ success, meta: { changes, last_row_id } }`
   * (with `last_row_id` possibly `undefined`), or a thrown error's message.
   */
  datatype RunOutcome = RunOk(changes: int, lastRowId: Value) | RunFailed(message: string)

  /** The TypeError raised by calling `run` on an unbound mock statement. */
  const RunNotAFunction := "database.prepare(...).run is not a function"

  /** The error `getDatabase` throws before `initializeDatabase` has run. */
  const NotInitialized := "Database not initialized. Call initializeDatabase() first."

  // ---------------------------------------------------------------------
  // The mock's state and its behaviour, as functions of that state
  // ---------------------------------------------------------------------

  /** The two variables the mock's closures share: `mockData` and `nextId`. */
  datatype MockState = MockState(records: seq<Record>, nextId: int)

  /** `item.id === id`: strict equality, so only a number can match. */
  predicate HasId(r: Record, key: Value) {
    key == Num(r.id)
  }

  /**
   * Ids are positive, below the counter, and strictly increasing in insertion
   * order.
   */
  predicate WellNumbered(s: MockState) {
    && s.nextId >= 1
    && (forall k | 0 <= k < |s.records| :: 1 <= s.records[k].id < s.nextId)
    && (forall i, j | 0 <= i < j < |s.records| :: s.records[i].id < s.records[j].id)
  }

  /** Index of the first record whose id is `key`, or `|records|` if none. */
  function FirstMatch(records: seq<Record>, key: Value): (i: nat)
    ensures i <= |records|
    ensures i < |records| ==> HasId(records[i], key)
    ensures forall k | 0 <= k < i :: !HasId(records[k], key)
  {
    if |records| == 0 then 0
    else if HasId(records[0], key) then 0
    else 1 + FirstMatch(records[1..], key)
  }

  /** `mockData.find(item => item.id === key) || null`. */
  function LookupById(records: seq<Record>, key: Value): (r: Option<Record>)
    ensures r.Some? <==> exists k | 0 <= k < |records| :: HasId(records[k], key)
    ensures r.Some? ==> r.value in records && HasId(r.value, key)
  {
    var i := FirstMatch(records, key);
    if i < |records| then Some(records[i]) else None
  }

  /**
   * `first()` (src/config/database.js:48-55, 84-86): bound, a `SELECT … WHERE`
   * compares `params[0]` against `id` whatever the column; any other bound
   * statement gives null; unbound, the first record or null.
   */
  function FirstAnswer(records: seq<Record>, h: Prepared): (r: Option<Record>)
    ensures r.Some? ==> r.value in records
    ensures h.Bound? && !h.statement.SelectWhere? ==> r.None?
    ensures h.Bound? && h.statement.SelectWhere? ==>
              (r.Some? <==> exists k | 0 <= k < |records| :: HasId(records[k], Param(h.params, 0)))
    ensures h.Bound? && r.Some? ==> HasId(r.value, Param(h.params, 0))
    ensures h.Unbound? ==> (r.None? <==> records == [])
  {
    match h
    case Unbound(_) => if |records| > 0 then Some(records[0]) else None
    case Bound(st, ps) => if st.SelectWhere? then LookupById(records, Param(ps, 0)) else None
  }

  /** The record an INSERT bound to `ps` appends when the counter is at `id`. */
  function NewRecord(id: int, ps: seq<Value>, now: string): Record {
    Record(id, Param(ps, 0), Param(ps, 1), Param(ps, 2), now, now)
  }

  /**
   * `run()` (src/config/database.js:60-81, and its absence on the unbound
   * handle at :84-90): the new state and the outcome.
   */
  function RunEffect(s: MockState, h: Prepared, now: string): (r: (MockState, RunOutcome))
    ensures |s.records| <= |r.0.records| <= |s.records| + 1
    ensures r.0.records[..|s.records|] == s.records
    ensures r.1.RunFailed? <==> h.Unbound?
    ensures r.1.RunOk? ==> r.1.changes == |r.0.records| - |s.records|
    ensures r.0.nextId - s.nextId == |r.0.records| - |s.records|
  {
    match h
    case Unbound(_) => (s, RunFailed(RunNotAFunction))
    case Bound(st, ps) =>
      if st.Insert? then
        (MockState(s.records + [NewRecord(s.nextId, ps, now)], s.nextId + 1),
         RunOk(1, Num(s.nextId)))
      else
        (s, RunOk(0, Undefined))
  }

  /** All ids in a well-numbered store differ. */
  lemma IdsDistinct(s: MockState, i: nat, j: nat)
    requires WellNumbered(s) && i < |s.records| && j < |s.records| && i != j
    ensures s.records[i].id != s.records[j].id
  {
    if j < i {
      assert s.records[j].id < s.records[i].id;
    }
  }

  /**
   * An INSERT appends exactly one record carrying the counter as id and the
   * first three bound values, bumps the counter, and reports that id with
   * one change; the new id exceeds every id already stored.
   */
  lemma InsertAppendsOne(s: MockState, ps: seq<Value>, now: string)
    requires WellNumbered(s)
    ensures var (t, out) := RunEffect(s, Bound(Insert, ps), now);
      && |t.records| == |s.records| + 1
      && t.records[..|s.records|] == s.records
      && t.records[|s.records|] == Record(s.nextId, Param(ps, 0), Param(ps, 1), Param(ps, 2), now, now)
      && t.nextId == s.nextId + 1
      && out == RunOk(1, Num(s.nextId))
      && forall k | 0 <= k < |s.records| :: s.records[k].id < t.records[|s.records|].id
  {
  }

  /** Every `run` keeps ids positive, increasing and below the counter. */
  lemma RunKeepsNumbering(s: MockState, h: Prepared, now: string)
    requires WellNumbered(s)
    ensures WellNumbered(RunEffect(s, h, now).0)
    ensures RunEffect(s, h, now).0.nextId >= s.nextId
  {
    if h.Bound? && h.statement.Insert? {
      var t := RunEffect(s, h, now).0;
      forall i, j | 0 <= i < j < |t.records| ensures t.records[i].id < t.records[j].id {
        if j < |s.records| {
          assert t.records[i] == s.records[i] && t.records[j] == s.records[j];
        } else {
          assert t.records[i] == s.records[i];
        }
      }
    }
  }

  /**
   * A `run` that is not a bound INSERT changes nothing; bound, it reports
   * zero changes, unbound it fails.
   */
  lemma OtherRunChangesNothing(s: MockState, h: Prepared, now: string)
    requires !(h.Bound? && h.statement.Insert?)
    ensures RunEffect(s, h, now).0 == s
    ensures h.Bound? ==> RunEffect(s, h, now).1 == RunOk(0, Undefined)
    ensures h.Unbound? ==> RunEffect(s, h, now).1.RunFailed?
  {
  }

  /** Reading back by the id an INSERT reported finds the record just added. */
  lemma {:induction false} InsertThenFind(s: MockState, ps: seq<Value>, now: string)
    requires WellNumbered(s)
    ensures var (t, out) := RunEffect(s, Bound(Insert, ps), now);
      out.RunOk? && LookupById(t.records, out.lastRowId) == Some(NewRecord(s.nextId, ps, now))
  {
    var t := RunEffect(s, Bound(Insert, ps), now).0;
    var i := FirstMatch(t.records, Num(s.nextId));
    assert HasId(t.records[|s.records|], Num(s.nextId));
    assert forall k | 0 <= k < |s.records| :: t.records[k] == s.records[k] && !HasId(t.records[k], Num(s.nextId));
  }

  /** A key that is not a number never finds a record. */
  lemma NonNumberFindsNothing(records: seq<Record>, key: Value)
    requires !key.Num?
    ensures LookupById(records, key) == None
  {
  }

  // ---------------------------------------------------------------------
  // The mock as an object
  // ---------------------------------------------------------------------

  /** `createMockDatabase()` (src/config/database.js:39-93). */
  class MockDatabase {
    var records: seq<Record>
    var nextId: int

    /** The shared state of the mock's closures. */
    function State(): MockState
      reads this
    {
      MockState(records, nextId)
    }

    ghost predicate Valid()
      reads this
    {
      WellNumbered(State())
    }

    /** An empty store whose first id will be 1. */
    constructor ()
      ensures Valid() && records == [] && nextId == 1
    {
      records := [];
      nextId := 1;
    }

    /** `first()` on a prepared or bound statement; `find` is a linear scan. */
    method First(h: Prepared) returns (r: Option<Record>)
      ensures r == FirstAnswer(records, h)
    {
      match h
      case Unbound(_) =>
        r := if |records| > 0 then Some(records[0]) else None;
      case Bound(st, ps) =>
        r := None;
        if st.SelectWhere? {
          var key := Param(ps, 0);
          var i := 0;
          while i < |records|
            invariant 0 <= i <= |records|
            invariant forall k | 0 <= k < i :: !HasId(records[k], key)
          {
            if key.Num? && records[i].id == key.n {
              r := Some(records[i]);
              return;
            }
            i := i + 1;
          }
        }
    }

    /** `all()`, bound or not: `{ results: mockData }`, in insertion order. */
    method All(h: Prepared) returns (results: seq<Record>)
      ensures results == records
    {
      results := records;
    }

    /** `run()`: see `RunEffect`. */
    method Run(h: Prepared, now: string) returns (r: RunOutcome)
      requires Valid()
      modifies this
      ensures Valid()
      ensures (State(), r) == RunEffect(old(State()), h, now)
    {
      RunKeepsNumbering(State(), h, now);
      match h
      case Unbound(_) =>
        r := RunFailed(RunNotAFunction);
      case Bound(st, ps) =>
        if st.Insert? {
          var id := nextId;
          nextId := nextId + 1;
          records := records + [NewRecord(id, ps, now)];
          r := RunOk(1, Num(id));
        } else {
          r := RunOk(0, Undefined);
        }
    }
  }

  // ---------------------------------------------------------------------
  // The module-level handle and the schema bootstrap
  // ---------------------------------------------------------------------

  /** The D1 binding the platform provides; its behaviour is not modelled. */
  datatype D1Handle = D1Handle(name: string)

  /** The Cloudflare environment: `env.agenticdb`, when configured. */
  datatype Env = Env(agenticdb: Option<D1Handle>)

  /** What the module-level `db` refers to once initialised. */
  datatype Binding = MockBinding(mock: MockDatabase) | D1Binding(d1: D1Handle)

  /** The module state of `database.js`: `let db = null`. */
  class DatabaseModule {
    var db: Option<Binding>

    ghost predicate Valid()
      reads this, if db.Some? && db.value.MockBinding? then {db.value.mock} else {}
    {
      db.Some? && db.value.MockBinding? ==> db.value.mock.Valid()
    }

    /** The module as loaded: no handle yet. */
    constructor ()
      ensures Valid() && db == None
    {
      db := None;
    }

    /**
     * `initializeDatabase(env)` (src/config/database.js:12-23): a fresh mock
     * exactly when `env` or `env.agenticdb` is absent, the D1 binding otherwise;
     * the handle is stored and returned.
     */
    method InitializeDatabase(env: Option<Env>) returns (b: Binding)
      modifies this
      ensures Valid() && db == Some(b)
      ensures b.MockBinding? <==> env.None? || env.value.agenticdb.None?
      ensures b.MockBinding? ==> fresh(b.mock) && b.mock.records == [] && b.mock.nextId == 1
      ensures b.D1Binding? ==> b.d1 == env.value.agenticdb.value
    {
      if env.None? || env.value.agenticdb.None? {
        var m := new MockDatabase();
        b := MockBinding(m);
      } else {
        b := D1Binding(env.value.agenticdb.value);
      }
      db := Some(b);
    }

    /**
     * `getDatabase()` (src/config/database.js:28-33): the stored handle, or the
     * "not initialized" error while there is none.
     */
    method GetDatabase() returns (r: Result<Binding, string>)
      ensures r.Err? <==> db.None?
      ensures r.Err? ==> r.error == NotInitialized
      ensures r.Ok? ==> Some(r.value) == db
    {
      if db.None? {
        r := Err(NotInitialized);
      } else {
        r := Ok(db.value);
      }
    }

    /**
     * `initializeSchema()` (src/config/database.js:99-121). `getDatabase` runs
     * outside the `try`, so an uninitialised module throws. The mock's unbound
     * statement has no `run`, so in mock mode the call is caught and yields
     * false with the store untouched. With D1, the result is whether the
     * platform's `run` (`d1Outcome`) succeeded.
     */
    method InitializeSchema(d1Outcome: RunOutcome) returns (r: Result<bool, string>)
      requires Valid()
      modifies if db.Some? && db.value.MockBinding? then {db.value.mock} else {}
      ensures Valid()
      ensures db.None? ==> r == Err(NotInitialized)
      ensures db.Some? && db.value.MockBinding? ==>
                r == Ok(false) && db.value.mock.State() == old(db.value.mock.State())
      ensures db.Some? && db.value.D1Binding? ==> r == Ok(d1Outcome.RunOk?)
    {
      var got := GetDatabase();
      if got.Err? {
        return Err(got.error);
      }
      var outcome: RunOutcome;
      match got.value {
        case MockBinding(m) =>
          outcome := m.Run(Unbound(CreateTable), "");
        case D1Binding(_) =>
          outcome := d1Outcome;
      }
      r := Ok(outcome.RunOk?);
    }
  }
}
