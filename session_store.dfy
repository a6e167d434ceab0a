/** The session cache (src/senasa_pipeline/infrastructure/adapters/session/memory_store.py):
    one record of cookies, expiry and an active flag, with load, save and mark_inactive.
    Instants are integer seconds; the conversion to UTC on save is the identity on them. */
module SessionStore {
  import opened Wrappers

  /** What `load` returns: the cookies, the expiry (None before the first save) and the
      active flag. */
  datatype SessionRecord = SessionRecord(cookies: map<string, string>, expiresAt: Option<int>, isActive: bool)

  /** The record of a store nobody has saved to. */
  function Fresh(): (s: SessionRecord)
    ensures s.cookies == map[] && s.expiresAt.None? && !s.isActive
  {
    SessionRecord(map[], None, false)
  }

  /** The record after `save(cookies, expiresAt)`. */
  function Saved(s: SessionRecord, cookies: map<string, string>, expiresAt: int): (r: SessionRecord)
    ensures r.cookies == cookies && r.expiresAt == Some(expiresAt) && r.isActive
  {
    SessionRecord(cookies, Some(expiresAt), true)
  }

  /** The record after `mark_inactive()`: only the flag changes. */
  function Inactive(s: SessionRecord): (r: SessionRecord)
    ensures r.cookies == s.cookies && r.expiresAt == s.expiresAt && !r.isActive
  {
    s.(isActive := false)
  }

  /** The invariant every reachable record keeps: only save sets the flag, and it always
      sets the expiry. */
  predicate ActiveHasExpiry(s: SessionRecord) {
    s.isActive ==> s.expiresAt.Some?
  }

  /** mark_inactive twice is mark_inactive once, and a later save reactivates. */
  lemma InactiveIdempotent(s: SessionRecord, cookies: map<string, string>, expiresAt: int)
    ensures Inactive(Inactive(s)) == Inactive(s)
    ensures Saved(Inactive(s), cookies, expiresAt).isActive
  {
  }

  datatype StoreOp = Save(cookies: map<string, string>, expiresAt: int) | MarkInactive

  function Apply(s: SessionRecord, op: StoreOp): SessionRecord {
    match op
    case Save(c, e) => Saved(s, c, e)
    case MarkInactive => Inactive(s)
  }

  /** The record after a sequence of operations on a fresh store. */
  function Replay(ops: seq<StoreOp>): SessionRecord {
    if ops == [] then Fresh() else Apply(Replay(ops[..|ops| - 1]), ops[|ops| - 1])
  }

  /** Every record a store can reach carries an expiry whenever it is active. */
  lemma {:induction false} ReachableActiveHasExpiry(ops: seq<StoreOp>)
    ensures ActiveHasExpiry(Replay(ops))
  {
    if ops != [] {
      ReachableActiveHasExpiry(ops[..|ops| - 1]);
    }
  }

  /** A load after save(c, e) gives (c, e, true), whatever came before. */
  lemma {:induction false} LoadAfterSave(ops: seq<StoreOp>, cookies: map<string, string>, expiresAt: int)
    ensures Replay(ops + [Save(cookies, expiresAt)]) == SessionRecord(cookies, Some(expiresAt), true)
  {
    assert (ops + [Save(cookies, expiresAt)])[..|ops|] == ops;
  }

  class InMemorySessionStore {
    var cookies: map<string, string>
    var expiresAt: Option<int>
    var isActive: bool

    function State(): SessionRecord
      reads this
    {
      SessionRecord(cookies, expiresAt, isActive)
    }

    constructor ()
      ensures State() == Fresh()
    {
      cookies := map[];
      expiresAt := None;
      isActive := false;
    }

    /** Maps are values, so the returned cookies are a copy. */
    method Load() returns (c: map<string, string>, e: Option<int>, active: bool)
      ensures SessionRecord(c, e, active) == State()
    {
      c, e, active := cookies, expiresAt, isActive;
    }

    method Save(c: map<string, string>, e: int)
      modifies this
      ensures State() == Saved(old(State()), c, e)
    {
      cookies := c;
      expiresAt := Some(e);
      isActive := true;
    }

    method MarkInactive()
      modifies this
      ensures State() == Inactive(old(State()))
    {
      isActive := false;
    }
  }
}
