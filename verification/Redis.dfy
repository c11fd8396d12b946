/**
 The authoritative store: one lease, the checkpoints, their index, and the table counter, changed
 only by scripts that run to completion one at a time.
 */
module Redis {
  import opened Common

  const MAX_RECORDS := 4096
  const MAX_TABLE := 9_007_199_254_740_991
  const MAX_PAYLOAD := 4 * 1024 * 1024
  const LEASE := 5000

  const LOST := -2
  const STALE := -1
  const REFUSED := -3

  datatype StateId = Game(id: int) | Table(id: int)
  datatype Record = Record(revision: int, payload: string, creator: nat)
  datatype Lease = Lease(token: nat, expires: nat)

  /** The contents of the store. Owners are told apart by their tokens. */
  datatype Db = Db(lease: Option<Lease>, records: map<StateId, Record>, index: set<StateId>, counter: nat)

  const EMPTY := Db(None, map[], {}, 0)

  datatype Op =
    | Acquire
    | Renew
    | Release
    | Reserve(id: StateId)
    | Allocate
    | Save(id: StateId, expected: int, payload: string)
    | Remove(id: StateId, expected: int)

  /** Whether the token is the one that an unexpired lease holds. */
  predicate Holds(db: Db, now: nat, token: nat) {
    db.lease.Some? && db.lease.value.token == token && now < db.lease.value.expires
  }

  predicate Held(db: Db, now: nat) {
    db.lease.Some? && now < db.lease.value.expires
  }

  /** What one script does: the contents it leaves and the code it returns. */
  function Run(db: Db, now: nat, token: nat, op: Op): (Db, int) {
    match op
    case Acquire =>
      if Held(db, now) then (db, 0) else (db.(lease := Some(Lease(token, now + LEASE))), 1)
    case Renew =>
      if Holds(db, now, token) then (db.(lease := Some(Lease(token, now + LEASE))), 1) else (db, 0)
    case Release =>
      if Holds(db, now, token) then (db.(lease := None), 1) else (db, 0)
    case Reserve(id) =>
      if !Holds(db, now, token) then (db, LOST)
      else if id in db.records then (db, STALE)
      else if |db.index| >= MAX_RECORDS then (db, REFUSED)
      else (db.(records := db.records[id := Record(0, "", token)], index := db.index + {id}), 0)
    case Allocate =>
      if !Holds(db, now, token) then (db, LOST)
      else if |db.index| >= MAX_RECORDS || db.counter >= MAX_TABLE then (db, REFUSED)
      else
        var next := db.counter + 1;
        if Table(next) in db.records then (db.(counter := next), REFUSED)
        else
          (db.(counter := next,
               records := db.records[Table(next) := Record(0, "", token)],
               index := db.index + {Table(next)}),
           next)
    case Save(id, expected, payload) =>
      if !Holds(db, now, token) then (db, LOST)
      else if id !in db.records || db.records[id].revision != expected then (db, STALE)
      else if id !in db.index then (db, REFUSED)
      else
        (db.(records := db.records[id := db.records[id].(revision := expected + 1, payload := payload)],
             index := db.index + {id}),
         expected + 1)
    case Remove(id, expected) =>
      if !Holds(db, now, token) then (db, LOST)
      else if id !in db.records then (db, if id in db.index then REFUSED else 0)
      else if db.records[id].revision != expected then (db, STALE)
      else (db.(records := db.records - {id}, index := db.index - {id}), 1)
  }

  /** The store itself, with each script as the commands it issues. */
  class Store {
    var lease: Option<Lease>
    var records: map<StateId, Record>
    var index: set<StateId>
    var counter: nat

    constructor ()
      ensures Contents() == EMPTY
    {
      lease, records, index, counter := None, map[], {}, 0;
    }

    function Contents(): Db
      reads this
    {
      Db(lease, records, index, counter)
    }

    /** The token under the lease key, which is gone once it expires. */
    function Owner(now: nat): Option<nat>
      reads this
    {
      if lease.Some? && now < lease.value.expires then Some(lease.value.token) else None
    }

    method SetOwner(now: nat, token: nat) returns (code: int)
      modifies this
      ensures (Contents(), code) == Run(old(Contents()), now, token, Acquire)
    {
      if Owner(now) != None {
        return 0;
      }
      lease := Some(Lease(token, now + LEASE));
      code := 1;
    }

    method RenewLease(now: nat, token: nat) returns (code: int)
      modifies this
      ensures (Contents(), code) == Run(old(Contents()), now, token, Renew)
    {
      if Owner(now) != Some(token) {
        return 0;
      }
      lease := Some(lease.value.(expires := now + LEASE));
      code := 1;
    }

    method ReleaseLease(now: nat, token: nat) returns (code: int)
      modifies this
      ensures (Contents(), code) == Run(old(Contents()), now, token, Release)
    {
      if Owner(now) != Some(token) {
        return 0;
      }
      lease := None;
      code := 1;
    }

    method ReserveRecord(now: nat, token: nat, id: StateId) returns (code: int)
      modifies this
      ensures (Contents(), code) == Run(old(Contents()), now, token, Reserve(id))
    {
      if Owner(now) != Some(token) {
        return LOST;
      }
      if id in records {
        return STALE;
      }
      if |index| >= MAX_RECORDS {
        return REFUSED;
      }
      records := records[id := Record(0, "", token)];
      index := index + {id};
      code := 0;
    }

    method AllocateTable(now: nat, token: nat) returns (code: int)
      modifies this
      ensures (Contents(), code) == Run(old(Contents()), now, token, Allocate)
    {
      if Owner(now) != Some(token) {
        return LOST;
      }
      if |index| >= MAX_RECORDS || counter >= MAX_TABLE {
        return REFUSED;
      }
      counter := counter + 1;
      var id := Table(counter);
      if id in records {
        return REFUSED;
      }
      records := records[id := Record(0, "", token)];
      index := index + {id};
      code := counter;
    }

    method SaveRecord(now: nat, token: nat, id: StateId, expected: int, payload: string) returns (code: int)
      modifies this
      ensures (Contents(), code) == Run(old(Contents()), now, token, Save(id, expected, payload))
    {
      if Owner(now) != Some(token) {
        return LOST;
      }
      if id !in records || records[id].revision != expected {
        return STALE;
      }
      if id !in index {
        return REFUSED;
      }
      var next := expected + 1;
      records := records[id := records[id].(revision := next, payload := payload)];
      index := index + {id};
      code := next;
    }

    method RemoveRecord(now: nat, token: nat, id: StateId, expected: int) returns (code: int)
      modifies this
      ensures (Contents(), code) == Run(old(Contents()), now, token, Remove(id, expected))
    {
      if Owner(now) != Some(token) {
        return LOST;
      }
      if id !in records {
        return if id in index then REFUSED else 0;
      }
      if records[id].revision != expected {
        return STALE;
      }
      records := records - {id};
      index := index - {id};
      code := 1;
    }
  }

  /** The index and the records name the same checkpoints, and there are not too many. */
  predicate Consistent(db: Db) {
    && db.index == db.records.Keys
    && |db.index| <= MAX_RECORDS
    && (forall id {:trigger db.records[id]} :: id in db.records ==> db.records[id].revision >= 0)
  }

  lemma RunKeepsConsistent(db: Db, now: nat, token: nat, op: Op)
    requires Consistent(db)
    ensures Consistent(Run(db, now, token, op).0)
  {
    hide Consistent;
    var after := Run(db, now, token, op).0;
    SameRecordsConsistent(db, after);
    match op
    case Reserve(id) => AddedConsistent(db, after, id, Record(0, "", token));
    case Allocate => AddedConsistent(db, after, Table(db.counter + 1), Record(0, "", token));
    case Save(id, _, _) => SaveKeepsConsistent(db, now, token, op);
    case Remove(id, _) => RemovedConsistent(db, after, id);
    case _ =>
  }

  lemma SaveKeepsConsistent(db: Db, now: nat, token: nat, op: Op)
    requires Consistent(db) && op.Save?
    ensures Consistent(Run(db, now, token, op).0)
  {
    hide Consistent;
    var after := Run(db, now, token, op).0;
    SameRecordsConsistent(db, after);
    ChangedConsistent(db, after, op.id);
  }

  lemma SameRecordsConsistent(db: Db, after: Db)
    requires Consistent(db)
    ensures after.records == db.records && after.index == db.index ==> Consistent(after)
  {}

  lemma AddedConsistent(db: Db, after: Db, id: StateId, record: Record)
    requires Consistent(db)
    ensures (&& after.records == db.records[id := record] && after.index == db.index + {id}
             && |db.index| < MAX_RECORDS && record.revision == 0) ==> Consistent(after)
  {}

  lemma ChangedConsistent(db: Db, after: Db, id: StateId)
    requires Consistent(db)
    ensures (&& id in db.records && after.index == db.index + {id} && id in after.records
             && after.records == db.records[id := after.records[id]]
             && after.records[id].revision >= 0) ==> Consistent(after)
    ensures id in db.records ==> db.records[id].revision >= 0
  {
    if id in db.records {
      assert db.index + {id} == db.index;
    }
  }

  lemma RemovedConsistent(db: Db, after: Db, id: StateId)
    requires Consistent(db)
    ensures after.records == db.records - {id} && after.index == db.index - {id} ==> Consistent(after)
  {
    if after.records == db.records - {id} && after.index == db.index - {id} {
      assert after.records.Keys == db.records.Keys - {id};
      Smaller(after.index, db.index);
    }
  }

  lemma Smaller<T>(a: set<T>, b: set<T>)
    requires a <= b
    ensures |a| <= |b|
  {
    assert b == a + (b - a);
  }

  /** Only the holder of the lease changes checkpoints, the index, or the counter. */
  lemma OnlyTheHolderCommits(db: Db, now: nat, token: nat, op: Op)
    ensures var after := Run(db, now, token, op).0;
            after.(lease := db.lease) != db ==> Holds(db, now, token) && after.lease == db.lease
  {}
}
