/** What the log of executed scripts says about each checkpoint, without running the scripts again. */
module Ledger {
  import opened Common
  import opened Redis
  import opened Authority

  /** Entries that bring a checkpoint into being, save it, or remove it. */
  predicate Creates(entry: Entry, id: StateId) {
    || (entry.op == Reserve(id) && entry.code == 0)
    || (entry.op.Allocate? && entry.code > 0 && id == Table(entry.code))
  }

  predicate Saves(entry: Entry, id: StateId) {
    entry.op.Save? && entry.op.id == id && entry.code >= 0
  }

  predicate Removes(entry: Entry, id: StateId) {
    entry.op.Remove? && entry.op.id == id && entry.code == 1
  }

  /** The position after the entry that created the checkpoint, unless it was removed since. */
  function Birth(log: seq<Entry>, id: StateId): (born: Option<nat>)
    ensures born.Some? ==> 1 <= born.value <= |log| && Creates(log[born.value - 1], id)
  {
    if log == [] then None
    else
      var last := log[|log| - 1];
      if Creates(last, id) then Some(|log|)
      else if Removes(last, id) then None
      else Birth(log[..|log| - 1], id)
  }

  /** How many saves of the checkpoint were committed at or after a position. */
  function CommittedSaves(log: seq<Entry>, id: StateId, from: nat): (n: nat)
    ensures from >= |log| ==> n == 0
  {
    if |log| <= from then 0
    else CommittedSaves(log[..|log| - 1], id, from) + if Saves(log[|log| - 1], id) then 1 else 0
  }

  /**
   A checkpoint exists exactly while the log has created it without removing it, and its revision
   is the number of saves committed since: each committed save adds exactly one, and a save never
   brings back what was removed.
   */
  lemma {:induction false} RevisionCountsSaves(log: seq<Entry>, id: StateId)
    requires Replays(log)
    ensures var db := DbAt(log, |log|);
            && (id in db.records <==> Birth(log, id).Some?)
            && (id in db.records ==> db.records[id].revision == CommittedSaves(log, id, Birth(log, id).value))
    decreases |log|
  {
    hide Run, Replays;
    if log != [] {
      var before := log[..|log| - 1];
      PrefixReplays(log, |log| - 1);
      RevisionCountsSaves(before, id);
      assert DbAt(before, |before|) == DbAt(log, |before|);
      LastFollows(log);
      EntryActs(DbAt(log, |before|), log[|log| - 1], id);
    } else {
      NothingYet(id);
    }
  }

  lemma NothingYet(id: StateId)
    ensures id !in DbAt([], 0).records && Birth([], id) == None
  {}

  lemma LastFollows(log: seq<Entry>)
    requires Replays(log) && log != []
    ensures Follows(DbAt(log, |log| - 1), log[|log| - 1]) && DbAt(log, |log|) == log[|log| - 1].after
  {
    assert Follows(DbAt(log, |log| - 1), log[|log| - 1]);
  }

  /** What one entry does to one checkpoint. */
  lemma EntryActs(db: Db, entry: Entry, id: StateId)
    requires Follows(db, entry)
    ensures Creates(entry, id) ==>
              && id !in db.records && id in entry.after.records
              && entry.after.records[id] == Record(0, "", entry.token)
    ensures Removes(entry, id) ==> id in db.records && id !in entry.after.records
    ensures Saves(entry, id) ==>
              && id in db.records && id in entry.after.records
              && entry.code == db.records[id].revision + 1
              && entry.after.records[id] == db.records[id].(revision := entry.code, payload := entry.op.payload)
    ensures !Creates(entry, id) && !Removes(entry, id) && !Saves(entry, id) ==>
              && (id in entry.after.records <==> id in db.records)
              && (id in db.records ==> entry.after.records[id] == db.records[id])
  {}

  /** A save or removal that was committed, or a checkpoint that was created, after a position. */
  ghost predicate RemovedAfter(log: seq<Entry>, id: StateId, from: nat) {
    exists k :: from <= k < |log| && Removes(log[k], id)
  }

  ghost predicate CreatedAfter(log: seq<Entry>, id: StateId, from: nat) {
    exists k :: from <= k < |log| && Creates(log[k], id)
  }

  lemma {:induction false} SaveLasts(log: seq<Entry>, id: StateId, pos: nat, k: nat)
    requires Replays(log) && 1 <= pos <= k <= |log| && Saves(log[pos - 1], id)
    ensures || RemovedAfter(log[..k], id, pos)
            || (&& id in DbAt(log, k).records
                && DbAt(log, k).records[id].revision >= log[pos - 1].code
                && (DbAt(log, k).records[id].revision == log[pos - 1].code ==>
                      DbAt(log, k).records[id].payload == log[pos - 1].op.payload))
    ensures log[..|log|] == log
  {
    hide Run, Follows, Saves, Removes, Creates;
    if k > pos {
      SaveLasts(log, id, pos, k - 1);
      if RemovedAfter(log[..k - 1], id, pos) {
        var m :| pos <= m < k - 1 && Removes(log[..k - 1][m], id);
        assert Removes(log[..k][m], id);
      } else {
        assert Follows(DbAt(log, k - 1), log[k - 1]);
        EntryActs(DbAt(log, k - 1), log[k - 1], id);
        SavesCount(log[k - 1], id);
        if Removes(log[k - 1], id) {
          assert Removes(log[..k][k - 1], id);
        }
      }
    } else {
      assert Follows(DbAt(log, k - 1), log[k - 1]);
      EntryActs(DbAt(log, k - 1), log[k - 1], id);
      SavesCount(log[k - 1], id);
    }
  }

  lemma SavesCount(entry: Entry, id: StateId)
    ensures Saves(entry, id) ==> entry.op.Save?
  {}

  lemma {:induction false} RemovalLasts(log: seq<Entry>, id: StateId, pos: nat, k: nat)
    requires Replays(log) && 1 <= pos <= k <= |log|
    requires log[pos - 1].op.Remove? && log[pos - 1].op.id == id && log[pos - 1].code >= 0
    ensures id !in DbAt(log, k).records || CreatedAfter(log[..k], id, pos)
    ensures log[..|log|] == log
  {
    hide Run, Saves, Removes, Creates, Follows;
    assert Follows(DbAt(log, k - 1), log[k - 1]);
    if k > pos {
      RemovalLasts(log, id, pos, k - 1);
      if CreatedAfter(log[..k - 1], id, pos) {
        var m :| pos <= m < k - 1 && Creates(log[..k - 1][m], id);
        assert Creates(log[..k][m], id);
      } else {
        EntryActs(DbAt(log, k - 1), log[k - 1], id);
        if Creates(log[k - 1], id) {
          assert Creates(log[..k][k - 1], id);
        }
      }
    } else {
      RemovalRemoves(DbAt(log, k - 1), log[k - 1]);
    }
  }

  lemma RemovalRemoves(db: Db, entry: Entry)
    requires Follows(db, entry) && entry.op.Remove? && entry.code >= 0
    ensures entry.op.id !in entry.after.records
  {}

  lemma {:induction false} LogConsistent(log: seq<Entry>, k: nat)
    requires Replays(log) && k <= |log|
    ensures Consistent(DbAt(log, k))
  {
    hide Run, Consistent;
    if k > 0 {
      LogConsistent(log, k - 1);
      assert Follows(DbAt(log, k - 1), log[k - 1]);
      RunKeepsConsistent(DbAt(log, k - 1), log[k - 1].at, log[k - 1].token, log[k - 1].op);
    } else {
      EmptyConsistent();
    }
  }

  lemma EmptyConsistent()
    ensures Consistent(EMPTY)
  {}

  /** The table counter never goes back, and names each identity that it hands out once. */
  lemma {:induction false} CounterGrows(log: seq<Entry>, i: nat, j: nat)
    requires Replays(log) && i <= j <= |log|
    ensures DbAt(log, i).counter <= DbAt(log, j).counter
    decreases j
  {
    hide Run, Follows, DbAt;
    if i < j {
      CounterGrows(log, i, j - 1);
      assert Follows(DbAt(log, j - 1), log[j - 1]);
      CounterSteps(DbAt(log, j - 1), log[j - 1]);
      AfterIs(log, j);
    }
  }

  lemma AfterIs(log: seq<Entry>, k: nat)
    requires 0 < k <= |log|
    ensures DbAt(log, k) == log[k - 1].after
  {}

  lemma CounterSteps(db: Db, entry: Entry)
    requires Follows(db, entry)
    ensures db.counter <= entry.after.counter
    ensures entry.op.Allocate? && entry.code >= 0 ==> db.counter < entry.code == entry.after.counter
  {}

  lemma IdentitiesGrow(log: seq<Entry>, i: nat, j: nat)
    requires Replays(log) && i < j < |log|
    requires log[i].op.Allocate? && log[i].code >= 0 && log[j].op.Allocate? && log[j].code >= 0
    ensures log[i].code < log[j].code
  {
    hide Run, Follows, DbAt;
    CounterGrows(log, i + 1, j);
    assert Follows(DbAt(log, i), log[i]) && Follows(DbAt(log, j), log[j]);
    CounterSteps(DbAt(log, i), log[i]);
    CounterSteps(DbAt(log, j), log[j]);
    AfterIs(log, i + 1);
  }

  /** No checkpoint is ever rejected on reading: only one that was never saved has no contents. */
  predicate Readable(db: Db) {
    forall id {:trigger db.records[id]} :: id in db.records ==>
      var record := db.records[id];
      record.revision >= 0 && (record.revision == 0 <==> record.payload == "") && |record.payload| <= MAX_PAYLOAD
  }

  lemma {:induction false} LogReadable(log: seq<Entry>, k: nat)
    requires Replays(log) && k <= |log|
    ensures Readable(DbAt(log, k))
  {
    hide Run, Follows;
    if k > 0 {
      LogReadable(log, k - 1);
      assert Follows(DbAt(log, k - 1), log[k - 1]);
      EntryKeepsReadable(DbAt(log, k - 1), log[k - 1]);
    }
  }

  lemma EntryKeepsReadable(db: Db, entry: Entry)
    requires Follows(db, entry) && Readable(db)
    ensures Readable(entry.after)
  {}

  /** Whoever changed a checkpoint, the index or the counter held the lease when it did. */
  lemma CommitsAreTheHolders(log: seq<Entry>, k: nat)
    requires Replays(log) && k < |log|
    requires log[k].after.(lease := DbAt(log, k).lease) != DbAt(log, k)
    ensures Holds(DbAt(log, k), log[k].at, log[k].token)
  {
    hide Run;
    assert Follows(DbAt(log, k), log[k]);
    OnlyTheHolderCommits(DbAt(log, k), log[k].at, log[k].token, log[k].op);
  }
}
