/**
 Ownership and durability over whole runs: servers that take, renew and give up the lease, requests
 that are lost or answered late, and a store that may crash and forget every write that it has not
 yet confirmed.
 */
module Authority {
  import opened Common
  import opened Redis

  /** How long a confirmed lease is trusted, counted from before it was requested. */
  const SAFE := LEASE * 3 / 4

  /** One executed script, and the contents after it. */
  datatype Entry = Entry(token: nat, op: Op, at: nat, code: int, after: Db)

  /** How far a request got. The position is that of its entry in the log, counted from one. */
  datatype Stage = Sent | Executed(pos: nat, entry: Entry, confirmed: bool)

  /** A request on a connection, which does not outlive the run of the store it was opened in. */
  datatype Call = Call(token: nat, op: Op, before: nat, epoch: nat, stage: Stage)

  /** A server's own view of its lease: until when it trusts it, and whether it gave it up. */
  datatype Owner = Owner(deadline: Option<nat>, lost: bool)

  /** A request that was reported to its caller as done. */
  datatype Ack = Ack(pos: nat, entry: Entry)

  datatype System = System(
    now: nat,
    epoch: nat,
    log: seq<Entry>,
    durable: nat,
    owners: map<nat, Owner>,
    calls: map<nat, Call>,
    acks: seq<Ack>
  )

  const INITIAL := System(0, 0, [], 0, map[], map[], [])

  datatype Step =
    | Wait(ms: nat)
    | Open(token: nat)
    | Send(call: nat, token: nat, op: Op)
    | Execute(call: nat)
    | Flush
    | Confirm(call: nat)
    | Finish(call: nat)
    | Fail(call: nat)
    | Lose(token: nat)
    | Close(call: nat, token: nat)
    | Crash(kept: nat)

  function DbAt(log: seq<Entry>, k: nat): Db
    requires k <= |log|
  {
    if k == 0 then EMPTY else log[k - 1].after
  }

  function Current(s: System): Db {
    DbAt(s.log, |s.log|)
  }

  /** The check that guards every request and every publication. */
  predicate Passes(owner: Owner, now: nat) {
    !owner.lost && owner.deadline.Some? && now < owner.deadline.value
  }

  predicate Check(s: System, token: nat) {
    token in s.owners && Passes(s.owners[token], s.now)
  }

  /** What the handle lets through to the store. */
  predicate Admissible(op: Op) {
    match op
    case Save(id, expected, payload) => 0 <= expected < MAX_TABLE && 0 < |payload| <= MAX_PAYLOAD
    case Remove(id, expected) => 0 <= expected
    case _ => true
  }

  predicate MayAct(s: System, call: nat) {
    call in s.calls && s.calls[call].epoch == s.epoch
  }

  predicate Enabled(s: System, step: Step) {
    match step
    case Wait(ms) => true
    // Tokens are random and do not repeat.
    case Open(token) => token !in s.owners
    case Send(call, token, op) =>
      && call !in s.calls
      && token in s.owners
      && Admissible(op)
      && (match op
          case Acquire => s.owners[token].deadline.None? && !s.owners[token].lost
          case Release => false
          case _ => Check(s, token))
    case Execute(call) => MayAct(s, call) && s.calls[call].stage.Sent?
    case Flush => true
    case Confirm(call) =>
      MayAct(s, call) && s.calls[call].stage.Executed? && s.calls[call].stage.pos <= s.durable
    case Finish(call) => call in s.calls && Answered(s.calls[call])
    case Fail(call) => call in s.calls
    case Lose(token) => token in s.owners
    case Close(call, token) => token in s.owners && call !in s.calls
    case Crash(kept) => s.durable <= kept <= |s.log|
  }

  /** Refusals are final at once; everything else is reported only once it is durable. */
  predicate Answered(call: Call) {
    && call.stage.Executed?
    && (|| call.stage.confirmed
        || call.stage.entry.code < 0
        || (call.stage.entry.code == 0 && (call.op.Acquire? || call.op.Renew? || call.op.Release?)))
  }

  function Give(s: System, token: nat): System {
    if token !in s.owners then s
    else s.(owners := s.owners[token := s.owners[token].(lost := true)])
  }

  /** Trusts the lease from before it was requested, unless that is over or it was given up. */
  function Trusted(owner: Owner, now: nat, before: nat): Owner {
    if owner.lost then owner
    else if now < before + SAFE then Owner(Some(before + SAFE), false)
    else owner.(lost := true)
  }

  function Trust(s: System, token: nat, before: nat): System {
    if token !in s.owners then s else s.(owners := s.owners[token := Trusted(s.owners[token], s.now, before)])
  }

  function Finished(s: System, call: nat): System
    requires call in s.calls && Answered(s.calls[call])
  {
    var c := s.calls[call];
    var code := c.stage.entry.code;
    var rest := s.(calls := s.calls - {call});
    match c.op
    case Acquire => if code == 1 then Trust(rest, c.token, c.before) else rest
    case Renew => if code == 1 then Trust(rest, c.token, c.before) else Give(rest, c.token)
    case Release => rest
    case _ =>
      if code == LOST then Give(rest, c.token)
      else if code < 0 then rest
      else if Check(s, c.token) then rest.(acks := rest.acks + [Ack(c.stage.pos, c.stage.entry)])
      else Give(rest, c.token)
  }

  function Apply(s: System, step: Step): System
    requires Enabled(s, step)
  {
    match step
    case Wait(ms) => s.(now := s.now + ms)
    case Open(token) => s.(owners := s.owners[token := Owner(None, false)])
    case Send(call, token, op) => s.(calls := s.calls[call := Call(token, op, s.now, s.epoch, Sent)])
    case Execute(call) =>
      var c := s.calls[call];
      var (after, code) := Run(Current(s), s.now, c.token, c.op);
      var entry := Entry(c.token, c.op, s.now, code, after);
      s.(log := s.log + [entry], calls := s.calls[call := c.(stage := Executed(|s.log| + 1, entry, false))])
    case Flush => s.(durable := |s.log|)
    case Confirm(call) =>
      var c := s.calls[call];
      s.(calls := s.calls[call := c.(stage := c.stage.(confirmed := true))])
    case Finish(call) => Finished(s, call)
    case Fail(call) => Give(s.(calls := s.calls - {call}), s.calls[call].token)
    case Lose(token) => Give(s, token)
    case Close(call, token) =>
      Give(s, token).(calls := s.calls[call := Call(token, Release, s.now, s.epoch, Sent)])
    case Crash(kept) => s.(epoch := s.epoch + 1, log := s.log[..kept], durable := kept)
  }

  // ---------------------------------------------------------------------------------------------
  // The invariant.

  /** From position `from` on, the token holds the lease at least until the given time. */
  ghost predicate HoldsFrom(log: seq<Entry>, token: nat, from: nat, until: nat) {
    forall k {:trigger DbAt(log, k)} :: from <= k <= |log| ==> HoldsUntil(DbAt(log, k), token, until)
  }

  predicate HoldsUntil(db: Db, token: nat, until: nat) {
    db.lease.Some? && db.lease.value.token == token && until <= db.lease.value.expires
  }

  /** The log is what running the scripts in turn gives. */
  ghost predicate Replays(log: seq<Entry>) {
    forall k {:trigger DbAt(log, k)} {:trigger log[k]} :: 0 <= k < |log| ==> Follows(DbAt(log, k), log[k])
  }

  predicate Follows(db: Db, entry: Entry) {
    Admissible(entry.op) && (entry.after, entry.code) == Run(db, entry.at, entry.token, entry.op)
  }

  /** Whether the store still has the entry of a request. */
  predicate Counted(s: System, c: Call) {
    c.stage.Executed? && (c.stage.confirmed || c.epoch == s.epoch)
  }

  predicate EntryAt(log: seq<Entry>, pos: nat, entry: Entry) {
    1 <= pos <= |log| && log[pos - 1] == entry
  }

  predicate CallFits(s: System, c: Call) {
    && c.token in s.owners
    && c.before <= s.now
    && c.epoch <= s.epoch
    && Admissible(c.op)
    && (c.op.Release? ==> s.owners[c.token].lost)
    && (c.stage.Executed? ==> c.stage.entry.token == c.token && c.stage.entry.op == c.op)
    && (c.stage.Executed? && c.stage.confirmed ==> c.stage.pos <= s.durable)
    && (Counted(s, c) ==> EntryAt(s.log, c.stage.pos, c.stage.entry))
  }

  predicate TookLease(s: System, c: Call) {
    Counted(s, c) && (c.op.Acquire? || c.op.Renew?) && c.stage.entry.code == 1
  }

  /** A lease that was taken or renewed is still there while its owner has not given it up. */
  ghost predicate LeaseFits(s: System, c: Call) {
    TookLease(s, c) && c.token in s.owners && !s.owners[c.token].lost && s.now < c.before + LEASE ==>
      HoldsFrom(s.log, c.token, c.stage.pos, c.before + LEASE)
  }

  /** A trusted lease is there in every state that a crash could leave behind. */
  ghost predicate OwnerFits(s: System, token: nat) {
    token in s.owners && s.owners[token].deadline.Some? && !s.owners[token].lost ==>
      var deadline := s.owners[token].deadline.value;
      && deadline <= s.now + SAFE
      && (s.now < deadline ==> HoldsFrom(s.log, token, s.durable, deadline + (LEASE - SAFE)))
  }

  predicate AckFits(s: System, ack: Ack) {
    && ack.pos <= s.durable
    && EntryAt(s.log, ack.pos, ack.entry)
    && ack.entry.code >= 0
    && !(ack.entry.op.Acquire? || ack.entry.op.Renew? || ack.entry.op.Release?)
  }

  ghost predicate Inv(s: System) {
    && s.durable <= |s.log|
    && Replays(s.log)
    && (forall call {:trigger s.calls[call]} :: call in s.calls ==>
          CallFits(s, s.calls[call]) && LeaseFits(s, s.calls[call]))
    && (forall token {:trigger OwnerFits(s, token)} :: OwnerFits(s, token))
    && (forall i {:trigger s.acks[i]} :: 0 <= i < |s.acks| ==> AckFits(s, s.acks[i]))
  }

  /** No entry is reported twice. */
  ghost predicate Separate(s: System) {
    && (forall i, j {:trigger s.acks[i], s.acks[j]} :: 0 <= i < j < |s.acks| ==> s.acks[i].pos != s.acks[j].pos)
    && (forall call, i {:trigger s.calls[call], s.acks[i]} ::
          call in s.calls && Counted(s, s.calls[call]) && 0 <= i < |s.acks| ==>
            s.calls[call].stage.pos != s.acks[i].pos)
    && (forall call, other {:trigger s.calls[call], s.calls[other]} ::
          (&& call in s.calls && other in s.calls && call != other
           && Counted(s, s.calls[call]) && Counted(s, s.calls[other])) ==>
            s.calls[call].stage.pos != s.calls[other].stage.pos)
  }

  // ---------------------------------------------------------------------------------------------
  // One step.

  /** The lease of a live trusted token survives any script that another request may run. */
  lemma RunKeepsLease(db: Db, now: nat, token: nat, op: Op, holder: nat, until: nat)
    requires HoldsUntil(db, holder, until) && now < until <= now + LEASE
    requires !(op.Release? && token == holder)
    ensures HoldsUntil(Run(db, now, token, op).0, holder, until)
  {}

  lemma AppendKeepsHolding(log: seq<Entry>, entry: Entry, holder: nat, from: nat, until: nat)
    requires HoldsFrom(log, holder, from, until) && from <= |log|
    requires Follows(DbAt(log, |log|), entry)
    requires entry.at < until <= entry.at + LEASE
    requires !(entry.op.Release? && entry.token == holder)
    ensures HoldsFrom(log + [entry], holder, from, until)
  {
    hide Run;
    forall k {:trigger DbAt(log + [entry], k)} | from <= k <= |log| + 1
      ensures HoldsUntil(DbAt(log + [entry], k), holder, until)
    {
      if k <= |log| {
        assert DbAt(log + [entry], k) == DbAt(log, k);
      } else {
        assert HoldsUntil(DbAt(log, |log|), holder, until);
        RunKeepsLease(DbAt(log, |log|), entry.at, entry.token, entry.op, holder, until);
      }
    }
  }

  lemma AppendReplays(log: seq<Entry>, entry: Entry)
    requires Replays(log) && Follows(DbAt(log, |log|), entry)
    ensures Replays(log + [entry])
  {
    hide Follows;
    forall k | 0 <= k < |log| + 1
      ensures Follows(DbAt(log + [entry], k), (log + [entry])[k])
    {
      assert DbAt(log + [entry], k) == DbAt(log, k);
    }
  }

  lemma PrefixReplays(log: seq<Entry>, kept: nat)
    requires Replays(log) && kept <= |log|
    ensures Replays(log[..kept])
  {
    hide Follows;
    forall k | 0 <= k < kept
      ensures Follows(DbAt(log[..kept], k), log[..kept][k])
    {
      assert DbAt(log[..kept], k) == DbAt(log, k);
    }
  }

  lemma PrefixHolds(log: seq<Entry>, kept: nat, holder: nat, from: nat, until: nat)
    requires HoldsFrom(log, holder, from, until) && from <= kept <= |log|
    ensures HoldsFrom(log[..kept], holder, from, until)
  {
    hide HoldsUntil;
    forall k {:trigger DbAt(log[..kept], k)} | from <= k <= kept
      ensures HoldsUntil(DbAt(log[..kept], k), holder, until)
    {
      assert DbAt(log[..kept], k) == DbAt(log, k);
    }
  }

  /** What a script leaves behind after it took or renewed the lease. */
  lemma TakingHolds(log: seq<Entry>, entry: Entry)
    requires Follows(DbAt(log, |log|), entry)
    requires (entry.op.Acquire? || entry.op.Renew?) && entry.code == 1
    ensures HoldsFrom(log + [entry], entry.token, |log| + 1, entry.at + LEASE)
  {
    assert DbAt(log + [entry], |log| + 1) == entry.after;
  }

  lemma ExecuteKeepsInv(s: System, call: nat)
    requires Inv(s) && Enabled(s, Execute(call))
    ensures Inv(Apply(s, Execute(call)))
  {
    hide HoldsFrom, Run, HoldsUntil, Replays;
    var next := Apply(s, Execute(call));
    var c := s.calls[call];
    var entry := next.log[|s.log|];
    assert CallFits(s, c);
    AppendReplays(s.log, entry);
    forall other | other in next.calls
      ensures CallFits(next, next.calls[other]) && LeaseFits(next, next.calls[other])
    {
      if other == call {
        if TookLease(next, next.calls[call]) {
          TakingHolds(s.log, entry);
          HoldsLess(next.log, c.token, |s.log| + 1, entry.at + LEASE, c.before + LEASE);
        }
      } else {
        var d := s.calls[other];
        assert CallFits(s, d) && LeaseFits(s, d);
        if TookLease(s, d) && !s.owners[d.token].lost && s.now < d.before + LEASE {
          AppendKeepsHolding(s.log, entry, d.token, d.stage.pos, d.before + LEASE);
        }
      }
    }
    forall token
      ensures OwnerFits(next, token)
    {
      ExecuteKeepsOwner(s, call, token);
    }
  }

  lemma HoldsLess(log: seq<Entry>, token: nat, from: nat, until: nat, less: nat)
    requires HoldsFrom(log, token, from, until) && less <= until
    ensures HoldsFrom(log, token, from, less)
  {}

  lemma HoldsLater(log: seq<Entry>, token: nat, from: nat, later: nat, until: nat)
    requires HoldsFrom(log, token, from, until) && from <= later
    ensures HoldsFrom(log, token, later, until)
  {}

  lemma ExecuteKeepsOwner(s: System, call: nat, token: nat)
    requires Inv(s) && Enabled(s, Execute(call))
    ensures OwnerFits(Apply(s, Execute(call)), token)
  {
    hide HoldsFrom, Run, HoldsUntil, Replays;
    var next := Apply(s, Execute(call));
    assert CallFits(s, s.calls[call]);
    assert OwnerFits(s, token);
    if token in s.owners && s.owners[token].deadline.Some? && !s.owners[token].lost {
      var deadline := s.owners[token].deadline.value;
      if s.now < deadline {
        AppendKeepsHolding(s.log, next.log[|s.log|], token, s.durable, deadline + (LEASE - SAFE));
      }
    }
  }

  lemma CrashKeepsInv(s: System, kept: nat)
    requires Inv(s) && Enabled(s, Crash(kept))
    ensures Inv(Apply(s, Crash(kept)))
  {
    hide HoldsFrom, Run, HoldsUntil, Replays;
    var next := Apply(s, Crash(kept));
    PrefixReplays(s.log, kept);
    forall call | call in next.calls
      ensures CallFits(next, next.calls[call]) && LeaseFits(next, next.calls[call])
    {
      var d := s.calls[call];
      assert CallFits(s, d) && LeaseFits(s, d);
      if TookLease(next, d) && !s.owners[d.token].lost && s.now < d.before + LEASE {
        PrefixHolds(s.log, kept, d.token, d.stage.pos, d.before + LEASE);
      }
    }
    forall token
      ensures OwnerFits(next, token)
    {
      assert OwnerFits(s, token);
      if token in s.owners && s.owners[token].deadline.Some? && !s.owners[token].lost {
        var deadline := s.owners[token].deadline.value;
        if s.now < deadline {
          HoldsLater(s.log, token, s.durable, kept, deadline + (LEASE - SAFE));
          PrefixHolds(s.log, kept, token, kept, deadline + (LEASE - SAFE));
        }
      }
    }
  }

  lemma FlushKeepsInv(s: System)
    requires Inv(s)
    ensures Inv(Apply(s, Flush))
  {
    hide HoldsFrom, Replays;
    var next := Apply(s, Flush);
    forall call | call in next.calls
      ensures CallFits(next, next.calls[call]) && LeaseFits(next, next.calls[call])
    {
      assert CallFits(s, s.calls[call]) && LeaseFits(s, s.calls[call]);
    }
    forall token
      ensures OwnerFits(next, token)
    {
      assert OwnerFits(s, token);
      if token in s.owners && s.owners[token].deadline.Some? {
        var until := s.owners[token].deadline.value + (LEASE - SAFE);
        if HoldsFrom(s.log, token, s.durable, until) {
          HoldsLater(s.log, token, s.durable, |s.log|, until);
        }
      }
    }
  }

  /** Giving up a lease, dropping requests and letting time pass need no more than before. */
  lemma GiveKeepsInv(s: System, token: nat)
    requires Inv(s)
    ensures Inv(Give(s, token))
  {
    hide HoldsFrom, Replays;
    var next := Give(s, token);
    forall call | call in next.calls
      ensures CallFits(next, next.calls[call]) && LeaseFits(next, next.calls[call])
    {
      assert CallFits(s, s.calls[call]) && LeaseFits(s, s.calls[call]);
    }
    forall other
      ensures OwnerFits(next, other)
    {
      assert OwnerFits(s, other);
    }
  }

  lemma DropKeepsInv(s: System, call: nat)
    requires Inv(s)
    ensures Inv(s.(calls := s.calls - {call}))
  {
    hide HoldsFrom, Replays;
    var next := s.(calls := s.calls - {call});
    forall other | other in next.calls
      ensures CallFits(next, next.calls[other]) && LeaseFits(next, next.calls[other])
    {
      assert CallFits(s, s.calls[other]) && LeaseFits(s, s.calls[other]);
    }
    forall token
      ensures OwnerFits(next, token)
    {
      assert OwnerFits(s, token);
    }
  }

  lemma WaitKeepsInv(s: System, ms: nat)
    requires Inv(s)
    ensures Inv(s.(now := s.now + ms))
  {
    hide HoldsFrom, Replays;
    var next := s.(now := s.now + ms);
    forall other | other in next.calls
      ensures CallFits(next, next.calls[other]) && LeaseFits(next, next.calls[other])
    {
      assert CallFits(s, s.calls[other]) && LeaseFits(s, s.calls[other]);
    }
    forall token
      ensures OwnerFits(next, token)
    {
      assert OwnerFits(s, token);
    }
  }

  lemma OpenKeepsInv(s: System, token: nat)
    requires Inv(s) && token !in s.owners
    ensures Inv(s.(owners := s.owners[token := Owner(None, false)]))
  {
    hide HoldsFrom, Replays;
    var next := s.(owners := s.owners[token := Owner(None, false)]);
    forall other | other in next.calls
      ensures CallFits(next, next.calls[other]) && LeaseFits(next, next.calls[other])
    {
      assert CallFits(s, s.calls[other]) && LeaseFits(s, s.calls[other]);
    }
    forall other
      ensures OwnerFits(next, other)
    {
      assert OwnerFits(s, other);
    }
  }

  /** A request that the store has not run yet, or whose entry it confirms, fits. */
  lemma CallKeepsInv(s: System, call: nat, c: Call)
    requires Inv(s) && CallFits(s, c) && LeaseFits(s, c)
    ensures Inv(s.(calls := s.calls[call := c]))
  {
    hide HoldsFrom, Replays;
    var next := s.(calls := s.calls[call := c]);
    forall other | other in next.calls
      ensures CallFits(next, next.calls[other]) && LeaseFits(next, next.calls[other])
    {
      if other != call {
        assert CallFits(s, s.calls[other]) && LeaseFits(s, s.calls[other]);
      }
    }
    forall token
      ensures OwnerFits(next, token)
    {
      assert OwnerFits(s, token);
    }
  }

  lemma TrustKeepsInv(s: System, token: nat, before: nat)
    requires Inv(s) && token in s.owners && before <= s.now
    requires !s.owners[token].lost && s.now < before + LEASE ==> HoldsFrom(s.log, token, s.durable, before + LEASE)
    ensures Inv(Trust(s, token, before))
  {
    hide HoldsFrom, Replays;
    if !s.owners[token].lost && s.now < before + SAFE {
      var next := Trust(s, token, before);
      forall other | other in next.calls
        ensures CallFits(next, next.calls[other]) && LeaseFits(next, next.calls[other])
      {
        assert CallFits(s, s.calls[other]) && LeaseFits(s, s.calls[other]);
      }
      forall other
        ensures OwnerFits(next, other)
      {
        assert OwnerFits(s, other);
      }
    } else {
      GiveKeepsInv(s, token);
    }
  }

  lemma AckKeepsInv(s: System, ack: Ack)
    requires Inv(s) && AckFits(s, ack)
    ensures Inv(s.(acks := s.acks + [ack]))
  {
    hide HoldsFrom, Replays;
    var next := s.(acks := s.acks + [ack]);
    forall other | other in next.calls
      ensures CallFits(next, next.calls[other]) && LeaseFits(next, next.calls[other])
    {
      assert CallFits(s, s.calls[other]) && LeaseFits(s, s.calls[other]);
    }
    forall other
      ensures OwnerFits(next, other)
    {
      assert OwnerFits(s, other);
    }
  }

  lemma FinishKeepsInv(s: System, call: nat)
    requires Inv(s) && Enabled(s, Finish(call))
    ensures Inv(Apply(s, Finish(call)))
  {
    hide HoldsFrom, Inv;
    var c := s.calls[call];
    CallOf(s, call);
    var rest := s.(calls := s.calls - {call});
    DropKeepsInv(s, call);
    GiveKeepsInv(rest, c.token);
    if TookLease(s, c) {
      FinishedTaking(s, rest, c);
    } else if c.stage.confirmed && AckFits(rest, Ack(c.stage.pos, c.stage.entry)) {
      AckKeepsInv(rest, Ack(c.stage.pos, c.stage.entry));
    }
  }

  lemma FinishedTaking(s: System, rest: System, c: Call)
    requires CallFits(s, c) && LeaseFits(s, c) && TookLease(s, c) && c.stage.confirmed
    requires Inv(rest) && rest == s.(calls := rest.calls)
    ensures Inv(Trust(rest, c.token, c.before))
  {
    hide HoldsFrom, Inv;
    if !s.owners[c.token].lost && s.now < c.before + LEASE {
      HoldsLater(s.log, c.token, c.stage.pos, s.durable, c.before + LEASE);
    }
    TrustKeepsInv(rest, c.token, c.before);
  }

  lemma CallOf(s: System, call: nat)
    requires Inv(s) && call in s.calls
    ensures CallFits(s, s.calls[call]) && LeaseFits(s, s.calls[call])
    ensures s.durable <= |s.log|
  {}

  lemma StepKeepsInv(s: System, step: Step)
    requires Inv(s) && Enabled(s, step)
    ensures Inv(Apply(s, step))
  {
    hide Inv, HoldsFrom;
    match step
    case Wait(ms) => WaitKeepsInv(s, ms);
    case Open(token) => OpenKeepsInv(s, token);
    case Send(call, token, op) => CallKeepsInv(s, call, Call(token, op, s.now, s.epoch, Sent));
    case Execute(call) => ExecuteKeepsInv(s, call);
    case Flush => FlushKeepsInv(s);
    case Confirm(call) => ConfirmKeepsInv(s, call);
    case Finish(call) => FinishKeepsInv(s, call);
    case Fail(call) =>
      DropKeepsInv(s, call);
      GiveKeepsInv(s.(calls := s.calls - {call}), s.calls[call].token);
    case Lose(token) => GiveKeepsInv(s, token);
    case Close(call, token) =>
      GiveKeepsInv(s, token);
      CallKeepsInv(Give(s, token), call, Call(token, Release, s.now, s.epoch, Sent));
    case Crash(kept) => CrashKeepsInv(s, kept);
  }

  lemma ConfirmKeepsInv(s: System, call: nat)
    requires Inv(s) && Enabled(s, Confirm(call))
    ensures Inv(Apply(s, Confirm(call)))
  {
    hide HoldsFrom, Inv;
    var c := s.calls[call];
    CallOf(s, call);
    CallKeepsInv(s, call, c.(stage := c.stage.(confirmed := true)));
  }
}
