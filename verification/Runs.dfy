/**
 What holds in every state that any interleaving of servers, requests, confirmations and crashes
 can reach.
 */
module Runs {
  import opened Common
  import opened Redis
  import opened Authority
  import opened Ledger

  ghost predicate IsRun(states: seq<System>, steps: seq<Step>) {
    && |states| == |steps| + 1
    && states[0] == INITIAL
    && (forall i {:trigger states[i]} :: 0 <= i < |steps| ==> Moves(states[i], steps[i], states[i + 1]))
  }

  predicate Moves(s: System, step: Step, next: System) {
    Enabled(s, step) && next == Apply(s, step)
  }

  lemma {:induction false} RunKeepsInv(states: seq<System>, steps: seq<Step>, i: nat)
    requires IsRun(states, steps) && i < |states|
    ensures Inv(states[i]) && Separate(states[i])
  {
    hide Inv, Separate, Apply, Enabled;
    if i == 0 {
      InitialFits();
    } else {
      RunKeepsInv(states, steps, i - 1);
      assert Moves(states[i - 1], steps[i - 1], states[i - 1 + 1]);
      StepKeepsInv(states[i - 1], steps[i - 1]);
      StepKeepsSeparate(states[i - 1], steps[i - 1]);
    }
  }

  lemma InitialFits()
    ensures Inv(INITIAL) && Separate(INITIAL)
  {}

  // ---------------------------------------------------------------------------------------------
  // Mutual exclusion.

  /**
   A server whose check passes holds the lease in the store, with a quarter of the lease time to
   spare, and goes on holding it whatever a crash makes the store forget.
   */
  lemma CheckedOwnerHolds(states: seq<System>, steps: seq<Step>, i: nat, token: nat, kept: nat)
    requires IsRun(states, steps) && i < |states| && Check(states[i], token)
    requires states[i].durable <= kept <= |states[i].log|
    ensures Holds(DbAt(states[i].log, kept), states[i].now, token)
    ensures states[i].owners[token].deadline.value + LEASE / 4 <= DbAt(states[i].log, kept).lease.value.expires
  {
    RunKeepsInv(states, steps, i);
    assert OwnerFits(states[i], token);
    assert HoldsUntil(DbAt(states[i].log, kept), token, states[i].owners[token].deadline.value + (LEASE - SAFE));
  }

  /** No two servers pass their checks at the same moment. */
  lemma MutualExclusion(states: seq<System>, steps: seq<Step>, i: nat, a: nat, b: nat)
    requires IsRun(states, steps) && i < |states|
    requires Check(states[i], a) && Check(states[i], b)
    ensures a == b
  {
    hide Check, IsRun;
    RunKeepsInv(states, steps, i);
    var s := states[i];
    CheckedOwnerHolds(states, steps, i, a, |s.log|);
    CheckedOwnerHolds(states, steps, i, b, |s.log|);
  }

  /** While a server passes its check, a script of any other server leaves the store alone. */
  lemma OthersAreFencedOff(states: seq<System>, steps: seq<Step>, i: nat, token: nat)
    requires IsRun(states, steps) && i < |steps| && Check(states[i], token)
    requires steps[i].Execute? && states[i].calls[steps[i].call].token != token
    ensures Current(states[i + 1]) == Current(states[i])
  {
    hide Check;
    assert Moves(states[i], steps[i], states[i + 1]);
    RunKeepsInv(states, steps, i);
    var s := states[i];
    CheckedOwnerHolds(states, steps, i, token, |s.log|);
  }

  // ---------------------------------------------------------------------------------------------
  // Durability.

  /** The confirmed part of the log is never taken back. */
  lemma StepKeepsDurable(s: System, step: Step)
    requires Inv(s) && Enabled(s, step)
    ensures var next := Apply(s, step);
            && s.durable <= next.durable <= |next.log|
            && next.log[..s.durable] == s.log[..s.durable]
            && s.acks <= next.acks
  {
    hide Replays;
    if step.Finish? {
      CallOf(s, step.call);
    }
  }

  lemma {:induction false} DurablePrefixSurvives(states: seq<System>, steps: seq<Step>, i: nat, j: nat)
    requires IsRun(states, steps) && i <= j < |states|
    ensures states[i].durable <= states[j].durable <= |states[j].log|
    ensures states[i].durable <= |states[i].log| && states[j].log[..states[i].durable] == states[i].log[..states[i].durable]
    ensures states[i].acks <= states[j].acks
    decreases j - i
  {
    hide Inv, Separate, Apply, Enabled;
    RunKeepsInv(states, steps, i);
    InvBounds(states[i]);
    if i < j {
      assert Moves(states[i], steps[i], states[i + 1]);
      StepKeepsDurable(states[i], steps[i]);
      DurablePrefixSurvives(states, steps, i + 1, j);
      PrefixOfPrefix(states[i].log, states[i + 1].log, states[j].log, states[i].durable, states[i + 1].durable);
    }
  }

  lemma InvBounds(s: System)
    requires Inv(s)
    ensures s.durable <= |s.log|
  {}

  lemma PrefixOfPrefix<T>(a: seq<T>, b: seq<T>, c: seq<T>, m: nat, n: nat)
    requires m <= |a| && m <= n && n <= |b| && n <= |c|
    requires b[..m] == a[..m] && c[..n] == b[..n]
    ensures c[..m] == a[..m]
  {
    assert c[..m] == c[..n][..m] && b[..m] == b[..n][..m];
  }

  /** Whatever was acknowledged is in the log from then on, at the place where it was executed. */
  lemma AcknowledgedWritesSurvive(states: seq<System>, steps: seq<Step>, i: nat, j: nat, ack: Ack)
    requires IsRun(states, steps) && i <= j < |states| && ack in states[i].acks
    ensures ack in states[j].acks && AckFits(states[j], ack)
  {
    RunKeepsInv(states, steps, j);
    DurablePrefixSurvives(states, steps, i, j);
  }

  /**
   An acknowledged save is in the store in every later state, until a removal that the store
   executed after it: unchanged, or under a later revision.
   */
  lemma AcknowledgedSaveSurvives(states: seq<System>, steps: seq<Step>, i: nat, j: nat, ack: Ack)
    requires IsRun(states, steps) && i <= j < |states| && ack in states[i].acks
    requires ack.entry.op.Save?
    ensures 1 <= ack.pos <= |states[j].log|
    ensures var id := ack.entry.op.id;
            var db := Current(states[j]);
            || RemovedAfter(states[j].log, id, ack.pos)
            || (&& id in db.records
                && db.records[id].revision >= ack.entry.code
                && (db.records[id].revision == ack.entry.code ==> db.records[id].payload == ack.entry.op.payload))
  {
    hide Inv, Separate, IsRun, Run, Replays, Follows, RemovedAfter, CreatedAfter;
    RunKeepsInv(states, steps, j);
    AcknowledgedWritesSurvive(states, steps, i, j, ack);
    InvReplays(states[j]);
    SaveLasts(states[j].log, ack.entry.op.id, ack.pos, |states[j].log|);
  }

  /** An acknowledged removal is final until the store executed a fresh reservation of the identity. */
  lemma AcknowledgedRemovalSurvives(states: seq<System>, steps: seq<Step>, i: nat, j: nat, ack: Ack)
    requires IsRun(states, steps) && i <= j < |states| && ack in states[i].acks
    requires ack.entry.op.Remove?
    ensures 1 <= ack.pos <= |states[j].log|
    ensures ack.entry.op.id !in Current(states[j]).records || CreatedAfter(states[j].log, ack.entry.op.id, ack.pos)
  {
    hide Inv, Separate, IsRun, Run, Replays, Follows, RemovedAfter, CreatedAfter;
    RunKeepsInv(states, steps, j);
    AcknowledgedWritesSurvive(states, steps, i, j, ack);
    InvReplays(states[j]);
    RemovalLasts(states[j].log, ack.entry.op.id, ack.pos, |states[j].log|);
  }

  lemma InvReplays(s: System)
    requires Inv(s)
    ensures Replays(s.log)
  {}

  /** The store is consistent in every reachable state, and in every state a crash could leave. */
  lemma StoreIsConsistent(states: seq<System>, steps: seq<Step>, i: nat, k: nat)
    requires IsRun(states, steps) && i < |states| && k <= |states[i].log|
    ensures Consistent(DbAt(states[i].log, k))
  {
    RunKeepsInv(states, steps, i);
    LogConsistent(states[i].log, k);
  }

  lemma CheckpointsAreReadable(states: seq<System>, steps: seq<Step>, i: nat)
    requires IsRun(states, steps) && i < |states|
    ensures Readable(Current(states[i]))
  {
    RunKeepsInv(states, steps, i);
    LogReadable(states[i].log, |states[i].log|);
  }

  /** Acknowledged table identities are all different, and grow in the order of their execution. */
  lemma AcknowledgedIdentitiesGrow(states: seq<System>, steps: seq<Step>, i: nat, m: nat, n: nat)
    requires IsRun(states, steps) && i < |states|
    requires m < |states[i].acks| && n < |states[i].acks| && m != n
    requires states[i].acks[m].entry.op.Allocate? && states[i].acks[n].entry.op.Allocate?
    ensures states[i].acks[m].pos != states[i].acks[n].pos
    ensures states[i].acks[m].pos < states[i].acks[n].pos ==>
              states[i].acks[m].entry.code < states[i].acks[n].entry.code
    ensures states[i].acks[m].entry.code != states[i].acks[n].entry.code
  {
    hide IsRun, Run, Follows, DbAt, OwnerFits, LeaseFits, CallFits;
    RunKeepsInv(states, steps, i);
    var s := states[i];
    var a, b := s.acks[m], s.acks[n];
    assert AckFits(s, a) && AckFits(s, b);
    if a.pos < b.pos {
      IdentitiesGrow(s.log, a.pos - 1, b.pos - 1);
    } else if b.pos < a.pos {
      IdentitiesGrow(s.log, b.pos - 1, a.pos - 1);
    }
  }

  // ---------------------------------------------------------------------------------------------
  // No entry is reported twice.

  lemma StepKeepsSeparate(s: System, step: Step)
    requires Inv(s) && Separate(s) && Enabled(s, step)
    ensures Separate(Apply(s, step))
  {
    hide Inv, Separate;
    match step
    case Send(call, token, op) => SentKeepsSeparate(s, s, call, Call(token, op, s.now, s.epoch, Sent));
    case Close(call, token) => SentKeepsSeparate(s, Give(s, token), call, Call(token, Release, s.now, s.epoch, Sent));
    case Execute(call) => ExecuteKeepsSeparate(s, call);
    case Confirm(call) => ConfirmKeepsSeparate(s, call);
    case Finish(call) => FinishKeepsSeparate(s, call);
    case Fail(call) => FewerCallsSeparate(s, Apply(s, step));
    case Crash(kept) => CrashKeepsSeparate(s, kept);
    case _ => FewerCallsSeparate(s, Apply(s, step));
  }

  lemma FewerCallsSeparate(s: System, next: System)
    requires Separate(s)
    requires next.acks == s.acks && s.epoch <= next.epoch
    requires forall call :: call in next.calls ==> call in s.calls && next.calls[call] == s.calls[call]
    requires forall call {:trigger s.calls[call]} :: call in next.calls && Counted(next, s.calls[call]) ==> Counted(s, s.calls[call])
    ensures Separate(next)
  {}

  lemma CrashKeepsSeparate(s: System, kept: nat)
    requires Inv(s) && Separate(s) && Enabled(s, Crash(kept))
    ensures Separate(Apply(s, Crash(kept)))
  {
    hide Separate, Replays, OwnerFits, LeaseFits;
    assert forall other {:trigger s.calls[other]} :: other in s.calls ==> CallFits(s, s.calls[other]);
    FewerCallsSeparate(s, Apply(s, Crash(kept)));
  }

  lemma SentKeepsSeparate(s: System, same: System, call: nat, c: Call)
    requires Separate(s) && same.calls == s.calls && same.acks == s.acks && same.epoch == s.epoch && c.stage.Sent?
    ensures Separate(same.(calls := s.calls[call := c]))
  {}

  lemma ConfirmKeepsSeparate(s: System, call: nat)
    requires Separate(s) && Enabled(s, Confirm(call))
    ensures Separate(Apply(s, Confirm(call)))
  {}

  lemma ExecuteKeepsSeparate(s: System, call: nat)
    requires Inv(s) && Separate(s) && Enabled(s, Execute(call))
    ensures Separate(Apply(s, Execute(call)))
  {
    hide Replays, OwnerFits, LeaseFits, Run;
    var next := Apply(s, Execute(call));
    assert forall other {:trigger s.calls[other]} :: other in s.calls ==> CallFits(s, s.calls[other]);
    assert forall i {:trigger s.acks[i]} :: 0 <= i < |s.acks| ==> AckFits(s, s.acks[i]);
    assert next.acks == s.acks && next.epoch == s.epoch;
  }

  lemma FinishKeepsSeparate(s: System, call: nat)
    requires Inv(s) && Separate(s) && Enabled(s, Finish(call))
    ensures Separate(Apply(s, Finish(call)))
  {
    hide Inv;
    CallOf(s, call);
    var next := Apply(s, Finish(call));
    assert next.calls == s.calls - {call} && next.epoch == s.epoch;
    assert next.acks == s.acks || (Counted(s, s.calls[call]) && next.acks == s.acks + [Ack(s.calls[call].stage.pos, s.calls[call].stage.entry)]);
  }

  // ---------------------------------------------------------------------------------------------
  // Progress.

  /** Whether these steps lead from one state to another. */
  predicate Leads(s: System, steps: seq<Step>, next: System)
    decreases |steps|
  {
    if steps == [] then s == next else Enabled(s, steps[0]) && Leads(Apply(s, steps[0]), steps[1..], next)
  }

  lemma LeadsFirst(s: System, step: Step, rest: seq<Step>, next: System)
    requires Enabled(s, step) && Leads(Apply(s, step), rest, next)
    ensures Leads(s, [step] + rest, next)
  {
    hide Apply, Enabled;
    assert ([step] + rest)[1..] == rest;
  }

  /** The way of a request that is neither lost nor late. */
  function Way(call: nat, token: nat, op: Op): seq<Step> {
    [Send(call, token, op)] + ([Execute(call)] + ([Flush] + ([Confirm(call)] + ([Finish(call)] + []))))
  }

  /**
   A request that is not refused and that the network and the store answer in time is reported as done;
   for a free lease this is how a server comes to pass its check, and for its own lease how it goes on
   passing it.
   */
  lemma AnsweredRequestCounts(s: System, token: nat, call: nat, op: Op) returns (next: System)
    requires Enabled(s, Send(call, token, op))
    requires op.Acquire? ==> !Held(Current(s), s.now)
    requires op.Renew? ==> Holds(Current(s), s.now, token)
    requires Run(Current(s), s.now, token, op).1 >= 0
    ensures Leads(s, Way(call, token, op), next)
    ensures op.Acquire? || op.Renew? ==> Check(next, token)
    ensures var (after, code) := Run(Current(s), s.now, token, op);
            !op.Acquire? && !op.Renew? ==> next.acks == s.acks + [Ack(|s.log| + 1, Entry(token, op, s.now, code, after))]
  {
    hide Run;
    var sent := Apply(s, Send(call, token, op));
    var executed := Apply(sent, Execute(call));
    var flushed := Apply(executed, Flush);
    var confirmed := Apply(flushed, Confirm(call));
    AcquiresFree(Current(s), s.now, token);
    assert sent.calls[call].op == op && confirmed.calls[call].op == op && confirmed.calls[call].token == token;
    next := Apply(confirmed, Finish(call));
    hide Apply, Enabled;
    LeadsFirst(confirmed, Finish(call), [], next);
    LeadsFirst(flushed, Confirm(call), [Finish(call)] + [], next);
    LeadsFirst(executed, Flush, [Confirm(call)] + ([Finish(call)] + []), next);
    LeadsFirst(sent, Execute(call), [Flush] + ([Confirm(call)] + ([Finish(call)] + [])), next);
    LeadsFirst(s, Send(call, token, op), [Execute(call)] + ([Flush] + ([Confirm(call)] + ([Finish(call)] + []))), next);
  }

  lemma AcquiresFree(db: Db, now: nat, token: nat)
    ensures !Held(db, now) ==> Run(db, now, token, Acquire).1 == 1
    ensures Holds(db, now, token) ==> Run(db, now, token, Renew).1 == 1
  {}
}
