/**
 One table per player when tables freeze and the lease runs out. A frozen table changes nothing more and
 shows what it knew, while its checkpoint may already have whoever was just let in.
 */
module Freezing {
  import opened Common
  import opened Playing

  /**
   The hub with the tables as their actors know them; which of them are frozen, whom a frozen join was
   about, at which tables the checkpoint of that join was written, and whether the lease is lost.
   */
  datatype Hub = Hub(base: State, frozen: set<int>, joiners: map<int, int>, written: set<int>, lost: bool)

  /**
   A join freezes its table when its checkpoint has an unknown outcome, which gives the lease up, or when
   its checkpoint was written and the notice of it could not be archived, which does not.
   */
  datatype Event =
    | Normal(step: Step)
    | FreezeJoin(op: int, written: bool, loses: bool)
    | FreezeMove(op: int)
    | FreezeOther(table: int)
    | Lose

  /** Steps that the lease is checked for. */
  predicate NeedsLease(step: Step) {
    step.Route? || step.Prepare? || step.Admit? || step.SaveNew? || step.Journal? || step.CleanUp? ||
    step.Shrink? || step.Convert? || step.Remove?
  }

  /** The table that a step changes or is asked of. */
  function Touched(s: State, step: Step): Option<int>
    requires Enabled(s, step)
  {
    match step
    case Begin(_, source, _, _, _) => Some(source)
    case Admit(op) => Some(s.ops[op].target)
    case Journal(op) => Some(s.ops[op].source)
    case CleanUp(op) => Some(s.ops[op].target)
    case Shrink(t, _) => Some(t)
    case Convert(t) => Some(t)
    case Remove(t) => Some(t)
    case _ => None
  }

  predicate Runs(h: Hub, t: int) {
    t in h.base.tables && t !in h.base.busy && t !in h.frozen
  }

  predicate Possible(h: Hub, e: Event) {
    match e
    case Normal(step) =>
      && Enabled(h.base, step) && (NeedsLease(step) ==> !h.lost)
      && (Touched(h.base, step).Some? ==> Touched(h.base, step).value !in h.frozen)
    case FreezeJoin(op, _, _) =>
      && At(h.base, op, Started) && h.base.ops[op].Join? && Runs(h, h.base.ops[op].target) && !h.lost
      && !h.base.tables[h.base.ops[op].target].replay && h.base.ops[op].user !in h.base.tables[h.base.ops[op].target].players
    case FreezeMove(op) =>
      && At(h.base, op, Allowed) && h.base.ops[op].Move? && !h.lost
      && h.base.ops[op].source in h.base.tables && h.base.ops[op].source !in h.frozen
    case FreezeOther(t) => Runs(h, t) && !h.lost
    case Lose => true
  }

  /** The actor publishes the table that it keeps, and answers the join with a failure. */
  function Next(h: Hub, e: Event): Hub
    requires Possible(h, e)
  {
    match e
    case Normal(step) => h.(base := Apply(h.base, step))
    case FreezeJoin(op, written, loses) =>
      var o := h.base.ops[op];
      Hub(Apply(Apply(h.base, Publish(o.target)), Reject(op)), h.frozen + {o.target}, h.joiners[o.target := o.user],
          if written then h.written + {o.target} else h.written, loses)
    case FreezeMove(op) => h.(base := Apply(h.base, Abandon(op)), frozen := h.frozen + {h.base.ops[op].source})
    case FreezeOther(t) => h.(base := Apply(h.base, Publish(t)), frozen := h.frozen + {t})
    case Lose => h.(lost := true)
  }

  /** Whom a table has: who plays there as the actor knows it, and whoever a frozen join has put into its checkpoint. */
  predicate Has(h: Hub, t: int, user: int) {
    Plays(h.base, t, user) || JoinWritten(h, t, user)
  }

  predicate JoinWritten(h: Hub, t: int, user: int) {
    t in h.written && t in h.joiners && h.joiners[t] == user
  }

  // ---------------------------------------------------------------------------------------------
  // The invariant.

  /** A frozen table stays, without whom its join was about, and its last view on its way shows that. */
  ghost predicate StaysFrozen(h: Hub, t: int) {
    && t in h.base.tables
    && (t in h.joiners ==>
          && !h.base.tables[t].replay && h.joiners[t] !in h.base.tables[t].players
          && !Shows(ViewAfter(h.base, |h.base.queue|, t), h.joiners[t]))
  }

  ghost predicate FrozenInv(h: Hub) {
    && Inv(h.base) && h.written <= h.joiners.Keys <= h.frozen
    && (forall t {:trigger StaysFrozen(h, t)} {:trigger t in h.frozen} :: t in h.frozen ==> StaysFrozen(h, t))
  }

  /** What a step adds to the mailbox, if anything, says of a table what its actor knows. */
  predicate Truthful(s: State, m: Message) {
    match m
    case Effects(t, r) => t in s.tables ==> r == s.tables[t]
    case Install(_, t, r, _) => t in s.tables ==> r == s.tables[t]
    case _ => true
  }

  lemma StepAdds(s: State, step: Step) returns (m: Option<Message>)
    requires Enabled(s, step) && !step.Deliver?
    ensures Apply(s, step).views == s.views
    ensures Apply(s, step).queue == s.queue + (if m.Some? then [m.value] else [])
    ensures m.Some? ==> Truthful(s, m.value)
  {
    m := None;
    match step
    case Check(op) => m := Some(Ask(op));
    case Reject(op) => m := Some(Finished(op));
    case Publish(t) => m := Some(Effects(t, s.tables[t]));
    case PublishJoin(op) => m := Some(Effects(s.ops[op].target, TableOf(s, s.ops[op].target)));
    case PublishMove(op) => m := Some(Effects(s.ops[op].source, TableOf(s, s.ops[op].source)));
    case Send(op, accepted) => m := Some(Install(op, s.ops[op].target, TableOf(s, s.ops[op].target), accepted));
    case Answer(op) => m := Some(Finished(op));
    case SendRetire(t) => m := Some(Retire(t));
    case _ => {}
  }

  /** A table that a step does not touch stays as it is. */
  lemma UntouchedStays(s: State, step: Step, t: int)
    requires Inv(s) && Enabled(s, step) && t in s.tables && Touched(s, step) != Some(t)
    ensures t in Apply(s, step).tables && Apply(s, step).tables[t] == s.tables[t]
  {
    if step.SaveNew? || step.Journal? {
      AddedStays(s, step, t);
    } else {
      hide Inv, Delivered, TableOf, Elsewhere;
      if step.Deliver? {
        SeenTables(s);
      }
    }
  }

  lemma AddedStays(s: State, step: Step, t: int)
    requires Inv(s) && Enabled(s, step) && t in s.tables && Touched(s, step) != Some(t)
    requires step.SaveNew? || step.Journal?
    ensures t in Apply(s, step).tables && Apply(s, step).tables[t] == s.tables[t]
  {
    hide Unique, Covered, CatchesUp, Clears, Owned, Orderly, Fresh, Delivered, TableOf, Elsewhere;
    NewIsNew(s, step.op);
  }

  lemma NewIsNew(s: State, op: int)
    requires Fresh(s) && op in s.ops && Uncreated(s.ops[op])
    ensures s.ops[op].target !in s.tables
  {}

  lemma SeenTables(s: State)
    requires s.queue != []
    ensures Delivered(s).tables == s.tables
  {
    hide Elsewhere;
  }

  /** The last view on its way stays as it is, or comes to show what the actor knows. */
  lemma LastView(s: State, step: Step, t: int, user: int)
    requires Inv(s) && Enabled(s, step) && t in s.tables && user !in s.tables[t].players
    requires !Shows(ViewAfter(s, |s.queue|, t), user)
    ensures !Shows(ViewAfter(Apply(s, step), |Apply(s, step).queue|, t), user)
  {
    hide Inv, Truthful, Enabled;
    var next := Apply(s, step);
    if step.Deliver? {
      HandledQueue(s);
      ViewShifts(s, next, |next.queue|, t);
    } else {
      var m := StepAdds(s, step);
      if m.Some? {
        assert next.queue[..|s.queue|] == s.queue && next.queue[|s.queue|] == m.value;
        ViewBefore(s, next, |s.queue|, t);
        TruthfulView(s, ViewAfter(s, |s.queue|, t), m.value, t, user);
      } else {
        assert next.queue == s.queue;
        ViewBefore(s, next, |s.queue|, t);
      }
    }
  }

  lemma TruthfulView(s: State, view: Option<Roster>, m: Message, t: int, user: int)
    requires Truthful(s, m) && t in s.tables && user !in s.tables[t].players && !Shows(view, user)
    ensures !Shows(NextView(view, m, t), user)
  {}

  lemma HandledQueue(s: State)
    requires Enabled(s, Deliver)
    ensures s.queue != []
    ensures Apply(s, Deliver).queue == s.queue[1..] && Apply(s, Deliver).views == Seen(s.views, s.queue[0])
  {
    hide Elsewhere;
  }

  /** One step of the hub or of an actor that leaves a frozen table alone. */
  lemma StepStaysFrozen(h: Hub, step: Step, t: int)
    requires Inv(h.base) && Enabled(h.base, step) && Touched(h.base, step) != Some(t) && StaysFrozen(h, t)
    ensures StaysFrozen(h.(base := Apply(h.base, step)), t)
  {
    hide Inv, Enabled, Apply, Touched;
    UntouchedStays(h.base, step, t);
    if t in h.joiners {
      LastView(h.base, step, t, h.joiners[t]);
    }
  }

  lemma BaseStepKeeps(h: Hub, step: Step)
    requires FrozenInv(h) && Enabled(h.base, step)
    requires Touched(h.base, step).Some? ==> Touched(h.base, step).value !in h.frozen
    ensures FrozenInv(h.(base := Apply(h.base, step)))
  {
    hide Inv, Enabled, Apply, Touched, StaysFrozen;
    StepKeepsInv(h.base, step);
    forall t {:trigger StaysFrozen(h.(base := Apply(h.base, step)), t)} | t in h.frozen
      ensures StaysFrozen(h.(base := Apply(h.base, step)), t)
    {
      StepStaysFrozen(h, step, t);
    }
  }

  /** The last view that a publication leaves is what it says. */
  lemma PublishedView(s: State, t: int, user: int)
    requires Inv(s) && Enabled(s, Publish(t)) && user !in s.tables[t].players
    ensures !Shows(ViewAfter(Apply(s, Publish(t)), |Apply(s, Publish(t)).queue|, t), user)
  {
    hide Inv;
    var next := Apply(s, Publish(t));
    assert next.queue[..|s.queue|] == s.queue && next.queue[|s.queue|] == Effects(t, s.tables[t]);
  }

  lemma FreezeKeeps(h: Hub, t: int)
    requires FrozenInv(h) && t in h.base.tables && t !in h.frozen
    ensures FrozenInv(h.(frozen := h.frozen + {t}))
  {
    hide Inv, StaysFrozen;
    var next := h.(frozen := h.frozen + {t});
    forall u {:trigger StaysFrozen(next, u)} | u in next.frozen
      ensures StaysFrozen(next, u)
    {
      if u != t {
        assert StaysFrozen(h, u);
        SameFrozen(h, next, u);
      } else {
        NobodyJoins(next, t);
      }
    }
  }

  lemma SameFrozen(h: Hub, next: Hub, t: int)
    requires StaysFrozen(h, t) && next.base == h.base && (t in next.joiners <==> t in h.joiners)
    requires t in h.joiners ==> next.joiners[t] == h.joiners[t]
    ensures StaysFrozen(next, t)
  {}

  lemma NobodyJoins(h: Hub, t: int)
    requires t in h.base.tables && t !in h.joiners
    ensures StaysFrozen(h, t)
  {}

  lemma FreezeJoinKeeps(h: Hub, e: Event)
    requires FrozenInv(h) && Possible(h, e) && e.FreezeJoin?
    ensures FrozenInv(Next(h, e))
  {
    hide Inv, Enabled, Apply, StaysFrozen;
    var o := h.base.ops[e.op];
    var t := o.target;
    StartedJoin(h.base, e.op);
    BaseStepKeeps(h, Publish(t));
    PublishedView(h.base, t, o.user);
    var published := h.(base := Apply(h.base, Publish(t)));
    BaseStepKeeps(published, Reject(e.op));
    var mid := Apply(h.base, Publish(t));
    LastView(mid, Reject(e.op), t, o.user);
    var next := Next(h, e);
    forall u {:trigger StaysFrozen(next, u)} | u in next.frozen
      ensures StaysFrozen(next, u)
    {
      if u != t {
        SameFrozen(published.(base := Apply(mid, Reject(e.op))), next, u);
      } else {
        JoinerOut(next, t);
      }
    }
  }

  lemma JoinerOut(h: Hub, t: int)
    requires t in h.base.tables && t in h.joiners && !h.base.tables[t].replay && h.joiners[t] !in h.base.tables[t].players
    requires !Shows(ViewAfter(h.base, |h.base.queue|, t), h.joiners[t])
    ensures StaysFrozen(h, t)
  {}

  /** A table can publish before it refuses a join, and nothing else changes. */
  lemma StartedJoin(s: State, op: int)
    requires At(s, op, Started) && s.ops[op].Join? && s.ops[op].target in s.tables && s.ops[op].target !in s.busy
    ensures var t := s.ops[op].target;
            && Enabled(s, Publish(t)) && Touched(s, Publish(t)).None?
            && var next := Apply(s, Publish(t));
            && next.tables == s.tables && next.ops == s.ops
            && Enabled(next, Reject(op)) && Touched(next, Reject(op)).None?
            && Apply(next, Reject(op)).tables == s.tables
  {}

  lemma NextKeepsInv(h: Hub, e: Event)
    requires FrozenInv(h) && Possible(h, e)
    ensures FrozenInv(Next(h, e))
  {
    hide Inv, StaysFrozen, Enabled, Apply;
    match e
    case Normal(step) => BaseStepKeeps(h, step);
    case FreezeJoin(_, _, _) => FreezeJoinKeeps(h, e);
    case FreezeMove(op) =>
      MayAbandon(h.base, op);
      BaseStepKeeps(h, Abandon(op));
      FreezeKeeps(h.(base := Apply(h.base, Abandon(op))), h.base.ops[op].source);
    case FreezeOther(t) =>
      MayPublish(h.base, t);
      BaseStepKeeps(h, Publish(t));
      FreezeKeeps(h.(base := Apply(h.base, Publish(t))), t);
    case Lose => {
      forall t {:trigger StaysFrozen(Next(h, e), t)} | t in h.frozen
        ensures StaysFrozen(Next(h, e), t)
      {
        SameFrozen(h, Next(h, e), t);
      }
    }
  }

  lemma MayAbandon(s: State, op: int)
    requires At(s, op, Allowed) && s.ops[op].Move?
    ensures Enabled(s, Abandon(op)) && Touched(s, Abandon(op)).None? && Apply(s, Abandon(op)).tables == s.tables
  {}

  lemma MayPublish(s: State, t: int)
    requires t in s.tables && t !in s.busy
    ensures Enabled(s, Publish(t)) && Touched(s, Publish(t)).None? && Apply(s, Publish(t)).tables == s.tables
  {}

  // ---------------------------------------------------------------------------------------------
  // Runs.

  ghost predicate StartsRunning(h: Hub) {
    Begins(h.base) && h.frozen == {} && h.joiners == map[] && h.written == {} && !h.lost
  }

  ghost predicate IsHistory(states: seq<Hub>, events: seq<Event>) {
    && |states| == |events| + 1 && StartsRunning(states[0])
    && (forall i {:trigger states[i]} :: 0 <= i < |events| ==> Follows(states[i], events[i], states[i + 1]))
  }

  predicate Follows(h: Hub, e: Event, next: Hub) {
    Possible(h, e) && next == Next(h, e)
  }

  lemma {:induction false} HistoryKeepsInv(states: seq<Hub>, events: seq<Event>, i: nat)
    requires IsHistory(states, events) && i < |states|
    ensures FrozenInv(states[i])
  {
    hide Inv, Possible, Next, Begins;
    if i == 0 {
      BeginsWell(states[0].base);
    } else {
      HistoryKeepsInv(states, events, i - 1);
      assert Follows(states[i - 1], events[i - 1], states[i - 1 + 1]);
      NextKeepsInv(states[i - 1], events[i - 1]);
    }
  }

  /** Whoever two tables have, one of them froze in that player's own join after writing its checkpoint. */
  lemma OnlyFrozenJoiners(states: seq<Hub>, events: seq<Event>, i: nat, t: int, u: int, user: int)
    requires IsHistory(states, events) && i < |states| && Has(states[i], t, user) && Has(states[i], u, user) && t != u
    ensures JoinWritten(states[i], t, user) || JoinWritten(states[i], u, user)
  {
    hide Covered, CatchesUp, Clears, Owned, Fresh, Orderly, IsHistory, StaysFrozen;
    HistoryKeepsInv(states, events, i);
  }

  // ---------------------------------------------------------------------------------------------
  // No checkpoint of a frozen join with the lease still held.

  /** Once a frozen join has written its checkpoint, the lease is lost. */
  ghost predicate Careful(h: Hub) {
    && (h.written != {} ==> h.lost)
    && forall t, u, user {:trigger Has(h, t, user), Has(h, u, user)} :: Has(h, t, user) && Has(h, u, user) ==> t == u
  }

  predicate GivesUp(e: Event) {
    e.FreezeJoin? && e.written ==> e.loses
  }

  /** Without the lease nobody is added. */
  lemma NobodyAdded(s: State, step: Step)
    requires Enabled(s, step) && !NeedsLease(step)
    ensures Apply(s, step).tables == s.tables
  {
    if step.Deliver? {
      SeenTables(s);
    }
  }

  lemma CarefulNext(h: Hub, e: Event)
    requires FrozenInv(h) && Careful(h) && Possible(h, e) && GivesUp(e)
    ensures Careful(Next(h, e))
  {
    hide Covered, CatchesUp, Clears, Owned, Fresh, Orderly, StaysFrozen, Apply, Enabled;
    var next := Next(h, e);
    NextKeepsInv(h, e);
    if h.lost {
      if e.Normal? {
        NobodyAdded(h.base, e.step);
      }
      assert forall t, user :: Has(next, t, user) ==> Has(h, t, user);
    } else if next.written != {} {
      JoinerAlone(h, e);
    } else {
      assert forall t, user :: Has(next, t, user) ==> Plays(next.base, t, user);
    }
  }

  /** The player of a join plays at no other table. */
  lemma JoinerAlone(h: Hub, e: Event)
    requires Inv(h.base) && h.written == {} && Possible(h, e) && e.FreezeJoin?
    ensures forall t, u, user :: Has(Next(h, e), t, user) && Has(Next(h, e), u, user) ==> t == u
  {
    hide Covered, CatchesUp, Owned, Fresh, Orderly, Apply, Enabled;
    var o := h.base.ops[e.op];
    StartedJoin(h.base, e.op);
    assert Clear(h.base, e.op, o);
    var next := Next(h, e);
    assert next.base.tables == h.base.tables;
    forall t, user | Has(next, t, user)
      ensures Plays(h.base, t, user) || (t == o.target && user == o.user)
    {}
    assert forall t :: Plays(h.base, t, o.user) ==> t == o.target;
  }

  lemma {:induction false} CarefulHistory(states: seq<Hub>, events: seq<Event>, i: nat)
    requires IsHistory(states, events) && i < |states| && forall k {:trigger events[k]} :: 0 <= k < i ==> GivesUp(events[k])
    ensures Careful(states[i])
  {
    hide Inv, Possible, Next, Careful, FrozenInv, GivesUp;
    if i == 0 {
      StartsCareful(states[0]);
    } else {
      CarefulHistory(states, events, i - 1);
      HistoryKeepsInv(states, events, i - 1);
      assert Follows(states[i - 1], events[i - 1], states[i - 1 + 1]);
      CarefulNext(states[i - 1], events[i - 1]);
    }
  }

  lemma StartsCareful(h: Hub)
    requires StartsRunning(h)
    ensures Careful(h)
  {}

  /**
   Nobody plays at two tables in any run, with tables freezing and the lease lost at any time, in which
   every frozen join whose checkpoint was written gives the lease up.
   */
  lemma OneTableDespiteFreezing(states: seq<Hub>, events: seq<Event>, i: nat, t: int, u: int, user: int)
    requires IsHistory(states, events) && i < |states| && forall k {:trigger events[k]} :: 0 <= k < i ==> GivesUp(events[k])
    requires Has(states[i], t, user) && Has(states[i], u, user)
    ensures t == u
  {
    hide IsHistory, Has, GivesUp;
    CarefulHistory(states, events, i);
  }

  // ---------------------------------------------------------------------------------------------
  // Otherwise.

  /** A table that would take a player in who asks now. */
  predicate Joinable(h: Hub, u: int) {
    u in h.base.views && Runs(h, u) && !h.base.tables[u].replay
  }

  /** Whether a player, routed to a table now, is let in there and is at the other one as well. */
  predicate EntersSecond(h: Hub, op: int, user: int, t: int, u: int) {
    && Possible(h, Normal(Route(op, user, u)))
    && var routed := Next(h, Normal(Route(op, user, u)));
    && Possible(routed, Normal(Admit(op)))
    && var let := Next(routed, Normal(Admit(op)));
    && Has(let, t, user) && Has(let, u, user)
  }

  /**
   In every reachable state, the player whose join froze one table gets into a second one that can be
   joined exactly when the checkpoint of the join was written, the lease is still held, no view but that
   of the second table shows the player, and nothing claims the player.
   */
  lemma SecondTableExactly(states: seq<Hub>, events: seq<Event>, i: nat, op: int, user: int, t: int, u: int)
    requires IsHistory(states, events) && i < |states|
    requires t in states[i].joiners && states[i].joiners[t] == user && u != t
    requires op !in states[i].base.ops && Joinable(states[i], u)
    ensures EntersSecond(states[i], op, user, t, u) <==>
              && t in states[i].written && !states[i].lost
              && user !in states[i].base.claims && !Elsewhere(states[i].base, user, Some(u))
  {
    hide IsHistory, Inv;
    HistoryKeepsInv(states, events, i);
    assert StaysFrozen(states[i], t);
  }

  /**
   However much later the table of the second join gets to it: in every reachable state in which the player
   of a frozen join has been routed to another table, that table lets the player in and both have the player
   exactly when the other table runs and is no review, the lease is still held, and the checkpoint of the
   frozen join was written.
   */
  lemma AdmittedLaterExactly(states: seq<Hub>, events: seq<Event>, i: nat, op: int, user: int, t: int, u: int)
    requires IsHistory(states, events) && i < |states|
    requires t in states[i].joiners && states[i].joiners[t] == user && u != t
    requires op in states[i].base.ops && states[i].base.ops[op] == Join(u, user, Started)
    ensures EntersNow(states[i], op, user, t, u) <==>
              && t in states[i].written && !states[i].lost && Runs(states[i], u) && !states[i].base.tables[u].replay
  {
    hide IsHistory, Inv;
    HistoryKeepsInv(states, events, i);
    assert StaysFrozen(states[i], t);
  }

  /** Whether a join that waits at its table is let in there, and the player is at the other table as well. */
  predicate EntersNow(h: Hub, op: int, user: int, t: int, u: int) {
    && Possible(h, Normal(Admit(op)))
    && var let := Next(h, Normal(Admit(op)));
    && Has(let, t, user) && Has(let, u, user)
  }

  /** Once the mailbox is empty, the view of the frozen table does not show that player any more. */
  lemma FrozenViewForgets(states: seq<Hub>, events: seq<Event>, i: nat, t: int)
    requires IsHistory(states, events) && i < |states| && t in states[i].joiners && states[i].base.queue == []
    ensures !Shows(ViewOf(states[i].base, t), states[i].joiners[t])
  {
    hide IsHistory, Inv;
    HistoryKeepsInv(states, events, i);
    assert StaysFrozen(states[i], t);
    assert ViewAfter(states[i].base, 0, t) == ViewOf(states[i].base, t);
  }

  const EMPTY_TABLES: map<int, Roster> := map[1 := Roster({}, false), 2 := Roster({}, false)]
  const START := Hub(State(EMPTY_TABLES, EMPTY_TABLES, [], map[], map[], {}, {1, 2}), {}, map[], {}, false)

  /** Player 7 joins table 1, whose notice cannot be archived; the claim is given back, and table 2 lets the player in. */
  const EVENTS := [Normal(Route(0, 7, 1)), FreezeJoin(0, true, false), Normal(Deliver), Normal(Deliver),
                   Normal(Route(1, 7, 2)), Normal(Admit(1))]

  const ROUTED := START.(base := START.base.(ops := map[0 := Join(1, 7, Started)], claims := map[7 := 0]))
  const FAILED := Hub(ROUTED.base.(ops := map[0 := Join(1, 7, Leaving)], queue := [Effects(1, Roster({}, false)), Finished(0)]),
                      {1}, map[1 := 7], {1}, false)
  const SHOWN := FAILED.(base := FAILED.base.(queue := [Finished(0)]))
  const FREED := SHOWN.(base := START.base)
  const ROUTED_AGAIN := FREED.(base := START.base.(ops := map[1 := Join(2, 7, Started)], claims := map[7 := 1]))
  const LET_IN := FREED.(base := ROUTED_AGAIN.base.(ops := map[1 := Join(2, 7, Saved)],
                                                     tables := map[1 := Roster({}, false), 2 := Roster({7}, false)]))

  lemma FreezingLetsPlayerIntoTwo()
    ensures IsHistory([START, ROUTED, FAILED, SHOWN, FREED, ROUTED_AGAIN, LET_IN], EVENTS) && Has(LET_IN, 1, 7) && Has(LET_IN, 2, 7)
  {
    hide Follows;
    FirstRoute();
    JoinFreezes();
    FailureShown();
    ClaimReturned();
    SecondRoute();
    SecondAdmitted();
  }

  lemma FirstRoute()
    ensures Follows(START, EVENTS[0], ROUTED)
  {
    assert ROUTED.base == Apply(START.base, Route(0, 7, 1));
  }

  lemma JoinFreezes()
    ensures Follows(ROUTED, EVENTS[1], FAILED)
  {
    assert FAILED.base.tables == ROUTED.base.tables;
  }

  lemma FailureShown()
    ensures Follows(FAILED, EVENTS[2], SHOWN)
  {
    assert FAILED.base.queue[0] == Effects(1, Roster({}, false)) && FAILED.base.queue[1..] == [Finished(0)];
    SameByNumber(EMPTY_TABLES[1 := Roster({}, false)], EMPTY_TABLES);
  }

  lemma ClaimReturned()
    ensures Follows(SHOWN, EVENTS[3], FREED)
  {
    assert SHOWN.base.queue[0] == Finished(0) && SHOWN.base.queue[1..] == [];
    var left := Freed(SHOWN.base, 0);
    SameByNumber(left.ops, START.base.ops);
    SameByNumber(left.claims, START.base.claims);
  }

  lemma SecondRoute()
    ensures Follows(FREED, EVENTS[4], ROUTED_AGAIN)
  {
    assert ROUTED_AGAIN.base == Apply(START.base, Route(1, 7, 2));
  }

  lemma SecondAdmitted()
    ensures Follows(ROUTED_AGAIN, EVENTS[5], LET_IN) && Has(LET_IN, 1, 7) && Has(LET_IN, 2, 7)
  {
    var s := ROUTED_AGAIN.base;
    assert Added(s.tables[2], 7) == Roster({7}, false);
    SameByNumber(s.tables[2 := Roster({7}, false)], LET_IN.base.tables);
    SameByNumber(s.ops[1 := Join(2, 7, Saved)], LET_IN.base.ops);
  }
}
