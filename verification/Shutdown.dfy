/**
 Every interleaving of a drain with what the tables are still doing: changes that are under way, each of
 which writes to the shared stores whenever it is its turn, tables that freeze or retire, and a lease that
 may be lost at any time.
 */
module Shutdown {
  import opened Common
  import opened Model
  import opened Settling
  import opened Actor
  import Drain

  /** What an actor is doing; `clean` as long as its change has written nothing. */
  datatype Status = Idle | Changing(last: bool, clean: bool) | Retired | Stopped(ok: bool)

  datatype Member = Member(table: Table, revision: int, frozen: bool, status: Status)

  datatype Phase = Serving | Asking(asked: set<int>) | Closing(asked: set<int>) | Failed

  datatype State = State(members: map<int, Member>, world: World, lost: bool, answers: map<int, bool>, phase: Phase)

  datatype Step =
    | Install(t: Table, revision: int, after: World)
    | Begin(id: int, last: bool)
    | Write(id: int, after: World)
    | Keep(id: int, table: Table, revision: int)
    | Fail(id: int, freezes: bool)
    | KeepInMemory(id: int, next: Table)
    | Retire(id: int, after: World)
    | Quiesce
    | AnswerRetired(id: int)
    | Unreachable(id: int)
    | Lose
    | Decide

  predicate Asked(s: State, id: int) {
    s.phase.Asking? && id in s.phase.asked && id !in s.answers
  }

  predicate Does(s: State, id: int, status: Status) {
    id in s.members && s.members[id].status == status
  }

  predicate Changes(s: State, id: int) {
    id in s.members && s.members[id].status.Changing?
  }

  ghost predicate Enabled(s: State, step: Step) {
    match step
    // Tables may still be installed after the hub was asked for those that were there.
    case Install(t, revision, after) =>
      && t.id !in s.members && (s.phase.Asking? || s.phase.Closing? ==> t.id !in s.phase.asked) && !s.lost
      && OnlyTable(s.world, after, t.id) && At(after, t, revision)
    // A drain is the last command that an actor takes.
    case Begin(id, last) => Does(s, id, Idle) && (last ==> Asked(s, id))
    case Write(id, after) => Changes(s, id) && !s.members[id].frozen && OnlyTable(s.world, after, id)
    case Keep(id, table, revision) =>
      && Changes(s, id) && !s.members[id].frozen && !s.lost && table.id == id && At(s.world, table, revision)
    case Fail(id, freezes) => Changes(s, id) && (!freezes ==> s.members[id].status.clean)
    case KeepInMemory(id, next) => Does(s, id, Idle) && !s.members[id].frozen && !s.lost && next.id == id
    case Retire(id, after) =>
      && Does(s, id, Idle) && !s.members[id].frozen && !s.lost && OnlyTable(s.world, after, id) && id !in after.tables
    case Quiesce => s.phase == Serving
    case AnswerRetired(id) => Asked(s, id) && Does(s, id, Retired)
    case Unreachable(id) => Asked(s, id) && (id in s.members ==> !Changes(s, id))
    case Lose => true
    case Decide => s.phase.Asking? && forall id <- s.phase.asked :: id in s.answers
  }

  function With(s: State, id: int, m: Member): State {
    s.(members := s.members[id := m])
  }

  /** The end of a change, which answers the drain if it was asked for by it. */
  function Ended(s: State, id: int, m: Member, ok: bool): State
    requires Changes(s, id)
  {
    if s.members[id].status.last then With(s, id, m.(status := Stopped(ok))).(answers := s.answers[id := ok])
    else With(s, id, m.(status := Idle))
  }

  ghost function Apply(s: State, step: Step): State
    requires Enabled(s, step)
  {
    match step
    case Install(t, revision, after) => With(s, t.id, Member(t, revision, false, Idle)).(world := after)
    case Begin(id, last) => With(s, id, s.members[id].(status := Changing(last, true)))
    case Write(id, after) =>
      With(s, id, s.members[id].(status := s.members[id].status.(clean := false))).(world := after)
    case Keep(id, table, revision) => Ended(s, id, Member(table, revision, false, Idle), true)
    case Fail(id, freezes) => Ended(s, id, s.members[id].(frozen := s.members[id].frozen || freezes), false)
    case KeepInMemory(id, next) => With(s, id, s.members[id].(table := next))
    case Retire(id, after) => With(s, id, s.members[id].(status := Retired)).(world := after)
    case Quiesce => s.(phase := Asking(s.members.Keys))
    case AnswerRetired(id) => s.(answers := s.answers[id := true])
    case Unreachable(id) => s.(answers := s.answers[id := false])
    case Lose => s.(lost := true)
    case Decide =>
      if !s.lost && (forall id <- s.phase.asked :: s.answers[id]) then s.(phase := Closing(s.phase.asked))
      else s.(phase := Failed)
  }

  /** A table that is gone, or one that will not change any more and that the store has as it last was. */
  predicate Safe(s: State, id: int) {
    && id in s.members
    && (s.members[id].status == Retired
        || (&& s.members[id].status == Stopped(true) && s.members[id].table.id == id
            && At(s.world, s.members[id].table, s.members[id].revision)))
  }

  ghost predicate Inv(s: State) {
    && (forall id {:trigger id in s.answers} :: id in s.answers && s.answers[id] ==> Safe(s, id))
    && (s.phase.Closing? ==> forall id {:trigger id in s.phase.asked} :: id in s.phase.asked ==> id in s.answers && s.answers[id])
    && (forall id {:trigger s.members[id]} :: Changes(s, id) && s.members[id].status.last ==> Asked(s, id))
  }

  /** Whatever another table writes, a safe one stays as it is. */
  lemma StepKeepsSafe(s: State, step: Step, id: int)
    requires Enabled(s, step) && Safe(s, id)
    ensures Safe(Apply(s, step), id) && Apply(s, step).members[id] == s.members[id]
  {
    hide OnlyTable;
    var m := s.members[id];
    if (step.Install? || step.Write? || step.Retire?) && m.status == Stopped(true) {
      var other := if step.Install? then step.t.id else step.id;
      assert other != id;
      Drain.AtStays(s.world, step.after, other, m.table, m.revision);
    }
  }

  lemma StepKeepsInv(s: State, step: Step)
    requires Inv(s) && Enabled(s, step)
    ensures Inv(Apply(s, step))
  {
    hide OnlyTable, Enabled;
    var next := Apply(s, step);
    forall id {:trigger id in next.answers} | id in next.answers && next.answers[id]
      ensures Safe(next, id)
    {
      if id in s.answers && s.answers[id] {
        StepKeepsSafe(s, step, id);
      } else {
        AnsweredNow(s, step, id);
      }
    }
    if next.phase.Closing? {
      Decided(s, step);
    }
    LastIsAsked(s, step);
  }

  lemma LastIsAsked(s: State, step: Step)
    requires Inv(s) && Enabled(s, step)
    ensures forall id {:trigger Apply(s, step).members[id]} :: Changes(Apply(s, step), id) && Apply(s, step).members[id].status.last ==>
              Asked(Apply(s, step), id)
  {
    hide OnlyTable, Safe, At;
    var next := Apply(s, step);
    forall id {:trigger next.members[id]} | Changes(next, id) && next.members[id].status.last
      ensures Asked(next, id)
    {
      assert id in s.members ==> (Changes(s, id) && s.members[id].status.last ==> Asked(s, id));
    }
  }

  lemma AnsweredNow(s: State, step: Step, id: int)
    requires Enabled(s, step) && !(id in s.answers && s.answers[id]) && id in Apply(s, step).answers && Apply(s, step).answers[id]
    ensures Safe(Apply(s, step), id)
  {
    hide OnlyTable;
  }

  lemma Decided(s: State, step: Step)
    requires Inv(s) && Enabled(s, step) && Apply(s, step).phase.Closing?
    ensures forall id {:trigger id in Apply(s, step).phase.asked} :: id in Apply(s, step).phase.asked ==>
              id in Apply(s, step).answers && Apply(s, step).answers[id]
  {
    hide OnlyTable, Safe, At;
    if s.phase.Closing? && (step.Keep? || step.Fail?) {
      assert Changes(s, step.id) && s.members[step.id].status.last ==> Asked(s, step.id);
    }
  }

  ghost predicate IsRun(states: seq<State>, steps: seq<Step>) {
    && |states| == |steps| + 1 && states[0].members == map[] && states[0].answers == map[] && states[0].phase == Serving
    && (forall i {:trigger states[i]} :: 0 <= i < |steps| ==> Moves(states[i], steps[i], states[i + 1]))
  }

  ghost predicate Moves(s: State, step: Step, next: State) {
    Enabled(s, step) && next == Apply(s, step)
  }

  lemma {:induction false} RunKeepsInv(states: seq<State>, steps: seq<Step>, i: nat)
    requires IsRun(states, steps) && i < |states|
    ensures Inv(states[i])
  {
    hide Apply, Enabled, Inv;
    if i > 0 {
      RunKeepsInv(states, steps, i - 1);
      assert Moves(states[i - 1], steps[i - 1], states[i - 1 + 1]);
      StepKeepsInv(states[i - 1], steps[i - 1]);
    } else {
      NothingAnswered(states[0]);
    }
  }

  lemma NothingAnswered(s: State)
    requires s.members == map[] && s.answers == map[] && s.phase == Serving
    ensures Inv(s)
  {}

  /**
   Once the clients are told that the server closes, every table that was there when it stopped taking
   requests has answered, and is gone or the store has it exactly as its actor last held it.
   */
  lemma ClosingIsDurable(states: seq<State>, steps: seq<Step>, i: nat, id: int)
    requires IsRun(states, steps) && i < |states| && states[i].phase.Closing? && id in states[i].phase.asked
    ensures id in states[i].answers && states[i].answers[id] && Safe(states[i], id)
  {
    hide IsRun, Safe;
    RunKeepsInv(states, steps, i);
  }

  /** What a drain found settled stays so, whatever tables that are still running write. */
  lemma {:induction false} SafeStays(states: seq<State>, steps: seq<Step>, i: nat, j: nat, id: int)
    requires IsRun(states, steps) && i <= j < |states| && Safe(states[i], id)
    ensures Safe(states[j], id) && id in states[i].members && id in states[j].members
    ensures states[j].members[id] == states[i].members[id]
    decreases j - i
  {
    hide Apply, Enabled, Safe;
    if i < j {
      assert Moves(states[i], steps[i], states[i + 1]);
      StepKeepsSafe(states[i], steps[i], id);
      SafeStays(states, steps, i + 1, j, id);
    }
    SafeIsThere(states[i], id);
  }

  lemma SafeIsThere(s: State, id: int)
    requires Safe(s, id)
    ensures id in s.members
  {}

  // ---------------------------------------------------------------------------------------------
  // The actors that were proved elsewhere take these steps.

  ghost predicate Follows(s: State, steps: seq<Step>, t: State)
    decreases |steps|
  {
    if steps == [] then s == t else Enabled(s, steps[0]) && Follows(Apply(s, steps[0]), steps[1..], t)
  }

  /** An actor that is in no change, and the store that it shares. */
  predicate Shows(s: State, id: int, v: Drain.View) {
    && id in s.members && v.table.id == id && s.world == v.world && s.lost == v.lost
    && s.members[id] == Member(v.table, v.revision, v.frozen, if v.retired then Retired else Idle)
  }

  /** What is left to do of a change once everything is written. */
  function Ending(before: Drain.View, after: Drain.View, ok: bool): seq<Step> {
    (if after.lost && !before.lost then [Lose] else []) +
    [if ok then Keep(after.table.id, after.table, after.revision) else Fail(after.table.id, after.frozen)]
  }

  function StepsOf(before: Drain.View, after: Drain.View, ok: bool, last: bool): seq<Step> {
    [Begin(before.table.id, last)] + (if after.world != before.world then [Write(before.table.id, after.world)] else []) +
    Ending(before, after, ok)
  }

  lemma EndingFollows(s: State, id: int, before: Drain.View, after: Drain.View, ok: bool, last: bool)
    requires Changes(s, id) && id == before.table.id && s.members[id].status.last == last
    requires s.members[id].table == before.table && s.members[id].revision == before.revision && s.members[id].frozen == before.frozen
    requires s.world == after.world && s.lost == before.lost
    requires Drain.ChangedAs(before, after, ok) && (after.world == before.world ==> s.members[id].status.clean)
    ensures var status := if last then Stopped(ok) else Idle;
            Follows(s, Ending(before, after, ok),
                    s.(members := s.members[id := Member(after.table, after.revision, after.frozen, status)], lost := after.lost,
                       answers := if last then s.answers[id := ok] else s.answers))
  {
    hide OnlyTable, At, Follows;
    var end := if ok then Keep(id, after.table, after.revision) else Fail(id, after.frozen);
    var lost := s.(lost := after.lost);
    assert Enabled(lost, end);
    FollowsNothing(Apply(lost, end));
    OneMore(lost, end, [], Apply(lost, end));
    assert [end] + [] == [end];
    if after.lost && !before.lost {
      OneMore(s, Lose, [end], Apply(lost, end));
    } else {
      assert [] + [end] == [end];
    }
  }

  lemma FollowsNothing(s: State)
    ensures Follows(s, [], s)
  {}

  lemma OneMore(s: State, step: Step, rest: seq<Step>, t: State)
    requires Enabled(s, step) && Follows(Apply(s, step), rest, t)
    ensures Follows(s, [step] + rest, t)
  {
    hide Enabled, Apply;
    assert ([step] + rest)[1..] == rest;
  }

  /** Every change of an actor, the last one that a drain asks for included, is a sequence of steps. */
  lemma ChangeFollows(s: State, id: int, before: Drain.View, after: Drain.View, ok: bool, last: bool)
    requires Shows(s, id, before) && !before.retired && Drain.ChangedAs(before, after, ok) && (last ==> Asked(s, id))
    ensures var status := if last then Stopped(ok) else Idle;
            Follows(s, StepsOf(before, after, ok, last),
                    s.(members := s.members[id := Member(after.table, after.revision, after.frozen, status)],
                       world := after.world, lost := after.lost, answers := if last then s.answers[id := ok] else s.answers))
  {
    hide OnlyTable, At, Ending, Follows;
    var status := if last then Stopped(ok) else Idle;
    var t := s.(members := s.members[id := Member(after.table, after.revision, after.frozen, status)],
                world := after.world, lost := after.lost, answers := if last then s.answers[id := ok] else s.answers);
    var begun := Apply(s, Begin(id, last));
    var ending := Ending(before, after, ok);
    SameByNumber(begun.members[id := t.members[id]], t.members);
    if after.world != before.world {
      var write := Write(id, after.world);
      SameByNumber(Apply(begun, write).members[id := t.members[id]], t.members);
      EndingFollows(Apply(begun, write), id, before, after, ok, last);
      OneMore(begun, write, ending, t);
      OneMore(s, Begin(id, last), [write] + ending, t);
      assert [Begin(id, last)] + [write] + ending == [Begin(id, last)] + ([write] + ending);
    } else {
      EndingFollows(begun, id, before, after, ok, last);
      OneMore(s, Begin(id, last), ending, t);
      assert [Begin(id, last)] + [] + ending == [Begin(id, last)] + ending;
    }
  }

  /**
   Whatever asking one table came to, saved, refused, failed or frozen, it is what steps of this protocol
   come to, with the answer that the table gave.
   */
  method DrainFollows(actor: TableActor, elapsed: nat, now: int, chat: Option<seq<Chat>>, ghost goal: Goal, ghost s: State)
    returns (ok: bool, ghost steps: seq<Step>, ghost t: State)
    requires Drain.Ready(actor.table) && Shows(s, actor.table.id, Drain.ViewOf(actor)) && Asked(s, actor.table.id)
    modifies actor`table, actor`revision, actor`frozen, actor.gateway
    ensures Follows(s, steps, t) && t.answers == s.answers[actor.table.id := ok]
    ensures actor.table.id in t.members && t.world == actor.gateway.world && t.lost == actor.gateway.lost
    ensures ok ==> Safe(t, actor.table.id)
    ensures t.members == s.members[actor.table.id := t.members[actor.table.id]]
    ensures t.members[actor.table.id].table == actor.table && t.members[actor.table.id].revision == actor.revision
  {
    hide OnlyTable, At, Follows, Enabled;
    ghost var before, id := Drain.ViewOf(actor), actor.table.id;
    ok := Drain.DrainTable(actor, elapsed, now, chat, goal);
    ghost var after := Drain.ViewOf(actor);
    if before.retired {
      steps, t := [AnswerRetired(id)], s.(answers := s.answers[id := true]);
      RetiredFollows(s, id);
    } else {
      steps := StepsOf(before, after, ok, true);
      t := s.(members := s.members[id := Member(after.table, after.revision, after.frozen, Stopped(ok))],
              world := after.world, lost := after.lost, answers := s.answers[id := ok]);
      ChangeFollows(s, id, before, after, ok, true);
    }
  }

  lemma RetiredFollows(s: State, id: int)
    requires Asked(s, id) && Does(s, id, Retired)
    ensures Follows(s, [AnswerRetired(id)], s.(answers := s.answers[id := true]))
  {
    hide Follows;
    var t := s.(answers := s.answers[id := true]);
    FollowsNothing(t);
    OneMore(s, AnswerRetired(id), [], t);
    assert [AnswerRetired(id)] + [] == [AnswerRetired(id)];
  }
}
