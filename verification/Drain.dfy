/**
 The orderly end of a server: what is durable when a drain succeeds, whatever the tables were doing
 while it was asked for.
 */
module Drain {
  import opened Common
  import opened Model
  import opened Settling
  import opened Recovery
  import opened Actor
  import opened Clock

  /** A timed game under way is granted an allowance for the interruption, once until somebody acts. */
  function Maintained(t: Table): Table {
    match t.phase
    case Live(s) =>
      if Playing(s) && s.game.options.timed && !s.maintenanceApplied
      then t.(phase := Live(s.(clocks := Raised(s.clocks, ALLOWANCE), maintenanceApplied := true)))
      else t
    case _ => t
  }

  /** The last change of a table: the time that passed, everything kept in memory, and the allowance. */
  function LastChange(t: Table, elapsed: nat): Table
    requires t.phase.Live? ==> t.phase.live.game.active < |t.phase.live.clocks|
  {
    Maintained(CandidateOf(t, elapsed))
  }

  lemma LastChangeKeeps(t: Table, elapsed: nat)
    requires t.phase.Live? ==> t.phase.live.game.active < |t.phase.live.clocks|
    ensures ShapeOf(LastChange(t, elapsed)) == ShapeOf(t)
    ensures LastChange(t, elapsed).phase.Live? <==> t.phase.Live?
  {}

  predicate Ready(t: Table) {
    t.phase.Live? ==> t.phase.live.game.active < |t.phase.live.clocks| && t.spawn.None? && !t.retire
  }

  /** Whether the store holds what the actor holds. */
  predicate Kept(actor: TableActor)
    reads actor, actor.gateway
  {
    !actor.frozen && At(actor.gateway.world, actor.table, actor.revision)
  }

  /** An actor and its store, as far as a change can alter them. */
  datatype View = View(table: Table, revision: int, frozen: bool, retired: bool, world: World, lost: bool)

  function ViewOf(actor: TableActor): View
    reads actor, actor.gateway
  {
    View(actor.table, actor.revision, actor.frozen, actor.retired, actor.gateway.world, actor.gateway.lost)
  }

  /**
   How a change comes out: saved, and then the store holds what the actor holds; rejected, and nothing
   was written; or frozen, with whatever was written of this table.
   */
  ghost predicate ChangedAs(before: View, after: View, ok: bool) {
    && after.table.id == before.table.id && after.retired == before.retired
    && OnlyTable(before.world, after.world, before.table.id)
    && (before.lost ==> after.lost) && (before.frozen ==> after.frozen && !ok)
    && (ok ==> !after.frozen && !after.lost && At(after.world, after.table, after.revision))
    && (!ok ==> after.table == before.table && after.revision == before.revision)
    && (!ok && after.frozen == before.frozen ==> after.world == before.world)
  }

  /** How a table answers a drain. */
  ghost predicate DrainedAs(before: View, after: View, ok: bool) {
    if before.retired then ok && after == before else ChangedAs(before, after, ok)
  }

  /** Whether the last change has nothing more to archive, and can be saved. */
  ghost predicate CanStop(actor: TableActor, elapsed: nat, now: int, chat: Option<seq<Chat>>)
    requires Ready(actor.table)
    reads actor, actor.gateway
  {
    var last := LastChange(actor.table, elapsed);
    chat.Some? && Settled(Prepared(actor.table, last, now, chat.value)) && actor.Accepts(last, chat.value, now)
  }

  /** What a drain asks of one table. Only a table that is gone answers without a checkpoint. */
  method DrainTable(actor: TableActor, elapsed: nat, now: int, chat: Option<seq<Chat>>, ghost goal: Goal) returns (ok: bool)
    requires Ready(actor.table)
    modifies actor`table, actor`revision, actor`frozen, actor.gateway
    ensures ok ==> actor.retired || (Kept(actor) && !actor.gateway.lost)
    ensures ok && !actor.retired && chat.Some? ==>
              var first := Prepared(old(actor.table), LastChange(old(actor.table), elapsed), now, chat.value);
              && ShapeOf(actor.table) == ShapeOf(old(actor.table))
              && (Settled(first) ==> actor.table == first)
    ensures actor.retired || !ok || actor.table.id == old(actor.table.id)
    ensures actor.table.id == old(actor.table.id)
    ensures OnlyTable(old(actor.gateway.world), actor.gateway.world, actor.table.id)
    ensures DrainedAs(old(ViewOf(actor)), ViewOf(actor), ok)
    ensures old(actor.gateway.Undisturbed()) && (actor.retired || old(CanStop(actor, elapsed, now, chat))) ==>
              ok && actor.gateway.Undisturbed()
  {
    hide Within, Staged, OnlyTable, Settles, Prepared, CandidateOf, LastChange, At, Settled, Gateway.Undisturbed, TableActor.Accepts;
    OnlyTableSelf(actor.gateway.world, actor.table.id);
    if actor.retired {
      return true;
    }
    LastChangeKeeps(actor.table, elapsed);
    ghost var before, first := actor.gateway.world, actor.table;
    var next := LastChange(actor.table, elapsed);
    ghost var aim := Target(before, actor.gateway.deal, first, actor.revision, next, chat, now, goal);
    ok := actor.Persist(next, chat, now, {}, goal);
    if actor.gateway.world != before {
      WithinOnly(aim, actor.gateway.world);
    }
  }

  lemma AtStays(before: World, after: World, id: int, t: Table, revision: int)
    requires OnlyTable(before, after, id) && At(before, t, revision) && t.id != id
    ensures At(after, t, revision)
  {}

  // ---------------------------------------------------------------------------------------------
  // The whole server.

  /** Actors of different tables that share one store. */
  ghost predicate Together(actors: seq<TableActor>, gateway: Gateway)
    reads actors
  {
    && (forall i {:trigger actors[i]} :: 0 <= i < |actors| ==> actors[i].gateway == gateway)
    && (forall i, j {:trigger actors[i], actors[j]} :: 0 <= i < j < |actors| ==>
          actors[i] != actors[j] && actors[i].table.id != actors[j].table.id)
  }

  predicate Answered(actor: TableActor)
    reads actor, actor.gateway
  {
    actor.retired || Kept(actor)
  }

  /** What reaches a table and comes back from it. */
  datatype Asked = Asked(reached: bool, answered: bool, elapsed: nat, now: int, chat: Option<seq<Chat>>)

  /** Whether a table is reached, gets its answer through, and is gone or can stop. */
  ghost predicate WillAnswer(actor: TableActor, asked: Asked)
    requires Ready(actor.table)
    reads actor, actor.gateway
  {
    asked.reached && asked.answered && (actor.retired || CanStop(actor, asked.elapsed, asked.now, asked.chat))
  }

  lemma AcceptsStays(before: World, after: World, id: int, other: int)
    requires OnlyTable(before, after, id) && other != id
    ensures Current(after, other) == Current(before, other)
  {}

  /**
   Asks every table that was there when the hub stopped taking requests, and waits for all of them.
   Only if each of them answered, and the lease was held to the end, are the clients told that the
   server is going down for maintenance; and only then can the drain be reported as a success.
   */
  method DrainGameRuntime(actors: seq<TableActor>, asked: seq<Asked>, gateway: Gateway, quiesced: bool, ghost goal: Goal)
    returns (success: bool, closed: bool)
    requires |asked| == |actors| && Together(actors, gateway)
    requires forall i {:trigger actors[i]} :: 0 <= i < |actors| ==> Ready(actors[i].table)
    modifies actors, gateway
    ensures closed ==> quiesced && !gateway.lost && forall i {:trigger actors[i]} :: 0 <= i < |actors| ==> Answered(actors[i])
    ensures success ==> closed
    ensures (&& quiesced && old(gateway.Undisturbed())
             && forall i {:trigger actors[i]} :: 0 <= i < |actors| ==> old(WillAnswer(actors[i], asked[i]))) ==> closed
  {
    hide Gateway.Undisturbed, WillAnswer;
    ghost var fine := && quiesced && gateway.Undisturbed()
                      && forall i {:trigger actors[i]} :: 0 <= i < |actors| ==> WillAnswer(actors[i], asked[i]);
    var failures: nat := if quiesced then 0 else 1;
    for i := 0 to |actors|
      invariant Together(actors, gateway)
      invariant forall k {:trigger actors[k]} :: i <= k < |actors| ==> Ready(actors[k].table)
      invariant failures == 0 ==> quiesced && forall k {:trigger actors[k]} :: 0 <= k < i ==> Answered(actors[k])
      invariant fine ==> failures == 0 && gateway.Undisturbed()
      invariant fine ==> forall k {:trigger actors[k]} :: i <= k < |actors| ==> WillAnswer(actors[k], asked[k])
    {
      var done := AskTable(actors, i, asked[i], gateway, goal);
      if !done {
        failures := failures + 1;
      }
    }
    ghost var undisturbed := gateway.Undisturbed();
    var healthy := gateway.Check();
    assert undisturbed ==> gateway.Undisturbed() && healthy;
    if !healthy {
      failures := failures + 1;
    }
    closed := failures == 0;
    var informed, stopped: bool := *, *;
    if closed && !informed {
      failures := failures + 1;
    }
    success := failures == 0 && stopped;
  }

  method AskTable(actors: seq<TableActor>, i: nat, asked: Asked, gateway: Gateway, ghost goal: Goal) returns (done: bool)
    requires i < |actors| && Together(actors, gateway) && Ready(actors[i].table)
    modifies actors[i], gateway
    ensures Together(actors, gateway)
    ensures done ==> Answered(actors[i])
    ensures forall k {:trigger actors[k]} :: 0 <= k < |actors| && k != i ==>
              actors[k].table == old(actors[k].table) && (old(Answered(actors[k])) ==> Answered(actors[k]))
    ensures old(gateway.Undisturbed()) && old(WillAnswer(actors[i], asked)) ==> done && gateway.Undisturbed()
    ensures forall k, a: Asked {:trigger WillAnswer(actors[k], a)} :: 0 <= k < |actors| && k != i && old(Ready(actors[k].table)) ==>
              Ready(actors[k].table) && (old(WillAnswer(actors[k], a)) ==> WillAnswer(actors[k], a))
  {
    hide At, OnlyTable, LastChange, Settles, Prepared, Gateway.Undisturbed;
    if !asked.reached {
      return false;
    }
    ghost var before := gateway.world;
    done := DrainTable(actors[i], asked.elapsed, asked.now, asked.chat, goal);
    done := done && asked.answered;
    forall k {:trigger actors[k]} | 0 <= k < |actors| && k != i
      ensures old(Answered(actors[k])) ==> Answered(actors[k])
    {
      assert actors[k].table == old(actors[k].table) && actors[k].table.id != actors[i].table.id;
      if old(Answered(actors[k])) && !actors[k].retired {
        AtStays(before, gateway.world, actors[i].table.id, actors[k].table, actors[k].revision);
      }
    }
    forall k, a: Asked {:trigger WillAnswer(actors[k], a)} | 0 <= k < |actors| && k != i && old(Ready(actors[k].table)) && old(WillAnswer(actors[k], a))
      ensures WillAnswer(actors[k], a)
    {
      assert actors[k].table.id != actors[i].table.id;
      LastChangeKeeps(actors[k].table, a.elapsed);
      AcceptsStays(before, gateway.world, actors[i].table.id, actors[k].table.id);
    }
  }
}
