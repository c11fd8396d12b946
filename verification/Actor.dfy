/**
 A table actor and its checkpoints, with a store that may refuse, lose an answer, or be lost to another
 server at any request. A change is either rejected while the table goes on, or saved in stages.
 */
module Actor {
  import opened Common
  import opened Model
  import opened Archive
  import opened Roster
  import opened Settling
  import opened Recovery
  import opened Clock
  import Ordering

  /**
   What becomes of one request: whether the lease is found to have run out before it is sent, whether it
   runs, whether its outcome gets known for certain, and whether the lease is lost over it otherwise.
   */
  datatype Fate = Fate(expired: bool, runs: bool, answered: bool, loses: bool)

  const FINE := Fate(false, true, true, false)

  /**
   The stores behind an actor. A request that fails without losing the lease changed nothing, since
   every uncertain answer gives the lease up; while the lease is lost nothing is written. What becomes
   of each request in turn is given from outside.
   */
  class Gateway {
    var world: World
    var lost: bool
    var turn: nat

    /** Every state that a crash could have left behind, in order. */
    var trace: seq<World>
    const deal: Dealer
    const fates: nat -> Fate

    constructor (world: World, deal: Dealer, fates: nat -> Fate)
      ensures this.world == world && !lost && trace == [] && turn == 0 && this.deal == deal && this.fates == fates
    {
      this.world, this.deal, this.fates, lost, trace, turn := world, deal, fates, false, [], 0;
    }

    /** From now on every request runs and is answered, and the lease is held. */
    ghost predicate Undisturbed()
      reads this
    {
      !lost && forall i {:trigger fates(i)} :: turn <= i ==> fates(i) == FINE
    }

    /** Whether the next request is let through and runs. */
    predicate Runs()
      reads this
    {
      !lost && !fates(turn).expired && fates(turn).runs
    }

    /** Whether its outcome gets known as well. */
    predicate Answers()
      reads this
    {
      Runs() && fates(turn).answered
    }

    method Check() returns (ok: bool)
      modifies this`lost, this`turn
      ensures ok == !lost && lost == (old(lost) || fates(old(turn)).expired)
      ensures turn == old(turn) + 1 && (old(Undisturbed()) ==> Undisturbed())
    {
      lost := lost || fates(turn).expired;
      turn := turn + 1;
      ok := !lost;
    }

    /** Whether a request that was let through ran, and whether that is known for certain. */
    method Ask() returns (ran: bool, certain: bool)
      modifies this`lost, this`turn
      ensures ran == old(Runs()) && certain == old(Answers())
      ensures old(lost) || certain ==> lost == old(lost)
      ensures ran && !certain ==> lost
      ensures turn == old(turn) + 1 && (old(Undisturbed()) ==> Undisturbed())
    {
      var fate := fates(turn);
      var open := Check();
      ran := open && fate.runs;
      certain := ran && fate.answered;
      if open && !certain {
        lost := ran || fate.loses;
      }
    }

    method Write(next: World)
      modifies this`world, this`trace
      ensures world == next && trace == old(trace) + [next]
      ensures Undisturbed() == old(Undisturbed())
    {
      world := next;
      trace := trace + [next];
    }

    method Save(t: Table, expected: int) returns (revision: Option<int>)
      modifies this
      ensures old(lost) ==> lost
      ensures revision.Some? ==> !lost && revision.value == expected + 1 && world == Put(old(world), t.id, expected + 1, t)
      ensures revision.None? ==> world == old(world) || (lost && world == Put(old(world), t.id, expected + 1, t))
      ensures (world == old(world) && trace == old(trace)) || (&& Storable(t) && Current(old(world), t.id) == Some(expected)
                                                                         && world == Put(old(world), t.id, expected + 1, t) && trace == old(trace) + [world])
      ensures revision.Some? ==> trace == old(trace) + [world] && Storable(t) && Current(old(world), t.id) == Some(expected)
      ensures revision.Some? <==> Storable(t) && old(Answers()) && Current(old(world), t.id) == Some(expected)
      ensures old(Undisturbed()) ==> Undisturbed()
    {
      if !Storable(t) {
        return None;
      }
      var ran, certain := Ask();
      if !ran {
        return None;
      }
      if Current(world, t.id) != Some(expected) {
        return None;
      }
      Write(Put(world, t.id, expected + 1, t));
      revision := if certain then Some(expected + 1) else None;
    }

    method Remove(id: int, expected: int) returns (ok: bool)
      modifies this
      ensures old(lost) ==> lost && world == old(world) && trace == old(trace)
      ensures ok ==> !lost && Current(world, id).None?
      ensures !ok ==> world == old(world) || (lost && world == Removed(old(world), id))
      ensures (world == old(world) && trace == old(trace))
              || (Current(old(world), id) == Some(expected) && world == Removed(old(world), id) && trace == old(trace) + [world])
      ensures world == if old(Runs()) && Current(old(world), id) == Some(expected) then Removed(old(world), id) else old(world)
      ensures ok <==> old(Answers()) && Current(old(world), id) in {None, Some(expected)}
      ensures old(Undisturbed()) ==> Undisturbed()
    {
      var ran, certain := Ask();
      if !ran {
        return false;
      }
      var current := Current(world, id);
      if current.None? {
        return certain;
      }
      if current != Some(expected) {
        return false;
      }
      Write(Removed(world, id));
      ok := certain;
    }

    /** A transaction of the archive commits or not; its outcome may stay unknown. */
    method FileChat(entries: seq<Chat>) returns (ok: bool)
      modifies this
      ensures old(lost) ==> lost
      ensures ok ==> !lost && Filed(old(world).chat, entries).Some? && world.chat == Filed(old(world).chat, entries).value
      ensures (world == old(world) && trace == old(trace))
              || (Filed(old(world).chat, entries).Some? && world == old(world).(chat := Filed(old(world).chat, entries).value) && trace == old(trace) + [world])
      ensures old(Undisturbed()) ==> Undisturbed() && ok == Filed(old(world).chat, entries).Some?
    {
      var commits, known := fates(turn).runs, fates(turn).answered;
      var open := Check();
      var filed := Filed(world.chat, entries);
      if !open || filed.None? || !commits {
        return false;
      }
      Write(world.(chat := filed.value));
      ok := Check();
      ok := ok && known;
    }

    method ApplyTag(edit: TagEdit) returns (tags: Option<set<Tag>>)
      modifies this
      ensures old(lost) ==> lost
      ensures tags.Some? ==>
                && !lost && edit.gameId in old(world).tags && tags.value == Edited(old(world).tags[edit.gameId], edit)
                && world == old(world).(tags := old(world).tags[edit.gameId := tags.value])
      ensures (world == old(world) && trace == old(trace))
              || (&& edit.gameId in old(world).games && edit.gameId in old(world).tags && edit.operation != UnknownOperation
                  && world == old(world).(tags := old(world).tags[edit.gameId := Edited(old(world).tags[edit.gameId], edit)])
                  && trace == old(trace) + [world])
      ensures old(Undisturbed()) ==>
                Undisturbed() && (tags.Some? <==> edit.gameId in old(world).games && edit.gameId in old(world).tags && edit.operation != UnknownOperation)
    {
      var commits, known := fates(turn).runs, fates(turn).answered;
      var open := Check();
      if !open || edit.gameId !in world.games || edit.gameId !in world.tags || edit.operation == UnknownOperation || !commits {
        return None;
      }
      var after := Edited(world.tags[edit.gameId], edit);
      Write(world.(tags := world.tags[edit.gameId := after]));
      var still := Check();
      tags := if still && known then Some(after) else None;
    }

    method Complete(s: Snapshot) returns (ok: bool)
      modifies this
      ensures old(lost) ==> lost
      ensures ok ==> !lost && s.gameId in world.games
      ensures (world == old(world) && trace == old(trace))
              || (&& Completed(s) && s.finished.Some? && |s.players| == |s.game.characters| && s.gameId !in old(world).games
                  && Insertable(deal, s)
                  && world == old(world).(games := old(world).games[s.gameId := RowOf(deal, s)], tags := old(world).tags[s.gameId := s.tags])
                  && trace == old(trace) + [world])
      ensures old(Undisturbed()) ==>
                Undisturbed() && (Archivable(deal, old(world), s) ==> ok)
    {
      var commits, known := fates(turn).runs, fates(turn).answered;
      var open := Check();
      if !open || !commits || !(s.gameId > 0 && s.game.end != IN_PROGRESS) || !SnapshotValid(s) {
        return false;
      }
      var database := new Database(deal);
      database.games, database.tags := world.games, world.tags;
      ok := database.Complete(s);
      if !ok {
        return;
      }
      if s.gameId !in world.games {
        Write(world.(games := database.games, tags := database.tags));
      }
      ok := Check();
      ok := ok && known;
    }
  }

  // ---------------------------------------------------------------------------------------------
  // One change.

  /** What a change does not touch after it was asked for: who sits at the table, and its handover. */
  datatype Shape = Shape(id: int, players: seq<Player>, spawn: Option<Table>, retire: bool)

  function ShapeOf(t: Table): Shape {
    Shape(t.id, Players(t), t.spawn, t.retire)
  }

  function WithIdle(t: Table, known: nat): Table {
    if t.visible && t.phase.Replay? && known <= |t.chat| && (exists c <- t.chat[known..] :: c.user > 0)
    then t.(phase := t.phase.(reviewed := t.phase.reviewed.(idleRemaining := IDLE_TIMEOUT)))
    else t
  }

  function WithFinish(t: Table, now: int): Table {
    match GameOf(t)
    case None => t
    case Some(s) => if s.game.end != IN_PROGRESS && s.finished.None? then WithGame(t, s.(finished := Some(now))) else t
  }

  /** The change as it is checkpointed first. */
  function Prepared(table: Table, next: Table, now: int, chat: seq<Chat>): Table {
    WithFinish(Remapped(table, WithIdle(next, |table.chat|)), now).(chat := chat)
  }

  lemma PreparedKeepsShape(table: Table, next: Table, now: int, chat: seq<Chat>)
    ensures ShapeOf(Prepared(table, next, now, chat)) == ShapeOf(next)
    ensures Prepared(table, next, now, chat).chat == chat && Prepared(table, next, now, chat).archived == next.archived
    ensures Prepared(table, next, now, chat).tag == next.tag
  {
    hide MovedAll, WithIdle, WithFinish;
    var a := WithIdle(next, |table.chat|);
    IdleKeepsShape(next, |table.chat|);
    FinishKeepsShape(Remapped(table, a), now);
  }

  lemma IdleKeepsShape(t: Table, known: nat)
    ensures ShapeOf(WithIdle(t, known)) == ShapeOf(t)
    ensures WithIdle(t, known).archived == t.archived && WithIdle(t, known).tag == t.tag
  {}

  lemma FinishKeepsShape(t: Table, now: int)
    ensures ShapeOf(WithFinish(t, now)) == ShapeOf(t)
    ensures WithFinish(t, now).archived == t.archived && WithFinish(t, now).tag == t.tag
  {}

  predicate At(w: World, t: Table, revision: int) {
    t.id in w.tables && w.tables[t.id] == Stored(revision, t)
  }

  /** Nothing but one table's checkpoint and the archive differ. */
  ghost predicate OnlyTable(before: World, after: World, id: int) {
    && (forall k {:trigger after.tables[k]} {:trigger before.tables[k]} :: k != id ==>
          (k in after.tables <==> k in before.tables) && (k in before.tables ==> after.tables[k] == before.tables[k]))
    && (forall k {:trigger after.reserved[k]} {:trigger before.reserved[k]} :: k != id ==>
          (k in after.reserved <==> k in before.reserved) && (k in before.reserved ==> after.reserved[k] == before.reserved[k]))
  }

  /** Where a change is headed: the store it began with, the shape it keeps, and what that amounts to. */
  datatype Aim = Aim(before: World, shape: Shape, deal: Dealer, goal: Goal, settled: bool)

  /**
   A state on the way: the table in the same shape and nothing else changed. If the first checkpoint
   amounted to the goal, so does this state, up to who is listed as watching the review.
   */
  ghost predicate Within(aim: Aim, w: World) {
    && OnlyTable(aim.before, w, aim.shape.id)
    && aim.shape.id in w.tables && ShapeOf(w.tables[aim.shape.id].table) == aim.shape
    && (aim.settled ==> Settles(aim.deal, w, aim.goal) || Reviewed(w, aim.goal, aim.shape.id))
  }

  predicate Reviewed(w: World, g: Goal, id: int) {
    id in w.tables && id in g.tables && w.tables[id].table == g.tables[id].(shadows := w.tables[id].table.shadows)
  }

  ghost predicate Staged(aim: Aim, trace: seq<World>, from: nat) {
    forall i {:trigger trace[i]} :: from <= i < |trace| ==> Within(aim, trace[i])
  }

  lemma StagedMore(aim: Aim, trace: seq<World>, from: nat, w: World)
    requires Staged(aim, trace, from) && Within(aim, w)
    ensures Staged(aim, trace + [w], from)
  {
    hide Within;
  }

  lemma PutWithin(aim: Aim, w: World, revision: int, t: Table)
    requires OnlyTable(aim.before, w, t.id) && ShapeOf(t) == aim.shape
    requires aim.settled ==> Settles(aim.deal, Put(w, t.id, revision, t), aim.goal) || Reviewed(Put(w, t.id, revision, t), aim.goal, t.id)
    ensures Within(aim, Put(w, t.id, revision, t))
  {
    hide Settles, Reviewed, OnlyTable;
    PutOnly(aim.before, w, revision, t);
  }

  lemma PutOnly(before: World, w: World, revision: int, t: Table)
    requires OnlyTable(before, w, t.id)
    ensures OnlyTable(before, Put(w, t.id, revision, t), t.id)
  {
    var after := Put(w, t.id, revision, t);
    assert forall k :: k != t.id ==> (k in after.tables <==> k in w.tables) && (k in after.reserved <==> k in w.reserved);
    assert forall k :: k != t.id && k in w.reserved ==> after.reserved[k] == w.reserved[k];
  }

  lemma ArchiveWithin(aim: Aim, w: World, after: World)
    requires Within(aim, w) && after.tables == w.tables && after.reserved == w.reserved
    requires aim.settled ==> Settles(aim.deal, after, aim.goal)
    ensures Within(aim, after)
  {
    hide Settles, Reviewed;
  }

  lemma OnlyTableSelf(w: World, id: int)
    ensures OnlyTable(w, w, id)
  {}

  lemma WithinOnly(aim: Aim, w: World)
    requires Within(aim, w)
    ensures OnlyTable(aim.before, w, aim.shape.id)
  {}

  /** The whole conversion, whose audience shadows nobody afterwards. */
  function Converted(t: Table, audience: set<int>): Table
    requires Finished(t)
  {
    AsReplay(t).(shadows := t.shadows + map user | user in audience :: None)
  }

  predicate Settled(t: Table) {
    t.tag.None? && Unarchived(t) == [] && !Finished(t)
  }

  predicate SameEnd(a: Table, b: Table) {
    && (Finished(a) <==> Finished(b)) && a.noWrite == b.noWrite && a.shadows == b.shadows
    && (Finished(a) && Finished(b) ==> a.phase.live.gameId == b.phase.live.gameId)
  }

  /** Whether the archive takes a finished game, for the first time or again. */
  ghost predicate Archivable(deal: Dealer, w: World, s: Snapshot) {
    && Completed(s) && s.finished.Some? && |s.players| == |s.game.characters|
    && (if s.gameId in w.games then Matches(deal, w.games[s.gameId], s) else Insertable(deal, s))
  }

  /** Whether whoever watches the end of the game can be listed with the review. */
  predicate AudienceFits(shadows: map<int, Option<int>>, audience: set<int>) {
    |shadows + map user | user in audience :: None| <= MAX_LIST && forall user <- audience :: user > 0
  }

  class TableActor {
    const gateway: Gateway

    /** Whether a checkpoint is small enough. */
    const fits: Table -> bool
    var table: Table
    var revision: int
    var frozen: bool
    var retired: bool

    constructor (gateway: Gateway, table: Table, revision: int, fits: Table -> bool)
      ensures this.gateway == gateway && this.table == table && this.revision == revision && this.fits == fits && !frozen && !retired
    {
      this.gateway, this.table, this.revision, this.fits, frozen, retired := gateway, table, revision, fits, false, false;
    }

    /** Whether the store holds the latest stage, and everything on the way there is within the aim. */
    ghost predicate OnTheWay(aim: Aim, from: nat, next: Table, expected: int)
      reads gateway
    {
      && aim.deal == gateway.deal && ShapeOf(next) == aim.shape && from <= |gateway.trace|
      && Staged(aim, gateway.trace, from) && Within(aim, gateway.world)
      && At(gateway.world, next, expected)
      && (aim.settled ==> Settles(aim.deal, gateway.world, aim.goal))
    }

    method SaveStage(next: Table, expected: int, ghost aim: Aim, ghost from: nat) returns (saved: Option<Stored>)
      requires Within(aim, gateway.world) && ShapeOf(next) == aim.shape && from <= |gateway.trace|
      requires Staged(aim, gateway.trace, from)
      requires aim.settled ==> Settles(aim.deal, Put(gateway.world, next.id, expected + 1, next), aim.goal)
                               || Reviewed(Put(gateway.world, next.id, expected + 1, next), aim.goal, next.id)
      modifies gateway
      ensures Within(aim, gateway.world) && old(gateway.trace) <= gateway.trace && Staged(aim, gateway.trace, from)
      ensures old(gateway.lost) ==> gateway.lost
      ensures saved.Some? ==> saved.value == Stored(expected + 1, next) && gateway.world == Put(old(gateway.world), next.id, expected + 1, next) && !gateway.lost
      ensures old(gateway.Undisturbed()) ==>
                gateway.Undisturbed() && (Storable(next) && Current(old(gateway.world), next.id) == Some(expected) ==> saved.Some?)
    {
      hide Within, Staged, Storable, Settles, OnlyTable, Reviewed;
      WithinOnly(aim, gateway.world);
      PutWithin(aim, gateway.world, expected + 1, next);
      var r := gateway.Save(next, expected);
      if gateway.trace != old(gateway.trace) {
        StagedMore(aim, old(gateway.trace), from, gateway.world);
      }
      saved := if r.Some? then Some(Stored(r.value, next)) else None;
    }

    method PersistTag(next: Table, expected: int, ghost aim: Aim, ghost from: nat) returns (saved: Option<Stored>)
      requires next.tag.Some? && OnTheWay(aim, from, next, expected)
      requires aim.settled ==> FirstInLine(gateway.world, aim.goal, next)
      modifies gateway
      ensures Within(aim, gateway.world) && old(gateway.trace) <= gateway.trace && Staged(aim, gateway.trace, from)
      ensures old(gateway.lost) ==> gateway.lost
      ensures saved.Some? ==>
                && !gateway.lost && OnTheWay(aim, from, saved.value.table, saved.value.revision)
                && saved.value.table.tag.None? && SameEnd(saved.value.table, next)
      ensures old(gateway.Undisturbed()) && aim.settled ==> gateway.Undisturbed() && saved.Some?
    {
      hide Within, Staged, Edited, Storable, Settles, OnlyTable, Reviewed, Tagged;
      ghost var w := gateway.world;
      if aim.settled {
        TagStep(aim.deal, w, aim.goal, next.id);
      }
      var tags := gateway.ApplyTag(next.tag.value);
      ArchiveWithin(aim, w, gateway.world);
      if gateway.trace != old(gateway.trace) {
        StagedMore(aim, old(gateway.trace), from, gateway.world);
      }
      if tags.None? {
        return None;
      }
      TaggedKeeps(next);
      TaggedKeepsShape(next, tags.value);
      saved := SaveStage(Tagged(next, tags.value), expected, aim, from);
    }

    method PersistChat(next: Table, expected: int, ghost aim: Aim, ghost from: nat) returns (saved: Option<Stored>)
      requires next.tag.None? && Unarchived(next) != [] && OnTheWay(aim, from, next, expected)
      modifies gateway
      ensures Within(aim, gateway.world) && old(gateway.trace) <= gateway.trace && Staged(aim, gateway.trace, from)
      ensures old(gateway.lost) ==> gateway.lost
      ensures saved.Some? ==>
                && !gateway.lost && OnTheWay(aim, from, saved.value.table, saved.value.revision)
                && saved.value.table.tag.None? && Unarchived(saved.value.table) == [] && SameEnd(saved.value.table, next)
      ensures old(gateway.Undisturbed()) && aim.settled ==> gateway.Undisturbed() && saved.Some?
    {
      hide Within, Staged, Filed, Storable, Settles, OnlyTable, Reviewed;
      ghost var w := gateway.world;
      if aim.settled {
        ChatStep(aim.deal, w, aim.goal, next.id);
      }
      var done := gateway.FileChat(Unarchived(next));
      ArchiveWithin(aim, w, gateway.world);
      if gateway.trace != old(gateway.trace) {
        StagedMore(aim, old(gateway.trace), from, gateway.world);
      }
      if !done {
        return None;
      }
      saved := SaveStage(ChatDone(next), expected, aim, from);
    }

    method ArchiveGame(next: Table, expected: int, ghost aim: Aim, ghost from: nat) returns (done: bool)
      requires Finished(next) && !next.retire && !next.noWrite && OnTheWay(aim, from, next, expected)
      modifies gateway
      ensures Within(aim, gateway.world) && old(gateway.trace) <= gateway.trace && Staged(aim, gateway.trace, from)
      ensures old(gateway.lost) ==> gateway.lost
      ensures done ==> OnTheWay(aim, from, next, expected) && next.phase.live.gameId in gateway.world.games
      ensures old(gateway.Undisturbed()) && aim.settled ==> gateway.Undisturbed() && done
    {
      hide Within, Staged, Storable, Settles, OnlyTable, Reviewed, Completed, Insertable, RowOf, Matches;
      ghost var w := gateway.world;
      if aim.settled {
        GameStep(aim.deal, w, aim.goal, next.id);
      }
      done := gateway.Complete(next.phase.live);
      ArchiveWithin(aim, w, gateway.world);
      if gateway.trace != old(gateway.trace) {
        StagedMore(aim, old(gateway.trace), from, gateway.world);
      }
    }

    method PersistGame(next: Table, expected: int, audience: set<int>, ghost aim: Aim, ghost from: nat) returns (saved: Option<Stored>)
      requires next.tag.None? && Unarchived(next) == [] && Finished(next) && next.spawn.None? && !next.retire
      requires OnTheWay(aim, from, next, expected)
      modifies gateway
      ensures Within(aim, gateway.world) && old(gateway.trace) <= gateway.trace && Staged(aim, gateway.trace, from)
      ensures old(gateway.lost) ==> gateway.lost
      ensures saved.Some? ==>
                && !gateway.lost && At(gateway.world, saved.value.table, saved.value.revision)
                && saved.value.table == Converted(next, audience)
                && (!next.noWrite ==> next.phase.live.gameId in gateway.world.games)
      ensures old(gateway.Undisturbed()) && aim.settled && AudienceFits(next.shadows, audience) ==> gateway.Undisturbed() && saved.Some?
    {
      hide Within, Staged, Storable, Settles, OnlyTable, Reviewed, OnTheWay;
      if !next.noWrite {
        var done := ArchiveGame(next, expected, aim, from);
        if !done {
          return None;
        }
      }
      saved := ConvertGame(next, expected, audience, aim, from);
    }

    method ConvertGame(next: Table, expected: int, audience: set<int>, ghost aim: Aim, ghost from: nat) returns (saved: Option<Stored>)
      requires next.tag.None? && Unarchived(next) == [] && Finished(next) && next.spawn.None? && !next.retire
      requires OnTheWay(aim, from, next, expected) && (next.noWrite || next.phase.live.gameId in gateway.world.games)
      modifies gateway
      ensures Within(aim, gateway.world) && old(gateway.trace) <= gateway.trace && Staged(aim, gateway.trace, from)
      ensures old(gateway.lost) ==> gateway.lost
      ensures saved.Some? ==>
                && !gateway.lost && At(gateway.world, saved.value.table, saved.value.revision)
                && saved.value.table == Converted(next, audience) && gateway.world.games == old(gateway.world).games
      ensures old(gateway.Undisturbed()) && aim.settled && AudienceFits(next.shadows, audience) ==> gateway.Undisturbed() && saved.Some?
    {
      hide Within, Staged, Storable, Settles, OnlyTable, Reviewed;
      var replay := ConvertToReplay(next);
      if replay.None? {
        return None;
      }
      var converted := replay.value.(shadows := next.shadows + map user | user in audience :: None);
      ConvertedShape(next, audience);
      if aim.settled {
        ReplayStep(aim.deal, gateway.world, aim.goal, next.id);
        ConvertedReviewed(aim.deal, gateway.world, aim.goal, next, expected, audience);
        if AudienceFits(next.shadows, audience) {
          ConvertedStorable(next, audience);
        }
      }
      saved := SaveStage(converted, expected, aim, from);
    }

    /** The tag that waits, and then the chat. */
    method FinishTagAndChat(first: Stored, ghost aim: Aim, ghost from: nat) returns (saved: Option<Stored>)
      requires OnTheWay(aim, from, first.table, first.revision) && !gateway.lost
      requires aim.settled ==> FirstInLine(gateway.world, aim.goal, first.table)
      modifies gateway
      ensures Within(aim, gateway.world) && old(gateway.trace) <= gateway.trace && Staged(aim, gateway.trace, from)
      ensures saved.Some? ==>
                && !gateway.lost && OnTheWay(aim, from, saved.value.table, saved.value.revision)
                && saved.value.table.tag.None? && Unarchived(saved.value.table) == [] && SameEnd(saved.value.table, first.table)
      ensures first.table.tag.None? && Unarchived(first.table) == [] ==>
                && saved == Some(first) && gateway.world == old(gateway.world) && gateway.trace == old(gateway.trace)
                && gateway.Undisturbed() == old(gateway.Undisturbed())
      ensures old(gateway.Undisturbed()) && aim.settled ==> gateway.Undisturbed() && saved.Some?
    {
      hide Within, Staged, Storable, Settles, OnlyTable, Reviewed, Unarchived, Gateway.Undisturbed;
      saved := Some(first);
      if saved.value.table.tag.Some? {
        saved := PersistTag(saved.value.table, saved.value.revision, aim, from);
        if saved.None? {
          return;
        }
      }
      if Unarchived(saved.value.table) != [] {
        saved := PersistChat(saved.value.table, saved.value.revision, aim, from);
      }
    }

    /** The stages after the first checkpoint, each only if there is something to do. */
    method FinishStages(first: Stored, audience: set<int>, ghost aim: Aim, ghost from: nat) returns (saved: Option<Stored>)
      requires OnTheWay(aim, from, first.table, first.revision) && !gateway.lost
      requires Finished(first.table) ==> first.table.spawn.None? && !first.table.retire
      requires aim.settled ==> FirstInLine(gateway.world, aim.goal, first.table)
      modifies gateway
      ensures Within(aim, gateway.world) && old(gateway.trace) <= gateway.trace && Staged(aim, gateway.trace, from)
      ensures saved.Some? ==>
                && !gateway.lost && At(gateway.world, saved.value.table, saved.value.revision)
                && Settled(saved.value.table) && ShapeOf(saved.value.table) == aim.shape
      ensures Settled(first.table) ==> saved == Some(first) && gateway.world == old(gateway.world) && gateway.trace == old(gateway.trace)
      ensures saved.Some? && Finished(first.table) && !first.table.noWrite ==>
                first.table.phase.live.gameId in gateway.world.games
      ensures (&& old(gateway.Undisturbed())
               && (Settled(first.table) || (aim.settled && (Finished(first.table) ==> AudienceFits(first.table.shadows, audience))))) ==>
                gateway.Undisturbed() && saved.Some?
    {
      hide Within, Staged, Storable, Settles, OnlyTable, Reviewed, Unarchived, AudienceFits, FirstInLine, Gateway.Undisturbed;
      saved := FinishTagAndChat(first, aim, from);
      if saved.None? {
        return;
      }
      if Finished(saved.value.table) {
        ConvertedSettled(saved.value.table, audience);
        saved := PersistGame(saved.value.table, saved.value.revision, audience, aim, from);
      }
    }

    /** Whether a change is valid, and small enough with its numbered chat. */
    predicate Acceptable(next: Table, chat: seq<Chat>, now: int)
      reads this
    {
      Valid(WithFinish(Remapped(table, WithIdle(next, |table.chat|)), now)) && fits(Prepared(table, next, now, chat))
    }

    /** Whether a change can be checkpointed at all, which is checked while the table could still go on. */
    method Admit(next: Table, chat: Option<seq<Chat>>, now: int) returns (prepared: Option<Table>)
      modifies gateway`lost, gateway`turn
      ensures old(gateway.lost) ==> gateway.lost
      ensures prepared.Some? ==> chat.Some? && prepared.value == Prepared(table, next, now, chat.value) && !gateway.lost && !frozen
      ensures old(gateway.Undisturbed()) ==> gateway.Undisturbed() && (prepared.Some? <==> !frozen && chat.Some? && Acceptable(next, chat.value, now))
    {
      var open := gateway.Check();
      if !open || frozen {
        return None;
      }
      var changed := WithIdle(next, |table.chat|);
      var shadows := RemapShadows(changed.shadows, Ids(Players(table)), Ids(Players(changed)));
      changed := WithFinish(changed.(shadows := shadows), now);
      if !Valid(changed) || chat.None? || !fits(changed.(chat := chat.value)) {
        return None;
      }
      var still := gateway.Check();
      prepared := if still then Some(changed.(chat := chat.value)) else None;
    }

    /** Whether the table can still go on, and its first checkpoint can be written. */
    predicate Accepts(next: Table, chat: seq<Chat>, now: int)
      reads this, gateway
    {
      && !frozen && Acceptable(next, chat, now) && Storable(Prepared(table, next, now, chat))
      && Current(gateway.world, next.id) == Some(revision)
    }

    /**
     Makes a change durable. It is rejected before anything is written, and the table goes on with what
     it had; or it is saved, and then the store holds exactly what the table holds; or its outcome is
     uncertain, and the table changes nothing more. Each state on the way amounts to what the first
     checkpoint amounted to.
     */
    method Persist(next: Table, chat: Option<seq<Chat>>, now: int, audience: set<int>, ghost goal: Goal) returns (ok: bool)
      requires next.id == table.id && !retired
      requires next.phase.Live? ==> next.spawn.None? && !next.retire
      modifies this`table, this`revision, this`frozen, gateway
      ensures var aim := Target(old(gateway.world), gateway.deal, old(table), old(revision), next, chat, now, goal);
              && old(gateway.trace) <= gateway.trace && Staged(aim, gateway.trace, |old(gateway.trace)|)
              && (gateway.world == old(gateway.world) || Within(aim, gateway.world))
      ensures ok ==>
                && !frozen && !old(frozen) && !gateway.lost
                && At(gateway.world, table, revision) && Settled(table) && ShapeOf(table) == ShapeOf(next)
      ensures ok && chat.Some? && Finished(Prepared(old(table), next, now, chat.value)) && !next.noWrite ==>
                Prepared(old(table), next, now, chat.value).phase.live.gameId in gateway.world.games
      ensures ok ==> chat.Some? && (Settled(Prepared(old(table), next, now, chat.value)) ==>
                table == Prepared(old(table), next, now, chat.value))
      ensures !ok ==> table == old(table) && revision == old(revision)
      ensures !ok && frozen == old(frozen) ==> gateway.world == old(gateway.world) && gateway.trace == old(gateway.trace)
      ensures chat.None? || old(frozen) ==> !ok && frozen == old(frozen)
      ensures !ok && !gateway.lost && chat.Some? && Settled(Prepared(old(table), next, now, chat.value)) ==>
                gateway.world == old(gateway.world)
      ensures chat.Some? && Settled(Prepared(old(table), next, now, chat.value)) ==>
                || (gateway.world == old(gateway.world) && gateway.trace == old(gateway.trace))
                || Wrote(old(gateway.world), old(gateway.trace), gateway.world, gateway.trace,
                         Prepared(old(table), next, now, chat.value), old(revision))
      ensures old(gateway.lost) ==> gateway.lost
      ensures old(gateway.Undisturbed()) && chat.Some? && Settled(Prepared(old(table), next, now, chat.value)) ==>
                && gateway.Undisturbed()
                && (ok <==> old(Accepts(next, chat.value, now)))
      ensures old(gateway.Undisturbed()) && chat.Some? && old(Accepts(next, chat.value, now)) ==>
                var first := Prepared(old(table), next, now, chat.value);
                (&& Target(old(gateway.world), gateway.deal, old(table), old(revision), next, chat, now, goal).settled
                 && (Finished(first) ==> AudienceFits(first.shadows, audience))) ==> ok
    {
      hide Within, Staged, Storable, Settles, OnlyTable, Reviewed, Unarchived, Prepared, Wrote, AudienceFits, Acceptable, Gateway.Undisturbed;
      ghost var aim := Target(gateway.world, gateway.deal, table, revision, next, chat, now, goal);
      ghost var from := |gateway.trace|;
      NothingStaged(aim, gateway.trace);
      var prepared := Admit(next, chat, now);
      if prepared.None? {
        return false;
      }
      PreparedKeepsShape(table, next, now, chat.value);
      OnlyTableSelf(gateway.world, next.id);
      var saved := FirstStage(prepared.value, aim);
      if saved.Some? {
        PreparedPhase(table, next, now, chat.value);
        saved := FinishStages(saved.value, audience, aim, from);
      }
      if saved.None? {
        frozen := true;
        return false;
      }
      table, revision := saved.value.table, saved.value.revision;
      ok := true;
    }

    method FirstStage(next: Table, ghost aim: Aim) returns (saved: Option<Stored>)
      requires aim.before == gateway.world && aim.deal == gateway.deal && ShapeOf(next) == aim.shape
      requires aim.settled ==> Settles(aim.deal, Put(gateway.world, next.id, revision + 1, next), aim.goal)
      modifies gateway
      ensures old(gateway.trace) <= gateway.trace && Staged(aim, gateway.trace, |old(gateway.trace)|)
      ensures gateway.world == old(gateway.world) || Within(aim, gateway.world)
      ensures saved.Some? ==> saved.value == Stored(revision + 1, next) && OnTheWay(aim, |old(gateway.trace)|, next, revision + 1) && !gateway.lost
      ensures saved.Some? ==> gateway.world == Put(old(gateway.world), next.id, revision + 1, next)
      ensures saved.None? && !gateway.lost ==> gateway.world == old(gateway.world)
      ensures old(gateway.Undisturbed()) ==>
                gateway.Undisturbed() && (saved.Some? <==> Storable(next) && Current(old(gateway.world), next.id) == Some(revision))
      ensures || (gateway.world == old(gateway.world) && gateway.trace == old(gateway.trace))
              || Wrote(old(gateway.world), old(gateway.trace), gateway.world, gateway.trace, next, revision)
      ensures old(gateway.lost) ==> gateway.lost
    {
      hide Within, Staged, Storable, Settles, OnlyTable, Reviewed;
      NothingStaged(aim, gateway.trace);
      OnlyTableSelf(gateway.world, next.id);
      PutWithin(aim, gateway.world, revision + 1, next);
      var r := gateway.Save(next, revision);
      if gateway.trace != old(gateway.trace) {
        StagedMore(aim, old(gateway.trace), |old(gateway.trace)|, gateway.world);
      }
      saved := if r.Some? then Some(Stored(r.value, next)) else None;
    }
  }

  /** Exactly one checkpoint was written, over the expected one. */
  ghost predicate Wrote(before: World, past: seq<World>, after: World, trace: seq<World>, t: Table, expected: int) {
    && Storable(t) && Current(before, t.id) == Some(expected)
    && after == Put(before, t.id, expected + 1, t) && trace == past + [after]
  }

  /** An actor makes the edit of its own table at once, whatever waits in other tables. */
  ghost predicate FirstInLine(w: World, g: Goal, t: Table) {
    t.tag.Some? ==> FirstEdit(w, g, t.id, t.tag.value.gameId)
  }

  /** Whatever a store amounts to, it does so too with the edit of one table made first. */
  lemma OwnEditFirst(deal: Dealer, w: World, g: Goal, listing: seq<int>, t: Table)
    requires Settles(deal, w, g) && ListingOf(w.tables, listing) && t.id in w.tables && w.tables[t.id].table == t
    requires listing != [] && listing[0] == t.id
    ensures Ordering.KnownEdits(w)
    ensures var h := Ordering.Ordered(w, g, listing); Settles(deal, w, h) && FirstInLine(w, h, t) && Ordering.SameButEdits(g, h)
  {
    hide Settles, Ordering.Ordered, Ordering.SameButEdits, Ordering.SameResult;
    Ordering.Relisted(deal, w, g, listing);
    var h := Ordering.Ordered(w, g, listing);
    if t.tag.Some? {
      var k := t.tag.value.gameId;
      forall c {:trigger Edits(w, c, k)} | Edits(w, c, k) && c != t.id
        ensures Precedes(h, t.id, c)
      {
        assert c in listing;
        var j :| 0 <= j < |listing| && listing[j] == c;
        assert EditOf(w.tables[t.id].table) == EditOf(w.tables[c].table) == Some(k);
        assert Precedes(h, listing[0], listing[j]);
      }
    }
  }

  /** The aim of a change. It is known to settle if its first checkpoint does. */
  ghost function Target(w: World, deal: Dealer, table: Table, revision: int, next: Table, chat: Option<seq<Chat>>, now: int, goal: Goal): Aim {
    Aim(w, ShapeOf(next), deal, goal,
        chat.Some? && Settles(deal, Put(w, next.id, revision + 1, Prepared(table, next, now, chat.value)), goal)
        && FirstInLine(Put(w, next.id, revision + 1, Prepared(table, next, now, chat.value)), goal, Prepared(table, next, now, chat.value)))
  }

  lemma NothingStaged(aim: Aim, trace: seq<World>)
    ensures Staged(aim, trace, |trace|)
  {}

  lemma PreparedPhase(table: Table, next: Table, now: int, chat: seq<Chat>)
    ensures Prepared(table, next, now, chat).phase.Live? ==> next.phase.Live?
    ensures Prepared(table, next, now, chat).noWrite == next.noWrite
  {}

  lemma ConvertedSettled(t: Table, audience: set<int>)
    requires Finished(t) && t.tag.None? && Unarchived(t) == []
    ensures Settled(Converted(t, audience)) && ShapeOf(Converted(t, audience)) == ShapeOf(t)
  {}

  lemma ConvertedShape(t: Table, audience: set<int>)
    requires Finished(t)
    ensures ShapeOf(Converted(t, audience)) == ShapeOf(t)
  {}

  lemma ConvertedStorable(t: Table, audience: set<int>)
    requires Finished(t) && Storable(AsReplay(t)) && AudienceFits(t.shadows, audience)
    ensures Storable(Converted(t, audience))
  {
    hide Storable, Finished;
    var a, b := AsReplay(t), Converted(t, audience);
    ShadowsMayChange(a, b.shadows) by {
      StorableShadows(a);
      assert forall user <- b.shadows :: user in a.shadows || user in audience;
    }
  }

  lemma StorableShadows(t: Table)
    requires Storable(t)
    ensures forall user <- t.shadows :: user > 0 && (t.shadows[user].Some? ==> 0 <= t.shadows[user].value < |Players(t)|)
  {}

  lemma ShadowsMayChange(t: Table, shadows: map<int, Option<int>>)
    requires Storable(t) && |shadows| <= MAX_LIST
    requires forall user <- shadows :: user > 0 && (shadows[user].Some? ==> 0 <= shadows[user].value < |Players(t)|)
    ensures Storable(t.(shadows := shadows))
  {
    hide SnapshotValid, ControlsValid, DistinctPlayers;
    var next := t.(shadows := shadows);
    assert Players(next) == Players(t);
    assert forall seat :: 0 <= seat < |Players(t)| ==> PlayerValid(t, seat, Players(t)[seat]);
  }

  lemma ConvertedReviewed(deal: Dealer, w: World, g: Goal, t: Table, revision: int, audience: set<int>)
    requires Finished(t) && t.id in w.tables
    requires Settles(deal, Put(w, t.id, revision + 1, AsReplay(t)), g)
    requires t.tag.None? && Unarchived(t) == [] && t.spawn.None? && !t.retire
    ensures Reviewed(Put(w, t.id, revision + 1, Converted(t, audience)), g, t.id)
  {
    hide ChatSettles, GamesSettle, TagsSettle, RoomSettles, Settles;
    StoredFits(deal, Put(w, t.id, revision + 1, AsReplay(t)), g, t.id);
    FinalStored(deal, Put(w, t.id, revision + 1, AsReplay(t)), g, t.id);
    StorableArchived(AsReplay(t));
    QuietFinal(AsReplay(t), g);
  }

  lemma FinalStored(deal: Dealer, w: World, g: Goal, id: int)
    requires Settles(deal, w, g) && id in w.tables && !w.tables[id].table.retire
    ensures id in g.tables && g.tables[id] == Final(w.tables[id].table, g)
  {
    hide ChatSettles, GamesSettle, TagsSettle, RoomSettles, Final, Storable;
  }

  lemma TaggedKeepsShape(t: Table, tags: set<Tag>)
    ensures ShapeOf(Tagged(t, tags)) == ShapeOf(t)
    ensures Tagged(t, tags).chat == t.chat && Tagged(t, tags).archived == t.archived && SameEnd(Tagged(t, tags), t)
  {
    if t.tag.Some? && GameOf(t).Some? {
      assert Players(Tagged(t, tags)) == Players(WithGame(t, GameOf(t).value.(tags := tags))) == Players(t);
    }
  }
}
