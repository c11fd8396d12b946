/**
 Handing players over to another table. The source is the journal: whatever fails, and wherever a crash
 strikes, recovery ends with the source as it was, or with the handover done.
 */
module Transfer {
  import opened Common
  import opened Model
  import opened Archive
  import opened Roster
  import opened Settling
  import opened Recovery
  import opened Actor
  import Redis

  /** A reserved identity, which is given back unless the table under it is there to stay. */
  class Allocation {
    const id: int
    var revision: int
    var armed: bool

    constructor (id: int)
      ensures this.id == id && revision == 0 && armed
    {
      this.id, revision, armed := id, 0, true;
    }

    method Preserve()
      modifies this
      ensures !armed && revision == old(revision)
    {
      armed := false;
    }

    /**
     The destructor asks for the removal of what is stored under the identity, which runs like any other
     request: only while the lease is held, and only against the revision that the allocation knows.
     */
    method Drop(gateway: Gateway) returns (removed: bool)
      modifies this, gateway
      ensures gateway.world == if old(armed) && old(gateway.Runs()) && Current(old(gateway.world), id) == Some(old(revision))
                               then Removed(old(gateway.world), id) else old(gateway.world)
      ensures (gateway.world == old(gateway.world) && gateway.trace == old(gateway.trace))
              || (gateway.world == Removed(old(gateway.world), id) && gateway.trace == old(gateway.trace) + [gateway.world])
      ensures removed <==> old(armed) && old(gateway.Answers()) && Current(old(gateway.world), id) in {None, Some(old(revision))}
      ensures old(gateway.lost) ==> gateway.lost
      ensures old(gateway.Undisturbed()) ==> gateway.Undisturbed()
      ensures !armed && revision == old(revision)
    {
      removed := false;
      if armed {
        armed := false;
        removed := gateway.Remove(id, revision);
      }
    }
  }

  /**
   The hub takes in a table that was prepared and saved, or refuses it because it closes, because the
   session changed or because it has such a table. A refused table is gone exactly if its allocation
   still guards it, at the revision at which it is stored, and the removal is let through and runs.
   */
  method Install(tables: set<int>, closing: bool, current: bool, table: Table, allocation: Allocation, gateway: Gateway)
    returns (installed: bool, removed: bool)
    modifies allocation, gateway
    ensures installed <==> !closing && current && table.id !in tables && allocation.id == table.id
    ensures allocation.id in old(gateway.world.tables) ==>
              (allocation.id !in gateway.world.tables <==>
                 && !installed && old(allocation.armed) && old(gateway.Runs())
                 && old(gateway.world.tables)[allocation.id].revision == old(allocation.revision))
    ensures (gateway.world == old(gateway.world) && gateway.trace == old(gateway.trace))
            || (gateway.world == Removed(old(gateway.world), allocation.id) && gateway.trace == old(gateway.trace) + [gateway.world])
    ensures installed ==> gateway.world == old(gateway.world) && gateway.Undisturbed() == old(gateway.Undisturbed())
    ensures old(gateway.Undisturbed()) ==> gateway.Undisturbed()
    ensures !allocation.armed
  {
    installed, removed := !closing && current && table.id !in tables && allocation.id == table.id, false;
    if installed {
      allocation.Preserve();
    } else {
      removed := allocation.Drop(gateway);
    }
  }

  /** A table is saved under its reserved identity and then offered to the hub, like the review of an archived game. */
  method Prepare(tables: set<int>, closing: bool, current: bool, table: Table, allocation: Allocation, gateway: Gateway)
    returns (installed: bool)
    requires allocation.id == table.id && allocation.armed && allocation.revision == 0
    modifies allocation, gateway
    ensures installed ==> !closing && current && table.id !in tables
    ensures installed ==> At(gateway.world, table, 1)
    ensures old(gateway.Undisturbed()) && Storable(table) && Current(old(gateway.world), table.id) == Some(0) ==>
              && (installed <==> !closing && current && table.id !in tables)
              && (table.id in gateway.world.tables <==> installed)
  {
    hide Storable;
    var saved := gateway.Save(table, 0);
    if saved.None? {
      var _ := allocation.Drop(gateway);
      return false;
    }
    allocation.revision := saved.value;
    var removed;
    installed, removed := Install(tables, closing, current, table, allocation, gateway);
  }

  /** Any table that was saved before the hub began to close, and is offered to it with nothing failing, is lost. */
  method ClosingHubForgets(table: Table, deal: Dealer) returns (saved: World, gateway: Gateway)
    ensures At(saved, table, 1) && gateway.world == Removed(saved, table.id) && gateway.trace == [gateway.world]
  {
    saved := World(map[table.id := Stored(1, table)], map[], map[], map[], map[]);
    gateway := new Gateway(saved, deal, _ => FINE);
    var allocation := new Allocation(table.id);
    allocation.revision := 1;
    assert At(gateway.world, table, 1) && gateway.Undisturbed();
    var installed, removed := Install({}, true, true, table, allocation, gateway);
  }

  /** One handover: the store that it begins with, and the source as journalled with the new table inside. */
  datatype Deal = Deal(start: World, journal: Table, destination: Table)

  /** Nothing of the table is pending, and the archive has all of its chat. */
  predicate AtRest(t: Table) {
    t.tag.None? && t.archived == |t.chat| && !Finished(t)
  }

  /** A table at rest hands over to one that is new, and no other table hands anything over to these two. */
  ghost predicate Possible(d: Deal) {
    && d.journal.id != d.destination.id && d.journal.spawn == Some(d.destination) && AtRest(d.journal)
    && Quiet(d.destination) && d.destination.archived <= |d.destination.chat|
    && d.journal.id in d.start.tables && d.destination.id !in d.start.tables
    && AtRest(d.start.tables[d.journal.id].table) && d.start.tables[d.journal.id].table.spawn.None?
    && d.start.reserved.Keys !! d.start.tables.Keys && d.start.tables[d.journal.id].revision >= 1
    && (forall k {:trigger d.start.tables[k]} :: k in d.start.tables && k != d.journal.id ==>
          JournalOf(d.start.tables[k].table) != Some(d.journal.id) && JournalOf(d.start.tables[k].table) != Some(d.destination.id))
  }

  /** Everything but the two tables is as it was. */
  ghost predicate OthersSame(w: World, d: Deal) {
    && (forall k {:trigger w.tables[k]} {:trigger d.start.tables[k]} :: k != d.journal.id && k != d.destination.id ==>
          (k in w.tables <==> k in d.start.tables) && (k in w.tables ==> w.tables[k] == d.start.tables[k]))
    && w.chat == d.start.chat && w.games == d.start.games && w.tags == d.start.tags
    && w.reserved.Keys !! w.tables.Keys
  }

  predicate Holds(w: World, id: int, t: Table) {
    id in w.tables && w.tables[id].table == t && w.tables[id].revision >= 1
  }

  predicate Untouched(w: World, d: Deal) {
    && d.journal.id in w.tables && d.journal.id in d.start.tables && w.tables[d.journal.id] == d.start.tables[d.journal.id]
    && d.destination.id !in w.tables
  }

  predicate Handing(w: World, d: Deal) {
    && Storable(d.journal) && Holds(w, d.journal.id, d.journal)
    && (d.destination.id in w.tables ==> Holds(w, d.destination.id, d.destination))
  }

  predicate Done(w: World, d: Deal) {
    && Storable(d.journal) && Holds(w, d.destination.id, d.destination)
    && if d.journal.retire then d.journal.id !in w.tables else Holds(w, d.journal.id, JournalDone(d.journal))
  }

  ghost predicate Safe(w: World, d: Deal) {
    OthersSame(w, d) && (Untouched(w, d) || Handing(w, d) || Done(w, d))
  }

  ghost predicate AllSafe(trace: seq<World>, from: nat, d: Deal) {
    forall i {:trigger trace[i]} :: from <= i < |trace| ==> Safe(trace[i], d)
  }

  lemma OneMoreSafe(trace: seq<World>, from: nat, w: World, d: Deal)
    requires AllSafe(trace, from, d) && Safe(w, d)
    ensures AllSafe(trace + [w], from, d)
  {
    hide Safe;
  }

  lemma NothingSafe(trace: seq<World>, d: Deal)
    ensures AllSafe(trace, |trace|, d)
  {}

  // ---------------------------------------------------------------------------------------------
  // What a handover changes in what the store amounts to.

  /** The new table is there and the source is as journalled, or gone; everything else is as before. */
  function HandedOver(g: Goal, d: Deal): Goal {
    g.(tables := (if d.journal.retire then g.tables - {d.journal.id} else g.tables[d.journal.id := JournalDone(d.journal)])
                 [d.destination.id := d.destination])
  }

  /** A store that recovery can finish, with room for the new table. */
  ghost predicate MayHandOver(deal: Dealer, g: Goal, d: Deal) {
    && Possible(d) && Settles(deal, d.start, g)
    && |d.start.tables.Keys + g.tables.Keys + {d.destination.id}| <= Redis.MAX_RECORDS
  }

  lemma HasPut(w: World, id: int, revision: int, t: Table)
    ensures var after := Put(w, id, revision, t);
            && id in after.tables && after.tables[id] == Stored(revision, t)
            && after.chat == w.chat && after.games == w.games && after.tags == w.tags
            && forall k {:trigger after.tables[k]} {:trigger w.tables[k]} :: k != id ==>
                 (k in after.tables <==> k in w.tables) && (k in w.tables ==> after.tables[k] == w.tables[k])
  {}

  lemma HasRemoved(w: World, id: int)
    ensures var after := Removed(w, id);
            && id !in after.tables && after.chat == w.chat && after.games == w.games && after.tags == w.tags
            && forall k {:trigger after.tables[k]} {:trigger w.tables[k]} :: k != id ==>
                 (k in after.tables <==> k in w.tables) && (k in w.tables ==> after.tables[k] == w.tables[k])
  {}

  lemma NewIsNew(deal: Dealer, g: Goal, d: Deal)
    requires MayHandOver(deal, g, d)
    ensures d.destination.id !in g.tables
  {
    hide Settles, Quiet;
    var id := d.destination.id;
    forall k | k in d.start.tables
      ensures JournalOf(d.start.tables[k].table) != Some(id)
    {}
    AbsentStays(deal, d.start, g, id);
  }

  lemma AbsentStays(deal: Dealer, w: World, g: Goal, id: int)
    requires Settles(deal, w, g) && id !in w.tables && !Journalled(w, id)
    ensures id !in g.tables
  {
    hide ChatSettles, GamesSettle, TagsSettle, RoomSettles, Storable, Final;
  }

  /** Writing the journal alone already amounts to the whole handover. */
  lemma JournalSettlesTo(deal: Dealer, g: Goal, d: Deal, revision: int)
    requires MayHandOver(deal, g, d) && Storable(d.journal) && revision >= 1
    ensures Settles(deal, Put(d.start, d.journal.id, revision, d.journal), HandedOver(g, d))
  {
    hide TablesSettle, ChatSettles, GamesSettle, TagsSettle, RoomSettles, Storable, Quiet, Put, AtRest;
    JournalArchive(deal, d.start, g, d.journal, revision);
    OtherGoal(deal, Put(d.start, d.journal.id, revision, d.journal), g, HandedOver(g, d));
    NewIsNew(deal, g, d);
    JournalTables(g, d, revision);
    JournalRoom(g, d, revision);
  }

  /** The archive does not notice: the table held nothing back before, and holds nothing back now. */
  lemma JournalArchive(deal: Dealer, w: World, g: Goal, j: Table, revision: int)
    requires ChatSettles(w, g) && GamesSettle(deal, w, g) && TagsSettle(w, g)
    requires j.id in w.tables && AtRest(w.tables[j.id].table) && AtRest(j)
    ensures var after := Put(w, j.id, revision, j);
            ChatSettles(after, g) && GamesSettle(deal, after, g) && TagsSettle(after, g)
  {
    hide ChatSettles, GamesSettle, TagsSettle, Put, Removed;
    var t := w.tables[j.id].table;
    var rest := Removed(w, j.id);
    assert Unarchived(t) == [] && Unarchived(j) == [] && ToComplete(t).None? && ToComplete(j).None?;
    RetireChat(w, g, j.id);
    RetireGames(deal, w, g, j.id);
    RetireTags(w, g, j.id);
    PutAgain(w, j.id, revision, j);
    AddedChat(rest, g, j, revision);
    AddedGames(deal, rest, g, j, revision);
    AddedTags(rest, g, j, revision);
  }

  lemma PutAgain(w: World, id: int, revision: int, t: Table)
    ensures id !in Removed(w, id).tables && Put(Removed(w, id), id, revision, t) == Put(w, id, revision, t)
  {
    assert (w.tables - {id})[id := Stored(revision, t)] == w.tables[id := Stored(revision, t)];
    assert w.reserved - {id} - {id} == w.reserved - {id};
  }

  /** Chat, games and tags amount to the same whatever the tables amount to. */
  lemma OtherGoal(deal: Dealer, w: World, g: Goal, goal: Goal)
    requires ChatSettles(w, g) && GamesSettle(deal, w, g) && TagsSettle(w, g)
    requires goal == g.(tables := goal.tables)
    ensures ChatSettles(w, goal) && GamesSettle(deal, w, goal) && TagsSettle(w, goal)
  {
    hide Unarchived, ToComplete, TagsSettle, Completed, Fits, Insertable, Matches;
    OtherGoalTags(w, g, goal);
    forall id {:trigger w.tables[id]} | id in w.tables
      ensures forall c <- Unarchived(w.tables[id].table) :: FiledAs(goal.chat, c)
    {
      assert forall c <- Unarchived(w.tables[id].table) :: FiledAs(g.chat, c);
    }
    forall id {:trigger w.tables[id]} | id in w.tables
      ensures ToComplete(w.tables[id].table).Some? ==> GameSettles(deal, w, goal, ToComplete(w.tables[id].table).value)
    {
      assert ToComplete(w.tables[id].table).Some? ==> GameSettles(deal, w, g, ToComplete(w.tables[id].table).value);
    }
  }

  lemma OtherGoalTags(w: World, g: Goal, goal: Goal)
    requires TagsSettle(w, g) && goal == g.(tables := goal.tables)
    ensures TagsSettle(w, goal)
  {
    hide EditedBy, Edits, EditPending;
    assert forall a, b {:trigger Precedes(goal, a, b)} :: Precedes(goal, a, b) <==> Precedes(g, a, b);
    assert forall a, k {:trigger FirstEdit(w, goal, a, k)} :: FirstEdit(w, goal, a, k) ==> FirstEdit(w, g, a, k);
    assert forall a, b, k {:trigger NextEdit(w, goal, a, b, k)} :: NextEdit(w, goal, a, b, k) ==> NextEdit(w, g, a, b, k);
    assert forall a, k {:trigger LastEdit(w, goal, a, k)} :: LastEdit(w, goal, a, k) ==> LastEdit(w, g, a, k);
  }

  lemma JournalRoom(g: Goal, d: Deal, revision: int)
    requires RoomSettles(d.start, g) && d.journal.id in d.start.tables
    requires |d.start.tables.Keys + g.tables.Keys + {d.destination.id}| <= Redis.MAX_RECORDS
    ensures RoomSettles(Put(d.start, d.journal.id, revision, d.journal), HandedOver(g, d))
  {
    Redis.Smaller(Put(d.start, d.journal.id, revision, d.journal).tables.Keys + HandedOver(g, d).tables.Keys,
                  d.start.tables.Keys + g.tables.Keys + {d.destination.id});
  }

  lemma JournalTables(g: Goal, d: Deal, revision: int)
    requires Possible(d) && TablesSettle(d.start, g) && Storable(d.journal) && revision >= 1 && d.destination.id !in g.tables
    ensures TablesSettle(Put(d.start, d.journal.id, revision, d.journal), HandedOver(g, d))
  {
    hide Storable, Final, Quiet, TableSettles, HandedOver, AtRest, TablesSettle;
    var after, goal := Put(d.start, d.journal.id, revision, d.journal), HandedOver(g, d);
    forall other {:trigger after.tables[other]} | other in after.tables
      ensures TableSettles(after, goal, other)
    {
      if other == d.journal.id {
        JournalTable(g, d, revision);
      } else {
        OtherTable(g, d, revision, other);
      }
    }
    JournalReached(g, d, revision);
    EachSettles(after, goal);
  }

  /** What is asked of each table of a store that settles. */
  predicate TableSettles(w: World, g: Goal, id: int)
    requires id in w.tables
  {
    var t := w.tables[id].table;
    && t.id == id && Storable(t) && w.tables[id].revision >= 1
    && (t.retire <==> id !in g.tables)
    && (!t.retire ==> g.tables[id] == Final(t, g))
    && (t.spawn.Some? ==> JournalSettles(w, g, t.spawn.value))
  }

  lemma EachSettles(w: World, g: Goal)
    ensures TablesSettle(w, g) <==>
              && (forall id {:trigger w.tables[id]} :: id in w.tables ==> TableSettles(w, g, id))
              && (forall id {:trigger id in g.tables} :: id in g.tables ==> id in w.tables || Journalled(w, id))
  {
    hide Storable, Final, Journalled, JournalSettles;
  }

  lemma JournalTable(g: Goal, d: Deal, revision: int)
    requires Possible(d) && revision >= 1 && Storable(d.journal)
    ensures TableSettles(Put(d.start, d.journal.id, revision, d.journal), HandedOver(g, d), d.journal.id)
  {
    hide Storable, Final, Quiet, AtRest;
    RestingFinal(d.journal, HandedOver(g, d));
  }

  lemma RestingFinal(j: Table, g: Goal)
    requires AtRest(j)
    ensures Final(j, g) == JournalDone(j)
  {}

  lemma OtherTable(g: Goal, d: Deal, revision: int, other: int)
    requires Possible(d) && TablesSettle(d.start, g) && other in d.start.tables && other != d.journal.id
    ensures TableSettles(Put(d.start, d.journal.id, revision, d.journal), HandedOver(g, d), other)
  {
    hide Storable, Final, Quiet, AtRest;
    var u := d.start.tables[other].table;
    assert u.id == other;
    FinalNeedsTags(u, g, HandedOver(g, d));
  }

  lemma JournalReached(g: Goal, d: Deal, revision: int)
    requires Possible(d) && TablesSettle(d.start, g)
    ensures var after := Put(d.start, d.journal.id, revision, d.journal);
            forall k {:trigger k in HandedOver(g, d).tables} :: k in HandedOver(g, d).tables ==> k in after.tables || Journalled(after, k)
  {
    hide Storable, Final, JournalSettles, Quiet, AtRest;
    var after, goal := Put(d.start, d.journal.id, revision, d.journal), HandedOver(g, d);
    forall k {:trigger k in goal.tables} | k in goal.tables
      ensures k in after.tables || Journalled(after, k)
    {
      if k == d.destination.id {
        assert JournalOf(after.tables[d.journal.id].table) == Some(k);
      } else if k !in after.tables {
        var source :| source in d.start.tables && JournalOf(d.start.tables[source].table) == Some(k);
        assert JournalOf(after.tables[source].table) == Some(k);
      }
    }
  }

  /** The new table's own checkpoint leaves the store amounting to the same. */
  lemma DeliveredSettles(deal: Dealer, g: Goal, d: Deal, revision: int, delivered: int)
    requires MayHandOver(deal, g, d) && Storable(d.journal) && revision >= 1 && delivered >= 1
    ensures Settles(deal, Put(Put(d.start, d.journal.id, revision, d.journal), d.destination.id, delivered, d.destination), HandedOver(g, d))
  {
    hide Settles, Quiet, HandedOver, Storable, Put, AtRest;
    JournalSettlesTo(deal, g, d, revision);
    StorableQuiet(d.destination) by {
      JournalValid(d.journal);
    }
    HasPut(d.start, d.journal.id, revision, d.journal);
    SpawnSettles(deal, Put(d.start, d.journal.id, revision, d.journal), HandedOver(g, d), d.journal.id, delivered);
  }

  lemma JournalValid(j: Table)
    requires Storable(j) && j.spawn.Some?
    ensures Valid(j.spawn.value) && j.spawn.value.spawn.None?
  {}

  /** Giving the source up or freeing it from its journal leaves the store amounting to the same. */
  lemma ReleasedSettles(deal: Dealer, g: Goal, d: Deal, delivered: int, revision: int)
    requires MayHandOver(deal, g, d) && Storable(d.journal) && delivered >= 1 && revision >= 1
    ensures var w := Put(Put(d.start, d.journal.id, 1, d.journal), d.destination.id, delivered, d.destination);
            Settles(deal, if d.journal.retire then Removed(w, d.journal.id) else Put(w, d.journal.id, revision, JournalDone(d.journal)), HandedOver(g, d))
  {
    hide Settles, Storable, Put, Removed, Discharges, Journalled, HandedOver, Quiet;
    var j := d.journal;
    var w := Put(Put(d.start, j.id, 1, j), d.destination.id, delivered, d.destination);
    DeliveredSettles(deal, g, d, 1, delivered);
    HasPut(d.start, j.id, 1, j);
    HasPut(Put(d.start, j.id, 1, j), d.destination.id, delivered, d.destination);
    assert Unarchived(j) == [];
    if j.retire {
      RetireSettles(deal, w, HandedOver(g, d), j.id);
    } else {
      NotJournalledSource(d, delivered);
      JournalDischarges(w, HandedOver(g, d), j);
      JournalDoneStorable(j);
      PutSettles(deal, w, HandedOver(g, d), j.id, revision, JournalDone(j));
    }
  }

  lemma NotJournalledSource(d: Deal, delivered: int)
    requires Possible(d) && Storable(d.journal)
    ensures !Journalled(Put(Put(d.start, d.journal.id, 1, d.journal), d.destination.id, delivered, d.destination), d.journal.id)
  {
    hide Put, Storable, Quiet, AtRest;
    JournalValid(d.journal);
    HasPut(d.start, d.journal.id, 1, d.journal);
    HasPut(Put(d.start, d.journal.id, 1, d.journal), d.destination.id, delivered, d.destination);
    var after := Put(Put(d.start, d.journal.id, 1, d.journal), d.destination.id, delivered, d.destination);
    forall k | k in after.tables
      ensures JournalOf(after.tables[k].table) != Some(d.journal.id)
    {
      if k != d.journal.id && k != d.destination.id {
        assert after.tables[k] == d.start.tables[k];
      }
    }
  }

  /** The same tables and the same archive; reservations may differ. */
  ghost predicate Alike(w: World, other: World) {
    && (forall k {:trigger other.tables[k]} {:trigger w.tables[k]} ::
          (k in other.tables <==> k in w.tables) && (k in w.tables ==> other.tables[k] == w.tables[k]))
    && other.chat == w.chat && other.games == w.games && other.tags == w.tags
  }

  lemma SameButReserved(deal: Dealer, w: World, other: World, g: Goal)
    requires Settles(deal, w, g) && Alike(w, other) && other.reserved.Keys !! other.tables.Keys
    ensures Settles(deal, other, g)
  {
    hide Settles;
    SameByNumber(other.tables, w.tables);
    ReservingSettles(deal, w, g, other.reserved);
    assert other == w.(reserved := other.reserved);
  }

  /**
   Wherever a handover is cut short, the store amounts to all of it or to nothing of it, and recovery
   can finish it: every other table, the chat, the games and their tags are as they would have been.
   */
  lemma HandoverIsAtomic(deal: Dealer, g: Goal, d: Deal, w: World)
    requires MayHandOver(deal, g, d) && Safe(w, d)
    ensures Settles(deal, w, g) || Settles(deal, w, HandedOver(g, d))
    ensures Untouched(w, d) ==> Settles(deal, w, g)
    ensures !Untouched(w, d) ==> Settles(deal, w, HandedOver(g, d))
  {
    hide Settles, Storable, Quiet, AtRest, HandedOver, Removed, Put;
    if Untouched(w, d) {
      SameButReserved(deal, d.start, w, g);
    } else if Handing(w, d) {
      HandingSettles(deal, g, d, w);
    } else {
      DoneSettles(deal, g, d, w);
    }
  }

  lemma HandingSettles(deal: Dealer, g: Goal, d: Deal, w: World)
    requires MayHandOver(deal, g, d) && OthersSame(w, d) && Handing(w, d)
    ensures Settles(deal, w, HandedOver(g, d))
  {
    hide Settles, Storable, Quiet, AtRest, HandedOver, Put, Alike;
    var revision := w.tables[d.journal.id].revision;
    var journalled := Put(d.start, d.journal.id, revision, d.journal);
    if d.destination.id in w.tables {
      var delivered := w.tables[d.destination.id].revision;
      DeliveredSettles(deal, g, d, revision, delivered);
      HandingAlike(d, w, delivered);
      SameButReserved(deal, Put(journalled, d.destination.id, delivered, d.destination), w, HandedOver(g, d));
    } else {
      JournalSettlesTo(deal, g, d, revision);
      HandingAlike(d, w, 1);
      SameButReserved(deal, journalled, w, HandedOver(g, d));
    }
  }

  lemma HandingAlike(d: Deal, w: World, delivered: int)
    requires OthersSame(w, d) && Holds(w, d.journal.id, d.journal) && d.journal.id != d.destination.id && d.destination.id !in d.start.tables
    ensures var journalled := Put(d.start, d.journal.id, w.tables[d.journal.id].revision, d.journal);
            if d.destination.id !in w.tables then Alike(journalled, w)
            else w.tables[d.destination.id] == Stored(delivered, d.destination) ==>
                   Alike(Put(journalled, d.destination.id, delivered, d.destination), w)
  {
    hide Put;
    var journalled := Put(d.start, d.journal.id, w.tables[d.journal.id].revision, d.journal);
    HasPut(d.start, d.journal.id, w.tables[d.journal.id].revision, d.journal);
    HasPut(journalled, d.destination.id, delivered, d.destination);
  }

  lemma DoneSettles(deal: Dealer, g: Goal, d: Deal, w: World)
    requires MayHandOver(deal, g, d) && OthersSame(w, d) && Done(w, d)
    ensures Settles(deal, w, HandedOver(g, d))
  {
    hide Settles, Storable, Quiet, AtRest, HandedOver, JournalDone, Put, Removed, Alike;
    var delivered := w.tables[d.destination.id].revision;
    var revision := if d.journal.retire then 1 else w.tables[d.journal.id].revision;
    ReleasedSettles(deal, g, d, delivered, revision);
    DoneAlike(d, w, delivered, revision);
    var before := Put(Put(d.start, d.journal.id, 1, d.journal), d.destination.id, delivered, d.destination);
    SameButReserved(deal, if d.journal.retire then Removed(before, d.journal.id) else Put(before, d.journal.id, revision, JournalDone(d.journal)),
                    w, HandedOver(g, d));
  }

  lemma DoneAlike(d: Deal, w: World, delivered: int, revision: int)
    requires OthersSame(w, d) && Done(w, d) && d.journal.id != d.destination.id
    requires w.tables[d.destination.id].revision == delivered
    requires d.journal.retire || w.tables[d.journal.id].revision == revision
    ensures var before := Put(Put(d.start, d.journal.id, 1, d.journal), d.destination.id, delivered, d.destination);
            Alike(if d.journal.retire then Removed(before, d.journal.id) else Put(before, d.journal.id, revision, JournalDone(d.journal)), w)
  {
    hide Put, Removed, JournalDone, Storable;
    var journalled := Put(d.start, d.journal.id, 1, d.journal);
    var before := Put(journalled, d.destination.id, delivered, d.destination);
    HasPut(d.start, d.journal.id, 1, d.journal);
    HasPut(journalled, d.destination.id, delivered, d.destination);
    HasRemoved(before, d.journal.id);
    HasPut(before, d.journal.id, revision, JournalDone(d.journal));
  }

  // ---------------------------------------------------------------------------------------------
  // Each write of the handover.

  /** What one request of the handover may do to the store: nothing, or one step. */
  ghost predicate OneStep(before: World, past: seq<World>, after: World, trace: seq<World>, next: World) {
    (after == before && trace == past) || (after == next && trace == past + [next])
  }

  lemma StepIsSafe(before: World, past: seq<World>, after: World, trace: seq<World>, next: World, d: Deal)
    requires OneStep(before, past, after, trace, next) && Safe(before, d) && Safe(next, d)
    ensures Safe(after, d) && past <= trace && AllSafe(trace, |past|, d)
  {
    hide Safe;
    NothingSafe(past, d);
    if trace != past {
      OneMoreSafe(past, |past|, next, d);
    }
  }

  lemma JournalIsSafe(w: World, revision: int, d: Deal)
    requires OthersSame(w, d) && Untouched(w, d) && Possible(d) && Storable(d.journal) && revision >= 1
    ensures var next := Put(w, d.journal.id, revision, d.journal);
            OthersSame(next, d) && Handing(next, d) && d.destination.id !in next.tables
  {
    hide Storable, Quiet, AtRest;
  }

  lemma DeliveryIsSafe(w: World, d: Deal)
    requires OthersSame(w, d) && Handing(w, d) && d.journal.id != d.destination.id
    ensures var next := Put(w, d.destination.id, 1, d.destination);
            OthersSame(next, d) && Handing(next, d) && d.destination.id in next.tables
  {
    hide Storable;
  }

  lemma ReleaseIsSafe(w: World, revision: int, d: Deal)
    requires OthersSame(w, d) && Handing(w, d) && d.destination.id in w.tables && d.journal.id != d.destination.id && revision >= 1
    ensures d.journal.retire ==> OthersSame(Removed(w, d.journal.id), d) && Done(Removed(w, d.journal.id), d)
    ensures !d.journal.retire ==>
              var next := Put(w, d.journal.id, revision, JournalDone(d.journal));
              OthersSame(next, d) && Done(next, d)
  {
    hide Storable;
  }

  /** Giving the reserved identity back undoes at most the delivery, which the journal still asks for. */
  lemma DropIsSafe(w: World, d: Deal)
    requires Safe(w, d) && !Done(w, d) && d.journal.id != d.destination.id
    ensures Safe(Removed(w, d.destination.id), d)
    ensures Untouched(w, d) ==> Untouched(Removed(w, d.destination.id), d)
    ensures Handing(w, d) ==> Handing(Removed(w, d.destination.id), d)
  {
    hide Storable;
  }

  /** Gives the reserved identity back while the source still says what to do, or nothing happened. */
  method GiveUp(gateway: Gateway, allocation: Allocation, ghost d: Deal)
    requires allocation.id == d.destination.id != d.journal.id
    requires Safe(gateway.world, d) && (gateway.lost || !Done(gateway.world, d))
    modifies allocation, gateway
    ensures Safe(gateway.world, d) && old(gateway.trace) <= gateway.trace && AllSafe(gateway.trace, |old(gateway.trace)|, d)
    ensures !allocation.armed
  {
    hide Safe, Done, Untouched, Handing, Removed;
    NothingSafe(gateway.trace, d);
    if !Done(gateway.world, d) {
      DropIsSafe(gateway.world, d);
    }
    var _ := allocation.Drop(gateway);
    if gateway.trace != old(gateway.trace) {
      OneMoreSafe(old(gateway.trace), |old(gateway.trace)|, gateway.world, d);
    }
  }

  /** Checkpointing a table at rest again as it is adds nothing to it. */
  lemma PreparedAgain(table: Table, next: Table, now: int, later: int)
    ensures var j := Prepared(table, next, now, next.chat);
            Prepared(j, JournalDone(j), later, j.chat) == JournalDone(j)
  {
    hide Moved, MovedAll, WithIdle, WithFinish;
    var a := Remapped(table, WithIdle(next, |table.chat|));
    var j := Prepared(table, next, now, next.chat);
    NothingToFinish(WithFinish(a, now).(chat := next.chat), a, now, later);
    NothingSaid(JournalDone(j), |j.chat|);
    NothingMoved(j, JournalDone(j));
  }

  lemma NothingToFinish(j: Table, a: Table, now: int, later: int)
    requires j == WithFinish(a, now).(chat := j.chat)
    ensures WithFinish(JournalDone(j), later) == JournalDone(j)
  {}

  lemma NothingSaid(t: Table, known: nat)
    requires known >= |t.chat|
    ensures WithIdle(t, known) == t
  {}

  lemma NothingMoved(t: Table, next: Table)
    requires next == JournalDone(t)
    ensures Remapped(t, next) == next
  {
    assert Players(next) == Players(t);
  }

  lemma PreparedAtRest(table: Table, next: Table, now: int)
    requires AtRest(next)
    ensures AtRest(Prepared(table, next, now, next.chat))
    ensures Settled(Prepared(table, next, now, next.chat))
  {
    hide MovedAll;
    PreparedKeepsShape(table, next, now, next.chat);
    var a := WithIdle(next, |table.chat|);
    assert Finished(a) <==> Finished(next);
    var b := Remapped(table, a);
    assert Finished(WithFinish(b, now)) <==> Finished(b);
  }

  // ---------------------------------------------------------------------------------------------
  // The handover.

  /** What an actor hands over: the journal is the source with the new table inside, as it is checkpointed. */
  predicate Hands(actor: TableActor, source: Table, destination: Table, retire: bool, now: int, d: Deal)
    reads actor
  {
    && source.id == actor.table.id && AtRest(source) && !source.phase.Live? && !actor.retired
    && d.destination == destination
    && d.journal == Prepared(actor.table, source.(spawn := Some(destination), retire := retire), now, source.chat)
  }

  /** Writes the journal: the source as it will be, with the new table inside. */
  method Journal(actor: TableActor, source: Table, destination: Table, retire: bool, now: int, reserved: bool,
                 ghost goal: Goal, ghost d: Deal)
    returns (ok: bool)
    requires Hands(actor, source, destination, retire, now, d) && Possible(d)
    requires OthersSame(actor.gateway.world, d) && Untouched(actor.gateway.world, d)
    modifies actor`table, actor`revision, actor`frozen, actor.gateway
    ensures Safe(actor.gateway.world, d) && !Done(actor.gateway.world, d) && old(actor.gateway.trace) <= actor.gateway.trace
    ensures AllSafe(actor.gateway.trace, |old(actor.gateway.trace)|, d)
    ensures ok ==> OthersSame(actor.gateway.world, d) && Handing(actor.gateway.world, d) && actor.table == d.journal && !actor.frozen
    ensures ok ==> actor.revision == old(actor.revision) + 1 && actor.gateway.world == Put(old(actor.gateway.world), d.journal.id, actor.revision, d.journal)
    ensures (&& old(actor.gateway.Undisturbed()) && reserved && !old(actor.frozen) && actor.fits(d.journal) && Storable(d.journal)
             && Current(old(actor.gateway.world), d.journal.id) == Some(old(actor.revision))) ==> ok && actor.gateway.Undisturbed()
  {
    hide OthersSame, Staged, Within, Prepared, OnlyTable, Settles, Storable, Quiet, Put, Settled, Gateway.Undisturbed, TableActor.Acceptable;
    JournalAcceptable(actor, source.(spawn := Some(destination), retire := retire), now, d.journal);
    ghost var gateway := actor.gateway;
    ghost var before := gateway.world;
    var journal := source.(spawn := Some(destination), retire := retire);
    PreparedAtRest(actor.table, journal, now);
    PreparedKeepsShape(actor.table, journal, now, source.chat);
    UntouchedIsSafe(before, d);
    ghost var revision := actor.revision + 1;
    ok := actor.Persist(journal, if reserved then Some(journal.chat) else None, now, {}, goal);
    NothingSafe(old(gateway.trace), d);
    if gateway.trace != old(gateway.trace) {
      ExpectedIsStored(before, d.journal.id, revision - 1);
      JournalIsSafe(before, revision, d);
      OneMoreSafe(old(gateway.trace), |old(gateway.trace)|, gateway.world, d);
      HandingIsSafe(gateway.world, d);
    }
    if ok {
      assert At(gateway.world, actor.table, actor.revision);
      StoredIsJournal(before, gateway.world, actor.table, actor.revision, d);
      HasPut(before, d.journal.id, revision, d.journal);
    }
  }

  /** What is valid as it is checkpointed was valid before. */
  lemma JournalAcceptable(actor: TableActor, next: Table, now: int, j: Table)
    requires j == Prepared(actor.table, next, now, next.chat)
    ensures Storable(j) && actor.fits(j) ==> actor.Acceptable(next, next.chat, now)
  {
    SameChatPrepared(actor.table, next, now);
    StorableIsValid(j);
  }

  lemma SameChatPrepared(table: Table, next: Table, now: int)
    ensures Prepared(table, next, now, next.chat) == WithFinish(Remapped(table, WithIdle(next, |table.chat|)), now)
  {
    hide MovedAll;
  }

  lemma StorableIsValid(t: Table)
    ensures Storable(t) ==> Valid(t)
  {
    hide Valid;
  }

  lemma ExpectedIsStored(w: World, id: int, expected: int)
    requires id in w.tables && w.tables[id].revision >= 1 && Current(w, id) == Some(expected)
    ensures expected + 1 >= 1
  {}

  lemma StoredIsJournal(before: World, w: World, t: Table, revision: int, d: Deal)
    requires At(w, t, revision) && t == d.journal && Untouched(before, d) && Possible(d)
    ensures w != before
  {
    hide Quiet;
  }

  lemma UntouchedIsSafe(w: World, d: Deal)
    requires OthersSame(w, d) && Untouched(w, d) && Possible(d)
    ensures Safe(w, d) && !Done(w, d)
  {
    hide OthersSame, Quiet, Storable;
  }

  lemma HandingIsSafe(w: World, d: Deal)
    requires OthersSame(w, d) && Handing(w, d) && d.journal.spawn.Some?
    ensures Safe(w, d) && !Done(w, d)
  {
    hide OthersSame, Storable;
  }

  lemma NextAnswers(gateway: Gateway)
    requires gateway.Undisturbed()
    ensures gateway.Answers()
  {}

  /** Writes the new table under its reserved identity. */
  method Deliver(actor: TableActor, allocation: Allocation, destination: Table, ghost d: Deal) returns (ok: bool)
    requires d.destination == destination && allocation.id == destination.id != d.journal.id && d.journal.spawn.Some?
    requires OthersSame(actor.gateway.world, d) && Handing(actor.gateway.world, d)
    modifies allocation, actor`frozen, actor.gateway
    ensures Safe(actor.gateway.world, d) && OthersSame(actor.gateway.world, d) && Handing(actor.gateway.world, d)
    ensures old(actor.gateway.trace) <= actor.gateway.trace && AllSafe(actor.gateway.trace, |old(actor.gateway.trace)|, d)
    ensures ok ==> d.destination.id in actor.gateway.world.tables && !actor.gateway.lost && actor.frozen == old(actor.frozen)
    ensures ok ==> allocation.armed == old(allocation.armed)
    ensures !ok ==> actor.frozen
    ensures actor.gateway.world == old(actor.gateway.world) || actor.gateway.world == Put(old(actor.gateway.world), destination.id, 1, destination)
    ensures (&& old(actor.gateway.Undisturbed()) && Storable(destination)
             && Current(old(actor.gateway.world), destination.id) == Some(0)) ==> ok && actor.gateway.Undisturbed()
  {
    hide OthersSame, Handing, Safe, Storable, Put, Gateway.Undisturbed;
    if actor.gateway.Undisturbed() {
      NextAnswers(actor.gateway);
    }
    ghost var gateway := actor.gateway;
    ghost var before := gateway.world;
    HandingIsSafe(before, d);
    DeliveryIsSafe(before, d);
    HandingIsSafe(Put(before, destination.id, 1, destination), d);
    var saved := actor.gateway.Save(destination, 0);
    StepIsSafe(before, old(gateway.trace), gateway.world, gateway.trace, Put(before, destination.id, 1, destination), d);
    ok := saved.Some?;
    if ok {
      allocation.revision := saved.value;
    } else {
      actor.frozen := true;
    }
  }

  /** Gives the source up, or frees it from its journal. */
  method Release(actor: TableActor, now: int, reserved: bool, ghost goal: Goal, ghost d: Deal) returns (ok: bool)
    requires actor.table == d.journal && d.journal.id != d.destination.id && d.journal.spawn.Some? && !actor.retired && !d.journal.phase.Live?
    requires AtRest(d.journal) && Prepared(d.journal, JournalDone(d.journal), now, d.journal.chat) == JournalDone(d.journal)
    requires OthersSame(actor.gateway.world, d) && Handing(actor.gateway.world, d) && d.destination.id in actor.gateway.world.tables
    modifies actor`table, actor`revision, actor`frozen, actor.gateway
    ensures Safe(actor.gateway.world, d) && old(actor.gateway.trace) <= actor.gateway.trace
    ensures AllSafe(actor.gateway.trace, |old(actor.gateway.trace)|, d)
    ensures ok ==> Done(actor.gateway.world, d)
    ensures !ok ==> actor.gateway.lost || !Done(actor.gateway.world, d)
    ensures (&& old(actor.gateway.Undisturbed()) && At(old(actor.gateway.world), d.journal, old(actor.revision))
             && (d.journal.retire || (reserved && !old(actor.frozen) && actor.fits(JournalDone(d.journal))))) ==> ok
  {
    if actor.table.retire {
      ok := RetireSource(actor, d);
    } else {
      ok := FreeSource(actor, now, reserved, goal, d);
    }
  }

  method RetireSource(actor: TableActor, ghost d: Deal) returns (ok: bool)
    requires d.journal.retire && d.journal.id == actor.table.id != d.destination.id && d.journal.spawn.Some?
    requires OthersSame(actor.gateway.world, d) && Handing(actor.gateway.world, d) && d.destination.id in actor.gateway.world.tables
    modifies actor`frozen, actor.gateway
    ensures Safe(actor.gateway.world, d) && old(actor.gateway.trace) <= actor.gateway.trace
    ensures AllSafe(actor.gateway.trace, |old(actor.gateway.trace)|, d)
    ensures ok ==> Done(actor.gateway.world, d)
    ensures !ok ==> actor.gateway.lost || !Done(actor.gateway.world, d)
    ensures old(actor.gateway.Undisturbed()) && At(old(actor.gateway.world), old(actor.table), actor.revision) ==> ok
  {
    hide OthersSame, Done, Storable, Removed, AllSafe, Gateway.Undisturbed;
    if actor.gateway.Undisturbed() {
      NextAnswers(actor.gateway);
    }
    ghost var gateway := actor.gateway;
    ghost var before := gateway.world;
    HandingIsSafe(before, d);
    ReleaseIsSafe(before, 1, d);
    ok := actor.gateway.Remove(actor.table.id, actor.revision);
    StepIsSafe(before, old(gateway.trace), gateway.world, gateway.trace, Removed(before, d.journal.id), d);
    if !ok {
      actor.frozen := true;
    }
  }

  method FreeSource(actor: TableActor, now: int, reserved: bool, ghost goal: Goal, ghost d: Deal) returns (ok: bool)
    requires actor.table == d.journal && !d.journal.retire && d.journal.id != d.destination.id && d.journal.spawn.Some? && !actor.retired
    requires !d.journal.phase.Live? && AtRest(d.journal)
    requires Prepared(d.journal, JournalDone(d.journal), now, d.journal.chat) == JournalDone(d.journal)
    requires OthersSame(actor.gateway.world, d) && Handing(actor.gateway.world, d) && d.destination.id in actor.gateway.world.tables
    modifies actor`table, actor`revision, actor`frozen, actor.gateway
    ensures Safe(actor.gateway.world, d) && old(actor.gateway.trace) <= actor.gateway.trace
    ensures AllSafe(actor.gateway.trace, |old(actor.gateway.trace)|, d)
    ensures ok ==> Done(actor.gateway.world, d)
    ensures !ok ==> actor.gateway.lost || !Done(actor.gateway.world, d)
    ensures (&& old(actor.gateway.Undisturbed()) && At(old(actor.gateway.world), d.journal, old(actor.revision))
             && reserved && !old(actor.frozen) && actor.fits(JournalDone(d.journal))) ==> ok
  {
    hide OthersSame, Staged, Within, Prepared, OnlyTable, Settles, Storable, Put, Done, Handing, Gateway.Undisturbed, TableActor.Acceptable;
    JournalAcceptable(actor, JournalDone(d.journal), now, JournalDone(d.journal));
    DoneStorable(actor.gateway.world, d);
    ghost var gateway := actor.gateway;
    ghost var before := gateway.world;
    var last := actor.table.(spawn := None, retire := false);
    assert last == JournalDone(d.journal) && Settled(last);
    HandingIsSafe(before, d);
    JournalIsStored(before, d);
    ghost var revision := actor.revision + 1;
    ok := actor.Persist(last, if reserved then Some(last.chat) else None, now, {}, goal);
    NothingSafe(old(gateway.trace), d);
    if gateway.trace != old(gateway.trace) {
      ExpectedIsStored(before, d.journal.id, revision - 1);
      ReleaseIsSafe(before, revision, d);
      OneMoreSafe(old(gateway.trace), |old(gateway.trace)|, gateway.world, d);
    }
    if ok {
      FreedIsDone(before, gateway.world, actor.table, actor.revision, d);
    }
  }

  lemma DoneStorable(w: World, d: Deal)
    requires Handing(w, d) && !d.journal.retire
    ensures Storable(JournalDone(d.journal)) && JournalDone(d.journal).chat == d.journal.chat
  {
    JournalDoneStorable(d.journal);
  }

  lemma JournalIsStored(w: World, d: Deal)
    requires Handing(w, d)
    ensures d.journal.id in w.tables && w.tables[d.journal.id].revision >= 1 && w.tables[d.journal.id].table == d.journal
  {}

  lemma FreedIsDone(before: World, w: World, t: Table, revision: int, d: Deal)
    requires At(w, t, revision) && t == JournalDone(d.journal) && d.journal.spawn.Some? && Handing(before, d)
    ensures w != before
  {}

  // ---------------------------------------------------------------------------------------------
  // What other tables do meanwhile.

  /** What the other tables make of the store while the handover waits for an answer. */
  type Meanwhile = (nat, World) -> World

  predicate Apart(w: World) {
    w.reserved.Keys !! w.tables.Keys
  }

  /** No table but the source hands anything over to one of the two. */
  ghost predicate Unnamed(w: World, d: Deal) {
    forall k {:trigger w.tables[k]} :: k in w.tables && k != d.journal.id ==>
      JournalOf(w.tables[k].table) != Some(d.journal.id) && JournalOf(w.tables[k].table) != Some(d.destination.id)
  }

  predicate SameRecord(w: World, after: World, id: int) {
    && (id in after.tables <==> id in w.tables) && (id in w.tables ==> after.tables[id] == w.tables[id])
    && (id in after.reserved <==> id in w.reserved)
  }

  /** Other tables change their own records, the chat, the games and the tags, as they like. */
  ghost predicate LeavesAlone(w: World, after: World, d: Deal) {
    SameRecord(w, after, d.journal.id) && SameRecord(w, after, d.destination.id) && Apart(after) && Unnamed(after, d)
  }

  ghost predicate Considerate(meanwhile: Meanwhile, d: Deal) {
    forall n, w {:trigger meanwhile(n, w)} :: Apart(w) && Unnamed(w, d) ==> LeavesAlone(w, meanwhile(n, w), d)
  }

  /** The store as it would be if the handover had not begun. */
  function Undone(w: World, d: Deal): World
    requires d.journal.id in d.start.tables
  {
    w.(tables := w.tables[d.journal.id := d.start.tables[d.journal.id]] - {d.destination.id},
       reserved := w.reserved - {d.journal.id, d.destination.id})
  }

  /** The other tables may have been at work in between; the handover is where it was. */
  method Others(gateway: Gateway, n: nat, meanwhile: Meanwhile, ghost d: Deal) returns (ghost moved: Deal)
    requires Considerate(meanwhile, d) && Safe(gateway.world, d) && Possible(d)
    modifies gateway`world, gateway`trace
    ensures gateway.world == meanwhile(n, old(gateway.world)) && gateway.trace == old(gateway.trace) + [gateway.world]
    ensures Possible(d) && moved == d.(start := Undone(gateway.world, d))
    ensures Safe(gateway.world, moved) && OthersSame(gateway.world, moved) && Possible(moved)
    ensures SameRecord(old(gateway.world), gateway.world, d.journal.id) && SameRecord(old(gateway.world), gateway.world, d.destination.id)
    ensures Untouched(gateway.world, moved) == old(Untouched(gateway.world, d))
    ensures Handing(gateway.world, moved) == old(Handing(gateway.world, d)) && Done(gateway.world, moved) == old(Done(gateway.world, d))
    ensures gateway.Undisturbed() == old(gateway.Undisturbed())
  {
    hide Quiet, AtRest, Storable, Gateway.Undisturbed, Possible, Safe, LeavesAlone, Considerate;
    ghost var before := gateway.world;
    var after := meanwhile(n, gateway.world);
    NotNamedMeanwhile(before, d);
    gateway.Write(after);
    AreConsiderate(meanwhile, n, before, d);
    StartExists(d);
    moved := d.(start := Undone(after, d));
    MovedOn(before, after, d);
  }

  lemma StartExists(d: Deal)
    requires Possible(d)
    ensures d.journal.id in d.start.tables && d.journal.id != d.destination.id
    ensures d.journal.spawn == Some(d.destination) && AtRest(d.journal)
  {
    hide AtRest;
  }

  lemma AreConsiderate(meanwhile: Meanwhile, n: nat, w: World, d: Deal)
    requires Considerate(meanwhile, d) && Apart(w) && Unnamed(w, d)
    ensures LeavesAlone(w, meanwhile(n, w), d)
  {}

  lemma NotNamedMeanwhile(w: World, d: Deal)
    requires Safe(w, d) && Possible(d)
    ensures Apart(w) && Unnamed(w, d)
  {
    hide Storable, AtRest;
    forall k {:trigger w.tables[k]} | k in w.tables && k != d.journal.id
      ensures JournalOf(w.tables[k].table) != Some(d.journal.id) && JournalOf(w.tables[k].table) != Some(d.destination.id)
    {
      if k != d.destination.id {
        assert w.tables[k] == d.start.tables[k];
      }
    }
  }

  /** What others did is part of the store that the handover is measured by from then on. */
  lemma MovedOn(before: World, after: World, d: Deal)
    requires Safe(before, d) && Possible(d) && LeavesAlone(before, after, d)
    ensures d.journal.id in d.start.tables
    ensures var moved := d.(start := Undone(after, d));
            && Possible(moved) && Safe(after, moved) && OthersSame(after, moved)
            && Untouched(after, moved) == Untouched(before, d) && Handing(after, moved) == Handing(before, d)
            && Done(after, moved) == Done(before, d)
            && SameRecord(before, after, d.journal.id) && SameRecord(before, after, d.destination.id)
  {
    hide Quiet, AtRest, Storable;
    var start := Undone(after, d);
    assert forall k :: k in start.tables && k != d.journal.id ==> k in after.tables && start.tables[k] == after.tables[k];
    assert forall k :: k in start.reserved ==> k in after.reserved;
  }

  /** One store without the handover comes from another by what the other tables did. */
  ghost predicate ByOthers(a: World, b: World, meanwhile: Meanwhile, d: Deal) {
    exists n, w {:trigger meanwhile(n, w)} ::
      d.journal.id in a.tables && Safe(w, d.(start := a)) && b == Undone(meanwhile(n, w), d.(start := a))
  }

  /** The stores as they would be without the handover, from the first one on. */
  ghost predicate History(bases: seq<World>, meanwhile: Meanwhile, d: Deal) {
    && bases != [] && bases[0] == d.start
    && forall j {:trigger bases[j]} :: 0 < j < |bases| ==> ByOthers(bases[j - 1], bases[j], meanwhile, d)
  }

  /** Every state is the handover at some point, and for the rest one of these stores. */
  ghost predicate Throughout(trace: seq<World>, from: nat, d: Deal, bases: seq<World>) {
    forall i {:trigger trace[i]} :: from <= i < |trace| ==> Somewhere(trace[i], d, bases)
  }

  ghost predicate Somewhere(w: World, d: Deal, bases: seq<World>) {
    exists j {:trigger bases[j]} :: 0 <= j < |bases| && Safe(w, d.(start := bases[j]))
  }

  lemma Continued(trace: seq<World>, more: seq<World>, from: nat, d: Deal, bases: seq<World>, all: seq<World>)
    requires Throughout(trace, from, d, bases) && trace <= more && from <= |trace| && bases <= all && all != []
    requires AllSafe(more, |trace|, d.(start := all[|all| - 1]))
    ensures Throughout(more, from, d, all)
  {
    hide Safe;
    forall i {:trigger more[i]} | from <= i < |more|
      ensures Somewhere(more[i], d, all)
    {
      if i < |trace| {
        assert more[i] == trace[i] && Somewhere(trace[i], d, bases);
        var j :| 0 <= j < |bases| && Safe(trace[i], d.(start := bases[j]));
        assert all[j] == bases[j];
      } else {
        assert Safe(more[i], d.(start := all[|all| - 1]));
      }
    }
  }

  lemma OneMoreBase(bases: seq<World>, b: World, n: nat, w: World, meanwhile: Meanwhile, d: Deal)
    requires History(bases, meanwhile, d) && d.journal.id in bases[|bases| - 1].tables
    requires Safe(w, d.(start := bases[|bases| - 1])) && b == Undone(meanwhile(n, w), d.(start := bases[|bases| - 1]))
    ensures History(bases + [b], meanwhile, d)
  {
    hide Safe, Undone;
    var all := bases + [b];
    assert ByOthers(bases[|bases| - 1], b, meanwhile, d);
    forall j {:trigger all[j]} | 0 < j < |all|
      ensures ByOthers(all[j - 1], all[j], meanwhile, d)
    {
      if j < |bases| {
        assert all[j] == bases[j] && all[j - 1] == bases[j - 1];
      }
    }
  }

  /** Where a handover is: safe at this moment, and so in every state since it began. */
  ghost predicate Tracked(gateway: Gateway, meanwhile: Meanwhile, d: Deal, now: Deal, bases: seq<World>, from: nat)
    reads gateway
  {
    && History(bases, meanwhile, d) && now == d.(start := bases[|bases| - 1]) && Possible(now)
    && Safe(gateway.world, now) && from <= |gateway.trace| && Throughout(gateway.trace, from, d, bases)
  }

  lemma TrackedFrom(gateway: Gateway, meanwhile: Meanwhile, d: Deal)
    requires Possible(d) && Safe(gateway.world, d)
    ensures Tracked(gateway, meanwhile, d, d, [d.start], |gateway.trace|)
  {
    hide Possible, Safe;
    assert d == d.(start := d.start);
  }

  /** A request of the handover itself. */
  lemma StillTracked(gateway: Gateway, meanwhile: Meanwhile, d: Deal, now: Deal, bases: seq<World>, from: nat, past: seq<World>)
    requires History(bases, meanwhile, d) && now == d.(start := bases[|bases| - 1]) && Possible(now)
    requires from <= |past| && Throughout(past, from, d, bases)
    requires Safe(gateway.world, now) && past <= gateway.trace && AllSafe(gateway.trace, |past|, now)
    ensures Tracked(gateway, meanwhile, d, now, bases, from)
  {
    hide Possible, Safe, Throughout, History, AllSafe;
    LastBase(bases, meanwhile, d);
    Continued(past, gateway.trace, from, d, bases, bases);
  }

  /** A wait of the handover. */
  method Wait(gateway: Gateway, n: nat, meanwhile: Meanwhile, ghost d: Deal, ghost now: Deal, ghost bases: seq<World>, ghost from: nat)
    returns (ghost moved: Deal, ghost all: seq<World>)
    requires Considerate(meanwhile, d) && Tracked(gateway, meanwhile, d, now, bases, from)
    modifies gateway`world, gateway`trace
    ensures Tracked(gateway, meanwhile, d, moved, all, from) && moved == d.(start := moved.start)
    ensures OthersSame(gateway.world, moved) && old(gateway.trace) <= gateway.trace
    ensures SameRecord(old(gateway.world), gateway.world, d.journal.id) && SameRecord(old(gateway.world), gateway.world, d.destination.id)
    ensures Untouched(gateway.world, moved) == old(Untouched(gateway.world, now))
    ensures Handing(gateway.world, moved) == old(Handing(gateway.world, now)) && Done(gateway.world, moved) == old(Done(gateway.world, now))
    ensures gateway.Undisturbed() == old(gateway.Undisturbed())
  {
    hide Safe, OthersSame, Possible, Untouched, Handing, Done, Considerate, History, Throughout, Gateway.Undisturbed, SameRecord, Undone, AllSafe;
    ghost var before, past := gateway.world, gateway.trace;
    StillConsiderate(meanwhile, d, now);
    StartExists(now);
    LastBase(bases, meanwhile, d);
    moved := Others(gateway, n, meanwhile, now);
    all := bases + [moved.start];
    OneMoreBase(bases, moved.start, n, before, meanwhile, d);
    NothingSafe(past, moved);
    OneMoreSafe(past, |past|, gateway.world, moved);
    Continued(past, gateway.trace, from, d, bases, all);
  }

  /** Gives the reserved identity back. */
  method GiveBack(gateway: Gateway, allocation: Allocation, meanwhile: Meanwhile,
                  ghost d: Deal, ghost now: Deal, ghost bases: seq<World>, ghost from: nat)
    requires allocation.id == d.destination.id && Tracked(gateway, meanwhile, d, now, bases, from)
    requires gateway.lost || !Done(gateway.world, now)
    modifies allocation, gateway
    ensures Tracked(gateway, meanwhile, d, now, bases, from) && old(gateway.trace) <= gateway.trace && !allocation.armed
  {
    hide Safe, OthersSame, Possible, Untouched, Handing, Done, History, Throughout, AllSafe;
    StartExists(now);
    ghost var past := gateway.trace;
    GiveUp(gateway, allocation, now);
    StillTracked(gateway, meanwhile, d, now, bases, from, past);
  }

  lemma LastBase(bases: seq<World>, meanwhile: Meanwhile, d: Deal)
    requires History(bases, meanwhile, d)
    ensures bases != []
  {}

  lemma StillConsiderate(meanwhile: Meanwhile, d: Deal, now: Deal)
    requires Considerate(meanwhile, d) && now == d.(start := now.start)
    ensures Considerate(meanwhile, now)
  {}

  /** Whether nothing but the store's answers can keep a handover from succeeding. */
  predicate Ready(actor: TableActor, d: Deal)
    reads actor, actor.gateway
  {
    && !actor.frozen && Current(actor.gateway.world, d.journal.id) == Some(actor.revision)
    && Current(actor.gateway.world, d.destination.id) == Some(0)
    && Storable(d.journal) && actor.fits(d.journal) && (d.journal.retire || actor.fits(JournalDone(d.journal)))
  }

  /**
   The whole handover, while other tables are at work. However it ends, and in every state on the way, the
   two tables are as they were, journalled, or handed over, and everything else is what the other tables
   made of it. If it is reported as done, it is, and it is done if nothing but the store could prevent it
   and every request is answered.
   */
  method Transfer(actor: TableActor, source: Table, destination: Table, allocation: Allocation, retire: bool,
                  claimed: bool, free: bool, now: int, later: int, reserved: bool, reservedAgain: bool,
                  meanwhile: Meanwhile, ghost goal: Goal, ghost d: Deal)
    returns (ok: bool, ghost bases: seq<World>)
    requires Hands(actor, source, destination, retire, now, d) && Possible(d) && d.start == actor.gateway.world
    requires allocation.id == destination.id && Considerate(meanwhile, d)
    modifies actor, allocation, actor.gateway
    ensures bases != [] && History(bases, meanwhile, d) && old(actor.gateway.trace) <= actor.gateway.trace
    ensures Throughout(actor.gateway.trace, |old(actor.gateway.trace)|, d, bases)
    ensures Safe(actor.gateway.world, d.(start := bases[|bases| - 1]))
    ensures ok ==> Done(actor.gateway.world, d) && actor.retired == retire
    ensures !allocation.armed
    ensures old(actor.gateway.Undisturbed()) && claimed && free && reserved && reservedAgain && old(Ready(actor, d)) ==> ok
  {
    hide OthersSame, Safe, Prepared, Settles, AllSafe, Untouched, Handing, Done, Quiet, Storable, Possible, Hands, Considerate, Tracked,
      Gateway.Undisturbed, SameRecord;
    ghost var from, moved, gateway, before := |actor.gateway.trace|, d, actor.gateway, actor.gateway.world;
    HandsStill(actor, source, destination, retire, now, d, d);
    BeginsUntouched(d);
    UntouchedIsSafe(gateway.world, d);
    TrackedFrom(gateway, meanwhile, d);
    bases := [d.start];
    moved, bases := Wait(actor.gateway, 0, meanwhile, d, moved, bases, from);
    StartExists(d);
    RecordKept(before, gateway.world, d.journal.id);
    RecordKept(before, gateway.world, destination.id);
    if !claimed || !free {
      UntouchedIsNotDone(gateway.world, moved);
      GiveBack(actor.gateway, allocation, meanwhile, d, moved, bases, from);
      WasTracked(gateway, meanwhile, d, moved, bases, from);
      return false, bases;
    }
    ok, moved, bases := HandOver(actor, source, destination, allocation, retire, now, later, reserved, reservedAgain, meanwhile, goal,
                                 d, moved, bases, from);
    WasTracked(gateway, meanwhile, d, moved, bases, from);
    if ok {
      allocation.Preserve();
      actor.retired := retire;
    }
  }

  lemma WasTracked(gateway: Gateway, meanwhile: Meanwhile, d: Deal, now: Deal, bases: seq<World>, from: nat)
    requires Tracked(gateway, meanwhile, d, now, bases, from)
    ensures History(bases, meanwhile, d) && bases != [] && now == d.(start := bases[|bases| - 1])
    ensures from <= |gateway.trace| && Throughout(gateway.trace, from, d, bases)
    ensures Safe(gateway.world, d.(start := bases[|bases| - 1])) && Possible(now)
  {
    hide Safe, Possible, Throughout;
  }

  lemma UntouchedIsNotDone(w: World, d: Deal)
    requires Untouched(w, d)
    ensures !Done(w, d)
  {
    hide Storable;
  }

  method HandOver(actor: TableActor, source: Table, destination: Table, allocation: Allocation, retire: bool,
                  now: int, later: int, reserved: bool, reservedAgain: bool,
                  meanwhile: Meanwhile, ghost goal: Goal, ghost d: Deal, ghost moved: Deal, ghost bases: seq<World>, ghost from: nat)
    returns (ok: bool, ghost last: Deal, ghost all: seq<World>)
    requires Hands(actor, source, destination, retire, now, d) && allocation.id == destination.id && Considerate(meanwhile, d)
    requires Tracked(actor.gateway, meanwhile, d, moved, bases, from) && moved == d.(start := moved.start)
    requires OthersSame(actor.gateway.world, moved) && Untouched(actor.gateway.world, moved)
    modifies actor`table, actor`revision, actor`frozen, allocation, actor.gateway
    ensures Tracked(actor.gateway, meanwhile, d, last, all, from) && old(actor.gateway.trace) <= actor.gateway.trace
    ensures ok ==> Done(actor.gateway.world, d)
    ensures !ok ==> !allocation.armed
    ensures old(actor.gateway.Undisturbed()) && reserved && reservedAgain && old(Ready(actor, d)) ==> ok
  {
    hide OthersSame, Safe, Prepared, Settles, AllSafe, Untouched, Handing, Done, Quiet, Storable, Possible, Hands, Considerate, Tracked,
      Gateway.Undisturbed, SameRecord, Throughout, History, Put;
    ghost var gateway, start := actor.gateway, actor.gateway.world;
    WasTracked(gateway, meanwhile, d, moved, bases, from);
    StartExists(moved);
    HandsStill(actor, source, destination, retire, now, d, moved);
    JournalOfSource(actor, source, destination, retire, now, later, moved);
    ghost var past := gateway.trace;
    ok := Journal(actor, source, destination, retire, now, reserved, goal, moved);
    StillTracked(gateway, meanwhile, d, moved, bases, from, past);
    ghost var journalled := gateway.world;
    if ok {
      HasPut(start, d.journal.id, actor.revision, d.journal);
      PutElsewhere(start, d.journal.id, actor.revision, d.journal, destination.id);
    }
    last, all := Wait(actor.gateway, 1, meanwhile, d, moved, bases, from);
    RecordKept(journalled, gateway.world, d.journal.id);
    RecordKept(journalled, gateway.world, destination.id);
    if !ok {
      GiveBack(actor.gateway, allocation, meanwhile, d, last, all, from);
      return;
    }
    ok, last, all := Finish(actor, destination, allocation, later, reservedAgain, meanwhile, goal, d, last, all, from);
  }

  /** What follows once the source is journalled. */
  method Finish(actor: TableActor, destination: Table, allocation: Allocation, now: int, reserved: bool,
                meanwhile: Meanwhile, ghost goal: Goal, ghost d: Deal, ghost moved: Deal, ghost bases: seq<World>, ghost from: nat)
    returns (ok: bool, ghost last: Deal, ghost all: seq<World>)
    requires d.destination == destination && allocation.id == destination.id && Considerate(meanwhile, d)
    requires Tracked(actor.gateway, meanwhile, d, moved, bases, from) && moved == d.(start := moved.start)
    requires OthersSame(actor.gateway.world, moved) && Handing(actor.gateway.world, moved)
    requires actor.table == d.journal && !actor.frozen && !actor.retired && !d.journal.phase.Live?
    requires At(actor.gateway.world, d.journal, actor.revision)
    requires Prepared(d.journal, JournalDone(d.journal), now, d.journal.chat) == JournalDone(d.journal)
    modifies actor`table, actor`revision, actor`frozen, allocation, actor.gateway
    ensures Tracked(actor.gateway, meanwhile, d, last, all, from) && old(actor.gateway.trace) <= actor.gateway.trace
    ensures ok ==> Done(actor.gateway.world, d)
    ensures !ok ==> !allocation.armed
    ensures (&& old(actor.gateway.Undisturbed()) && reserved && Storable(d.journal) && Current(old(actor.gateway.world), destination.id) == Some(0)
             && (d.journal.retire || actor.fits(JournalDone(d.journal)))) ==> ok
  {
    hide OthersSame, Safe, Prepared, Settles, AllSafe, Untouched, Handing, Done, Quiet, Storable, Possible, Considerate, Tracked,
      Gateway.Undisturbed, SameRecord, Throughout, History, Put, JournalDone;
    ghost var gateway, start := actor.gateway, actor.gateway.world;
    WasTracked(gateway, meanwhile, d, moved, bases, from);
    StartExists(moved);
    if Storable(d.journal) {
      DestinationStorable(moved);
    }
    ghost var past := gateway.trace;
    ok := Deliver(actor, allocation, destination, moved);
    StillTracked(gateway, meanwhile, d, moved, bases, from, past);
    HandingIsNotDone(gateway.world, moved);
    PutElsewhere(start, destination.id, 1, destination, d.journal.id);
    ghost var delivered := gateway.world;
    last, all := Wait(actor.gateway, 2, meanwhile, d, moved, bases, from);
    RecordKept(delivered, gateway.world, d.journal.id);
    RecordKept(delivered, gateway.world, destination.id);
    if !ok {
      GiveBack(actor.gateway, allocation, meanwhile, d, last, all, from);
      return;
    }
    WasTracked(gateway, meanwhile, d, last, all, from);
    past := gateway.trace;
    ok := Release(actor, now, reserved, goal, last);
    StillTracked(gateway, meanwhile, d, last, all, from, past);
    last, all := Wait(actor.gateway, 3, meanwhile, d, last, all, from);
    SameDone(gateway.world, d, last);
    if !ok {
      GiveBack(actor.gateway, allocation, meanwhile, d, last, all, from);
    }
  }

  lemma SameDone(w: World, d: Deal, moved: Deal)
    requires moved == d.(start := moved.start)
    ensures Done(w, moved) == Done(w, d)
  {}

  lemma HandingIsNotDone(w: World, d: Deal)
    requires Handing(w, d) && d.journal.spawn.Some?
    ensures !Done(w, d)
  {
    hide Storable;
  }

  lemma RecordKept(w: World, after: World, id: int)
    requires SameRecord(w, after, id)
    ensures (id in after.tables <==> id in w.tables) && (id in w.tables ==> after.tables[id] == w.tables[id])
    ensures Current(after, id) == Some(0) <==> Current(w, id) == Some(0)
    ensures id in w.tables ==> Current(after, id) == Current(w, id)
  {}

  lemma PutElsewhere(w: World, id: int, revision: int, t: Table, other: int)
    requires other != id
    ensures Current(Put(w, id, revision, t), other) == Current(w, other)
    ensures other in w.tables ==> other in Put(w, id, revision, t).tables && Put(w, id, revision, t).tables[other] == w.tables[other]
  {}

  lemma DestinationStorable(d: Deal)
    requires Possible(d) && Storable(d.journal)
    ensures Storable(d.destination)
  {
    hide Quiet, AtRest;
    JournalStorable(d.journal);
  }

  lemma HandsStill(actor: TableActor, source: Table, destination: Table, retire: bool, now: int, d: Deal, moved: Deal)
    requires Hands(actor, source, destination, retire, now, d) && moved == d.(start := moved.start)
    ensures Hands(actor, source, destination, retire, now, moved)
    ensures d.destination == destination && !actor.retired
  {
    hide Prepared;
  }

  lemma BeginsUntouched(d: Deal)
    requires Possible(d)
    ensures OthersSame(d.start, d) && Untouched(d.start, d)
  {
    hide Quiet, AtRest;
  }

  lemma JournalOfSource(actor: TableActor, source: Table, destination: Table, retire: bool, now: int, later: int, d: Deal)
    requires Hands(actor, source, destination, retire, now, d)
    ensures Prepared(d.journal, JournalDone(d.journal), later, d.journal.chat) == JournalDone(d.journal)
    ensures !d.journal.phase.Live? && d.journal.retire == retire && d.journal.id == source.id
  {
    var journal := source.(spawn := Some(destination), retire := retire);
    PreparedAgain(actor.table, journal, now, later);
    PreparedKeepsShape(actor.table, journal, now, source.chat);
    PreparedPhase(actor.table, journal, now, source.chat);
  }

  // ---------------------------------------------------------------------------------------------
  // Splits.

  function IdSet(players: seq<Player>): (ids: set<int>)
    ensures forall p <- players :: p.id in ids
    ensures forall id <- ids :: Seated(players, id)
  {
    set p <- players :: p.id
  }

  /** A split of a pregame: some of its players move, and the table retires if nobody stays. */
  ghost predicate IsSplit(before: seq<Player>, d: Deal) {
    && DistinctPlayers(before) && Players(d.destination) != []
    && (forall p <- Players(d.destination) :: p in before)
    && Players(d.journal) == Staying(before, IdSet(Players(d.destination)))
    && (d.journal.retire <==> Players(d.journal) == [])
  }

  predicate SitsAt(g: Goal, id: int, p: Player) {
    id in g.tables && p in Players(g.tables[id])
  }

  lemma MoversAreThemselves(before: seq<Player>, d: Deal, p: Player)
    requires IsSplit(before, d) && p in before
    ensures p in Players(d.journal) <==> p !in Players(d.destination)
  {
    hide Players;
    var movers := Players(d.destination);
    if p.id in IdSet(movers) {
      var q :| q in movers && q.id == p.id;
      SameSeat(before, p, q);
    }
  }

  lemma SameSeat(players: seq<Player>, p: Player, q: Player)
    requires DistinctPlayers(players) && p in players && q in players && p.id == q.id
    ensures p == q
  {}

  lemma FinalKeepsPlayers(t: Table, g: Goal)
    ensures Players(Final(t, g)) == Players(t)
  {
    var a := Tagged(t, TagsOf(g, t));
    TaggedKeepsShape(t, TagsOf(g, t));
    var b := JournalDone(ChatDone(a));
    assert Players(b) == Players(a);
  }

  /** Each of these players sits at exactly one of the two tables, and nobody else sits at either. */
  ghost predicate PlacesEach(after: Goal, d: Deal, players: seq<Player>) {
    forall p {:trigger p in players} ::
      if p in players then SitsAt(after, d.journal.id, p) <==> !SitsAt(after, d.destination.id, p)
      else !SitsAt(after, d.journal.id, p) && !SitsAt(after, d.destination.id, p)
  }

  /**
   Nobody is lost or doubled by a split: whatever failed and wherever it was cut short, recovery can finish
   what is left, and after it each member of the table sits at exactly one of the two, nobody else sits at
   either, and every other table is as it would have been without the split.
   */
  lemma SplitPlacesEveryone(deal: Dealer, g: Goal, d: Deal, w: World) returns (after: Goal)
    requires MayHandOver(deal, g, d) && Safe(w, d) && IsSplit(Players(d.start.tables[d.journal.id].table), d)
    ensures Settles(deal, w, after)
    ensures PlacesEach(after, d, Players(d.start.tables[d.journal.id].table))
    ensures forall k :: k != d.journal.id && k != d.destination.id ==>
              (k in after.tables <==> k in g.tables) && (k in g.tables ==> after.tables[k] == g.tables[k])
    ensures after == g.(tables := after.tables)
  {
    hide Settles, Safe, Players, Quiet, AtRest, Untouched, PlacesEach, IsSplit;
    HandoverIsAtomic(deal, g, d, w);
    after := if Untouched(w, d) then g else HandedOver(g, d);
    if Untouched(w, d) {
      BeforeSplit(deal, g, d);
    } else {
      AfterSplit(g, d, Players(d.start.tables[d.journal.id].table));
    }
  }

  lemma BeforeSplit(deal: Dealer, g: Goal, d: Deal)
    requires MayHandOver(deal, g, d)
    ensures PlacesEach(g, d, Players(d.start.tables[d.journal.id].table))
  {
    hide Settles, Players, Quiet, AtRest, Storable, Final;
    var before := d.start.tables[d.journal.id].table;
    NewIsNew(deal, g, d);
    StoredFits(deal, d.start, g, d.journal.id);
    StorableRetire(before);
    FinalStored(deal, d.start, g, d.journal.id);
    FinalKeepsPlayers(before, g);
  }

  lemma AfterSplit(g: Goal, d: Deal, before: seq<Player>)
    requires IsSplit(before, d) && d.journal.id != d.destination.id
    ensures PlacesEach(HandedOver(g, d), d, before)
  {
    hide Players;
    JournalKeepsPlayers(d.journal);
    forall p {:trigger p in before} | p in before
      ensures SitsAt(HandedOver(g, d), d.journal.id, p) <==> !SitsAt(HandedOver(g, d), d.destination.id, p)
    {
      MoversAreThemselves(before, d, p);
    }
  }

  lemma JournalKeepsPlayers(j: Table)
    ensures Players(JournalDone(j)) == Players(j)
  {}
}
