/**
 The durable store as one server sees it, and startup recovery: every unfinished journal is replayed,
 each write leaving a store that still amounts to the same tables and archive.
 */
module Recovery {
  import opened Common
  import opened Model
  import opened Archive
  import opened Redis
  import opened Settling

  /** The revision that a write must name: zero for an identity that is only reserved. */
  function Current(w: World, id: int): Option<int> {
    if id in w.tables then Some(w.tables[id].revision)
    else if id in w.reserved then Some(0)
    else None
  }

  function Index(w: World): set<int> {
    w.tables.Keys + w.reserved.Keys
  }

  function Filed(rows: map<int, Message>, entries: seq<Chat>): Option<map<int, Message>>
    decreases |entries|
  {
    if entries == [] then Some(rows)
    else
      var c := entries[0];
      if c.id.None? || c.id.value <= 0 then None
      else if c.id.value in rows && rows[c.id.value] != Message(c.user, c.content) then None
      else Filed(rows[c.id.value := Message(c.user, c.content)], entries[1..])
  }

  /** A checkpoint that recovery still has to look at. */
  datatype Waiting = Waiting(id: int, stored: Stored)

  /** Later runs of the server have later tokens. */
  predicate ReservedBy(w: World, token: nat) {
    forall id {:trigger w.reserved[id]} :: id in w.reserved ==> w.reserved[id] <= token
  }

  ghost predicate AllSettle(deal: Dealer, token: nat, trace: seq<World>, from: nat, g: Goal) {
    forall i {:trigger trace[i]} :: from <= i < |trace| ==> Settles(deal, trace[i], g) && ReservedBy(trace[i], token)
  }

  lemma OneMoreSettles(deal: Dealer, token: nat, trace: seq<World>, from: nat, g: Goal, w: World)
    requires AllSettle(deal, token, trace, from, g) && Settles(deal, w, g) && ReservedBy(w, token)
    ensures AllSettle(deal, token, trace + [w], from, g)
  {
    hide Settles, ReservedBy;
  }

  class Store {
    var tables: map<int, Stored>
    var reserved: map<int, nat>
    var chat: map<int, Message>
    const archive: Database
    const token: nat

    /** Every state that a crash could have left behind, in order. */
    var trace: seq<World>

    constructor (w: World, deal: Dealer, token: nat)
      ensures World() == w && trace == [] && archive.deal == deal && this.token == token && fresh(archive)
    {
      var database := new Database(deal);
      database.games, database.tags := w.games, w.tags;
      archive := database;
      this.token := token;
      tables, reserved, chat, trace := w.tables, w.reserved, w.chat, [];
    }

    function World(): World
      reads this, archive
    {
      Settling.World(tables, reserved, chat, archive.games, archive.tags)
    }

    /** Every state since then amounts to the goal. */
    ghost predicate Extends(before: seq<World>, g: Goal)
      reads this
    {
      before <= trace && AllSettle(archive.deal, token, trace, |before|, g)
    }

    method Save(t: Table, expected: int) returns (revision: Option<int>)
      modifies this
      ensures revision == if Storable(t) && Current(old(World()), t.id) == Some(expected) then Some(expected + 1) else None
      ensures revision.Some? ==> World() == Put(old(World()), t.id, expected + 1, t) && trace == old(trace) + [World()]
      ensures revision.None? ==> World() == old(World()) && trace == old(trace)
    {
      if !Storable(t) || Current(World(), t.id) != Some(expected) {
        return None;
      }
      tables, reserved := tables[t.id := Stored(expected + 1, t)], reserved - {t.id};
      trace := trace + [World()];
      revision := Some(expected + 1);
    }

    method Remove(id: int, expected: int) returns (ok: bool)
      modifies this
      ensures ok == (Current(old(World()), id) in {None, Some(expected)})
      ensures Current(old(World()), id) == Some(expected) ==>
                World() == Removed(old(World()), id) && trace == old(trace) + [World()]
      ensures Current(old(World()), id) != Some(expected) ==> World() == old(World()) && trace == old(trace)
    {
      var current := Current(World(), id);
      if current == Some(expected) {
        tables, reserved := tables - {id}, reserved - {id};
        trace := trace + [World()];
      }
      ok := current == None || current == Some(expected);
    }

    method Reserve(id: int) returns (ok: bool)
      modifies this
      ensures ok == (Current(old(World()), id).None? && |Index(old(World()))| < MAX_RECORDS)
      ensures ok ==> World() == old(World()).(reserved := old(reserved)[id := token]) && trace == old(trace) + [World()]
      ensures !ok ==> World() == old(World()) && trace == old(trace)
    {
      ok := Current(World(), id).None? && |Index(World())| < MAX_RECORDS;
      if ok {
        reserved := reserved[id := token];
        trace := trace + [World()];
      }
    }

    /** One transaction: the edit, and the tags that the game then has. */
    method ApplyTag(edit: TagEdit) returns (tags: Option<set<Tag>>)
      modifies archive`tags, this`trace
      ensures tags == if edit.gameId in archive.games && edit.gameId in old(archive.tags) && edit.operation != UnknownOperation
                      then Some(Edited(old(archive.tags)[edit.gameId], edit)) else None
      ensures tags.Some? ==>
                World() == old(World()).(tags := old(archive.tags)[edit.gameId := tags.value]) && trace == old(trace) + [World()]
      ensures tags.None? ==> World() == old(World()) && trace == old(trace)
    {
      if edit.gameId !in archive.games || edit.gameId !in archive.tags {
        return None;
      }
      var before := archive.tags[edit.gameId];
      var after := before;
      match edit.operation {
        case AddTag => after := before + {Tag(edit.user, edit.text)};
        case DeleteTag => after := before - {Tag(edit.user, edit.text)};
        case DeleteAllTags => after := set tag <- before | tag.user != edit.user;
        case UnknownOperation => return None;
      }
      archive.tags := archive.tags[edit.gameId := after];
      trace := trace + [World()];
      tags := Some(after);
    }

    /** One transaction: every message under its own identity, or none at all. */
    method ArchiveChat(entries: seq<Chat>) returns (ok: bool)
      modifies this`chat, this`trace
      ensures ok <==> Filed(old(chat), entries).Some?
      ensures ok ==> World() == old(World()).(chat := Filed(old(chat), entries).value) && trace == old(trace) + [World()]
      ensures !ok ==> World() == old(World()) && trace == old(trace)
    {
      var rows := chat;
      assert entries[0..] == entries;
      for i := 0 to |entries|
        invariant Filed(chat, entries) == Filed(rows, entries[i..])
        invariant World() == old(World()) && trace == old(trace)
      {
        var c := entries[i];
        assert entries[i..][1..] == entries[i + 1..];
        if c.id.None? || c.id.value <= 0 {
          return false;
        }
        if c.id.value !in rows {
          rows := rows[c.id.value := Message(c.user, c.content)];
        } else if rows[c.id.value] != Message(c.user, c.content) {
          return false;
        } else {
          assert rows == rows[c.id.value := Message(c.user, c.content)];
        }
      }
      chat := rows;
      trace := trace + [World()];
      ok := true;
    }

    /** Archives the game of the current checkpoint, which must be the one that is given. */
    method Complete(s: Snapshot, revision: int) returns (ok: bool)
      modifies archive, this`trace
      ensures World().tables == old(World()).tables && World().reserved == old(World()).reserved && World().chat == old(World()).chat
      ensures ok ==> Completed(s) && s.finished.Some? && |s.players| == |s.game.characters|
      ensures ok && s.gameId in old(archive.games) ==>
                World() == old(World()) && trace == old(trace) && Matches(archive.deal, old(archive.games)[s.gameId], s)
      ensures ok && s.gameId !in old(archive.games) ==>
                && World() == old(World()).(games := old(archive.games)[s.gameId := RowOf(archive.deal, s)],
                                            tags := old(archive.tags)[s.gameId := s.tags])
                && trace == old(trace) + [World()]
      ensures !ok ==> World() == old(World()) && trace == old(trace)
      ensures (&& s.tableId in old(tables) && old(tables)[s.tableId].revision == revision
               && GameOf(old(tables)[s.tableId].table) == Some(s) && Completed(s) && s.finished.Some?
               && |s.players| == |s.game.characters|
               && (if s.gameId in old(archive.games) then Matches(archive.deal, old(archive.games)[s.gameId], s)
                   else Insertable(archive.deal, s))) ==> ok
    {
      if !(s.gameId > 0 && s.game.end != IN_PROGRESS) || !SnapshotValid(s) {
        return false;
      }
      if s.tableId !in tables || tables[s.tableId].revision != revision || GameOf(tables[s.tableId].table) != Some(s) {
        return false;
      }
      var stored := s.gameId in archive.games;
      ok := archive.Complete(s);
      if ok && !stored {
        trace := trace + [World()];
      }
    }

    // -------------------------------------------------------------------------------------------
    // Recovery. The goal is what the store amounts to; it is never computed.

    /** What recovery relies on between two writes. */
    ghost predicate Recovering(g: Goal)
      reads this, archive
    {
      Settles(archive.deal, World(), g) && reserved == map[]
    }

    /** A reservation of another run of the server is left over from a table that was never saved. */
    method Unreserve(id: int, ghost g: Goal)
      requires Settles(archive.deal, World(), g) && id in reserved
      modifies this
      ensures World() == old(World()).(reserved := old(reserved) - {id}) && Settles(archive.deal, World(), g)
      ensures trace == old(trace) + [World()]
    {
      hide Settles;
      ghost var w := World();
      DisjointReserved(archive.deal, w, g, id);
      NotSaved(w, id);
      var _ := Remove(id, 0);
    }

    method Load(ghost g: Goal)
      requires Settles(archive.deal, World(), g)
      requires forall id {:trigger reserved[id]} :: id in reserved ==> reserved[id] < token
      modifies this
      ensures Recovering(g) && Extends(old(trace), g)
      ensures tables == old(tables) && reserved == map[] && World() == old(World()).(reserved := map[])
      ensures old(reserved) == map[] ==> trace == old(trace)
    {
      hide Settles;
      var rest := reserved.Keys;
      while rest != {}
        invariant rest == reserved.Keys && tables == old(tables) && World() == old(World()).(reserved := reserved)
        invariant forall id {:trigger reserved[id]} :: id in reserved ==> reserved[id] < token
        invariant Settles(archive.deal, World(), g) && Extends(old(trace), g)
        invariant old(reserved) == map[] ==> trace == old(trace) && reserved == map[]
        decreases |rest|
      {
        SomeNumber(rest);
        var id :| id in rest;
        ghost var before := trace;
        Unreserve(id, g);
        OneMoreSettles(archive.deal, token, before, |old(trace)|, g, World());
        rest := rest - {id};
      }
      assert reserved == map[];
    }

    /** A table that is next in line: nothing in the store waits to be edited before it. */
    ghost predicate Sound(id: int, g: Goal)
      reads this, archive
    {
      && Recovering(g) && id in tables
      && (tables[id].table.tag.Some? ==> FirstEdit(World(), g, id, tables[id].table.tag.value.gameId))
    }

    /** Makes the pending edit of a review, and keeps the tags that the game then has. */
    method FinishTag(id: int, ghost g: Goal) returns (done: bool)
      requires id in tables && tables[id].table.id == id && tables[id].table.tag.Some?
      modifies this, archive`tags
      ensures old(Sound(id, g)) ==> done && Recovering(g) && Extends(old(trace), g)
      ensures done ==>
                var t := old(tables)[id].table;
                && id in tables && tables == old(tables)[id := tables[id]]
                && t.tag.value.gameId in old(archive.tags)
                && tables[id].table == Tagged(t, Edited(old(archive.tags)[t.tag.value.gameId], t.tag.value))
    {
      hide Settles, Storable, Tagged, Edited, FirstEdit;
      var t, revision := tables[id].table, tables[id].revision;
      ghost var sound := Sound(id, g);
      if sound {
        TagStep(archive.deal, World(), g, id);
      }
      ghost var before := trace;
      var tags := ApplyTag(t.tag.value);
      if tags.None? || GameOf(t).None? {
        return false;
      }
      TaggedKeeps(t);
      if sound {
        OneMoreSettles(archive.deal, token, before, |before|, g, World());
        OneMoreSettles(archive.deal, token, trace, |before|, g, Put(World(), id, revision + 1, Tagged(t, tags.value)));
      }
      var saved := Save(Tagged(t, tags.value), revision);
      done := saved.Some?;
    }

    /** Files the messages that are not in the archive yet. */
    method FinishChat(id: int, ghost g: Goal) returns (done: bool)
      requires id in tables && tables[id].table.id == id && tables[id].table.tag.None? && Unarchived(tables[id].table) != []
      modifies this
      ensures old(Recovering(g)) ==> done && Recovering(g) && Extends(old(trace), g)
      ensures done <==> Filed(old(chat), Unarchived(old(tables)[id].table)).Some? && Storable(ChatDone(old(tables)[id].table))
      ensures done ==> id in tables && tables == old(tables)[id := tables[id]] && tables[id].table == ChatDone(old(tables)[id].table)
    {
      hide Settles, Storable, Filed, Unarchived;
      var t, revision := tables[id].table, tables[id].revision;
      ghost var sound := Recovering(g);
      if sound {
        ChatStep(archive.deal, World(), g, id);
      }
      ghost var before := trace;
      done := ArchiveChat(Unarchived(t));
      if !done {
        return;
      }
      if sound {
        OneMoreSettles(archive.deal, token, before, |before|, g, World());
        OneMoreSettles(archive.deal, token, trace, |before|, g, Put(World(), id, revision + 1, ChatDone(t)));
      }
      var saved := Save(ChatDone(t), revision);
      done := saved.Some?;
    }

    method ReserveAgain(id: int, ghost g: Goal) returns (done: bool)
      requires id !in tables
      modifies this
      ensures old(Recovering(g)) && id in g.tables ==>
                done && Settles(archive.deal, World(), g) && Extends(old(trace), g) && reserved == map[id := token]
      ensures tables == old(tables) && chat == old(chat) && (done ==> id in reserved)
    {
      hide Settles;
      ghost var sound := Recovering(g) && id in g.tables;
      if sound {
        IndexHasRoom(archive.deal, World(), g, id);
        ReserveStep(archive.deal, World(), g, id, token);
      }
      ghost var before := trace;
      if Current(World(), id) == Some(0) {
        return true;
      }
      done := Reserve(id);
      if done && sound {
        OneMoreSettles(archive.deal, token, before, |before|, g, World());
      }
    }

    /** Makes sure that the table which a journal holds is saved, as it is in the journal and no other. */
    method Deliver(source: int, d: Table, ghost g: Goal) returns (done: bool)
      requires source in tables && tables[source].table.spawn == Some(d)
      modifies this
      ensures old(Recovering(g)) ==> done && Recovering(g) && Extends(old(trace), g) && d.id in g.tables && Quiet(d) && d.id != source
      ensures d.id in old(tables) ==> done == (old(tables)[d.id].table == d) && World() == old(World()) && trace == old(trace)
      ensures done ==> d.id in tables && tables == old(tables)[d.id := tables[d.id]] && tables[d.id].table == d
      ensures done && d.id in old(tables) ==> tables == old(tables)
      ensures chat == old(chat)
    {
      hide Settles, Storable, Quiet;
      ghost var sound := Recovering(g);
      if sound {
        JournalStep(archive.deal, World(), g, source);
      }
      ghost var before := trace;
      if d.id in tables {
        done := tables[d.id].table == d;
        return;
      }
      done := ReserveAgain(d.id, g);
      if !done {
        return;
      }
      if sound {
        DeliverStep(archive.deal, World(), g, source);
        OneMoreSettles(archive.deal, token, trace, |before|, g, Put(World(), d.id, 1, d));
      }
      var saved := Save(d, 0);
      assert sound ==> reserved == map[];
      done := saved.Some?;
    }

    /** Gives up or frees a source whose table has been handed over. */
    method Release(id: int, ghost g: Goal) returns (done: bool)
      requires id in tables && tables[id].table.id == id && tables[id].table.tag.None? && Unarchived(tables[id].table) == []
      requires tables[id].table.spawn.Some? && tables[id].table.spawn.value.id in tables
      modifies this
      ensures old(Recovering(g)) ==> done && Recovering(g) && Extends(old(trace), g)
      ensures done <==> old(tables)[id].table.retire || Storable(JournalDone(old(tables)[id].table))
      ensures old(tables)[id].table.retire ==> tables == old(tables) - {id}
      ensures chat == old(chat)
      ensures done && !old(tables)[id].table.retire ==>
                && id in tables && tables == old(tables)[id := tables[id]]
                && tables[id].table == JournalDone(old(tables)[id].table)
    {
      hide Settles, Storable, Unarchived;
      var t, revision := tables[id].table, tables[id].revision;
      ghost var before, w, sound := trace, World(), Recovering(g);
      if sound {
        ReleaseStep(archive.deal, w, g, id);
      }
      if t.retire {
        if sound {
          OneMoreSettles(archive.deal, token, trace, |before|, g, Removed(w, id));
          SameByNumber(reserved - {id}, reserved);
        }
        done := Remove(id, revision);
        return;
      }
      if sound {
        OneMoreSettles(archive.deal, token, trace, |before|, g, Put(w, id, revision + 1, JournalDone(t)));
        SameByNumber(reserved - {id}, reserved);
      }
      var saved := Save(JournalDone(t), revision);
      done := saved.Some?;
    }

    /** Archives a finished game unless it is not to be kept, and turns its table into a review. */
    method FinishGame(id: int, ghost g: Goal) returns (done: bool)
      requires id in tables && tables[id].table.id == id && Finished(tables[id].table)
      requires tables[id].table.tag.None? && Unarchived(tables[id].table) == []
      requires tables[id].table.spawn.None? && !tables[id].table.retire
      modifies this, archive
      ensures old(Recovering(g)) ==> done && Recovering(g) && Extends(old(trace), g)
      ensures done ==>
                && id in tables && tables == old(tables)[id := tables[id]]
                && tables[id].table == AsReplay(old(tables)[id].table)
    {
      hide Settles, Storable, Unarchived, Matches, RowOf, Completed, Insertable;
      var t, revision := tables[id].table, tables[id].revision;
      ghost var before, w, sound := trace, World(), Recovering(g);
      if sound {
        GameStep(archive.deal, w, g, id);
      }
      if !t.noWrite {
        done := Complete(t.phase.live, revision);
        if !done {
          return;
        }
        if sound && trace != before {
          OneMoreSettles(archive.deal, token, before, |before|, g, World());
        }
      }
      if sound {
        ReplayStep(archive.deal, World(), g, id);
      }
      var replay := ConvertToReplay(t);
      if replay.None? {
        return false;
      }
      if sound {
        OneMoreSettles(archive.deal, token, trace, |before|, g, Put(World(), id, revision + 1, replay.value));
        SameByNumber(reserved - {id}, reserved);
      }
      var saved := Save(replay.value, revision);
      done := saved.Some?;
    }

    method MaybeTag(id: int, ghost g: Goal) returns (done: bool)
      requires id in tables && tables[id].table.id == id
      modifies this, archive`tags
      ensures old(Sound(id, g)) ==> done && Recovering(g) && Extends(old(trace), g)
      ensures done ==>
                && id in tables && tables == old(tables)[id := tables[id]] && tables[id].table.id == id
                && tables[id].table.tag.None? && SameJournal(old(tables)[id].table, tables[id].table)
      ensures old(tables)[id].table.tag.None? ==> done && trace == old(trace) && World() == old(World())
    {
      hide Settles, Storable, Edited, Tagged, FirstEdit;
      done := true;
      if tables[id].table.tag.Some? {
        TaggedKeeps(tables[id].table);
        done := FinishTag(id, g);
      }
    }

    method MaybeChat(id: int, ghost g: Goal) returns (done: bool)
      requires id in tables && tables[id].table.id == id && tables[id].table.tag.None?
      modifies this
      ensures old(Recovering(g)) ==> done && Recovering(g) && Extends(old(trace), g)
      ensures done ==>
                && id in tables && tables == old(tables)[id := tables[id]] && tables[id].table.id == id
                && tables[id].table.tag.None? && SameJournal(old(tables)[id].table, tables[id].table)
                && Unarchived(tables[id].table) == []
      ensures var t := old(tables)[id].table;
              if Unarchived(t) == [] then done && trace == old(trace) && World() == old(World())
              else done <==> Filed(old(chat), Unarchived(t)).Some? && Storable(ChatDone(t))
      ensures done && Unarchived(old(tables)[id].table) != [] ==> tables[id].table == ChatDone(old(tables)[id].table)
    {
      hide Settles, Storable, Filed;
      done := true;
      if Unarchived(tables[id].table) != [] {
        done := FinishChat(id, g);
      }
    }

    method MaybeTagAndChat(id: int, ghost g: Goal) returns (done: bool)
      requires id in tables && tables[id].table.id == id
      modifies this, archive`tags
      ensures old(Sound(id, g)) ==> done && Recovering(g) && Extends(old(trace), g)
      ensures done ==>
                && id in tables && tables == old(tables)[id := tables[id]] && tables[id].table.id == id
                && tables[id].table.tag.None? && Unarchived(tables[id].table) == []
                && SameJournal(old(tables)[id].table, tables[id].table)
      ensures var t := old(tables)[id].table;
              t.tag.None? ==>
                && (if Unarchived(t) == [] then done && trace == old(trace) && World() == old(World())
                    else done <==> Filed(old(chat), Unarchived(t)).Some? && Storable(ChatDone(t)))
                && (done && Unarchived(t) != [] ==> tables[id].table == ChatDone(t))
    {
      hide Settles, Storable, Unarchived, Filed, FirstEdit;
      ghost var start := trace;
      done := MaybeTag(id, g);
      if !done {
        return;
      }
      ghost var first := trace;
      done := MaybeChat(id, g);
      if old(Sound(id, g)) {
        ExtendsFurther(archive.deal, token, start, first, trace, g);
      }
    }

    method MaybeJournal(id: int, ghost g: Goal) returns (done: bool, spawned: Option<int>)
      requires id in tables && tables[id].table.id == id && tables[id].table.tag.None? && Unarchived(tables[id].table) == []
      modifies this
      ensures old(Recovering(g)) ==>
                && done && Recovering(g) && Extends(old(trace), g)
                && (spawned.Some? ==> spawned.value in tables && Quiet(tables[spawned.value].table) && spawned.value != id)
                && (spawned.Some? ==> spawned.value in g.tables)
                && (id !in tables ==> id !in g.tables)
                && (id in tables ==> !tables[id].table.retire)
      ensures chat == old(chat) && (done ==> OthersKept(old(tables), tables, id, spawned))
      ensures done && id in tables ==>
                && tables[id].table.id == id && tables[id].table.tag.None? && Unarchived(tables[id].table) == []
                && tables[id].table.spawn.None?
      ensures old(tables)[id].table.spawn.None? ==> done && spawned.None? && trace == old(trace) && World() == old(World())
      ensures old(tables)[id].table.spawn.Some? && old(tables)[id].table.spawn.value.id in old(tables) ==>
                var d := old(tables)[id].table.spawn.value;
                done <==> old(tables)[d.id].table == d
                          && (old(tables)[id].table.retire || Storable(JournalDone(old(tables)[id].table)))
      ensures done && old(tables)[id].table.spawn.Some? && id in tables ==> tables[id].table == JournalDone(old(tables)[id].table)
    {
      hide Settles, Storable, Quiet, Unarchived;
      var t := tables[id].table;
      spawned := None;
      if Recovering(g) {
        JournalledOrNot(archive.deal, World(), g, id);
      }
      if t.spawn.None? {
        return true, None;
      }
      var d := t.spawn.value;
      ghost var start := trace;
      done := Deliver(id, d, g);
      if !done {
        return;
      }
      ghost var middle := trace;
      assert d.id != id ==> tables[id].table == t;
      NotItself(t, d);
      done := Release(id, g);
      if old(Recovering(g)) {
        ExtendsFurther(archive.deal, token, start, middle, trace, g);
      }
      SameJournalDone(t);
      spawned := Some(d.id);
    }

    method MaybeGame(id: int, ghost g: Goal) returns (done: bool)
      requires id in tables && tables[id].table.id == id && tables[id].table.tag.None? && Unarchived(tables[id].table) == []
      requires tables[id].table.spawn.None? && !tables[id].table.retire
      modifies this, archive
      ensures old(Recovering(g)) ==> done && Recovering(g) && Extends(old(trace), g)
      ensures done ==> id in tables && tables == old(tables)[id := tables[id]] && Quiet(tables[id].table)
      ensures !Finished(old(tables)[id].table) ==> done && trace == old(trace) && World() == old(World())
    {
      hide Settles, Storable;
      done := true;
      if Finished(tables[id].table) {
        done := FinishGame(id, g);
      }
    }

    /** Finishes everything that is pending in one table, in the order in which it was journalled. */
    method RestoreTable(id: int, ghost g: Goal) returns (done: bool, spawned: Option<int>)
      requires id in tables
      modifies this, archive
      ensures old(Sound(id, g)) ==>
                && done && Recovering(g) && Extends(old(trace), g)
                && (if id in tables then Quiet(tables[id].table) else id !in g.tables)
                && (spawned.Some? ==> spawned.value in tables && Quiet(tables[spawned.value].table) && spawned.value != id)
                && (spawned.Some? ==> spawned.value in g.tables)
      ensures done ==> OthersKept(old(tables), tables, id, spawned)
      ensures Quiet(old(tables)[id].table) && old(tables)[id].table.id == id ==> done && trace == old(trace) && World() == old(World()) && spawned.None?
      ensures WaitsForChatOnly(old(tables)[id].table) && old(tables)[id].table.id == id ==>
                && (done <==> Filed(old(chat), Unarchived(old(tables)[id].table)).Some? && Storable(ChatDone(old(tables)[id].table)))
                && (done ==> id in tables && tables[id].table == ChatDone(old(tables)[id].table))
      ensures JournalOnly(old(tables)[id].table) && old(tables)[id].table.id == id && old(tables)[id].table.spawn.value.id in old(tables) ==>
                var t := old(tables)[id].table;
                && (done <==> old(tables)[t.spawn.value.id].table == t.spawn.value && (t.retire || Storable(JournalDone(t))))
                && chat == old(chat)
    {
      hide Settles, Storable, Finished, Unarchived, Quiet, OthersKept, Filed, FirstEdit;
      QuietParts(tables[id].table);
      PartsKept(tables[id].table);
      ghost var start, sound := trace, Sound(id, g);
      spawned := None;
      if sound {
        StoredFits(archive.deal, World(), g, id);
      }
      if tables[id].table.id != id {
        return false, None;
      }
      done := MaybeTagAndChat(id, g);
      if !done {
        return;
      }
      ghost var first := trace;
      ghost var middle := tables;
      done, spawned := MaybeJournal(id, g);
      if done {
        OthersFrom(old(tables), middle, tables, id, spawned);
      }
      if sound {
        ExtendsFurther(archive.deal, token, start, first, trace, g);
      }
      if !done || id !in tables {
        return;
      }
      // A table cannot be about to retire without a journal.
      if tables[id].table.retire {
        return false, None;
      }
      first, middle := trace, tables;
      done := MaybeGame(id, g);
      if done {
        OthersTo(old(tables), middle, tables, id, spawned);
      }
      if sound {
        ExtendsFurther(archive.deal, token, start, first, trace, g);
      }
    }

    /** The tables wait in the order in which the store lists them. */
    method Enumerate(listing: seq<int>) returns (queue: seq<Waiting>)
      requires ListingOf(tables, listing)
      ensures Queued(tables, queue, {}) && Aligned(queue, listing, 0)
    {
      queue := [];
      for i := 0 to |listing|
        invariant |queue| == i
        invariant forall k {:trigger queue[k]} :: 0 <= k < i ==>
                    queue[k].id == listing[k] && queue[k].id in tables && tables[queue[k].id] == queue[k].stored
      {
        queue := queue + [Waiting(listing[i], tables[listing[i]])];
      }
      forall id | id in tables
        ensures Waits(queue, id)
      {
        assert id in listing;
        var k :| 0 <= k < |listing| && listing[k] == id;
        assert queue[k].id == id;
      }
    }

    /**
     Startup recovery, for any order in which the store lists its tables. Whatever the store amounts to,
     recovery ends with exactly those tables and that archive and nothing left pending; every state on
     the way amounts to the same; and with nothing pending it writes nothing.
     */
    method Restore(listing: seq<int>, ghost g: Goal) returns (output: Option<seq<Stored>>)
      requires Settles(archive.deal, World(), g) && ListingOf(tables, listing) && InOrder(tables, listing, g)
      requires forall id {:trigger reserved[id]} :: id in reserved ==> reserved[id] < token
      modifies this, archive
      ensures output.Some? && Settles(archive.deal, World(), g) && Extends(old(trace), g)
      ensures AllQuiet(World()) && Reached(World(), g) && reserved == map[]
      ensures Lists(output.value, tables, tables.Keys)
      ensures AllQuiet(old(World())) && old(reserved) == map[] ==> trace == old(trace) && World() == old(World())
    {
      hide Settles, Reached, AllQuiet, Lists, Progress, OthersKept, ListingOf, InOrder, FirstEdit;
      ghost var first, idle := World(), AllQuiet(World()) && reserved == map[];
      ghost var start, all := trace, tables.Keys + g.tables.Keys;
      Load(g);
      var queue := Enumerate(listing);
      var seen: set<int> := {};
      var out: seq<Stored> := [];
      ghost var n := 0;
      NothingSeen(first.tables, listing, queue, all, g);
      while queue != []
        invariant Recovering(g) && Extends(start, g)
        invariant Progress(first.tables, tables, listing, queue, seen, out, all, n, g)
        invariant idle ==> trace == start && World() == first
        decreases |all - seen|, |queue|
      {
        var Waiting(id, stored) := queue[0];
        NextInLine(first.tables, World(), listing, queue, seen, out, all, n, g);
        if id in seen {
          queue, n := queue[1..], n + 1;
          continue;
        }
        ghost var before, middle := World(), trace;
        QuietOne(archive.deal, before, g, id);
        OneFewer(all, seen, id);
        var done, spawned := RestoreTable(id, g);
        ExtendsFurther(archive.deal, token, start, middle, trace, g);
        OneMoreSeen(archive.deal, first.tables, before, World(), listing, queue, seen, out, all, n, g, spawned);
        if !done {
          return None;
        }
        queue := queue[1..] + if spawned.Some? then [Waiting(spawned.value, tables[spawned.value])] else [];
        seen, n := seen + {id}, n + 1;
        if id in tables {
          out := out + [tables[id]];
        }
      }
      AllSeen(first.tables, World(), listing, seen, out, all, n, g);
      QuietIsReached(archive.deal, World(), g);
      output := Some(out);
    }
  }

  /** The store lists each of its tables once. */
  ghost predicate ListingOf(tables: map<int, Stored>, listing: seq<int>) {
    && (forall i {:trigger listing[i]} :: 0 <= i < |listing| ==> listing[i] in tables)
    && (forall id {:trigger id in tables} {:trigger id in listing} :: id in tables ==> id in listing)
    && (forall i, j {:trigger listing[i], listing[j]} :: 0 <= i < j < |listing| ==> listing[i] != listing[j])
  }

  /** Tables with edits of one game are listed in the order in which the goal has these edits made. */
  ghost predicate InOrder(tables: map<int, Stored>, listing: seq<int>, g: Goal) {
    forall i, j {:trigger listing[i], listing[j]} ::
      (&& 0 <= i < j < |listing| && listing[i] in tables && listing[j] in tables
       && EditOf(tables[listing[i]].table).Some?
       && EditOf(tables[listing[i]].table) == EditOf(tables[listing[j]].table)) ==> Precedes(g, listing[i], listing[j])
  }

  /** Everything of the listing that is left after so many steps. */
  function Rest(listing: seq<int>, n: nat): seq<int> {
    if n <= |listing| then listing[n..] else []
  }

  /** What is left of the listing waits before everything that was added since. */
  predicate Aligned(queue: seq<Waiting>, listing: seq<int>, n: nat) {
    && |Rest(listing, n)| <= |queue|
    && forall i {:trigger queue[i]} :: 0 <= i < |Rest(listing, n)| ==> queue[i].id == Rest(listing, n)[i]
  }

  /** Every edit that still waits did so from the start, in a table of the rest of the listing. */
  predicate LaterEdits(first: map<int, Stored>, tables: map<int, Stored>, listing: seq<int>, n: nat) {
    forall id {:trigger tables[id]} :: id in tables && tables[id].table.tag.Some? ==>
      id in first && first[id].table.tag == tables[id].table.tag && id in Rest(listing, n)
  }

  /** What holds between two tables: the ones seen are finished, and the others wait as they were. */
  ghost predicate Progress(first: map<int, Stored>, tables: map<int, Stored>, listing: seq<int>, queue: seq<Waiting>,
                           seen: set<int>, out: seq<Stored>, all: set<int>, n: nat, g: Goal) {
    && Queued(tables, queue, seen) && Lists(out, tables, seen) && SeenQuiet(tables, seen)
    && (forall id {:trigger id in tables} :: id in tables ==> id in all) && SeenGone(tables, seen, g)
    && Aligned(queue, listing, n) && LaterEdits(first, tables, listing, n)
  }

  lemma NothingSeen(tables: map<int, Stored>, listing: seq<int>, queue: seq<Waiting>, all: set<int>, g: Goal)
    requires Queued(tables, queue, {}) && Aligned(queue, listing, 0) && ListingOf(tables, listing)
    requires all == tables.Keys + g.tables.Keys
    ensures Progress(tables, tables, listing, queue, {}, [], all, 0, g)
  {
    hide Quiet, Queued;
    assert Rest(listing, 0) == listing;
  }

  /** Nothing waits to be edited before the table at the front. */
  lemma NextInLine(first: map<int, Stored>, w: World, listing: seq<int>, queue: seq<Waiting>,
                   seen: set<int>, out: seq<Stored>, all: set<int>, n: nat, g: Goal)
    requires queue != [] && Progress(first, w.tables, listing, queue, seen, out, all, n, g) && InOrder(first, listing, g)
    ensures queue[0].id in seen ==> Progress(first, w.tables, listing, queue[1..], seen, out, all, n + 1, g)
    ensures queue[0].id !in seen ==> queue[0].id in w.tables && w.tables[queue[0].id] == queue[0].stored && queue[0].id in all
    ensures queue[0].id !in seen && w.tables[queue[0].id].table.tag.Some? ==>
              FirstEdit(w, g, queue[0].id, w.tables[queue[0].id].table.tag.value.gameId)
  {
    hide Quiet, Queued, Lists, InOrder, Aligned, LaterEdits, FirstEdit;
    var id := queue[0].id;
    Dequeue(w.tables, queue, seen);
    AlignedRest(queue, listing, n);
    if id in seen {
      SeenUntagged(w.tables, seen, id);
      EditsAhead(first, w.tables, w.tables, listing, n, id);
    } else if w.tables[id].table.tag.Some? {
      FrontIsFirst(first, w, listing, n, g, id);
    }
  }

  lemma SeenUntagged(tables: map<int, Stored>, seen: set<int>, id: int)
    requires SeenQuiet(tables, seen) && id in seen
    ensures id in tables ==> tables[id].table.tag.None?
  {
    if id in tables {
      QuietParts(tables[id].table);
    }
  }

  lemma FrontIsFirst(first: map<int, Stored>, w: World, listing: seq<int>, n: nat, g: Goal, id: int)
    requires LaterEdits(first, w.tables, listing, n) && InOrder(first, listing, g)
    requires id in w.tables && w.tables[id].table.tag.Some? && (n < |listing| ==> listing[n] == id)
    ensures FirstEdit(w, g, id, w.tables[id].table.tag.value.gameId)
  {
    var k := w.tables[id].table.tag.value.gameId;
    assert id in Rest(listing, n);
    forall c {:trigger Edits(w, c, k)} | Edits(w, c, k) && c != id
      ensures Precedes(g, id, c)
    {
      assert c in Rest(listing, n);
      var j :| 0 <= j < |Rest(listing, n)| && Rest(listing, n)[j] == c;
      assert listing[n + j] == c && listing[n] == id;
    }
  }

  lemma AlignedRest(queue: seq<Waiting>, listing: seq<int>, n: nat)
    requires queue != [] && Aligned(queue, listing, n)
    ensures n < |listing| ==> listing[n] == queue[0].id
    ensures Aligned(queue[1..], listing, n + 1)
  {
    var rest := queue[1..];
    if n < |listing| {
      assert Rest(listing, n)[0] == listing[n];
      forall i {:trigger rest[i]} | 0 <= i < |Rest(listing, n + 1)|
        ensures rest[i].id == Rest(listing, n + 1)[i]
      {
        assert queue[i + 1].id == Rest(listing, n)[i + 1];
      }
    }
  }

  lemma AlignedBefore(queue: seq<Waiting>, more: seq<Waiting>, listing: seq<int>, n: nat)
    requires Aligned(queue, listing, n)
    ensures Aligned(queue + more, listing, n)
  {
    forall i {:trigger (queue + more)[i]} | 0 <= i < |Rest(listing, n)|
      ensures (queue + more)[i].id == Rest(listing, n)[i]
    {
      assert (queue + more)[i] == queue[i];
    }
  }

  /** Once the table at the front waits no more, the edits that wait are further back. */
  lemma EditsAhead(first: map<int, Stored>, before: map<int, Stored>, after: map<int, Stored>, listing: seq<int>, n: nat, id: int)
    requires LaterEdits(first, before, listing, n) && (n < |listing| ==> listing[n] == id)
    requires forall k {:trigger after[k]} :: k in after && after[k].table.tag.Some? ==> k != id && k in before && after[k] == before[k]
    ensures LaterEdits(first, after, listing, n + 1)
  {
    forall k {:trigger after[k]} | k in after && after[k].table.tag.Some?
      ensures k in first && first[k].table.tag == after[k].table.tag && k in Rest(listing, n + 1)
    {
      assert before[k].table.tag.Some?;
      var j :| 0 <= j < |Rest(listing, n)| && Rest(listing, n)[j] == k;
      assert listing[n + j] == k && j != 0;
      assert Rest(listing, n + 1)[j - 1] == k;
    }
  }

  lemma QuietOne(deal: Dealer, w: World, g: Goal, id: int)
    requires Settles(deal, w, g) && id in w.tables
    ensures w.tables[id].table.id == id
    ensures AllQuiet(w) ==> Quiet(w.tables[id].table)
  {
    hide Settles, Quiet;
    StoredFits(deal, w, g, id);
  }

  /** A table whose chat is all that waits. */
  predicate WaitsForChatOnly(t: Table) {
    t.tag.None? && Unarchived(t) != [] && t.spawn.None? && !t.retire && !Finished(t)
  }

  /** A table whose journal is all that waits. */
  predicate JournalOnly(t: Table) {
    t.tag.None? && Unarchived(t) == [] && t.spawn.Some? && !Finished(t)
  }

  lemma NotItself(t: Table, d: Table)
    requires t.spawn == Some(d)
    ensures t != d
  {}

  predicate Waits(queue: seq<Waiting>, id: int) {
    exists i :: 0 <= i < |queue| && queue[i].id == id
  }

  /** Tables still to be looked at wait with their current checkpoints. */
  ghost predicate Queued(tables: map<int, Stored>, queue: seq<Waiting>, seen: set<int>) {
    && (forall i {:trigger queue[i]} :: 0 <= i < |queue| && queue[i].id !in seen ==>
          queue[i].id in tables && tables[queue[i].id] == queue[i].stored)
    && (forall id {:trigger id in tables} :: id in tables ==> id in seen || Waits(queue, id))
  }

  /** The finished ones among these tables, each once, with its current revision. */
  ghost predicate Lists(out: seq<Stored>, tables: map<int, Stored>, ids: set<int>) {
    && (forall i {:trigger out[i]} :: 0 <= i < |out| ==>
          && out[i].table.id in ids && out[i].table.id in tables
          && tables[out[i].table.id] == out[i])
    && (forall i, j {:trigger out[i], out[j]} :: 0 <= i < j < |out| ==> out[i].table.id != out[j].table.id)
    && (forall id {:trigger id in tables} :: id in tables && id in ids ==> Listed(out, id))
  }

  predicate Listed(out: seq<Stored>, id: int) {
    exists i :: 0 <= i < |out| && out[i].table.id == id
  }

  ghost predicate SeenQuiet(tables: map<int, Stored>, seen: set<int>) {
    forall id {:trigger tables[id]} :: id in tables && id in seen ==> Quiet(tables[id].table)
  }

  ghost predicate SeenGone(tables: map<int, Stored>, seen: set<int>, g: Goal) {
    forall id {:trigger id in seen} :: id in seen ==> id in tables || id !in g.tables
  }

  lemma OneFewer<T>(all: set<T>, seen: set<T>, id: T)
    requires id in all && id !in seen
    ensures |all - (seen + {id})| < |all - seen|
  {
    assert all - seen == (all - (seen + {id})) + {id};
  }

  lemma Dequeue(tables: map<int, Stored>, queue: seq<Waiting>, seen: set<int>)
    requires Queued(tables, queue, seen) && queue != []
    ensures queue[0].id in seen ==> Queued(tables, queue[1..], seen)
    ensures queue[0].id !in seen ==> queue[0].id in tables && tables[queue[0].id] == queue[0].stored
  {
    if queue[0].id in seen {
      forall id | id in tables
        ensures id in seen || Waits(queue[1..], id)
      {
        if id !in seen {
          WaitsInTail(queue, id);
        }
      }
    }
  }

  lemma WaitsInTail(queue: seq<Waiting>, id: int)
    requires Waits(queue, id) && queue != [] && queue[0].id != id
    ensures Waits(queue[1..], id)
  {
    var i :| 0 <= i < |queue| && queue[i].id == id;
    assert queue[1..][i - 1].id == id;
  }

  /** Finishing one table keeps the bookkeeping of the others. */
  lemma OneMoreSeen(deal: Dealer, first: map<int, Stored>, before: World, w: World, listing: seq<int>, queue: seq<Waiting>,
                    seen: set<int>, out: seq<Stored>, all: set<int>, n: nat, g: Goal, spawned: Option<int>)
    requires Settles(deal, w, g) && queue != [] && queue[0].id in before.tables && queue[0].id !in seen
    requires OthersKept(before.tables, w.tables, queue[0].id, spawned)
    requires Progress(first, before.tables, listing, queue, seen, out, all, n, g)
    requires if queue[0].id in w.tables then Quiet(w.tables[queue[0].id].table) else queue[0].id !in g.tables
    requires spawned.Some? ==> spawned.value in w.tables && Quiet(w.tables[spawned.value].table) && spawned.value != queue[0].id
    requires spawned.Some? ==> spawned.value in g.tables
    requires forall k :: k in g.tables ==> k in all
    ensures var id := queue[0].id;
            var after := queue[1..] + if spawned.Some? then [Waiting(spawned.value, w.tables[spawned.value])] else [];
            Progress(first, w.tables, listing, after, seen + {id}, if id in w.tables then out + [w.tables[id]] else out, all, n + 1, g)
  {
    hide Settles, Quiet, Storable, Lists, Queued, Aligned, LaterEdits;
    var id := queue[0].id;
    RestoredQueue(w.tables, before.tables, queue, seen, id, spawned);
    if id in w.tables {
      StoredFits(deal, w, g, id);
    }
    RestoredList(w.tables, before.tables, seen, out, id, spawned, g);
    AlignedRest(queue, listing, n);
    AlignedBefore(queue[1..], if spawned.Some? then [Waiting(spawned.value, w.tables[spawned.value])] else [], listing, n + 1);
    forall k {:trigger w.tables[k]} | k in w.tables && w.tables[k].table.tag.Some?
      ensures k != id && k in before.tables && w.tables[k] == before.tables[k]
    {
      QuietParts(w.tables[k].table);
    }
    EditsAhead(first, before.tables, w.tables, listing, n, id);
  }

  lemma RestoredQueue(tables: map<int, Stored>, before: map<int, Stored>, queue: seq<Waiting>, seen: set<int>, id: int, spawned: Option<int>)
    requires OthersKept(before, tables, id, spawned)
    requires queue != [] && queue[0].id == id && Queued(before, queue, seen)
    requires spawned.Some? ==> spawned.value in tables
    ensures var after := queue[1..] + if spawned.Some? then [Waiting(spawned.value, tables[spawned.value])] else [];
            Queued(tables, after, seen + {id})
  {
    var more := if spawned.Some? then [Waiting(spawned.value, tables[spawned.value])] else [];
    var after := queue[1..] + more;
    forall i | 0 <= i < |after|
      ensures after[i].id !in seen + {id} ==> after[i].id in tables && tables[after[i].id] == after[i].stored
    {
      if i < |queue| - 1 {
        assert after[i] == queue[i + 1];
      } else {
        assert after[i] == more[0];
      }
    }
    forall k | k in tables
      ensures k in seen + {id} || Waits(after, k)
    {
      if spawned == Some(k) {
        assert after[|queue| - 1].id == k;
      } else if k !in seen && k != id {
        WaitsInTail(queue, k);
        var i :| 0 <= i < |queue[1..]| && queue[1..][i].id == k;
        assert after[i].id == k;
      }
    }
  }

  lemma RestoredList(tables: map<int, Stored>, before: map<int, Stored>, seen: set<int>, out: seq<Stored>, id: int, spawned: Option<int>, g: Goal)
    requires OthersKept(before, tables, id, spawned) && id !in seen && SeenGone(before, seen, g)
    requires Lists(out, before, seen) && (spawned.Some? ==> spawned.value in g.tables)
    requires id in tables ==> tables[id].table.id == id
    ensures Lists(if id in tables then out + [tables[id]] else out, tables, seen + {id})
  {
    var next := if id in tables then out + [tables[id]] else out;
    forall k | k in tables && k in seen + {id}
      ensures Listed(next, k)
    {
      if k == id {
        assert next[|out|].table.id == k;
      } else {
        assert k in before;
        var i :| 0 <= i < |out| && out[i].table.id == k;
        assert next[i].table.id == k;
      }
    }
    forall i | 0 <= i < |next|
      ensures && next[i].table.id in seen + {id} && next[i].table.id in tables
              && tables[next[i].table.id] == next[i]
    {
      if i < |out| {
        assert out[i].table.id in seen && out[i].table.id in before;
      }
    }
  }

  lemma AllSeen(first: map<int, Stored>, w: World, listing: seq<int>, seen: set<int>, out: seq<Stored>, all: set<int>, n: nat, g: Goal)
    requires Progress(first, w.tables, listing, [], seen, out, all, n, g)
    ensures Lists(out, w.tables, w.tables.Keys) && AllQuiet(w)
  {
    hide Quiet, Aligned, LaterEdits;
    forall id | id in w.tables
      ensures id in seen
    {}
  }

  /** Every other table stays as it is, and at most the spawned one appears. */
  ghost predicate OthersKept(before: map<int, Stored>, after: map<int, Stored>, id: int, spawned: Option<int>) {
    && (forall k {:trigger after[k]} {:trigger before[k]} :: k in before && k != id ==> k in after && after[k] == before[k])
    && (forall k {:trigger after[k]} {:trigger k in after} :: k in after ==> k in before || spawned == Some(k))
  }

  lemma OthersFrom(before: map<int, Stored>, middle: map<int, Stored>, after: map<int, Stored>, id: int, spawned: Option<int>)
    requires id in before && id in middle && middle == before[id := middle[id]] && OthersKept(middle, after, id, spawned)
    ensures OthersKept(before, after, id, spawned)
  {}

  lemma OthersTo(before: map<int, Stored>, middle: map<int, Stored>, after: map<int, Stored>, id: int, spawned: Option<int>)
    requires id in middle && id in after && after == middle[id := after[id]] && OthersKept(before, middle, id, spawned)
    ensures OthersKept(before, after, id, spawned)
  {}

  predicate SameJournal(t: Table, next: Table) {
    next.spawn == t.spawn && next.retire == t.retire && next.archived >= t.archived && next.chat == t.chat
  }

  lemma TaggedKeeps(t: Table)
    ensures forall tags :: Tagged(t, tags).tag.None? && SameJournal(t, Tagged(t, tags)) && Tagged(t, tags).id == t.id
  {}

  lemma SameJournalDone(t: Table)
    ensures Unarchived(JournalDone(t)) == Unarchived(t)
  {}

  lemma ExtendsFurther(deal: Dealer, token: nat, start: seq<World>, middle: seq<World>, trace: seq<World>, g: Goal)
    requires start <= middle <= trace
    requires AllSettle(deal, token, middle, |start|, g) && AllSettle(deal, token, trace, |middle|, g)
    ensures AllSettle(deal, token, trace, |start|, g)
  {
    hide Settles, ReservedBy;
    forall i {:trigger trace[i]} | |start| <= i < |trace|
      ensures Settles(deal, trace[i], g) && ReservedBy(trace[i], token)
    {
      if i < |middle| {
        assert trace[i] == middle[i];
      }
    }
  }

  lemma JournalledOrNot(deal: Dealer, w: World, g: Goal, id: int)
    requires Settles(deal, w, g) && id in w.tables
    ensures w.tables[id].table.spawn.None? ==> !w.tables[id].table.retire
    ensures w.tables[id].table.spawn.Some? ==> w.tables[id].table.spawn.value.id in g.tables
    ensures w.tables[id].table.retire <==> id !in g.tables
  {
    hide TablesSettle, ChatSettles, GamesSettle, TagsSettle, RoomSettles, Storable;
    StoredFits(deal, w, g, id);
    StorableRetire(w.tables[id].table);
  }

  lemma StorableRetire(t: Table)
    requires Storable(t)
    ensures t.spawn.None? ==> !t.retire
  {}

  lemma QuietParts(t: Table)
    ensures Quiet(t) ==> t.tag.None? && Unarchived(t) == [] && t.spawn.None? && !t.retire && !Finished(t)
  {}

  lemma PartsKept(t: Table)
    ensures Finished(ChatDone(t)) == Finished(t) && Finished(JournalDone(t)) == Finished(t)
  {}

  // ---------------------------------------------------------------------------------------------
  // What each of the steps writes.

  lemma TagStep(deal: Dealer, w: World, g: Goal, id: int)
    requires Settles(deal, w, g) && id in w.tables && w.tables[id].table.tag.Some?
    requires FirstEdit(w, g, id, w.tables[id].table.tag.value.gameId)
    ensures var t := w.tables[id].table;
            var edit := t.tag.value;
            && edit.gameId in w.games && edit.gameId in w.tags && edit.operation != UnknownOperation
            && var tags := Edited(w.tags[edit.gameId], edit);
            var tagged := w.(tags := w.tags[edit.gameId := tags]);
            && GameOf(t).Some? && Settles(deal, tagged, g)
            && Storable(Tagged(t, tags)) && Tagged(t, tags).id == id
            && Settles(deal, Put(tagged, id, w.tables[id].revision + 1, Tagged(t, tags)), g)
            && Put(tagged, id, w.tables[id].revision + 1, Tagged(t, tags)).reserved == w.reserved - {id}
  {
    hide TablesSettle, ChatSettles, GamesSettle, TagsSettle, RoomSettles, Discharges, Storable, Journalled, Edited, FirstEdit;
    var t := w.tables[id].table;
    PendingEdit(deal, w, g, id);
    StoredFits(deal, w, g, id);
    PendingIsNotJournalled(deal, w, g, id);
    TagsWritten(deal, w, g, id, t.tag.value.gameId);
    var tags := Edited(w.tags[t.tag.value.gameId], t.tag.value);
    var tagged := w.(tags := w.tags[t.tag.value.gameId := tags]);
    TaggedEdit(w, g, t, tagged);
    TaggedStorable(t, tags);
    TaggedKeeps(t);
    NotJournalledStill(w, tagged, id);
    hide Tagged;
    PutSettles(deal, tagged, g, id, w.tables[id].revision + 1, Tagged(t, tags));
  }

  lemma TaggedEdit(w: World, g: Goal, t: Table, tagged: World)
    requires t.tag.Some? && t.phase.Replay? && FirstEdit(w, g, t.id, t.tag.value.gameId) && t.tag.value.gameId in w.tags
    requires t.id in g.reviews && g.reviews[t.id] == Edited(w.tags[t.tag.value.gameId], t.tag.value)
    requires tagged == w.(tags := w.tags[t.tag.value.gameId := Edited(w.tags[t.tag.value.gameId], t.tag.value)])
    ensures Discharges(tagged, g, t, Tagged(t, Edited(w.tags[t.tag.value.gameId], t.tag.value)))
  {
    hide Discharges, Edited;
    StillWaits(w, tagged);
    assert FirstEdit(tagged, g, t.id, t.tag.value.gameId);
    TaggedDischarges(tagged, g, t);
  }

  lemma NotJournalledStill(w: World, after: World, id: int)
    requires !Journalled(w, id) && after.tables == w.tables
    ensures !Journalled(after, id)
  {
    forall source | source in after.tables
      ensures JournalOf(after.tables[source].table) != Some(id)
    {
      assert JournalOf(w.tables[source].table) != Some(id);
    }
  }

  lemma ChatStep(deal: Dealer, w: World, g: Goal, id: int)
    requires Settles(deal, w, g) && id in w.tables && w.tables[id].table.tag.None? && Unarchived(w.tables[id].table) != []
    ensures var t := w.tables[id].table;
            && Filed(w.chat, Unarchived(t)).Some?
            && var filed := w.(chat := Filed(w.chat, Unarchived(t)).value);
            && Settles(deal, filed, g)
            && Storable(ChatDone(t)) && ChatDone(t).id == id
            && Settles(deal, Put(filed, id, w.tables[id].revision + 1, ChatDone(t)), g)
            && Put(filed, id, w.tables[id].revision + 1, ChatDone(t)).reserved == w.reserved
  {
    hide TablesSettle, ChatSettles, GamesSettle, TagsSettle, Discharges, Storable, Journalled, Filed;
    var t := w.tables[id].table;
    StoredFits(deal, w, g, id);
    PendingIsNotJournalled(deal, w, g, id);
    StorableArchived(t);
    UnarchivedHeld(deal, w, g, id);
    FilingWorks(w.chat, Unarchived(t), g.chat);
    var filed := w.(chat := Filed(w.chat, Unarchived(t)).value);
    ChatWritten(deal, w, g, filed);
    ChatDischarges(filed, g, t);
    ChatDoneStorable(t);
    NotJournalledStill(w, filed, id);
    PutSettles(deal, filed, g, id, w.tables[id].revision + 1, ChatDone(t));
    SameByNumber(w.reserved - {id}, w.reserved);
  }

  lemma UnarchivedHeld(deal: Dealer, w: World, g: Goal, id: int)
    requires Settles(deal, w, g) && id in w.tables
    ensures forall c <- Unarchived(w.tables[id].table) :: FiledAs(g.chat, c) && c.id.value > 0
    ensures forall k :: k in w.chat ==> k in g.chat && g.chat[k] == w.chat[k]
  {
    hide GamesSettle, TagsSettle, RoomSettles;
    StoredFits(deal, w, g, id);
    assert ChatValid(w.tables[id].table);
  }

  /** Messages that agree with what will be in the archive can all be filed. */
  lemma {:induction false} FilingWorks(rows: map<int, Message>, entries: seq<Chat>, goal: map<int, Message>)
    requires forall c <- entries :: FiledAs(goal, c) && c.id.value > 0
    requires forall k :: k in rows ==> k in goal && goal[k] == rows[k]
    ensures Filed(rows, entries).Some?
    ensures var filed := Filed(rows, entries).value;
            && (forall k :: k in rows ==> k in filed)
            && (forall k :: k in filed ==> k in goal && goal[k] == filed[k])
            && (forall c <- entries :: c.id.Some? && c.id.value in filed)
    decreases |entries|
  {
    if entries != [] {
      var c := entries[0];
      assert FiledAs(goal, c);
      FilingWorks(rows[c.id.value := Message(c.user, c.content)], entries[1..], goal);
      assert forall d <- entries :: d == c || d in entries[1..];
    }
  }

  lemma JournalStep(deal: Dealer, w: World, g: Goal, source: int)
    requires Settles(deal, w, g) && source in w.tables && w.tables[source].table.spawn.Some?
    ensures var d := w.tables[source].table.spawn.value;
            && JournalSettles(w, g, d) && Storable(d) && d.id != source
  {
    hide TablesSettle, ChatSettles, GamesSettle, TagsSettle, RoomSettles;
    StoredFits(deal, w, g, source);
    JournalStorable(w.tables[source].table);
  }

  lemma JournalStorable(t: Table)
    requires Storable(t) && t.spawn.Some? && Quiet(t.spawn.value)
    ensures Storable(t.spawn.value) && t.spawn.value.id != t.id
  {
    StorableQuiet(t.spawn.value);
  }

  lemma StorableQuiet(d: Table)
    requires Quiet(d) && Valid(d)
    ensures Storable(d)
  {}

  lemma IndexHasRoom(deal: Dealer, w: World, g: Goal, id: int)
    requires Settles(deal, w, g) && w.reserved.Keys <= g.tables.Keys && id in g.tables
    requires id !in w.tables && id !in w.reserved
    ensures |Index(w)| < MAX_RECORDS
  {
    hide TablesSettle, ChatSettles, GamesSettle, TagsSettle;
    var all := w.tables.Keys + g.tables.Keys;
    forall k | k in Index(w)
      ensures k in all - {id}
    {}
    Smaller(Index(w), all - {id});
  }

  lemma ReserveStep(deal: Dealer, w: World, g: Goal, id: int, token: nat)
    requires Settles(deal, w, g) && id !in w.tables
    ensures Settles(deal, w.(reserved := w.reserved[id := token]), g)
  {
    hide TablesSettle, ChatSettles, GamesSettle, TagsSettle;
    ReservingSettles(deal, w, g, w.reserved[id := token]);
  }

  lemma DeliverStep(deal: Dealer, w: World, g: Goal, source: int)
    requires Settles(deal, w, g) && source in w.tables && w.tables[source].table.spawn.Some?
    requires w.tables[source].table.spawn.value.id !in w.tables
    ensures Settles(deal, Put(w, w.tables[source].table.spawn.value.id, 1, w.tables[source].table.spawn.value), g)
  {
    hide Settles, Storable;
    JournalStep(deal, w, g, source);
    SpawnSettles(deal, w, g, source, 1);
  }

  lemma ReleaseStep(deal: Dealer, w: World, g: Goal, id: int)
    requires Settles(deal, w, g) && id in w.tables && w.tables[id].table.spawn.Some?
    requires w.tables[id].table.tag.None? && Unarchived(w.tables[id].table) == []
    requires w.tables[id].table.spawn.value.id in w.tables
    ensures id !in w.reserved
    ensures var t := w.tables[id].table;
            if t.retire then Settles(deal, Removed(w, id), g)
            else
              && Storable(JournalDone(t)) && JournalDone(t).id == id
              && Settles(deal, Put(w, id, w.tables[id].revision + 1, JournalDone(t)), g)
  {
    hide TablesSettle, ChatSettles, GamesSettle, TagsSettle, Discharges, Storable, Journalled;
    var t := w.tables[id].table;
    StoredFits(deal, w, g, id);
    if t.retire {
      RetireSettles(deal, w, g, id);
    } else {
      PendingIsNotJournalled(deal, w, g, id);
      JournalDischarges(w, g, t);
      JournalDoneStorable(t);
      PutSettles(deal, w, g, id, w.tables[id].revision + 1, JournalDone(t));
    }
  }

  lemma GameStep(deal: Dealer, w: World, g: Goal, id: int)
    requires Settles(deal, w, g) && id in w.tables && Finished(w.tables[id].table) && !w.tables[id].table.retire
    ensures var s := w.tables[id].table.phase.live;
            && s.tableId == id && GameOf(w.tables[id].table) == Some(s)
            && (!w.tables[id].table.noWrite ==>
                  && Completed(s) && s.finished.Some? && |s.players| == |s.game.characters|
                  && (if s.gameId in w.games then Matches(deal, w.games[s.gameId], s)
                      else && Insertable(deal, s)
                           && Settles(deal, w.(games := w.games[s.gameId := RowOf(deal, s)],
                                               tags := w.tags[s.gameId := s.tags]), g)))
  {
    hide TablesSettle, ChatSettles, TagsSettle, RoomSettles, Completed, Insertable, Matches, RowOf, Fits;
    var t := w.tables[id].table;
    StoredFits(deal, w, g, id);
    GameFitsTable(t);
    if !t.noWrite {
      assert ToComplete(t) == Some(t.phase.live);
      assert GameSettles(deal, w, g, t.phase.live);
      if t.phase.live.gameId !in w.games {
        GameWritten(deal, w, g, id);
      }
    }
  }

  lemma GameFitsTable(t: Table)
    requires Storable(t) && t.phase.Live?
    ensures t.phase.live.tableId == t.id
  {}

  lemma ReplayStep(deal: Dealer, w: World, g: Goal, id: int)
    requires Settles(deal, w, g) && id in w.tables && Finished(w.tables[id].table) && !w.tables[id].table.retire
    requires w.tables[id].table.tag.None? && w.tables[id].table.spawn.None? && Unarchived(w.tables[id].table) == []
    requires w.tables[id].table.noWrite || w.tables[id].table.phase.live.gameId in w.games
    ensures var t := w.tables[id].table;
            && Storable(AsReplay(t)) && AsReplay(t).id == id && id !in w.reserved
            && Settles(deal, Put(w, id, w.tables[id].revision + 1, AsReplay(t)), g)
  {
    hide TablesSettle, ChatSettles, GamesSettle, TagsSettle, Discharges, Storable, Journalled;
    var t := w.tables[id].table;
    StoredFits(deal, w, g, id);
    StorableArchived(t);
    PendingIsNotJournalled(deal, w, g, id);
    GameDischarges(w, g, t);
    ReplayIsStorable(t);
    PutSettles(deal, w, g, id, w.tables[id].revision + 1, AsReplay(t));
  }

  lemma NotSaved(w: World, id: int)
    requires id in w.reserved && id !in w.tables
    ensures Removed(w, id) == w.(reserved := w.reserved - {id})
  {
    SameByNumber(Removed(w, id).tables, w.tables);
  }

  lemma DisjointReserved(deal: Dealer, w: World, g: Goal, id: int)
    requires Settles(deal, w, g) && id in w.reserved
    ensures id !in w.tables
    ensures Settles(deal, w.(reserved := w.reserved - {id}), g)
  {
    hide TablesSettle, ChatSettles, GamesSettle, TagsSettle;
    ReservingSettles(deal, w, g, w.reserved - {id});
  }

  lemma PendingEdit(deal: Dealer, w: World, g: Goal, id: int)
    requires Settles(deal, w, g) && id in w.tables && w.tables[id].table.tag.Some?
    ensures var edit := w.tables[id].table.tag.value;
            && edit.gameId in w.games && edit.gameId in w.tags
            && w.tables[id].table.phase.Replay? && edit.operation != UnknownOperation
  {
    hide ChatSettles, GamesSettle, RoomSettles;
    var t := w.tables[id].table;
    assert Edits(w, id, t.tag.value.gameId);
    assert TagValid(t) by {
      assert Storable(t);
    }
  }

  lemma StoredFits(deal: Dealer, w: World, g: Goal, id: int)
    requires Settles(deal, w, g) && id in w.tables
    ensures var t := w.tables[id].table;
            && t.id == id && Storable(t) && w.tables[id].revision >= 1
            && (t.retire <==> id !in g.tables)
            && (t.spawn.Some? ==> JournalSettles(w, g, t.spawn.value))
  {
    hide ChatSettles, GamesSettle, RoomSettles, TagsSettle, Storable, JournalSettles, Final;
  }

  lemma PendingIsNotJournalled(deal: Dealer, w: World, g: Goal, id: int)
    requires Settles(deal, w, g) && id in w.tables && !Quiet(w.tables[id].table)
    ensures !Journalled(w, id)
  {
    hide ChatSettles, GamesSettle, RoomSettles, TagsSettle, Storable, Final, Quiet;
    forall source | source in w.tables
      ensures JournalOf(w.tables[source].table) != Some(id)
    {
      StoredFits(deal, w, g, source);
    }
  }
}
