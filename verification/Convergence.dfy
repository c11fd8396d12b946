/**
 Which stores recovery can finish, stated on the store alone, and what crashes in the middle of
 recoveries change: nothing but, where the order of edits shows, the tags of the games they are of.
 */
module Convergence {
  import opened Common
  import opened Model
  import opened Archive
  import opened Redis
  import opened Settling
  import opened Recovery
  import opened Ordering

  /** Every journalled table is settled itself, has one source, and is stored as journalled if at all. */
  ghost predicate JournalsWell(w: World) {
    && (forall id {:trigger w.tables[id]} :: id in w.tables ==>
          && w.tables[id].table.id == id && Storable(w.tables[id].table) && w.tables[id].revision >= 1
          && (w.tables[id].table.spawn.Some? ==>
                var d := w.tables[id].table.spawn.value;
                Quiet(d) && (d.id in w.tables ==> w.tables[d.id].table == d)))
    && (forall a, b {:trigger w.tables[a], w.tables[b]} ::
          (a in w.tables && b in w.tables && a != b && w.tables[a].table.spawn.Some?) ==>
            JournalOf(w.tables[a].table) != JournalOf(w.tables[b].table))
  }

  /** No message waits under the identity of another one. */
  ghost predicate ChatWell(w: World) {
    && (forall id, i {:trigger Unarchived(w.tables[id].table)[i]} :: id in w.tables && 0 <= i < |Unarchived(w.tables[id].table)| ==>
          var c := Unarchived(w.tables[id].table)[i];
          c.id.Some? && (c.id.value in w.chat ==> w.chat[c.id.value] == Message(c.user, c.content)))
    && (forall a, i, b, j {:trigger Unarchived(w.tables[a].table)[i], Unarchived(w.tables[b].table)[j]} ::
          (&& a in w.tables && 0 <= i < |Unarchived(w.tables[a].table)|
           && b in w.tables && 0 <= j < |Unarchived(w.tables[b].table)|
           && Unarchived(w.tables[a].table)[i].id == Unarchived(w.tables[b].table)[j].id) ==> a == b && i == j)
  }

  /** Finished games can be stored, or are stored already, and have different identities. */
  ghost predicate GamesWell(deal: Dealer, w: World) {
    && w.tags.Keys == w.games.Keys
    && (forall id {:trigger w.tables[id]} :: id in w.tables && ToComplete(w.tables[id].table).Some? ==>
          var s := ToComplete(w.tables[id].table).value;
          && Completed(s) && s.finished.Some? && |s.players| == |s.game.characters| && Fits(s) && Insertable(deal, s)
          && (s.gameId in w.games ==> Matches(deal, w.games[s.gameId], s)))
    && (forall a, b {:trigger w.tables[a], w.tables[b]} ::
          (a in w.tables && b in w.tables && a != b && ToComplete(w.tables[a].table).Some?) ==>
            GameIdOf(ToComplete(w.tables[a].table)) != GameIdOf(ToComplete(w.tables[b].table)))
  }

  ghost function Destinations(w: World): set<int> {
    set id | id in w.tables && w.tables[id].table.spawn.Some? :: w.tables[id].table.spawn.value.id
  }

  ghost predicate WellFormed(deal: Dealer, w: World) {
    && JournalsWell(w) && ChatWell(w) && GamesWell(deal, w) && KnownEdits(w)
    && w.reserved.Keys !! w.tables.Keys
    && |w.tables.Keys + Destinations(w)| <= MAX_RECORDS
  }

  // ---------------------------------------------------------------------------------------------
  // What such a store amounts to.

  ghost function NewGames(w: World): set<int> {
    set id | id in w.tables && ToComplete(w.tables[id].table).Some? :: ToComplete(w.tables[id].table).value.gameId
  }

  ghost function GameFor(w: World, k: int): Snapshot
    requires Unstored(w, k)
  {
    var id :| id in w.tables && GameIdOf(ToComplete(w.tables[id].table)) == Some(k);
    ToComplete(w.tables[id].table).value
  }

  ghost function JournalFor(w: World, k: int): Table
    requires Journalled(w, k)
  {
    var id :| id in w.tables && JournalOf(w.tables[id].table) == Some(k);
    w.tables[id].table.spawn.value
  }

  ghost function MessageFor(w: World, k: int): Message
    requires Unfiled(w, k)
  {
    var id :| id in w.tables && HasChat(w.tables[id].table, k);
    var c :| c in Unarchived(w.tables[id].table) && c.id == Some(k);
    Message(c.user, c.content)
  }

  ghost function NewMessages(w: World): set<int> {
    set id, c | id in w.tables && c in Unarchived(w.tables[id].table) && c.id.Some? :: c.id.value
  }

  ghost function TagsAfter(w: World, k: int): set<Tag> {
    if k in w.tags then w.tags[k]
    else if Unstored(w, k) then GameFor(w, k).tags
    else {}
  }

  ghost function GameAfter(deal: Dealer, w: World, k: int): Option<Row> {
    if k in w.games then Some(w.games[k])
    else if Unstored(w, k) && GameFor(w, k).finished.Some? && |GameFor(w, k).players| == |GameFor(w, k).game.characters| then
      Some(RowOf(deal, GameFor(w, k)))
    else None
  }

  ghost function ArchiveAfter(deal: Dealer, w: World): Goal {
    Goal(map[],
         map k | k in w.chat.Keys + NewMessages(w) && (k in w.chat || Unfiled(w, k)) ::
           if k in w.chat then w.chat[k] else MessageFor(w, k),
         map k | k in w.games.Keys + NewGames(w) && GameAfter(deal, w, k).Some? :: GameAfter(deal, w, k).value,
         map k | k in w.games.Keys + NewGames(w) && GameAfter(deal, w, k).Some? :: TagsAfter(w, k),
         map[], map[], {}, false)
  }

  /** What it amounts to but for the edits of tags that wait. */
  ghost function Unedited(deal: Dealer, w: World): Goal {
    var g := ArchiveAfter(deal, w);
    g.(tables := map k | k in w.tables.Keys + Destinations(w) && (Journalled(w, k) || (k in w.tables && !w.tables[k].table.retire)) ::
                   if Journalled(w, k) then JournalFor(w, k) else Final(w.tables[k].table, g))
  }

  lemma JournalForIs(w: World, id: int)
    requires JournalsWell(w) && id in w.tables && w.tables[id].table.spawn.Some?
    ensures Journalled(w, w.tables[id].table.spawn.value.id)
    ensures JournalFor(w, w.tables[id].table.spawn.value.id) == w.tables[id].table.spawn.value
    ensures w.tables[id].table.spawn.value.id in Destinations(w)
  {
    hide Storable, Quiet;
    var d := w.tables[id].table.spawn.value;
    assert JournalOf(w.tables[id].table) == Some(d.id);
    var k :| k in w.tables && JournalOf(w.tables[k].table) == Some(d.id) && JournalFor(w, d.id) == w.tables[k].table.spawn.value;
    assert k == id;
  }

  lemma TablesOutcome(deal: Dealer, w: World)
    requires JournalsWell(w)
    ensures TablesSettle(w, Unedited(deal, w))
  {
    hide Storable, Quiet, Final, ArchiveAfter;
    var g := Unedited(deal, w);
    forall id {:trigger w.tables[id]} | id in w.tables
      ensures var t := w.tables[id].table;
              && t.id == id && Storable(t) && w.tables[id].revision >= 1
              && (t.retire <==> id !in g.tables)
              && (!t.retire ==> g.tables[id] == Final(t, g))
              && (t.spawn.Some? ==> JournalSettles(w, g, t.spawn.value))
    {
      TableOutcome(deal, w, id);
    }
    forall id {:trigger id in g.tables} | id in g.tables
      ensures id in w.tables || Journalled(w, id)
    {}
  }

  lemma TableOutcome(deal: Dealer, w: World, id: int)
    requires JournalsWell(w) && id in w.tables
    ensures var t := w.tables[id].table;
            var g := Unedited(deal, w);
            && (t.retire <==> id !in g.tables)
            && (!t.retire ==> g.tables[id] == Final(t, g))
            && (t.spawn.Some? ==> JournalSettles(w, g, t.spawn.value))
  {
    hide Storable, Quiet, Final, ArchiveAfter;
    var t, g := w.tables[id].table, Unedited(deal, w);
    if t.spawn.Some? {
      JournalForIs(w, id);
    }
    if Journalled(w, id) {
      var source :| source in w.tables && JournalOf(w.tables[source].table) == Some(id);
      JournalForIs(w, source);
      QuietIs(t);
      StorableArchived(t);
      QuietFinal(t, g);
    }
    FinalNeedsTags(t, ArchiveAfter(deal, w), g);
  }

  lemma MessageForIs(w: World, id: int, i: nat)
    requires ChatWell(w) && id in w.tables && i < |Unarchived(w.tables[id].table)|
    ensures var c := Unarchived(w.tables[id].table)[i];
            && c.id.Some? && c.id.value in NewMessages(w) && Unfiled(w, c.id.value)
            && MessageFor(w, c.id.value) == Message(c.user, c.content)
  {
    hide Unarchived;
    var list := Unarchived(w.tables[id].table);
    var c := list[i];
    var k := c.id.value;
    assert c in list;
    assert HasChat(w.tables[id].table, k);
    var other :| other in w.tables && HasChat(w.tables[other].table, k)
      && exists d :: d in Unarchived(w.tables[other].table) && d.id == Some(k) && MessageFor(w, k) == Message(d.user, d.content);
    var d :| d in Unarchived(w.tables[other].table) && d.id == Some(k) && MessageFor(w, k) == Message(d.user, d.content);
    var j :| 0 <= j < |Unarchived(w.tables[other].table)| && Unarchived(w.tables[other].table)[j] == d;
    assert other == id && j == i;
  }

  lemma ChatOutcome(deal: Dealer, w: World)
    requires ChatWell(w)
    ensures ChatSettles(w, Unedited(deal, w))
  {
    hide Unarchived, Unfiled, ChatWell;
    var g := Unedited(deal, w);
    assert g.chat == ArchiveAfter(deal, w).chat;
    forall id {:trigger w.tables[id]} | id in w.tables
      ensures forall c <- Unarchived(w.tables[id].table) :: FiledAs(g.chat, c)
    {
      forall c | c in Unarchived(w.tables[id].table)
        ensures FiledAs(g.chat, c)
      {
        var i :| 0 <= i < |Unarchived(w.tables[id].table)| && Unarchived(w.tables[id].table)[i] == c;
        MessageForIs(w, id, i);
        WaitingAgrees(w, id, i);
      }
    }
  }

  lemma WaitingAgrees(w: World, id: int, i: nat)
    requires ChatWell(w) && id in w.tables && i < |Unarchived(w.tables[id].table)|
    ensures var c := Unarchived(w.tables[id].table)[i];
            c.id.Some? && (c.id.value in w.chat ==> w.chat[c.id.value] == Message(c.user, c.content))
  {}

  lemma GameForIs(deal: Dealer, w: World, id: int)
    requires GamesWell(deal, w) && id in w.tables && ToComplete(w.tables[id].table).Some?
    ensures var s := ToComplete(w.tables[id].table).value;
            && Unstored(w, s.gameId) && GameFor(w, s.gameId) == s && s.gameId in NewGames(w)
  {
    hide ToComplete, Completed, Fits, Insertable, Matches;
    var s := ToComplete(w.tables[id].table).value;
    assert GameIdOf(ToComplete(w.tables[id].table)) == Some(s.gameId);
    var other :| other in w.tables && GameIdOf(ToComplete(w.tables[other].table)) == Some(s.gameId)
      && GameFor(w, s.gameId) == ToComplete(w.tables[other].table).value;
    assert other == id;
  }

  lemma KnownGame(deal: Dealer, w: World, k: int)
    ensures k in w.games ==> GameAfter(deal, w, k) == Some(w.games[k])
    ensures k !in w.games && GameAfter(deal, w, k).Some? ==> Unstored(w, k)
  {
    hide RowOf;
  }

  lemma NewGame(deal: Dealer, w: World, id: int)
    requires GamesWell(deal, w) && id in w.tables && ToComplete(w.tables[id].table).Some?
    ensures var s := ToComplete(w.tables[id].table).value;
            && GameAfter(deal, w, s.gameId).Some? && s.gameId in NewGames(w)
            && s.finished.Some? && |s.players| == |s.game.characters|
            && (s.gameId !in w.games ==> GameAfter(deal, w, s.gameId) == Some(RowOf(deal, s)) && TagsAfter(w, s.gameId) == s.tags)
  {
    hide ToComplete, Completed, Fits, Insertable, Matches, RowOf, GamesWell, NewGames;
    GameForIs(deal, w, id);
    GameFitsWell(deal, w, id);
  }

  lemma ArchiveAfterIs(deal: Dealer, w: World)
    ensures forall k :: k in ArchiveAfter(deal, w).games <==> k in ArchiveAfter(deal, w).tags
    ensures forall k {:trigger k in ArchiveAfter(deal, w).games} :: k in ArchiveAfter(deal, w).games <==>
              (k in w.games || k in NewGames(w)) && GameAfter(deal, w, k).Some?
    ensures forall k {:trigger ArchiveAfter(deal, w).games[k]} :: k in ArchiveAfter(deal, w).games ==>
              Some(ArchiveAfter(deal, w).games[k]) == GameAfter(deal, w, k)
    ensures forall k {:trigger ArchiveAfter(deal, w).tags[k]} :: k in ArchiveAfter(deal, w).tags ==>
              ArchiveAfter(deal, w).tags[k] == TagsAfter(w, k)
  {
    hide GameAfter, TagsAfter, NewGames, MessageFor, NewMessages;
  }

  lemma GamesOutcome(deal: Dealer, w: World)
    requires GamesWell(deal, w)
    ensures GamesSettle(deal, w, Unedited(deal, w))
  {
    hide ToComplete, GamesWell, Unstored, GameAfter, TagsAfter, NewGames, ArchiveAfter, GameSettles;
    var g := Unedited(deal, w);
    var a := ArchiveAfter(deal, w);
    assert g.games == a.games && g.tags == a.tags;
    ArchiveAfterIs(deal, w);
    SameNumbers(g.tags.Keys, g.games.Keys);
    GamesKeys(deal, w);
    forall id {:trigger w.tables[id]} | id in w.tables
      ensures ToComplete(w.tables[id].table).Some? ==> GameSettles(deal, w, g, ToComplete(w.tables[id].table).value)
    {
      if ToComplete(w.tables[id].table).Some? {
        GameOutcome(deal, w, g, id);
      }
    }
    forall k
      ensures k in w.games ==> k in g.games && g.games[k] == w.games[k]
      ensures k in g.games ==> k in w.games || Unstored(w, k)
    {
      KnownGame(deal, w, k);
    }
  }

  lemma GameOutcome(deal: Dealer, w: World, g: Goal, id: int)
    requires GamesWell(deal, w) && id in w.tables && ToComplete(w.tables[id].table).Some?
    requires g.games == ArchiveAfter(deal, w).games && g.tags == ArchiveAfter(deal, w).tags
    ensures GameSettles(deal, w, g, ToComplete(w.tables[id].table).value)
  {
    hide ToComplete, Completed, Fits, Insertable, Matches, GamesWell, RowOf, GameAfter, TagsAfter, NewGames, ArchiveAfter;
    ArchiveAfterIs(deal, w);
    NewGame(deal, w, id);
    GameFitsWell(deal, w, id);
  }

  lemma GamesKeys(deal: Dealer, w: World)
    requires GamesWell(deal, w)
    ensures w.tags.Keys == w.games.Keys
  {}

  lemma GameFitsWell(deal: Dealer, w: World, id: int)
    requires GamesWell(deal, w) && id in w.tables && ToComplete(w.tables[id].table).Some?
    ensures var s := ToComplete(w.tables[id].table).value;
            && Completed(s) && s.finished.Some? && |s.players| == |s.game.characters| && Fits(s) && Insertable(deal, s)
            && (s.gameId in w.games ==> Matches(deal, w.games[s.gameId], s))
            && (s.gameId in w.games <==> s.gameId in w.tags)
  {
    hide ToComplete, Completed, Fits, Insertable, Matches;
  }

  lemma TagsUnedited(deal: Dealer, w: World)
    requires GamesWell(deal, w)
    ensures forall k {:trigger w.tags[k]} :: k in w.tags && k in Unedited(deal, w).tags ==> Unedited(deal, w).tags[k] == w.tags[k]
  {
    hide GamesWell, GameAfter, NewGames, ArchiveAfter;
    assert Unedited(deal, w).tags == ArchiveAfter(deal, w).tags;
    ArchiveAfterIs(deal, w);
  }

  lemma RoomOutcome(deal: Dealer, w: World)
    requires w.reserved.Keys !! w.tables.Keys && |w.tables.Keys + Destinations(w)| <= MAX_RECORDS
    ensures RoomSettles(w, Unedited(deal, w))
  {
    hide Final, ArchiveAfter, Journalled;
    var g := Unedited(deal, w);
    forall k | k in w.tables.Keys + g.tables.Keys
      ensures k in w.tables.Keys + Destinations(w)
    {}
    Smaller(w.tables.Keys + g.tables.Keys, w.tables.Keys + Destinations(w));
  }

  /** What recovery makes of the store when it lists its tables in this order. */
  ghost function Outcome(deal: Dealer, w: World, listing: seq<int>): Goal
    requires KnownEdits(w) && ListingOf(w.tables, listing)
  {
    Ordered(w, Unedited(deal, w), listing)
  }

  /** Every well-formed store amounts to something, so that recovery finishes it, in whatever order. */
  lemma WellFormedSettles(deal: Dealer, w: World, listing: seq<int>)
    requires WellFormed(deal, w) && ListingOf(w.tables, listing)
    ensures KnownEdits(w)
    ensures Settles(deal, w, Outcome(deal, w, listing)) && InOrder(w.tables, listing, Outcome(deal, w, listing))
    ensures Outcome(deal, w, listing).anyOrder == SameEffects(w)
  {
    hide JournalsWell, ChatWell, GamesWell, KnownEdits, Unedited, TablesSettle, ChatSettles, GamesSettle, TagsSettle, RoomSettles;
    hide Ordered, ListingOf, InOrder, SameEffects;
    TablesOutcome(deal, w);
    ChatOutcome(deal, w);
    GamesOutcome(deal, w);
    TagsUnedited(deal, w);
    RoomOutcome(deal, w);
    OrderedSettles(deal, w, Unedited(deal, w), listing);
    OrderedIs(w, Unedited(deal, w), listing);
  }

  // ---------------------------------------------------------------------------------------------
  // Crashes.

  /** How the store lists its tables: each of them once, in an order that may differ from time to time. */
  type Lister = map<int, Stored> -> seq<int>

  ghost predicate ListsAll(list: Lister) {
    forall tables {:trigger list(tables)} :: ListingOf(tables, list(tables))
  }

  /** A recovery that is cut short after one of its writes, or before the first one. */
  datatype Crash = Crash(write: nat, list: Lister)

  /** What a recovery leaves that is cut short after one of its writes. */
  method RecoverCutShort(w: World, deal: Dealer, token: nat, listing: seq<int>, write: nat, ghost g: Goal) returns (left: World)
    requires Settles(deal, w, g) && ListingOf(w.tables, listing) && InOrder(w.tables, listing, g)
    requires forall id {:trigger w.reserved[id]} :: id in w.reserved ==> w.reserved[id] < token
    ensures Settles(deal, left, g)
    ensures forall id {:trigger left.reserved[id]} :: id in left.reserved ==> left.reserved[id] < token + 1
  {
    hide Settles, Reached, AllQuiet, Lists, ReservedBy, ListingOf, InOrder;
    var store := new Recovery.Store(w, deal, token);
    var _ := store.Restore(listing, g);
    left := if write < |store.trace| then store.trace[write] else w;
    LeftBounded(left, token);
  }

  /** One more recovery of a store, in the order of the moment. */
  method RecoverAgain(w: World, deal: Dealer, token: nat, list: Lister, ghost g: Goal) returns (store: Recovery.Store, ghost h: Goal)
    requires Settles(deal, w, g) && ListsAll(list)
    requires forall id {:trigger w.reserved[id]} :: id in w.reserved ==> w.reserved[id] < token
    ensures AllQuiet(store.World()) && Reached(store.World(), h) && Settles(deal, store.World(), h) && store.reserved == map[]
    ensures SameButEdits(g, h) && (g.anyOrder ==> SameResult(g, h))
    ensures AllQuiet(w) && w.reserved == map[] ==> store.trace == [] && store.World() == w
  {
    hide Settles, Reached, AllQuiet, Lists, ReservedBy, ListingOf, InOrder, SameButEdits, SameResult, Ordered;
    Relisted(deal, w, g, list(w.tables));
    h := Ordered(w, g, list(w.tables));
    store := new Recovery.Store(w, deal, token);
    var _ := store.Restore(list(w.tables), h);
  }

  /** What any number of interrupted recoveries leave. */
  method RecoverInterrupted(w: World, deal: Dealer, token: nat, crashes: seq<Crash>, ghost g: Goal)
    returns (left: World, ghost h: Goal)
    requires Settles(deal, w, g) && forall i {:trigger crashes[i]} :: 0 <= i < |crashes| ==> ListsAll(crashes[i].list)
    requires forall id {:trigger w.reserved[id]} :: id in w.reserved ==> w.reserved[id] < token
    ensures Settles(deal, left, h) && SameButEdits(g, h) && (g.anyOrder ==> h.anyOrder && SameResult(g, h))
    ensures forall id {:trigger left.reserved[id]} :: id in left.reserved ==> left.reserved[id] < token + |crashes|
  {
    hide Settles, ListsAll, SameButEdits, SameResult, Ordered, InOrder, ListingOf;
    left, h := w, g;
    SameButNothing(g);
    SameItself(g);
    for i := 0 to |crashes|
      invariant Settles(deal, left, h) && SameButEdits(g, h) && (g.anyOrder ==> h.anyOrder && SameResult(g, h))
      invariant forall id {:trigger left.reserved[id]} :: id in left.reserved ==> left.reserved[id] < token + i
    {
      var listing := crashes[i].list(left.tables);
      ListsThese(crashes[i].list, left.tables);
      Relisted(deal, left, h, listing);
      ghost var next := Ordered(left, h, listing);
      SameButEditsTwice(g, h, next);
      SameTwice(g, h, next);
      left := RecoverCutShort(left, deal, token + i, listing, crashes[i].write, next);
      h := next;
    }
  }

  lemma ListsThese(list: Lister, tables: map<int, Stored>)
    requires ListsAll(list)
    ensures ListingOf(tables, list(tables))
  {}

  lemma SameItself(g: Goal)
    ensures SameResult(g, g)
  {}

  lemma SameTwice(f: Goal, g: Goal, h: Goal)
    ensures SameResult(f, g) && SameResult(g, h) ==> SameResult(f, h)
  {}

  /**
   Any number of recoveries of a well-formed store, each cut short after any of its writes and followed
   by a later run of the server, whatever order the store lists its tables in each time: the last one
   leaves nothing pending, and what an undisturbed recovery leaves up to the tags of edited games, or
   exactly that if all waiting edits of a game do the same. Recovering once more writes nothing.
   */
  method RecoverAfterCrashes(w: World, deal: Dealer, token: nat, list: Lister, crashes: seq<Crash>)
    returns (undisturbed: Recovery.Store, last: Recovery.Store, again: Recovery.Store, ghost h: Goal)
    requires WellFormed(deal, w) && ListsAll(list)
    requires forall i {:trigger crashes[i]} :: 0 <= i < |crashes| ==> ListsAll(crashes[i].list)
    requires forall id {:trigger w.reserved[id]} :: id in w.reserved ==> w.reserved[id] < token
    ensures ListingOf(w.tables, list(w.tables))
    ensures AllQuiet(undisturbed.World()) && Reached(undisturbed.World(), Outcome(deal, w, list(w.tables)))
    ensures AllQuiet(last.World()) && Reached(last.World(), h) && SameButEdits(Outcome(deal, w, list(w.tables)), h)
    ensures SameEffects(w) ==> Reached(last.World(), Outcome(deal, w, list(w.tables)))
    ensures again.trace == [] && again.World() == last.World()
  {
    hide WellFormed, Outcome, Settles, Reached, AllQuiet, Lists, ReservedBy, ListingOf, InOrder, ListsAll, SameButEdits, SameResult, SameEffects;
    ListsThese(list, w.tables);
    WellFormedSettles(deal, w, list(w.tables));
    ghost var g := Outcome(deal, w, list(w.tables));
    undisturbed := new Recovery.Store(w, deal, token);
    var _ := undisturbed.Restore(list(w.tables), g);
    var left, reached := RecoverInterrupted(w, deal, token, crashes, g);
    last, h := RecoverAgain(left, deal, token + |crashes|, list, reached);
    SameButEditsTwice(g, reached, h);
    SameTwice(g, reached, h);
    ReachedSame(last.World(), g, h);
    ghost var ignored;
    again, ignored := RecoverAgain(last.World(), deal, token + |crashes| + 1, list, h);
  }

  lemma ReachedSame(w: World, g: Goal, h: Goal)
    ensures SameResult(g, h) && Reached(w, h) ==> Reached(w, g)
  {}

  lemma LeftBounded(w: World, token: nat)
    ensures ReservedBy(w, token) ==> forall id {:trigger w.reserved[id]} :: id in w.reserved ==> w.reserved[id] < token + 1
  {}
}
