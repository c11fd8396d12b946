/**
 What the conditions on a store are for: the order of edits that differ shows in what a recovery leaves,
 and a journalled table that changes in its own recovery can no longer be handed over.
 */
module Conflicts {
  import opened Common
  import opened Model
  import opened Archive
  import opened Redis
  import opened Settling
  import opened Recovery
  import opened Ordering
  import opened Convergence
  import Roster

  // ---------------------------------------------------------------------------------------------
  // The order in which the store lists its tables.

  ghost predicate OrderIrrelevant(deal: Dealer, w: World)
    requires KnownEdits(w)
  {
    forall one, other {:trigger ListingOf(w.tables, one), ListingOf(w.tables, other)} ::
      ListingOf(w.tables, one) && ListingOf(w.tables, other) ==> SameResult(Outcome(deal, w, one), Outcome(deal, w, other))
  }

  /** No review with a waiting edit is about to hand its players over. */
  ghost predicate ReviewsStay(w: World) {
    forall id {:trigger w.tables[id]} :: id in w.tables && w.tables[id].table.tag.Some? ==> !w.tables[id].table.retire
  }

  /** Recovery leaves the same in every order exactly when waiting edits of one game all do the same. */
  lemma OrderMattersExactly(deal: Dealer, w: World, listing: seq<int>)
    requires WellFormed(deal, w) && ListingOf(w.tables, listing)
    ensures KnownEdits(w)
    ensures SameEffects(w) ==> OrderIrrelevant(deal, w)
    ensures ReviewsStay(w) && OrderIrrelevant(deal, w) ==> SameEffects(w)
  {
    hide WellFormed, Outcome, ListingOf, SameResult, EditedBy;
    WellFormedSettles(deal, w, listing);
    if SameEffects(w) {
      forall one, other {:trigger ListingOf(w.tables, one), ListingOf(w.tables, other)} |
        ListingOf(w.tables, one) && ListingOf(w.tables, other)
        ensures SameResult(Outcome(deal, w, one), Outcome(deal, w, other))
      {
        SameInBothOrders(deal, w, one, other);
      }
    }
    if ReviewsStay(w) && OrderIrrelevant(deal, w) {
      forall a, b, k {:trigger Edits(w, a, k), Edits(w, b, k)} | Edits(w, a, k) && Edits(w, b, k) && k in w.tags
        ensures EditedBy(w, a, w.tags[k]) == EditedBy(w, b, w.tags[k])
      {
        FirstAndLast(deal, w, listing, a, k);
        FirstAndLast(deal, w, listing, b, k);
        KnownInOutcome(deal, w, listing, a, k);
      }
    }
  }

  lemma SameInBothOrders(deal: Dealer, w: World, one: seq<int>, other: seq<int>)
    requires WellFormed(deal, w) && ListingOf(w.tables, one) && ListingOf(w.tables, other) && SameEffects(w)
    ensures KnownEdits(w) && SameResult(Outcome(deal, w, one), Outcome(deal, w, other))
  {
    hide ListingOf, SameEffects, Ordered, Unedited, TablesSettle, ChatSettles, GamesSettle, TagsSettle, RoomSettles, EditPending;
    hide JournalsWell, ChatWell, GamesWell, KnownEdits, InOrder, SameResult;
    WellFormedSettles(deal, w, one);
    WellFormedSettles(deal, w, other);
    OrderedIs(w, Unedited(deal, w), one);
    OrderedIs(w, Unedited(deal, w), other);
    SameWhenAlike(w, Outcome(deal, w, one), Outcome(deal, w, other));
  }

  function Without(listing: seq<int>, i: nat): seq<int>
    requires i < |listing|
  {
    listing[..i] + listing[i + 1..]
  }

  lemma WithoutOne(tables: map<int, Stored>, listing: seq<int>, i: nat)
    requires ListingOf(tables, listing) && i < |listing|
    ensures var rest := Without(listing, i);
            && (forall j {:trigger rest[j]} :: 0 <= j < |rest| ==> rest[j] in tables && rest[j] != listing[i])
            && (forall j, n {:trigger rest[j], rest[n]} :: 0 <= j < n < |rest| ==> rest[j] != rest[n])
            && (forall id {:trigger id in tables} :: id in tables ==> id == listing[i] || id in rest)
  {
    var rest := Without(listing, i);
    assert forall j {:trigger rest[j]} :: 0 <= j < |rest| ==> rest[j] == listing[if j < i then j else j + 1];
    forall id | id in tables
      ensures id == listing[i] || id in rest
    {
      assert id in listing;
      var j :| 0 <= j < |listing| && listing[j] == id;
      if j != i {
        assert rest[if j < i then j else j - 1] == id;
      }
    }
  }

  /** A listing stays one when one of its tables moves to the front or to the back. */
  lemma Moved(tables: map<int, Stored>, listing: seq<int>, i: nat)
    requires ListingOf(tables, listing) && i < |listing|
    ensures ListingOf(tables, [listing[i]] + Without(listing, i)) && ListingOf(tables, Without(listing, i) + [listing[i]])
  {
    hide Without;
    WithoutOne(tables, listing, i);
    var rest, x := Without(listing, i), listing[i];
    assert x in tables;
    Around(tables, rest, x);
  }

  lemma Around(tables: map<int, Stored>, rest: seq<int>, x: int)
    requires x in tables && forall j {:trigger rest[j]} :: 0 <= j < |rest| ==> rest[j] in tables && rest[j] != x
    requires forall j, n {:trigger rest[j], rest[n]} :: 0 <= j < n < |rest| ==> rest[j] != rest[n]
    requires forall id {:trigger id in tables} :: id in tables ==> id == x || id in rest
    ensures ListingOf(tables, [x] + rest) && ListingOf(tables, rest + [x])
  {
    assert forall id :: id in [x] + rest <==> id == x || id in rest;
    assert forall id :: id in rest + [x] <==> id == x || id in rest;
  }

  lemma KnownInOutcome(deal: Dealer, w: World, listing: seq<int>, a: int, k: int)
    requires WellFormed(deal, w) && ListingOf(w.tables, listing) && Edits(w, a, k)
    ensures KnownEdits(w) && k in w.tags && k in Outcome(deal, w, listing).tags && a in Outcome(deal, w, listing).reviews
  {
    hide WellFormed, Outcome, ListingOf, TablesSettle, ChatSettles, GamesSettle, RoomSettles;
    WellFormedSettles(deal, w, listing);
  }

  /** Listed first, a review shows the effect of its own edit; listed last, it shows the tags of the archive. */
  lemma FirstAndLast(deal: Dealer, w: World, listing: seq<int>, a: int, k: int)
    requires WellFormed(deal, w) && ListingOf(w.tables, listing) && Edits(w, a, k) && ReviewsStay(w)
    requires KnownEdits(w) && OrderIrrelevant(deal, w)
    ensures k in w.tags && k in Outcome(deal, w, listing).tags
    ensures Outcome(deal, w, listing).tags[k] == EditedBy(w, a, w.tags[k])
  {
    hide WellFormed, Outcome, ListingOf, EditedBy, KnownEdits, ReviewsStay;
    InListing(w.tables, listing, a);
    var i :| 0 <= i < |listing| && listing[i] == a;
    Moved(w.tables, listing, i);
    var front, back := [a] + Without(listing, i), Without(listing, i) + [a];
    KnownInOutcome(deal, w, listing, a, k);
    ListedFirst(deal, w, front, a, k);
    ListedLast(deal, w, back, a, k);
    Shown(deal, w, front, a, k);
    Shown(deal, w, back, a, k);
    assert SameResult(Outcome(deal, w, front), Outcome(deal, w, back));
    assert SameResult(Outcome(deal, w, listing), Outcome(deal, w, back));
  }

  lemma InListing(tables: map<int, Stored>, listing: seq<int>, id: int)
    requires ListingOf(tables, listing) && id in tables
    ensures id in listing
  {}

  lemma ListedFirst(deal: Dealer, w: World, listing: seq<int>, a: int, k: int)
    requires WellFormed(deal, w) && ListingOf(w.tables, listing) && Edits(w, a, k) && listing != [] && listing[0] == a
    ensures KnownEdits(w) && k in w.tags && a in Outcome(deal, w, listing).reviews
    ensures Outcome(deal, w, listing).reviews[a] == EditedBy(w, a, w.tags[k])
  {
    hide WellFormed, Outcome, EditedBy, TablesSettle, ChatSettles, GamesSettle, RoomSettles, EditPending;
    WellFormedSettles(deal, w, listing);
    var g := Outcome(deal, w, listing);
    forall c {:trigger Edits(w, c, k)} | Edits(w, c, k) && c != a
      ensures Precedes(g, a, c)
    {
      assert c in listing;
      var j :| 0 <= j < |listing| && listing[j] == c;
      assert EditOf(w.tables[a].table) == EditOf(w.tables[c].table) == Some(k);
      assert Precedes(g, listing[0], listing[j]);
    }
    assert FirstEdit(w, g, a, k);
  }

  lemma ListedLast(deal: Dealer, w: World, listing: seq<int>, a: int, k: int)
    requires WellFormed(deal, w) && ListingOf(w.tables, listing) && Edits(w, a, k) && listing != [] && listing[|listing| - 1] == a
    ensures KnownEdits(w) && k in Outcome(deal, w, listing).tags && a in Outcome(deal, w, listing).reviews
    ensures Outcome(deal, w, listing).tags[k] == Outcome(deal, w, listing).reviews[a]
  {
    hide WellFormed, Outcome, EditedBy, TablesSettle, ChatSettles, GamesSettle, RoomSettles, EditPending;
    WellFormedSettles(deal, w, listing);
    var g := Outcome(deal, w, listing);
    forall c {:trigger Edits(w, c, k)} | Edits(w, c, k) && c != a
      ensures Precedes(g, c, a)
    {
      assert c in listing;
      var j :| 0 <= j < |listing| && listing[j] == c;
      assert EditOf(w.tables[a].table) == EditOf(w.tables[c].table) == Some(k);
      assert Precedes(g, listing[j], listing[|listing| - 1]);
    }
    assert LastEdit(w, g, a, k);
  }

  /** The tags of a review that stays are to be seen in its table. */
  lemma Shown(deal: Dealer, w: World, listing: seq<int>, a: int, k: int)
    requires WellFormed(deal, w) && ListingOf(w.tables, listing) && Edits(w, a, k) && ReviewsStay(w)
    ensures KnownEdits(w)
    ensures var g := Outcome(deal, w, listing);
            && a in g.reviews && a in g.tables && GameOf(g.tables[a]).Some? && GameOf(g.tables[a]).value.tags == g.reviews[a]
  {
    hide WellFormed, Outcome, ListingOf, TablesSettle, ChatSettles, GamesSettle, RoomSettles, TagsSettle, Final, Storable;
    WellFormedSettles(deal, w, listing);
    KnownInOutcome(deal, w, listing, a, k);
    StoredFits(deal, w, Outcome(deal, w, listing), a);
    StorableTag(w.tables[a].table);
    FinalInGoal(w, Outcome(deal, w, listing), a);
    FinalShows(w.tables[a].table, Outcome(deal, w, listing));
  }

  lemma FinalInGoal(w: World, g: Goal, id: int)
    requires TablesSettle(w, g) && id in w.tables && !w.tables[id].table.retire
    ensures w.tables[id].table.id == id && id in g.tables && g.tables[id] == Final(w.tables[id].table, g)
  {
    hide Final, Storable, JournalSettles;
  }

  lemma FinalShows(t: Table, g: Goal)
    requires t.tag.Some? && t.phase.Replay? && t.id in g.reviews
    ensures GameOf(Final(t, g)).Some? && GameOf(Final(t, g)).value.tags == g.reviews[t.id]
  {}

  /** What two waiting edits of one game leave: the tags of each review, and those in the archive. */
  datatype Left = Left(first: set<Tag>, second: set<Tag>, archived: set<Tag>)

  function FirstThenSecond(tags: set<Tag>, a: TagEdit, b: TagEdit): Left {
    Left(Edited(tags, a), Edited(Edited(tags, a), b), Edited(Edited(tags, a), b))
  }

  function SecondThenFirst(tags: set<Tag>, a: TagEdit, b: TagEdit): Left {
    Left(Edited(Edited(tags, b), a), Edited(tags, b), Edited(Edited(tags, b), a))
  }

  lemma EditsCommute(tags: set<Tag>, a: TagEdit, b: TagEdit)
    ensures FirstThenSecond(tags, a, b) == SecondThenFirst(tags, a, b) <==> Edited(tags, a) == Edited(tags, b)
  {
    hide Edited;
    EditingTwice(tags, a);
    EditingTwice(tags, b);
  }

  /** Two tables with an edit of one game, the only edits that wait, in this order. */
  ghost predicate PairWaits(w: World, listing: seq<int>, a: int, b: int, k: int) {
    && Edits(w, a, k) && Edits(w, b, k)
    && (exists i, j :: 0 <= i < j < |listing| && listing[i] == a && listing[j] == b)
    && forall c, n {:trigger Edits(w, c, n)} :: Edits(w, c, n) ==> c == a || c == b
  }

  lemma PairOutcome(deal: Dealer, w: World, listing: seq<int>, a: int, b: int, k: int)
    requires WellFormed(deal, w) && ListingOf(w.tables, listing) && PairWaits(w, listing, a, b, k) && ReviewsStay(w)
    ensures KnownEdits(w) && k in w.tags
    ensures var g := Outcome(deal, w, listing);
            && k in g.tags && a in g.reviews && b in g.reviews && a != b
            && Left(g.reviews[a], g.reviews[b], g.tags[k]) ==
               FirstThenSecond(w.tags[k], w.tables[a].table.tag.value, w.tables[b].table.tag.value)
  {
    hide WellFormed, Outcome, Edited, TablesSettle, ChatSettles, GamesSettle, RoomSettles, EditPending;
    WellFormedSettles(deal, w, listing);
    var g := Outcome(deal, w, listing);
    var i, j :| 0 <= i < j < |listing| && listing[i] == a && listing[j] == b;
    assert listing[i] != listing[j];
    assert EditOf(w.tables[a].table) == EditOf(w.tables[b].table) == Some(k);
    assert Precedes(g, listing[i], listing[j]);
    assert FirstEdit(w, g, a, k);
    assert NextEdit(w, g, a, b, k);
    assert LastEdit(w, g, b, k);
  }

  lemma PairResult(deal: Dealer, w: World, one: seq<int>, other: seq<int>, a: int, b: int, k: int)
    requires WellFormed(deal, w) && ListingOf(w.tables, one) && ListingOf(w.tables, other) && ReviewsStay(w)
    requires PairWaits(w, one, a, b, k) && PairWaits(w, other, b, a, k)
    ensures KnownEdits(w) && k in w.tags
    ensures SameResult(Outcome(deal, w, one), Outcome(deal, w, other)) <==>
              Edited(w.tags[k], w.tables[a].table.tag.value) == Edited(w.tags[k], w.tables[b].table.tag.value)
  {
    hide WellFormed, Outcome, Edited, ListingOf, ReviewsStay;
    PairOutcome(deal, w, one, a, b, k);
    PairOutcome(deal, w, other, b, a, k);
    EditsCommute(w.tags[k], w.tables[a].table.tag.value, w.tables[b].table.tag.value);
    Shown(deal, w, one, a, k);
    Shown(deal, w, other, a, k);
    Shown(deal, w, one, b, k);
    Shown(deal, w, other, b, k);
    if Edited(w.tags[k], w.tables[a].table.tag.value) == Edited(w.tags[k], w.tables[b].table.tag.value) {
      assert SameEffects(w);
      SameInBothOrders(deal, w, one, other);
    }
  }

  /** The same up to the revisions of tables. */
  ghost predicate SameStore(v: World, w: World) {
    && v.chat == w.chat && v.games == w.games && v.tags == w.tags && v.tables.Keys == w.tables.Keys
    && forall id {:trigger v.tables[id]} {:trigger w.tables[id]} :: id in v.tables ==> v.tables[id].table == w.tables[id].table
  }

  lemma SameStoreIs(v: World, w: World, g: Goal, h: Goal)
    requires Reached(v, g) && Reached(w, h)
    ensures SameStore(v, w) <==> SameResult(g, h)
  {
    if SameStore(v, w) {
      assert forall id :: id in v.tables.Keys <==> id in g.tables.Keys;
      assert forall id :: id in w.tables.Keys <==> id in h.tables.Keys;
      assert forall id :: id in v.tables.Keys <==> id in w.tables.Keys;
      SameByNumber(g.tables, h.tables);
    }
  }

  /**
   Two recoveries of one store in which two edits of a game wait, once with the first listed before the
   second and once the other way round: both finish everything, and leave the same tables and the same
   archive if and only if both edits do the same to the tags of the game.
   */
  method OrderOfEditsMatters(w: World, deal: Dealer, token: nat, one: seq<int>, other: seq<int>, a: int, b: int, k: int)
    returns (first: Recovery.Store, second: Recovery.Store)
    requires WellFormed(deal, w) && ListingOf(w.tables, one) && ListingOf(w.tables, other) && ReviewsStay(w)
    requires PairWaits(w, one, a, b, k) && PairWaits(w, other, b, a, k)
    requires forall id {:trigger w.reserved[id]} :: id in w.reserved ==> w.reserved[id] < token
    ensures AllQuiet(first.World()) && AllQuiet(second.World()) && k in w.tags
    ensures SameStore(first.World(), second.World()) <==>
              Edited(w.tags[k], w.tables[a].table.tag.value) == Edited(w.tags[k], w.tables[b].table.tag.value)
  {
    hide WellFormed, Outcome, Settles, Reached, AllQuiet, Lists, ReservedBy, ListingOf, InOrder, Edited, SameStore, ReviewsStay;
    PairResult(deal, w, one, other, a, b, k);
    WellFormedSettles(deal, w, one);
    WellFormedSettles(deal, w, other);
    first := new Recovery.Store(w, deal, token);
    var _ := first.Restore(one, Outcome(deal, w, one));
    second := new Recovery.Store(w, deal, token);
    var _ := second.Restore(other, Outcome(deal, w, other));
    SameStoreIs(first.World(), second.World(), Outcome(deal, w, one), Outcome(deal, w, other));
  }

  /** Two users who tag one game at the same time. */
  lemma TwoTagsDiffer(tags: set<Tag>, a: TagEdit, b: TagEdit)
    requires a.operation == AddTag && b.operation == AddTag && (a.user != b.user || a.text != b.text)
    ensures Edited(tags, a) == Edited(tags, b) <==> Tag(a.user, a.text) in tags && Tag(b.user, b.text) in tags
  {
    var x, y := Tag(a.user, a.text), Tag(b.user, b.text);
    assert x in Edited(tags, a) && (x in Edited(tags, b) <==> x in tags);
    assert y in Edited(tags, b) && (y in Edited(tags, a) <==> y in tags);
  }

  const REVIEWED := Snapshot(FORMAT, 1, 1, "game", [Player(7, "a"), Player(8, "b")], "seed", 0, Some(0),
                             Model.Game.Game(OPTIONS, ["a", "b"], [Character(-1, false, 0), Character(-1, false, 0)], [Card(0, 1)], 0, [],
                                  0, 0, 1, false, 0, true),
                             [0, 0], 0, 0, true, 0, -1, [false, false], [[""], [""]], map[], {}, [false, false], false)

  /** A review of the game, in which one of its players has added a tag that is not in the archive yet. */
  function Tagging(id: int, user: int, text: string): Model.Table {
    Model.Table.Table(FORMAT, id, "review", 7, true, OPTIONS, 5, false, Replay(REVIEWED.(tableId := id), Controls(7, 0, [], None)),
                      [], 0, map[], None, false, Some(TagEdit(1, user, AddTag, text)))
  }

  const ROW := Row(GameRow("game", 2, 0, 0, false, 0, 0, [], "seed", 0, 0, 1, 0, 0), [], [], [], None)

  const TAGGING := World(map[1 := Stored(1, Tagging(1, 7, "x")), 2 := Stored(1, Tagging(2, 8, "y"))],
                         map[], map[], map[1 := ROW], map[1 := {}])

  lemma ReviewedIsValid(id: int)
    requires 0 < id <= MAX_SAFE
    ensures SnapshotValid(REVIEWED.(tableId := id))
  {
    assert |REVIEWED.notes[0]| == |REVIEWED.notes[1]| == 1;
  }

  lemma TaggingStorable(id: int, user: int, text: string)
    requires 0 < id <= MAX_SAFE && 0 < user && |text| <= 100
    ensures Storable(Tagging(id, user, text))
  {
    hide MetaValid, ShadowsValid, PlayersValid, ChatValid, PhaseValid, TagValid;
    TaggingPhase(id, user, text);
    TaggingRoster(id, user, text);
    assert SelfValid(Tagging(id, user, text));
  }

  lemma TaggingPhase(id: int, user: int, text: string)
    requires 0 < id <= MAX_SAFE && 0 < user && |text| <= 100
    ensures PhaseValid(Tagging(id, user, text)) && TagValid(Tagging(id, user, text))
  {
    hide SnapshotValid;
    ReviewedIsValid(id);
  }

  lemma TaggingRoster(id: int, user: int, text: string)
    requires 0 < id <= MAX_SAFE
    ensures var t := Tagging(id, user, text); MetaValid(t) && ShadowsValid(t) && PlayersValid(t) && ChatValid(t)
  {}

  /** Nothing but its tag waits in such a review. */
  lemma TaggingIs(id: int, user: int, text: string)
    ensures var t := Tagging(id, user, text);
            && Unarchived(t) == [] && ToComplete(t).None? && t.spawn.None? && !t.retire && t.id == id
            && t.tag == Some(TagEdit(1, user, AddTag, text))
  {}

  lemma TaggingTables()
    ensures forall id :: id in TAGGING.tables <==> id == 1 || id == 2
    ensures TAGGING.tables[1] == Stored(1, Tagging(1, 7, "x")) && TAGGING.tables[2] == Stored(1, Tagging(2, 8, "y"))
    ensures Destinations(TAGGING) == {} && TAGGING.tables.Keys == {1, 2}
  {
    hide Storable;
    TaggingIs(1, 7, "x");
    TaggingIs(2, 8, "y");
  }

  lemma TaggingIsWellFormed(deal: Dealer)
    ensures WellFormed(deal, TAGGING) && ReviewsStay(TAGGING)
  {
    hide JournalsWell, ChatWell, GamesWell, Destinations, Tagging;
    TaggingIs(1, 7, "x");
    TaggingIs(2, 8, "y");
    TaggingTables();
    TaggingJournals();
    TaggingArchive(deal);
    assert TAGGING.tables.Keys + Destinations(TAGGING) == {1, 2};
  }

  lemma TaggingJournals()
    ensures JournalsWell(TAGGING)
  {
    hide Storable, Tagging, Quiet;
    TaggingStorable(1, 7, "x");
    TaggingStorable(2, 8, "y");
    TaggingIs(1, 7, "x");
    TaggingIs(2, 8, "y");
    TaggingTables();
  }

  lemma TaggingArchive(deal: Dealer)
    ensures ChatWell(TAGGING) && GamesWell(deal, TAGGING)
  {
    hide Unarchived, ToComplete, Tagging, Fits, Insertable, Matches, Completed;
    TaggingIs(1, 7, "x");
    TaggingIs(2, 8, "y");
    TaggingTables();
  }

  lemma TaggingWaits()
    ensures ListingOf(TAGGING.tables, [1, 2]) && ListingOf(TAGGING.tables, [2, 1])
    ensures PairWaits(TAGGING, [1, 2], 1, 2, 1) && PairWaits(TAGGING, [2, 1], 2, 1, 1)
    ensures TAGGING.tables[1].table.tag == Some(TagEdit(1, 7, AddTag, "x"))
    ensures TAGGING.tables[2].table.tag == Some(TagEdit(1, 8, AddTag, "y"))
  {
    hide Tagging;
    TaggingIs(1, 7, "x");
    TaggingIs(2, 8, "y");
    TaggingTables();
    assert [1, 2][0] == 1 && [1, 2][1] == 2 && [2, 1][0] == 2 && [2, 1][1] == 1;
  }

  /** Two reviews of one game, each with a tag of its own: the two orders leave different stores. */
  method TwoTagsRecovered(deal: Dealer, token: nat) returns (first: Recovery.Store, second: Recovery.Store)
    ensures AllQuiet(first.World()) && AllQuiet(second.World()) && !SameStore(first.World(), second.World())
  {
    hide WellFormed, AllQuiet, SameStore, PairWaits, ReviewsStay, ListingOf;
    TaggingIsWellFormed(deal);
    TaggingWaits();
    first, second := OrderOfEditsMatters(TAGGING, deal, token, [1, 2], [2, 1], 1, 2, 1);
    TwoTagsDiffer({}, TagEdit(1, 7, AddTag, "x"), TagEdit(1, 8, AddTag, "y"));
  }

  // ---------------------------------------------------------------------------------------------
  // A journalled table with chat that is not archived.

  /** Nothing but chat waits in the table. */
  predicate AtMostChat(d: Table) {
    d.tag.None? && d.spawn.None? && !d.retire && !Finished(d)
  }

  /** A source whose journal is all that waits, and the table it holds, stored as it was journalled. */
  predicate StoredAsJournalled(w: World, source: int, id: int) {
    && source in w.tables && id in w.tables && w.tables[source].table.id == source && w.tables[id].table.id == id
    && JournalOnly(w.tables[source].table) && Storable(w.tables[source].table)
    && w.tables[source].table.spawn.value == w.tables[id].table
    && AtMostChat(w.tables[id].table) && Storable(w.tables[id].table)
  }

  /**
   The journalled table is recovered before its source. If that succeeds, the source can be recovered
   if and only if the journalled table had no chat to archive: otherwise it changed, and no longer is
   what the journal says. No command of the server journals a table with chat to archive.
   */
  method DestinationFirst(w: World, deal: Dealer, token: nat, source: int, id: int) returns (destination: bool, handedOver: bool)
    requires StoredAsJournalled(w, source, id)
    ensures destination <==> Filed(w.chat, Unarchived(w.tables[id].table)).Some?
    ensures destination ==> (handedOver <==> Unarchived(w.tables[id].table) == [])
  {
    hide Storable, Filed, Finished, OthersKept;
    var t, d := w.tables[source].table, w.tables[id].table;
    ghost var g := Goal(map[], map[], map[], map[], map[], map[], {}, false);
    JournalIsAnother(t, d);
    ChatAtMost(d);
    SourceFree(t);
    var store := new Recovery.Store(w, deal, token);
    var spawned;
    destination, spawned := store.RestoreTable(id, g);
    handedOver := false;
    if destination {
      OnlyThat(w.tables, store.tables, source, id, spawned);
      handedOver, spawned := store.RestoreTable(source, g);
    }
  }

  /** The other way round both are recovered, the destination after its source. */
  method SourceFirst(w: World, deal: Dealer, token: nat, source: int, id: int) returns (handedOver: bool, destination: bool)
    requires StoredAsJournalled(w, source, id)
    ensures handedOver && (destination <==> Filed(w.chat, Unarchived(w.tables[id].table)).Some?)
  {
    hide Storable, Filed, Finished, OthersKept, Unarchived;
    var t, d := w.tables[source].table, w.tables[id].table;
    ghost var g := Goal(map[], map[], map[], map[], map[], map[], {}, false);
    JournalIsAnother(t, d);
    ChatAtMost(d);
    SourceFree(t);
    var store := new Recovery.Store(w, deal, token);
    var spawned;
    handedOver, spawned := store.RestoreTable(source, g);
    OnlyThat(w.tables, store.tables, id, source, spawned);
    destination, spawned := store.RestoreTable(id, g);
  }

  lemma JournalIsAnother(t: Table, d: Table)
    requires t.spawn == Some(d) && Storable(t)
    ensures d.id != t.id
  {}

  lemma ChatAtMost(d: Table)
    requires AtMostChat(d) && Storable(d)
    ensures if Unarchived(d) == [] then Quiet(d) else WaitsForChatOnly(d) && ChatDone(d) != d
    ensures Storable(ChatDone(d)) && forall rows: map<int, Message> :: Filed(rows, []) == Some(rows)
  {
    hide Storable;
    StorableArchived(d);
    ChatDoneStorable(d);
  }

  lemma SourceFree(t: Table)
    requires Storable(t)
    ensures t.retire || Storable(JournalDone(t))
  {
    hide Storable;
    if !t.retire {
      JournalDoneStorable(t);
    }
  }

  lemma OnlyThat(before: map<int, Stored>, after: map<int, Stored>, other: int, id: int, spawned: Option<int>)
    requires OthersKept(before, after, id, spawned) && other in before && other != id
    ensures other in after && after[other] == before[other]
  {}

  const OPTIONS := Options(2, 0, 0, false, 0.0, 0, [])

  const DESTINATION := Model.Table.Table(FORMAT, 2, "new", 7, true, OPTIONS, 5, false, Pregame([Player(7, "a"), Player(8, "b")], None, None, []),
                             [Chat(Some(1), 7, "hello")], 0, map[], None, false, None)

  const SOURCE := Model.Table.Table(FORMAT, 1, "old", 7, true, OPTIONS, 5, false, Pregame([], None, None, []),
                        [], 0, map[], Some(DESTINATION), true, None)

  const WAITING := World(map[1 := Stored(3, SOURCE), 2 := Stored(1, DESTINATION)], map[], map[], map[], map[])

  lemma WaitingIsStored()
    ensures StoredAsJournalled(WAITING, 1, 2) && Unarchived(DESTINATION) != []
    ensures Filed(map[], Unarchived(DESTINATION)).Some?
  {
    var roster := DESTINATION.phase.roster;
    assert roster[0].id == 7;
    Roster.SeatedAt(roster, 0);
    assert SelfValid(DESTINATION) && SelfValid(SOURCE);
    assert Unarchived(DESTINATION) == DESTINATION.chat;
    var rest := DESTINATION.chat[1..];
    assert rest == [];
  }

  /** A table that is handed over with one message still to be archived, recovered before its source. */
  method HandoverConflicts(deal: Dealer, token: nat) returns (destination: bool, handedOver: bool)
    ensures destination && !handedOver
  {
    hide StoredAsJournalled, Filed, Unarchived;
    WaitingIsStored();
    destination, handedOver := DestinationFirst(WAITING, deal, token, 1, 2);
  }
}
