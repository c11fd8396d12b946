/**
 What a store amounts to when it lists its tables in a given order: edits of one game that wait in several
 tables are made one after the other, and each review keeps the tags that the game has at that moment.
 */
module Ordering {
  import opened Common
  import opened Model
  import opened Archive
  import opened Redis
  import opened Settling
  import opened Recovery

  /** Every edit that waits is of a game that is stored. */
  ghost predicate KnownEdits(w: World) {
    forall id, k {:trigger Edits(w, id, k)} :: Edits(w, id, k) ==> k in w.games && k in w.tags
  }

  /** Whether any two waiting edits of one game do the same to its tags. */
  ghost predicate SameEffects(w: World) {
    forall a, b, k {:trigger Edits(w, a, k), Edits(w, b, k)} :: Edits(w, a, k) && Edits(w, b, k) && k in w.tags ==>
      EditedBy(w, a, w.tags[k]) == EditedBy(w, b, w.tags[k])
  }

  ghost function Place(listing: seq<int>, id: int): (i: int)
    requires id in listing
    ensures 0 <= i < |listing| && listing[i] == id
  {
    var i :| 0 <= i < |listing| && listing[i] == id;
    i
  }

  /** The tags of a game after the edits in the first tables of the listing. */
  function TagsBefore(w: World, listing: seq<int>, k: int, n: nat): set<Tag>
    requires n <= |listing| && k in w.tags
  {
    if n == 0 then w.tags[k]
    else
      var tags := TagsBefore(w, listing, k, n - 1);
      if Edits(w, listing[n - 1], k) then EditedBy(w, listing[n - 1], tags) else tags
  }

  predicate Reviews(w: World, id: int) {
    id in w.tables && w.tables[id].table.tag.Some?
  }

  ghost function Reviewed(w: World, listing: seq<int>, id: int): set<Tag>
    requires Reviews(w, id) && id in listing && w.tables[id].table.tag.value.gameId in w.tags
  {
    TagsBefore(w, listing, w.tables[id].table.tag.value.gameId, Place(listing, id) + 1)
  }

  ghost function EditedGames(w: World): set<int> {
    set id | id in w.tables && w.tables[id].table.tag.Some? :: w.tables[id].table.tag.value.gameId
  }

  ghost predicate Listable(w: World, listing: seq<int>) {
    KnownEdits(w) && ListingOf(w.tables, listing)
  }

  ghost function ReviewsIn(w: World, g: Goal, listing: seq<int>): map<int, set<Tag>>
    requires Listable(w, listing)
  {
    map id | id in g.reviews.Keys + w.tables.Keys && (id in g.reviews || Reviews(w, id)) ::
      if Reviews(w, id) then (assert Edits(w, id, w.tables[id].table.tag.value.gameId); Reviewed(w, listing, id)) else g.reviews[id]
  }

  ghost function TagsIn(w: World, g: Goal, listing: seq<int>): map<int, set<Tag>> {
    map k | k in g.tags :: if EditPending(w, k) && k in w.tags then TagsBefore(w, listing, k, |listing|) else g.tags[k]
  }

  /** The goal with its edits made in the order of the listing. */
  ghost function Ordered(w: World, g: Goal, listing: seq<int>): Goal
    requires Listable(w, listing)
  {
    var h := g.(tags := TagsIn(w, g, listing), reviews := ReviewsIn(w, g, listing),
                places := map id | id in listing :: Place(listing, id),
                edited := g.edited + EditedGames(w), anyOrder := SameEffects(w));
    h.(tables := map id | id in g.tables :: if id in w.tables then Final(w.tables[id].table, h) else g.tables[id])
  }

  lemma OrderedIs(w: World, g: Goal, listing: seq<int>)
    requires Listable(w, listing)
    ensures var h := Ordered(w, g, listing);
            && h.chat == g.chat && h.games == g.games && h.tags.Keys == g.tags.Keys && h.tables.Keys == g.tables.Keys
            && h.anyOrder == SameEffects(w) && h.edited == g.edited + EditedGames(w)
            && (forall id {:trigger id in h.places} :: id in h.places <==> id in listing)
            && (forall id {:trigger h.places[id]} :: id in listing ==> h.places[id] == Place(listing, id))
            && (forall id {:trigger h.tables[id]} :: id in g.tables ==>
                  h.tables[id] == if id in w.tables then Final(w.tables[id].table, h) else g.tables[id])
            && (forall id {:trigger id in h.reviews} :: id in h.reviews <==> id in g.reviews || Reviews(w, id))
            && (forall id {:trigger h.reviews[id]} :: id in g.reviews && !Reviews(w, id) ==> h.reviews[id] == g.reviews[id])
            && (forall k {:trigger h.tags[k]} :: k in g.tags && !(EditPending(w, k) && k in w.tags) ==> h.tags[k] == g.tags[k])
  {
    hide Final, TagsOf, TagsBefore, Reviewed, EditPending, Listable, SameEffects;
    var h := Ordered(w, g, listing);
    var before := h.(tables := g.tables);
    forall id | id in g.tables && id in w.tables
      ensures h.tables[id] == Final(w.tables[id].table, h)
    {
      FinalNeedsTags(w.tables[id].table, g.(tags := h.tags, reviews := h.reviews, places := h.places,
                                            edited := h.edited, anyOrder := h.anyOrder), h);
    }
    SameNumbers(h.tags.Keys, g.tags.Keys);
    SameNumbers(h.tables.Keys, g.tables.Keys);
  }

  lemma OrderedEdits(w: World, g: Goal, listing: seq<int>, id: int, k: int)
    requires Listable(w, listing) && Edits(w, id, k)
    ensures id in listing && k in w.games && k in w.tags
    ensures var h := Ordered(w, g, listing);
            && id in h.places && id in h.reviews && k in h.edited
            && h.reviews[id] == TagsBefore(w, listing, k, Place(listing, id) + 1)
            && (k in g.tags ==> k in h.tags && h.tags[k] == TagsBefore(w, listing, k, |listing|))
  {
    hide Final, TagsBefore, Place, SameEffects;
    assert EditOf(w.tables[id].table) == Some(k);
  }

  // ---------------------------------------------------------------------------------------------
  // The chain of edits.

  /** Where no edit waits, the tags stay. */
  lemma {:induction false} Gap(w: World, listing: seq<int>, k: int, m: nat, n: nat)
    requires m <= n <= |listing| && k in w.tags
    requires forall i {:trigger listing[i]} :: m <= i < n ==> !Edits(w, listing[i], k)
    ensures TagsBefore(w, listing, k, n) == TagsBefore(w, listing, k, m)
  {
    if m < n {
      Gap(w, listing, k, m, n - 1);
    }
  }

  /** When all waiting edits do the same, that is what the tags are from the first one on. */
  lemma {:induction false} Alike(w: World, listing: seq<int>, k: int, a: int, n: nat)
    requires SameEffects(w) && Edits(w, a, k) && k in w.tags && n <= |listing|
    ensures TagsBefore(w, listing, k, n) == w.tags[k] || TagsBefore(w, listing, k, n) == EditedBy(w, a, w.tags[k])
    ensures a in listing[..n] ==> TagsBefore(w, listing, k, n) == EditedBy(w, a, w.tags[k])
  {
    hide Edited;
    if n > 0 {
      Alike(w, listing, k, a, n - 1);
      assert listing[..n] == listing[..n - 1] + [listing[n - 1]];
      var b := listing[n - 1];
      if Edits(w, b, k) {
        assert EditedBy(w, a, w.tags[k]) == EditedBy(w, b, w.tags[k]);
        EditingTwice(w.tags[k], w.tables[b].table.tag.value);
      }
    }
  }

  lemma PlaceIs(listing: seq<int>, i: nat)
    requires i < |listing| && forall i, j {:trigger listing[i], listing[j]} :: 0 <= i < j < |listing| ==> listing[i] != listing[j]
    ensures Place(listing, listing[i]) == i
  {
    var j := Place(listing, listing[i]);
    assert listing[j] == listing[i];
  }

  lemma PrecedesByPlace(w: World, g: Goal, listing: seq<int>, a: int, b: int)
    requires Listable(w, listing) && a in listing && b in listing && a != b
    ensures var h := Ordered(w, g, listing);
            && (Precedes(h, a, b) <==> Place(listing, a) < Place(listing, b))
            && (Precedes(h, a, b) || Precedes(h, b, a))
  {
    hide Ordered, Place, Listable;
    OrderedIs(w, g, listing);
  }

  lemma FirstOrdered(w: World, g: Goal, listing: seq<int>, a: int, k: int)
    requires Listable(w, listing) && FirstEdit(w, Ordered(w, g, listing), a, k)
    ensures k in w.tags && a in Ordered(w, g, listing).reviews
    ensures Ordered(w, g, listing).reviews[a] == EditedBy(w, a, w.tags[k])
  {
    hide Ordered, Place, Edited, KnownEdits, SameEffects;
    OrderedEdits(w, g, listing, a, k);
    var p := Place(listing, a);
    forall i {:trigger listing[i]} | 0 <= i < p
      ensures !Edits(w, listing[i], k)
    {
      PlaceIs(listing, i);
      PlaceIs(listing, p);
      PrecedesByPlace(w, g, listing, a, listing[i]);
    }
    Gap(w, listing, k, 0, p);
  }

  lemma NextOrdered(w: World, g: Goal, listing: seq<int>, a: int, b: int, k: int)
    requires Listable(w, listing) && NextEdit(w, Ordered(w, g, listing), a, b, k)
    ensures a in Ordered(w, g, listing).reviews && b in Ordered(w, g, listing).reviews
    ensures Ordered(w, g, listing).reviews[b] == EditedBy(w, b, Ordered(w, g, listing).reviews[a])
  {
    hide Ordered, Place, Edited, KnownEdits, SameEffects;
    OrderedEdits(w, g, listing, a, k);
    OrderedEdits(w, g, listing, b, k);
    var p, q := Place(listing, a), Place(listing, b);
    assert a != b;
    PrecedesByPlace(w, g, listing, a, b);
    forall i {:trigger listing[i]} | p < i < q
      ensures !Edits(w, listing[i], k)
    {
      PlaceIs(listing, i);
      PlaceIs(listing, p);
      PlaceIs(listing, q);
      PrecedesByPlace(w, g, listing, listing[i], a);
      PrecedesByPlace(w, g, listing, b, listing[i]);
    }
    Gap(w, listing, k, p + 1, q);
  }

  lemma LastOrdered(w: World, g: Goal, listing: seq<int>, a: int, k: int)
    requires Listable(w, listing) && LastEdit(w, Ordered(w, g, listing), a, k) && k in g.tags
    ensures a in Ordered(w, g, listing).reviews && k in Ordered(w, g, listing).tags
    ensures Ordered(w, g, listing).tags[k] == Ordered(w, g, listing).reviews[a]
  {
    hide Ordered, Place, Edited, KnownEdits, SameEffects;
    OrderedEdits(w, g, listing, a, k);
    var p := Place(listing, a);
    forall i {:trigger listing[i]} | p < i < |listing|
      ensures !Edits(w, listing[i], k)
    {
      PlaceIs(listing, i);
      PlaceIs(listing, p);
      PrecedesByPlace(w, g, listing, listing[i], a);
    }
    Gap(w, listing, k, p + 1, |listing|);
  }

  lemma AlikeOrdered(w: World, g: Goal, listing: seq<int>, a: int, k: int)
    requires Listable(w, listing) && SameEffects(w) && Edits(w, a, k) && k in g.tags
    ensures var h := Ordered(w, g, listing);
            && k in w.tags && k in h.tags && a in h.reviews
            && h.tags[k] == h.reviews[a] && h.reviews[a] == EditedBy(w, a, w.tags[k])
  {
    hide Ordered, Place, Edited, SameEffects, KnownEdits, ListingOf;
    OrderedEdits(w, g, listing, a, k);
    var p := Place(listing, a);
    assert listing[..p + 1][p] == a;
    Alike(w, listing, k, a, p + 1);
    assert listing[..|listing|] == listing;
    Alike(w, listing, k, a, |listing|);
  }

  lemma TagsOrdered(w: World, g: Goal, listing: seq<int>)
    requires Listable(w, listing)
    requires forall k :: k in w.games ==> k in g.tags
    requires forall k {:trigger w.tags[k]} :: k in w.tags && k in g.tags && !EditPending(w, k) ==> g.tags[k] == w.tags[k]
    ensures TagsSettle(w, Ordered(w, g, listing))
  {
    hide Ordered, Edited, FirstEdit, NextEdit, LastEdit, EditedBy, Precedes, SameEffects, EditPending;
    var h := Ordered(w, g, listing);
    OrderedIs(w, g, listing);
    forall id, k {:trigger Edits(w, id, k)} | Edits(w, id, k)
      ensures k in w.games && k in w.tags && k in h.tags && k in h.edited && id in h.reviews && id in h.places
      ensures h.anyOrder ==> h.tags[k] == h.reviews[id] && h.reviews[id] == EditedBy(w, id, w.tags[k])
    {
      OrderedEdits(w, g, listing, id, k);
      if h.anyOrder {
        AlikeOrdered(w, g, listing, id, k);
      }
    }
    forall a, b, k {:trigger Edits(w, a, k), Edits(w, b, k)} | Edits(w, a, k) && Edits(w, b, k) && a != b
      ensures Precedes(h, a, b) || Precedes(h, b, a)
    {
      PrecedesByPlace(w, g, listing, a, b);
    }
    forall a, k {:trigger FirstEdit(w, h, a, k)} | FirstEdit(w, h, a, k)
      ensures k in w.tags && a in h.reviews && h.reviews[a] == EditedBy(w, a, w.tags[k])
    {
      FirstOrdered(w, g, listing, a, k);
    }
    forall a, b, k {:trigger NextEdit(w, h, a, b, k)} | NextEdit(w, h, a, b, k)
      ensures a in h.reviews && b in h.reviews && h.reviews[b] == EditedBy(w, b, h.reviews[a])
    {
      NextOrdered(w, g, listing, a, b, k);
    }
    forall a, k {:trigger LastEdit(w, h, a, k)} | LastEdit(w, h, a, k)
      ensures a in h.reviews && k in h.tags && h.tags[k] == h.reviews[a]
    {
      LastWaits(w, h, a, k);
      LastOrdered(w, g, listing, a, k);
    }
  }

  lemma LastWaits(w: World, g: Goal, a: int, k: int)
    requires LastEdit(w, g, a, k)
    ensures Edits(w, a, k)
  {}

  // ---------------------------------------------------------------------------------------------
  // A store amounts to something in every order.

  lemma TablesOrdered(w: World, g: Goal, listing: seq<int>)
    requires Listable(w, listing) && TablesSettle(w, g)
    ensures TablesSettle(w, Ordered(w, g, listing))
  {
    hide Ordered, Storable, Final, Quiet, Listable;
    var h := Ordered(w, g, listing);
    OrderedIs(w, g, listing);
    forall id {:trigger w.tables[id]} | id in w.tables
      ensures var t := w.tables[id].table;
              && t.id == id && Storable(t) && w.tables[id].revision >= 1
              && (t.retire <==> id !in h.tables)
              && (!t.retire ==> h.tables[id] == Final(t, h))
              && (t.spawn.Some? ==> JournalSettles(w, h, t.spawn.value))
    {
      var t := w.tables[id].table;
      assert t.retire <==> id !in g.tables;
      if t.spawn.Some? {
        JournalOrdered(w, g, listing, id);
      }
    }
    forall id {:trigger id in h.tables} | id in h.tables
      ensures id in w.tables || Journalled(w, id)
    {
      assert id in g.tables;
    }
  }

  lemma JournalOrdered(w: World, g: Goal, listing: seq<int>, id: int)
    requires Listable(w, listing) && TablesSettle(w, g) && id in w.tables && w.tables[id].table.spawn.Some?
    ensures JournalSettles(w, Ordered(w, g, listing), w.tables[id].table.spawn.value)
  {
    hide Ordered, Final, Quiet, Listable, Storable;
    var h, d := Ordered(w, g, listing), w.tables[id].table.spawn.value;
    OrderedIs(w, g, listing);
    JournalOfSource(w, g, id);
    assert d.id in g.tables && d.id in h.tables;
    if d.id in w.tables {
      StorableArchived(w.tables[d.id].table);
      QuietFinal(d, h);
    }
  }

  lemma GamesOrdered(deal: Dealer, w: World, g: Goal, h: Goal)
    requires GamesSettle(deal, w, g) && h.games == g.games && h.tags.Keys == g.tags.Keys
    requires forall k {:trigger h.tags[k]} :: k in g.tags && k !in w.tags ==> h.tags[k] == g.tags[k]
    ensures GamesSettle(deal, w, h)
  {
    hide ToComplete, Completed, Fits, Insertable, Matches, RowOf, Unstored;
    forall id {:trigger w.tables[id]} | id in w.tables && ToComplete(w.tables[id].table).Some?
      ensures GameSettles(deal, w, h, ToComplete(w.tables[id].table).value)
    {
      var s := ToComplete(w.tables[id].table).value;
      assert GameSettles(deal, w, g, s);
      assert s.gameId in w.tags.Keys <==> s.gameId in w.games.Keys;
      assert s.gameId in g.tags.Keys <==> s.gameId in h.tags.Keys;
    }
  }

  /** Apart from the tags, what a store amounts to does not depend on the order. */
  lemma OrderedSettles(deal: Dealer, w: World, g: Goal, listing: seq<int>)
    requires TablesSettle(w, g) && ChatSettles(w, g) && GamesSettle(deal, w, g) && RoomSettles(w, g)
    requires KnownEdits(w) && ListingOf(w.tables, listing)
    requires forall k {:trigger w.tags[k]} :: k in w.tags && k in g.tags && !EditPending(w, k) ==> g.tags[k] == w.tags[k]
    ensures Settles(deal, w, Ordered(w, g, listing)) && InOrder(w.tables, listing, Ordered(w, g, listing))
  {
    hide Ordered, TablesSettle, ChatSettles, GamesSettle, TagsSettle, RoomSettles, KnownEdits, ListingOf, EditPending, InOrder, SameEffects;
    var h := Ordered(w, g, listing);
    OrderedIs(w, g, listing);
    TablesOrdered(w, g, listing);
    RestOrdered(w, g, h);
    GamesOrdered(deal, w, g, h);
    StoredTags(deal, w, g);
    TagsOrdered(w, g, listing);
    OrderedInOrder(w, g, listing);
  }

  lemma RestOrdered(w: World, g: Goal, h: Goal)
    requires ChatSettles(w, g) && RoomSettles(w, g) && h.chat == g.chat && h.tables.Keys == g.tables.Keys
    ensures ChatSettles(w, h) && RoomSettles(w, h)
  {
    hide Unarchived, Unfiled;
  }

  lemma StoredTags(deal: Dealer, w: World, g: Goal)
    requires GamesSettle(deal, w, g)
    ensures forall k :: k in w.games ==> k in g.tags
  {
    hide GameSettles, Unstored, ToComplete;
    forall k | k in w.games
      ensures k in g.tags
    {
      assert k in g.games.Keys;
    }
  }

  lemma OrderedInOrder(w: World, g: Goal, listing: seq<int>)
    requires Listable(w, listing)
    ensures InOrder(w.tables, listing, Ordered(w, g, listing))
  {
    hide Ordered, Place, KnownEdits, Precedes, SameEffects;
    var h := Ordered(w, g, listing);
    forall i, j {:trigger listing[i], listing[j]} | 0 <= i < j < |listing|
      ensures Precedes(h, listing[i], listing[j])
    {
      PlaceIs(listing, i);
      PlaceIs(listing, j);
      PrecedesByPlace(w, g, listing, listing[i], listing[j]);
    }
  }

  /** The same store, whatever order it is listed in from now on. */
  lemma Relisted(deal: Dealer, w: World, g: Goal, listing: seq<int>)
    requires Settles(deal, w, g) && ListingOf(w.tables, listing)
    ensures KnownEdits(w)
    ensures var h := Ordered(w, g, listing);
            && Settles(deal, w, h) && InOrder(w.tables, listing, h) && SameButEdits(g, h)
            && (g.anyOrder ==> h.anyOrder && SameResult(g, h))
  {
    hide TablesSettle, ChatSettles, GamesSettle, RoomSettles, ListingOf, Ordered, SameButEdits, InOrder, SameResult;
    EditsKnown(w, g);
    OrderedSettles(deal, w, g, listing);
    OrderedAlike(w, g, listing);
    if g.anyOrder {
      AlikeAgain(deal, w, g, listing);
    }
  }

  lemma EditsKnown(w: World, g: Goal)
    requires TagsSettle(w, g)
    ensures KnownEdits(w) && (g.anyOrder ==> SameEffects(w))
    ensures forall k {:trigger w.tags[k]} :: k in w.tags && k in g.tags && !EditPending(w, k) ==> g.tags[k] == w.tags[k]
    ensures forall id :: Reviews(w, id) ==> id in g.reviews
    ensures forall k :: EditPending(w, k) ==> k in g.edited
  {
    hide Edited, FirstEdit, NextEdit, LastEdit;
    forall id | Reviews(w, id)
      ensures id in g.reviews
    {
      assert Edits(w, id, w.tables[id].table.tag.value.gameId);
    }
    forall k | EditPending(w, k)
      ensures k in g.edited
    {
      var id :| id in w.tables && EditOf(w.tables[id].table) == Some(k);
      assert Edits(w, id, k);
    }
  }

  // ---------------------------------------------------------------------------------------------
  // What two orders have in common.

  function Untagged(t: Table): Table {
    if GameOf(t).Some? then WithGame(t, GameOf(t).value.(tags := {})) else t
  }

  /** The same up to the tags of edited games and of their reviews. */
  ghost predicate SameButEdits(g: Goal, h: Goal) {
    && h.chat == g.chat && h.games == g.games && h.tags.Keys == g.tags.Keys && h.tables.Keys == g.tables.Keys
    && (forall k :: k in h.edited <==> k in g.edited)
    && (forall id {:trigger id in h.reviews} :: id in h.reviews <==> id in g.reviews)
    && (forall k {:trigger h.tags[k]} :: k in g.tags && k !in g.edited ==> h.tags[k] == g.tags[k])
    && (forall id {:trigger h.tables[id]} :: id in g.tables ==>
          Untagged(h.tables[id]) == Untagged(g.tables[id]) && (id !in g.reviews ==> h.tables[id] == g.tables[id]))
  }

  /** What recovery leaves is the same. */
  predicate SameResult(g: Goal, h: Goal) {
    h.tables == g.tables && h.chat == g.chat && h.games == g.games && h.tags == g.tags
  }

  lemma SameButEditsTwice(f: Goal, g: Goal, h: Goal)
    requires SameButEdits(f, g) && SameButEdits(g, h)
    ensures SameButEdits(f, h)
  {
    hide Untagged;
  }

  lemma SameButNothing(g: Goal)
    ensures SameButEdits(g, g)
  {
    hide Untagged;
  }

  lemma OrderedAlike(w: World, g: Goal, listing: seq<int>)
    requires Listable(w, listing) && TagsSettle(w, g) && TablesSettle(w, g)
    ensures SameButEdits(g, Ordered(w, g, listing))
  {
    hide Ordered, Final, TagsSettle, TablesSettle, EditPending, Untagged, Listable, SameEffects;
    var h := Ordered(w, g, listing);
    OrderedIs(w, g, listing);
    EditsKnown(w, g);
    forall k | k in EditedGames(w)
      ensures k in g.edited
    {
      var id :| id in w.tables && w.tables[id].table.tag.Some? && w.tables[id].table.tag.value.gameId == k;
      WaitsIn(w, id, k);
    }
    forall id {:trigger h.tables[id]} | id in g.tables
      ensures Untagged(h.tables[id]) == Untagged(g.tables[id]) && (id !in g.reviews ==> h.tables[id] == g.tables[id])
    {
      if id in w.tables {
        AlikeTable(w, g, h, id);
      }
    }
  }

  lemma AlikeTable(w: World, g: Goal, h: Goal, id: int)
    requires TablesSettle(w, g) && id in w.tables && id in g.tables && (Reviews(w, id) ==> id in g.reviews)
    ensures Untagged(Final(w.tables[id].table, h)) == Untagged(g.tables[id])
    ensures id !in g.reviews ==> Final(w.tables[id].table, h) == g.tables[id]
  {
    hide Final, Storable, Quiet, JournalSettles, Untagged;
    var t := w.tables[id].table;
    assert !t.retire && g.tables[id] == Final(t, g);
    StorableTag(t);
    FinalAlike(t, g, h);
  }

  lemma WaitsIn(w: World, id: int, k: int)
    requires id in w.tables && EditOf(w.tables[id].table) == Some(k)
    ensures EditPending(w, k)
  {}

  lemma StorableTag(t: Table)
    requires Storable(t)
    ensures t.tag.Some? ==> t.phase.Replay?
  {}

  lemma FinalAlike(t: Table, g: Goal, h: Goal)
    requires t.tag.Some? ==> t.phase.Replay?
    ensures Untagged(Final(t, g)) == Untagged(Final(t, h))
    ensures t.tag.None? ==> Final(t, g) == Final(t, h)
  {}

  /** If any order will do, listing the store anew changes nothing of the result. */
  lemma AlikeAgain(deal: Dealer, w: World, g: Goal, listing: seq<int>)
    requires Settles(deal, w, g) && g.anyOrder && Listable(w, listing)
    requires Settles(deal, w, Ordered(w, g, listing))
    ensures Ordered(w, g, listing).anyOrder && SameResult(g, Ordered(w, g, listing))
  {
    hide ChatSettles, GamesSettle, RoomSettles, Ordered, TablesSettle, TagsSettle, Listable, SameEffects;
    EditsKnown(w, g);
    OrderedIs(w, g, listing);
    SameWhenAlike(w, g, Ordered(w, g, listing));
  }

  /** Two goals in which any order will do have the same result. */
  lemma SameWhenAlike(w: World, g: Goal, h: Goal)
    requires TablesSettle(w, g) && TagsSettle(w, g) && TablesSettle(w, h) && TagsSettle(w, h) && g.anyOrder && h.anyOrder
    requires h.tables.Keys == g.tables.Keys && h.tags.Keys == g.tags.Keys && h.chat == g.chat && h.games == g.games
    requires forall id {:trigger h.tables[id]} :: id in g.tables && id !in w.tables ==> h.tables[id] == g.tables[id]
    requires forall k {:trigger h.tags[k]} :: k in g.tags && !EditPending(w, k) ==> h.tags[k] == g.tags[k]
    ensures SameResult(g, h)
  {
    hide TablesSettle, TagsSettle, Final, EditPending;
    forall id {:trigger h.tables[id]} | id in g.tables
      ensures h.tables[id] == g.tables[id]
    {
      if id in w.tables {
        FinalSame(w, g, h, id);
      }
    }
    forall k {:trigger h.tags[k]} | k in g.tags
      ensures h.tags[k] == g.tags[k]
    {
      if EditPending(w, k) {
        TagsSame(w, g, h, k);
      }
    }
    assert forall id :: id in h.tables.Keys <==> id in g.tables.Keys;
    assert forall k :: k in h.tags.Keys <==> k in g.tags.Keys;
    SameByNumber(h.tables, g.tables);
    SameByNumber(h.tags, g.tags);
  }

  lemma TagsSame(w: World, g: Goal, h: Goal, k: int)
    requires TagsSettle(w, g) && TagsSettle(w, h) && g.anyOrder && h.anyOrder && EditPending(w, k)
    ensures k in g.tags && k in h.tags && h.tags[k] == g.tags[k]
  {
    hide FirstEdit, NextEdit, LastEdit, Edited;
    var id :| id in w.tables && EditOf(w.tables[id].table) == Some(k);
    assert Edits(w, id, k);
  }

  lemma FinalSame(w: World, g: Goal, h: Goal, id: int)
    requires TablesSettle(w, g) && TagsSettle(w, g) && TablesSettle(w, h) && TagsSettle(w, h) && g.anyOrder && h.anyOrder
    requires id in w.tables && id in g.tables && id in h.tables
    ensures h.tables[id] == g.tables[id]
  {
    hide FirstEdit, NextEdit, LastEdit, EditedBy, EditPending, Storable, Quiet, JournalSettles;
    var t := w.tables[id].table;
    assert t.id == id && g.tables[id] == Final(t, g) && h.tables[id] == Final(t, h);
    if t.tag.Some? {
      assert Edits(w, id, t.tag.value.gameId);
    }
  }
}
