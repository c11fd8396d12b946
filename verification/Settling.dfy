/**
 What the durable stores together stand for. An unfinished journal is as good as done: `Settles` says
 which tables, chat, games and tags a store amounts to once everything pending in it is completed.
 */
module Settling {
  import opened Common
  import opened Model
  import opened Archive
  import opened Redis

  datatype Stored = Stored(revision: int, table: Table)
  datatype Message = Message(user: int, content: string)

  /** Saved tables, identities that are only reserved (with the token that did), and the archive. */
  datatype World = World(
    tables: map<int, Stored>, reserved: map<int, nat>,
    chat: map<int, Message>, games: map<int, Row>, tags: map<int, set<Tag>>
  )

  /**
   What a store amounts to. Edits of one game that wait in several tables are made in the order of their
   places, unless any order will do; `edited` are these games, and `reviews` the tags that each of the
   tables ends with.
   */
  datatype Goal = Goal(
    tables: map<int, Table>, chat: map<int, Message>, games: map<int, Row>, tags: map<int, set<Tag>>,
    reviews: map<int, set<Tag>>, places: map<int, int>, edited: set<int>, anyOrder: bool
  )

  // What may be pending in a table.

  function Unarchived(t: Table): seq<Chat> {
    if t.archived <= |t.chat| then t.chat[t.archived..] else []
  }

  function ToComplete(t: Table): Option<Snapshot> {
    if Finished(t) && !t.noWrite && !t.retire then Some(t.phase.live) else None
  }

  predicate Quiet(t: Table) {
    t.tag.None? && Unarchived(t) == [] && t.spawn.None? && !t.retire && !Finished(t)
  }

  function Edited(tags: set<Tag>, edit: TagEdit): set<Tag> {
    match edit.operation
    case AddTag => tags + {Tag(edit.user, edit.text)}
    case DeleteTag => tags - {Tag(edit.user, edit.text)}
    case DeleteAllTags => set tag <- tags | tag.user != edit.user
    case UnknownOperation => tags
  }

  lemma EditingTwice(tags: set<Tag>, edit: TagEdit)
    ensures Edited(Edited(tags, edit), edit) == Edited(tags, edit)
  {}

  // Each part of finishing a table.

  function Tagged(t: Table, tags: set<Tag>): Table {
    if t.tag.Some? && GameOf(t).Some? then WithGame(t, GameOf(t).value.(tags := tags)).(tag := None)
    else t.(tag := None)
  }

  function TagsOf(g: Goal, t: Table): set<Tag> {
    if t.tag.Some? && t.id in g.reviews then g.reviews[t.id] else {}
  }

  function ChatDone(t: Table): Table {
    t.(archived := |t.chat|)
  }

  function JournalDone(t: Table): Table {
    t.(spawn := None, retire := false)
  }

  function GameDone(t: Table): Table {
    if Finished(t) then AsReplay(t) else t
  }

  function Final(t: Table, g: Goal): Table {
    GameDone(JournalDone(ChatDone(Tagged(t, TagsOf(g, t)))))
  }

  lemma FinalNeedsTags(t: Table, g: Goal, h: Goal)
    requires g.reviews == h.reviews
    ensures Final(t, g) == Final(t, h)
  {}

  // The stores settle to a goal, kind by kind.

  ghost predicate TablesSettle(w: World, g: Goal) {
    && (forall id {:trigger w.tables[id]} :: id in w.tables ==>
          var t := w.tables[id].table;
          && t.id == id && Storable(t) && w.tables[id].revision >= 1
          && (t.retire <==> id !in g.tables)
          && (!t.retire ==> g.tables[id] == Final(t, g))
          && (t.spawn.Some? ==> JournalSettles(w, g, t.spawn.value)))
    && (forall id {:trigger id in g.tables} :: id in g.tables ==> id in w.tables || Journalled(w, id))
  }

  /** A journalled table has nothing pending itself, and is stored as journalled if at all. */
  predicate JournalSettles(w: World, g: Goal, d: Table) {
    && Quiet(d) && d.id in g.tables && g.tables[d.id] == d
    && (d.id in w.tables ==> w.tables[d.id].table == d)
  }

  ghost predicate Journalled(w: World, id: int) {
    exists source {:trigger w.tables[source]} :: source in w.tables && JournalOf(w.tables[source].table) == Some(id)
  }

  function JournalOf(t: Table): Option<int> {
    if t.spawn.Some? then Some(t.spawn.value.id) else None
  }

  predicate FiledAs(rows: map<int, Message>, c: Chat) {
    c.id.Some? && c.id.value in rows && rows[c.id.value] == Message(c.user, c.content)
  }

  ghost predicate ChatSettles(w: World, g: Goal) {
    && (forall k {:trigger k in w.chat} {:trigger w.chat[k]} :: k in w.chat ==> k in g.chat && g.chat[k] == w.chat[k])
    && (forall id {:trigger w.tables[id]} :: id in w.tables ==> forall c <- Unarchived(w.tables[id].table) :: FiledAs(g.chat, c))
    && (forall k {:trigger k in g.chat} :: k in g.chat ==> k in w.chat || Unfiled(w, k))
  }

  ghost predicate Unfiled(w: World, k: int) {
    exists id {:trigger w.tables[id]} :: id in w.tables && HasChat(w.tables[id].table, k)
  }

  predicate HasChat(t: Table, k: int) {
    exists c <- Unarchived(t) :: c.id == Some(k)
  }

  ghost predicate GamesSettle(deal: Dealer, w: World, g: Goal) {
    && w.tags.Keys == w.games.Keys && g.tags.Keys == g.games.Keys
    && (forall k {:trigger k in w.games} {:trigger w.games[k]} :: k in w.games ==> k in g.games && g.games[k] == w.games[k])
    && (forall id {:trigger w.tables[id]} :: id in w.tables ==>
          (ToComplete(w.tables[id].table).Some? ==> GameSettles(deal, w, g, ToComplete(w.tables[id].table).value)))
    && (forall k {:trigger k in g.games} :: k in g.games ==> k in w.games || Unstored(w, k))
  }

  ghost predicate GameSettles(deal: Dealer, w: World, g: Goal, s: Snapshot) {
    && Completed(s) && s.finished.Some? && |s.players| == |s.game.characters|
    && Fits(s) && Insertable(deal, s)
    && s.gameId in g.games
    && (if s.gameId in w.games then Matches(deal, w.games[s.gameId], s)
        else s.gameId in g.tags && g.games[s.gameId] == RowOf(deal, s) && g.tags[s.gameId] == s.tags)
  }

  ghost predicate Unstored(w: World, k: int) {
    exists id {:trigger w.tables[id]} :: id in w.tables && GameIdOf(ToComplete(w.tables[id].table)) == Some(k)
  }

  function GameIdOf(s: Option<Snapshot>): Option<int> {
    if s.Some? then Some(s.value.gameId) else None
  }

  /** Whether an edit of the game waits in the table. */
  predicate Edits(w: World, id: int, k: int) {
    id in w.tables && EditOf(w.tables[id].table) == Some(k)
  }

  predicate Precedes(g: Goal, a: int, b: int) {
    a in g.places && b in g.places && g.places[a] < g.places[b]
  }

  ghost predicate FirstEdit(w: World, g: Goal, a: int, k: int) {
    Edits(w, a, k) && forall c {:trigger Edits(w, c, k)} :: Edits(w, c, k) && c != a ==> Precedes(g, a, c)
  }

  ghost predicate LastEdit(w: World, g: Goal, a: int, k: int) {
    Edits(w, a, k) && forall c {:trigger Edits(w, c, k)} :: Edits(w, c, k) && c != a ==> Precedes(g, c, a)
  }

  /** Whether the edit of the second table is the next one after that of the first. */
  ghost predicate NextEdit(w: World, g: Goal, a: int, b: int, k: int) {
    && Edits(w, a, k) && Edits(w, b, k) && Precedes(g, a, b)
    && forall c {:trigger Edits(w, c, k)} :: Edits(w, c, k) && c != a && c != b ==> Precedes(g, c, a) || Precedes(g, b, c)
  }

  /** What making a waiting edit does to tags. */
  function EditedBy(w: World, id: int, tags: set<Tag>): set<Tag> {
    if id in w.tables && w.tables[id].table.tag.Some? then Edited(tags, w.tables[id].table.tag.value) else tags
  }

  /** The waiting edits of each game, made one after the other, lead from its tags to those of the goal. */
  ghost predicate TagsSettle(w: World, g: Goal) {
    && (forall id, k {:trigger Edits(w, id, k)} :: Edits(w, id, k) ==>
          k in w.games && k in w.tags && k in g.tags && k in g.edited && id in g.reviews && id in g.places)
    && (forall a, b, k {:trigger Edits(w, a, k), Edits(w, b, k)} ::
          Edits(w, a, k) && Edits(w, b, k) && a != b ==> Precedes(g, a, b) || Precedes(g, b, a))
    && (forall a, k {:trigger FirstEdit(w, g, a, k)} :: FirstEdit(w, g, a, k) ==> g.reviews[a] == EditedBy(w, a, w.tags[k]))
    && (forall a, b, k {:trigger NextEdit(w, g, a, b, k)} :: NextEdit(w, g, a, b, k) ==> g.reviews[b] == EditedBy(w, b, g.reviews[a]))
    && (forall a, k {:trigger LastEdit(w, g, a, k)} :: LastEdit(w, g, a, k) ==> g.tags[k] == g.reviews[a])
    && (forall k {:trigger w.tags[k]} :: k in w.tags && k in g.tags && !EditPending(w, k) ==> g.tags[k] == w.tags[k])
    && (forall a, k {:trigger Edits(w, a, k)} :: Edits(w, a, k) && g.anyOrder ==>
          g.tags[k] == g.reviews[a] && g.reviews[a] == EditedBy(w, a, w.tags[k]))
  }

  /** The same edits wait in both stores. */
  ghost predicate SameEdits(w: World, after: World) {
    && (forall id, k {:trigger Edits(w, id, k)} {:trigger Edits(after, id, k)} :: Edits(w, id, k) <==> Edits(after, id, k))
    && (forall id, k {:trigger Edits(w, id, k)} :: Edits(w, id, k) ==> after.tables[id].table.tag == w.tables[id].table.tag)
  }

  /** Tags settle as before when neither the edits nor the tags of known games change. */
  lemma TagsKept(w: World, g: Goal, after: World)
    requires TagsSettle(w, g) && SameEdits(w, after)
    requires forall k :: k in w.games ==> k in after.games
    requires forall k {:trigger w.tags[k]} :: k in w.tags ==> k in after.tags && after.tags[k] == w.tags[k]
    requires forall k {:trigger after.tags[k]} :: k in after.tags && k !in w.tags && k in g.tags ==> g.tags[k] == after.tags[k]
    ensures TagsSettle(after, g)
  {
    hide Edited;
    forall a, k {:trigger FirstEdit(after, g, a, k)} | FirstEdit(after, g, a, k)
      ensures g.reviews[a] == EditedBy(after, a, after.tags[k])
    {
      assert FirstEdit(w, g, a, k);
    }
    forall a, b, k {:trigger NextEdit(after, g, a, b, k)} | NextEdit(after, g, a, b, k)
      ensures g.reviews[b] == EditedBy(after, b, g.reviews[a])
    {
      assert NextEdit(w, g, a, b, k);
    }
    forall a, k {:trigger LastEdit(after, g, a, k)} | LastEdit(after, g, a, k)
      ensures g.tags[k] == g.reviews[a]
    {
      assert LastEdit(w, g, a, k);
    }
    forall k {:trigger after.tags[k]} | k in after.tags && k in g.tags && !EditPending(after, k)
      ensures g.tags[k] == after.tags[k]
    {
      if k in w.tags {
        NoneWaits(after, w, k);
      }
    }
  }

  lemma NoneWaits(w: World, other: World, k: int)
    requires forall id {:trigger Edits(other, id, k)} :: Edits(other, id, k) ==> Edits(w, id, k)
    ensures EditPending(other, k) ==> EditPending(w, k)
  {
    if EditPending(other, k) {
      var id :| id in other.tables && EditOf(other.tables[id].table) == Some(k);
      assert Edits(other, id, k);
    }
  }

  ghost predicate EditPending(w: World, k: int) {
    exists id {:trigger w.tables[id]} :: id in w.tables && EditOf(w.tables[id].table) == Some(k)
  }

  function EditOf(t: Table): Option<int> {
    if t.tag.Some? then Some(t.tag.value.gameId) else None
  }

  /** There is room for every table that is and for every one that will be. */
  ghost predicate RoomSettles(w: World, g: Goal) {
    && w.reserved.Keys !! w.tables.Keys
    && |w.tables.Keys + g.tables.Keys| <= MAX_RECORDS
  }

  ghost predicate Settles(deal: Dealer, w: World, g: Goal) {
    && TablesSettle(w, g) && ChatSettles(w, g) && GamesSettle(deal, w, g) && TagsSettle(w, g) && RoomSettles(w, g)
  }

  // ---------------------------------------------------------------------------------------------
  // Writes that settle what was pending.

  function Put(w: World, id: int, revision: int, t: Table): World {
    w.(tables := w.tables[id := Stored(revision, t)], reserved := w.reserved - {id})
  }

  /** Whether a new checkpoint of a table drops only what is already done elsewhere. */
  ghost predicate Discharges(w: World, g: Goal, t: Table, next: Table) {
    && next.id == t.id && next.retire == t.retire && Final(next, g) == Final(t, g)
    && (Unarchived(next) == Unarchived(t)
        || (Unarchived(next) == [] && forall c <- Unarchived(t) :: c.id.Some? && c.id.value in w.chat))
    && (next.tag == t.tag
        || (next.tag.None? && FirstEdit(w, g, t.id, t.tag.value.gameId) && t.tag.value.gameId in w.tags
            && t.id in g.reviews && w.tags[t.tag.value.gameId] == g.reviews[t.id]))
    && (next.spawn == t.spawn
        || (next.spawn.None? && t.spawn.value.id in w.tables))
    && (ToComplete(next) == ToComplete(t)
        || (ToComplete(next).None? && ToComplete(t).value.gameId in w.games))
  }

  lemma PutTables(w: World, g: Goal, id: int, revision: int, next: Table)
    requires TablesSettle(w, g) && id in w.tables && Discharges(w, g, w.tables[id].table, next)
    requires Storable(next) && revision >= 1 && !Journalled(w, id)
    ensures TablesSettle(Put(w, id, revision, next), g)
  {
    hide Storable, Final, Unarchived, ToComplete, Quiet;
    var t := w.tables[id].table;
    var after := Put(w, id, revision, next);
    forall other {:trigger after.tables[other]} | other in after.tables
      ensures var u := after.tables[other].table;
              && u.id == other && Storable(u) && after.tables[other].revision >= 1
              && (u.retire <==> other !in g.tables)
              && (!u.retire ==> g.tables[other] == Final(u, g))
              && (u.spawn.Some? ==> JournalSettles(after, g, u.spawn.value))
    {
      var u := w.tables[other].table;
      assert u.id == other;
      if u.spawn.Some? {
        assert JournalOf(u) == Some(u.spawn.value.id);
      }
    }
    forall k | k in g.tables
      ensures k in after.tables || Journalled(after, k)
    {
      if k !in w.tables {
        var source :| source in w.tables && JournalOf(w.tables[source].table) == Some(k);
        assert after.tables[source].table.spawn.Some?;
      }
    }
  }

  lemma PutChat(w: World, g: Goal, id: int, revision: int, next: Table)
    requires ChatSettles(w, g) && id in w.tables && Discharges(w, g, w.tables[id].table, next)
    ensures ChatSettles(Put(w, id, revision, next), g)
  {
    hide Final, Unarchived, ToComplete;
    var t := w.tables[id].table;
    var after := Put(w, id, revision, next);
    assert forall c <- Unarchived(t) :: FiledAs(g.chat, c);
    forall k | k in g.chat
      ensures k in after.chat || Unfiled(after, k)
    {
      if k !in w.chat {
        var other :| other in w.tables && HasChat(w.tables[other].table, k);
        assert HasChat(after.tables[other].table, k);
      }
    }
  }

  lemma PutGames(deal: Dealer, w: World, g: Goal, id: int, revision: int, next: Table)
    requires GamesSettle(deal, w, g) && id in w.tables && Discharges(w, g, w.tables[id].table, next)
    ensures GamesSettle(deal, Put(w, id, revision, next), g)
  {
    hide Final, Unarchived, ToComplete, GameSettles;
    var t := w.tables[id].table;
    var after := Put(w, id, revision, next);
    forall other {:trigger after.tables[other]} | other in after.tables
      ensures ToComplete(after.tables[other].table).Some? ==>
                GameSettles(deal, after, g, ToComplete(after.tables[other].table).value)
    {
      var u := w.tables[other].table;
      if ToComplete(after.tables[other].table).Some? {
        assert ToComplete(u) == ToComplete(after.tables[other].table);
        SameGameSettles(deal, w, after, g, ToComplete(u).value);
      }
    }
    PutStored(deal, w, g, id, revision, next);
  }

  lemma SameGameSettles(deal: Dealer, w: World, after: World, g: Goal, s: Snapshot)
    requires after.games == w.games
    ensures GameSettles(deal, w, g, s) <==> GameSettles(deal, after, g, s)
  {
    hide Completed, Fits, Insertable, Matches, RowOf;
  }

  lemma PutStored(deal: Dealer, w: World, g: Goal, id: int, revision: int, next: Table)
    requires GamesSettle(deal, w, g) && id in w.tables && Discharges(w, g, w.tables[id].table, next)
    ensures forall k {:trigger k in g.games} :: k in g.games ==> k in w.games || Unstored(Put(w, id, revision, next), k)
  {
    hide Final, Unarchived, ToComplete, GameSettles;
    var after := Put(w, id, revision, next);
    forall k | k in g.games
      ensures k in w.games || Unstored(after, k)
    {
      if k !in w.games {
        var other :| other in w.tables && GameIdOf(ToComplete(w.tables[other].table)) == Some(k);
        assert GameIdOf(ToComplete(after.tables[other].table)) == Some(k);
      }
    }
  }

  lemma PutTags(w: World, g: Goal, id: int, revision: int, next: Table)
    requires TagsSettle(w, g) && id in w.tables && w.tables[id].table.id == id && Discharges(w, g, w.tables[id].table, next)
    ensures TagsSettle(Put(w, id, revision, next), g)
  {
    hide Final, Unarchived, ToComplete, Edited, TagsSettle, FirstEdit;
    var t := w.tables[id].table;
    var after := Put(w, id, revision, next);
    if next.tag == t.tag {
      TagsKept(w, g, after);
    } else {
      EditMade(w, g, after, id, t.tag.value.gameId);
    }
  }

  /** Once the first edit of a game is in the archive, it need not wait in its table any more. */
  lemma EditMade(w: World, g: Goal, after: World, a: int, k: int)
    requires TagsSettle(w, g) && FirstEdit(w, g, a, k) && w.tags[k] == g.reviews[a]
    requires after == w.(tables := after.tables, reserved := after.reserved)
    requires forall id, n {:trigger Edits(after, id, n)} {:trigger Edits(w, id, n)} :: Edits(after, id, n) <==> Edits(w, id, n) && id != a
    requires forall id, n {:trigger Edits(after, id, n)} :: Edits(after, id, n) ==> after.tables[id].table.tag == w.tables[id].table.tag
    ensures TagsSettle(after, g)
  {
    hide Edited;
    forall b, n {:trigger FirstEdit(after, g, b, n)} | FirstEdit(after, g, b, n)
      ensures g.reviews[b] == EditedBy(after, b, after.tags[n])
    {
      if n == k {
        assert NextEdit(w, g, a, b, k);
      } else {
        OtherGame(w, a, k, n);
        assert FirstEdit(w, g, b, n);
      }
    }
    forall b, c, n {:trigger NextEdit(after, g, b, c, n)} | NextEdit(after, g, b, c, n)
      ensures g.reviews[c] == EditedBy(after, c, g.reviews[b])
    {
      OtherGame(w, a, k, n);
      assert NextEdit(w, g, b, c, n);
    }
    forall b, n {:trigger LastEdit(after, g, b, n)} | LastEdit(after, g, b, n)
      ensures g.tags[n] == g.reviews[b]
    {
      OtherGame(w, a, k, n);
      assert LastEdit(w, g, b, n);
    }
    forall n {:trigger after.tags[n]} | n in after.tags && n in g.tags && !EditPending(after, n)
      ensures g.tags[n] == after.tags[n]
    {
      OtherGame(w, a, k, n);
      NothingWaits(after, n);
      if n == k {
        assert LastEdit(w, g, a, k);
      } else {
        NoneWaits(after, w, n);
      }
    }
  }

  lemma OtherGame(w: World, a: int, k: int, n: int)
    requires Edits(w, a, k)
    ensures Edits(w, a, n) <==> n == k
  {}

  lemma NothingWaits(w: World, k: int)
    requires !EditPending(w, k)
    ensures forall id {:trigger Edits(w, id, k)} :: !Edits(w, id, k)
  {}

  /** A checkpoint that drops only what is already done settles to the same goal. */
  lemma PutSettles(deal: Dealer, w: World, g: Goal, id: int, revision: int, next: Table)
    requires Settles(deal, w, g) && id in w.tables && Discharges(w, g, w.tables[id].table, next)
    requires Storable(next) && revision >= 1 && !Journalled(w, id)
    ensures Settles(deal, Put(w, id, revision, next), g)
  {
    hide TablesSettle, ChatSettles, GamesSettle, TagsSettle, RoomSettles, Storable, Discharges, Journalled, Put;
    StoredAsNamed(w, g, id);
    PutTables(w, g, id, revision, next);
    PutChat(w, g, id, revision, next);
    PutGames(deal, w, g, id, revision, next);
    PutTags(w, g, id, revision, next);
    PutRoom(w, g, id, revision, next);
  }

  lemma StoredAsNamed(w: World, g: Goal, id: int)
    requires TablesSettle(w, g) && id in w.tables
    ensures w.tables[id].table.id == id
  {
    hide Storable, Final, JournalSettles;
  }

  lemma PutRoom(w: World, g: Goal, id: int, revision: int, next: Table)
    requires RoomSettles(w, g) && id in w.tables
    ensures RoomSettles(Put(w, id, revision, next), g)
  {
    assert Put(w, id, revision, next).tables.Keys == w.tables.Keys;
  }

  /** The four ways in which recovery finishes a part of a table. */
  lemma TaggedDischarges(w: World, g: Goal, t: Table)
    requires t.tag.Some? && t.phase.Replay? && FirstEdit(w, g, t.id, t.tag.value.gameId)
    requires t.tag.value.gameId in w.tags && t.id in g.reviews && w.tags[t.tag.value.gameId] == g.reviews[t.id]
    ensures Discharges(w, g, t, Tagged(t, w.tags[t.tag.value.gameId]))
  {
    hide AsReplay, Edited, FirstEdit;
    var next := Tagged(t, w.tags[t.tag.value.gameId]);
    assert next.tag.None? && next.chat == t.chat && next.archived == t.archived;
    assert TagsOf(g, t) == w.tags[t.tag.value.gameId];
    assert Tagged(next, TagsOf(g, next)) == next;
  }

  lemma ChatDischarges(w: World, g: Goal, t: Table)
    requires t.tag.None? && t.archived <= |t.chat|
    requires forall c <- Unarchived(t) :: c.id.Some? && c.id.value in w.chat
    ensures Discharges(w, g, t, ChatDone(t))
  {}

  lemma JournalDischarges(w: World, g: Goal, t: Table)
    requires t.tag.None? && t.spawn.Some? && !t.retire && t.spawn.value.id in w.tables
    ensures Discharges(w, g, t, JournalDone(t))
  {}

  lemma GameDischarges(w: World, g: Goal, t: Table)
    requires t.tag.None? && t.spawn.None? && !t.retire && Unarchived(t) == [] && Finished(t) && t.archived <= |t.chat|
    requires t.noWrite || t.phase.live.gameId in w.games
    ensures Discharges(w, g, t, AsReplay(t))
  {}

  lemma TaggedStorable(t: Table, tags: set<Tag>)
    requires Storable(t) && t.tag.Some?
    ensures t.phase.Replay? && Storable(Tagged(t, tags))
  {
    hide Sound, ChatValid, PlayerValid, DistinctPlayers;
    var next := Tagged(t, tags);
    assert Players(next) == Players(t);
    TaggedParts(t, next);
  }

  lemma TaggedParts(t: Table, next: Table)
    requires Storable(t) && t.tag.Some? && t.phase.Replay?
    requires next.phase.Replay? && next == t.(phase := next.phase, tag := None)
    requires next.phase == Replay(t.phase.reviewed.(tags := next.phase.reviewed.tags), t.phase.controls)
    ensures PlayersValid(next) && ShadowsValid(next) && ChatValid(next) && MetaValid(next) && PhaseValid(next)
  {
    assert Players(next) == Players(t);
    assert forall seat :: 0 <= seat < |Players(t)| ==> PlayerValid(t, seat, Players(t)[seat]);
  }

  lemma ChatDoneStorable(t: Table)
    requires Storable(t)
    ensures Storable(ChatDone(t))
  {
    hide Sound, SnapshotValid, DistinctPlayers;
    var next := ChatDone(t);
    assert Players(next) == Players(t);
    assert forall seat :: 0 <= seat < |Players(t)| ==> PlayerValid(t, seat, Players(t)[seat]);
  }

  lemma JournalDoneStorable(t: Table)
    requires Storable(t) && !t.retire
    ensures Storable(JournalDone(t))
    ensures t.spawn.Some? && Quiet(t.spawn.value) ==> Storable(t.spawn.value) && t.spawn.value.id != t.id
  {
    hide Sound, SnapshotValid, DistinctPlayers;
    var next := JournalDone(t);
    assert Players(next) == Players(t);
    assert forall seat :: 0 <= seat < |Players(t)| ==> PlayerValid(t, seat, Players(t)[seat]);
  }

  // ---------------------------------------------------------------------------------------------
  // Writes to the archive.

  /** Making the first edit of a game that waits. */
  lemma TagsWritten(deal: Dealer, w: World, g: Goal, a: int, k: int)
    requires Settles(deal, w, g) && FirstEdit(w, g, a, k) && k in w.tags
    ensures a in g.reviews && g.reviews[a] == EditedBy(w, a, w.tags[k])
    ensures Settles(deal, w.(tags := w.tags[k := g.reviews[a]]), g)
  {
    hide TablesSettle, ChatSettles, GamesSettle, RoomSettles, TagsSettle, FirstEdit, EditedBy;
    FirstReview(w, g, a, k);
    var after := w.(tags := w.tags[k := g.reviews[a]]);
    SameTables(w, g, after);
    SameChat(w, g, after);
    SameRoom(w, g, after);
    KnownTags(deal, w, g, after);
    EditRepeated(w, g, after, a, k);
  }

  lemma FirstReview(w: World, g: Goal, a: int, k: int)
    requires TagsSettle(w, g) && FirstEdit(w, g, a, k)
    ensures k in w.games && k in w.tags && k in g.tags && a in g.reviews && g.reviews[a] == EditedBy(w, a, w.tags[k])
  {}

  lemma StillWaits(w: World, after: World)
    requires after.tables == w.tables
    ensures forall id, k {:trigger Edits(w, id, k)} {:trigger Edits(after, id, k)} :: Edits(w, id, k) <==> Edits(after, id, k)
  {}

  lemma EditRepeated(w: World, g: Goal, after: World, a: int, k: int)
    requires TagsSettle(w, g) && FirstEdit(w, g, a, k) && a in g.reviews && g.reviews[a] == EditedBy(w, a, w.tags[k])
    requires k in w.tags && after == w.(tags := w.tags[k := g.reviews[a]])
    ensures TagsSettle(after, g)
  {
    hide Edited;
    EditingTwice(w.tags[k], w.tables[a].table.tag.value);
    StillWaits(w, after);
    forall b, n {:trigger Edits(after, b, n)} | Edits(after, b, n) && g.anyOrder
      ensures g.tags[n] == g.reviews[b] && g.reviews[b] == EditedBy(after, b, after.tags[n])
    {
      if n == k {
        assert Edits(w, b, k) && Edits(w, a, k);
        EditingTwice(w.tags[k], w.tables[b].table.tag.value);
      }
    }
    forall b, n {:trigger FirstEdit(after, g, b, n)} | FirstEdit(after, g, b, n)
      ensures g.reviews[b] == EditedBy(after, b, after.tags[n])
    {
      assert FirstEdit(w, g, b, n);
      assert n == k ==> Edits(w, a, n) && Edits(after, a, n);
    }
    forall b, c, n {:trigger NextEdit(after, g, b, c, n)} | NextEdit(after, g, b, c, n)
      ensures g.reviews[c] == EditedBy(after, c, g.reviews[b])
    {
      assert NextEdit(w, g, b, c, n);
    }
    forall b, n {:trigger LastEdit(after, g, b, n)} | LastEdit(after, g, b, n)
      ensures g.tags[n] == g.reviews[b]
    {
      assert LastEdit(w, g, b, n);
    }
    forall n {:trigger after.tags[n]} | n in after.tags && n in g.tags && !EditPending(after, n)
      ensures g.tags[n] == after.tags[n]
    {
      assert Edits(w, a, k);
      NoneWaits(after, w, n);
    }
  }

  lemma KnownTags(deal: Dealer, w: World, g: Goal, after: World)
    requires GamesSettle(deal, w, g) && after == w.(tags := after.tags) && after.tags.Keys == w.tags.Keys
    ensures GamesSettle(deal, after, g)
  {
    hide ToComplete, Completed, Fits, Insertable, Matches;
    forall id {:trigger after.tables[id]} | id in after.tables
      ensures ToComplete(after.tables[id].table).Some? ==> GameSettles(deal, after, g, ToComplete(after.tables[id].table).value)
    {
      assert ToComplete(w.tables[id].table).Some? ==> GameSettles(deal, w, g, ToComplete(w.tables[id].table).value);
    }
    forall k | k in g.games
      ensures k in after.games || Unstored(after, k)
    {
      if k !in w.games {
        var id :| id in w.tables && GameIdOf(ToComplete(w.tables[id].table)) == Some(k);
        assert GameIdOf(ToComplete(after.tables[id].table)) == Some(k);
      }
    }
  }

  lemma SameTables(w: World, g: Goal, after: World)
    requires TablesSettle(w, g) && after.tables == w.tables
    ensures TablesSettle(after, g)
  {
    hide Storable, Final, Quiet;
    forall id {:trigger after.tables[id]} | id in after.tables
      ensures after.tables[id].table.spawn.Some? ==> JournalSettles(after, g, after.tables[id].table.spawn.value)
    {
      assert w.tables[id].table.id == id;
    }
    forall k | k in g.tables
      ensures k in after.tables || Journalled(after, k)
    {
      if k !in w.tables {
        var id :| id in w.tables && JournalOf(w.tables[id].table) == Some(k);
        assert JournalOf(after.tables[id].table) == Some(k);
      }
    }
  }

  lemma SameChat(w: World, g: Goal, after: World)
    requires ChatSettles(w, g) && after.tables == w.tables && after.chat == w.chat
    ensures ChatSettles(after, g)
  {
    MoreChat(w, g, after);
  }

  lemma SameRoom(w: World, g: Goal, after: World)
    requires RoomSettles(w, g) && after.tables == w.tables && after.reserved == w.reserved
    ensures RoomSettles(after, g)
  {}

  lemma SameTags(w: World, g: Goal, after: World)
    requires TagsSettle(w, g) && after.tables == w.tables && after.games == w.games && after.tags == w.tags
    ensures TagsSettle(after, g)
  {
    hide TagsSettle;
    TagsKept(w, g, after);
  }

  /** Filing messages that will be filed anyway. */
  lemma MoreChat(w: World, g: Goal, after: World)
    requires ChatSettles(w, g) && after.tables == w.tables
    requires forall k :: k in w.chat ==> k in after.chat
    requires forall k {:trigger after.chat[k]} :: k in after.chat ==> k in g.chat && g.chat[k] == after.chat[k]
    ensures ChatSettles(after, g)
  {
    hide Unarchived;
    forall id {:trigger after.tables[id]} | id in after.tables
      ensures forall c <- Unarchived(after.tables[id].table) :: FiledAs(g.chat, c)
    {
      assert forall c <- Unarchived(w.tables[id].table) :: FiledAs(g.chat, c);
    }
    forall k | k in g.chat
      ensures k in after.chat || Unfiled(after, k)
    {
      if k !in w.chat {
        var id :| id in w.tables && HasChat(w.tables[id].table, k);
        assert HasChat(after.tables[id].table, k);
      }
    }
  }

  lemma ChatWritten(deal: Dealer, w: World, g: Goal, after: World)
    requires Settles(deal, w, g) && after == w.(chat := after.chat)
    requires forall k :: k in w.chat ==> k in after.chat
    requires forall k {:trigger after.chat[k]} :: k in after.chat ==> k in g.chat && g.chat[k] == after.chat[k]
    ensures Settles(deal, after, g)
  {
    hide TablesSettle, ChatSettles, GamesSettle, TagsSettle, RoomSettles;
    SameTables(w, g, after);
    MoreChat(w, g, after);
    KnownTags(deal, w, g, after.(chat := w.chat));
    SameGames(deal, w, g, after);
    SameTags(w, g, after);
    SameRoom(w, g, after);
  }

  lemma SameGames(deal: Dealer, w: World, g: Goal, after: World)
    requires GamesSettle(deal, w, g) && after.tables == w.tables && after.games == w.games && after.tags.Keys == w.tags.Keys
    ensures GamesSettle(deal, after, g)
  {
    hide ToComplete, Completed, Fits, Insertable, Matches;
    forall id {:trigger after.tables[id]} | id in after.tables
      ensures ToComplete(after.tables[id].table).Some? ==> GameSettles(deal, after, g, ToComplete(after.tables[id].table).value)
    {
      assert ToComplete(w.tables[id].table).Some? ==> GameSettles(deal, w, g, ToComplete(w.tables[id].table).value);
    }
    forall k | k in g.games
      ensures k in after.games || Unstored(after, k)
    {
      if k !in w.games {
        var id :| id in w.tables && GameIdOf(ToComplete(w.tables[id].table)) == Some(k);
        assert GameIdOf(ToComplete(after.tables[id].table)) == Some(k);
      }
    }
  }

  /** Storing a finished game that will be stored anyway. */
  lemma GameWritten(deal: Dealer, w: World, g: Goal, id: int)
    requires Settles(deal, w, g) && id in w.tables && ToComplete(w.tables[id].table).Some?
    requires var s := ToComplete(w.tables[id].table).value;
             s.gameId !in w.games && GameSettles(deal, w, g, s)
    ensures var s := ToComplete(w.tables[id].table).value;
            Settles(deal, w.(games := w.games[s.gameId := RowOf(deal, s)], tags := w.tags[s.gameId := s.tags]), g)
  {
    hide TablesSettle, ChatSettles, RoomSettles, ToComplete, Completed, Fits, Insertable, Matches, RowOf, Edited;
    var s := ToComplete(w.tables[id].table).value;
    var after := w.(games := w.games[s.gameId := RowOf(deal, s)], tags := w.tags[s.gameId := s.tags]);
    SameTables(w, g, after);
    SameChat(w, g, after);
    SameRoom(w, g, after);
    GameWrittenGames(deal, w, g, id, s, after);
    GameWrittenTags(w, g, s, after);
  }

  lemma GameWrittenGames(deal: Dealer, w: World, g: Goal, id: int, s: Snapshot, after: World)
    requires GamesSettle(deal, w, g) && id in w.tables && ToComplete(w.tables[id].table) == Some(s)
    requires s.gameId !in w.games && GameSettles(deal, w, g, s)
    requires after == w.(games := w.games[s.gameId := RowOf(deal, s)], tags := w.tags[s.gameId := s.tags])
    ensures GamesSettle(deal, after, g)
  {
    hide ToComplete, Completed, Fits, Insertable, Matches, RowOf;
    forall other {:trigger after.tables[other]} | other in after.tables
      ensures ToComplete(after.tables[other].table).Some? ==>
                GameSettles(deal, after, g, ToComplete(after.tables[other].table).value)
    {
      if ToComplete(w.tables[other].table).Some? {
        var u := ToComplete(w.tables[other].table).value;
        assert GameSettles(deal, w, g, u);
        if u.gameId == s.gameId {
          RetryAcceptsItself(deal, u);
        }
      }
    }
    forall k | k in g.games
      ensures k in after.games || Unstored(after, k)
    {
      if k !in w.games {
        var other :| other in w.tables && GameIdOf(ToComplete(w.tables[other].table)) == Some(k);
        assert GameIdOf(ToComplete(after.tables[other].table)) == Some(k);
      }
    }
  }

  lemma GameWrittenTags(w: World, g: Goal, s: Snapshot, after: World)
    requires TagsSettle(w, g) && s.gameId !in w.tags && s.gameId in g.tags && g.tags[s.gameId] == s.tags
    requires after.tables == w.tables && w.games.Keys <= after.games.Keys
    requires after.tags == w.tags[s.gameId := s.tags]
    ensures TagsSettle(after, g)
  {
    hide TagsSettle;
    TagsKept(w, g, after);
  }

  // ---------------------------------------------------------------------------------------------
  // Handing over.

  /** Saving the table that a journal holds. */
  lemma SpawnSettles(deal: Dealer, w: World, g: Goal, source: int, revision: int)
    requires Settles(deal, w, g) && source in w.tables && w.tables[source].table.spawn.Some?
    requires var d := w.tables[source].table.spawn.value;
             d.id !in w.tables && Storable(d) && revision >= 1
    ensures var d := w.tables[source].table.spawn.value;
            Settles(deal, Put(w, d.id, revision, d), g)
  {
    hide TablesSettle, ChatSettles, GamesSettle, TagsSettle, Storable, Quiet;
    var d := w.tables[source].table.spawn.value;
    var after := Put(w, d.id, revision, d);
    JournalOfSource(w, g, source);
    SpawnTables(w, g, source, revision);
    QuietIs(d);
    AddedChat(w, g, d, revision);
    AddedGames(deal, w, g, d, revision);
    AddedTags(w, g, d, revision);
    assert w.tables.Keys + g.tables.Keys == after.tables.Keys + g.tables.Keys;
  }

  lemma JournalOfSource(w: World, g: Goal, source: int)
    requires TablesSettle(w, g) && source in w.tables && w.tables[source].table.spawn.Some?
    ensures JournalSettles(w, g, w.tables[source].table.spawn.value)
  {}

  lemma QuietIs(d: Table)
    requires Quiet(d)
    ensures Unarchived(d) == [] && ToComplete(d).None? && d.tag.None? && d.spawn.None? && !d.retire
  {}

  lemma QuietFinal(d: Table, g: Goal)
    requires Quiet(d) && d.archived <= |d.chat|
    ensures Final(d, g) == d
  {}

  lemma SpawnTables(w: World, g: Goal, source: int, revision: int)
    requires TablesSettle(w, g) && source in w.tables && w.tables[source].table.spawn.Some?
    requires var d := w.tables[source].table.spawn.value;
             d.id !in w.tables && Storable(d) && revision >= 1
    ensures TablesSettle(Put(w, w.tables[source].table.spawn.value.id, revision, w.tables[source].table.spawn.value), g)
  {
    hide Storable, Final, Quiet, JournalSettles;
    var d := w.tables[source].table.spawn.value;
    var after := Put(w, d.id, revision, d);
    SpawnIs(w, g, source);
    forall other {:trigger after.tables[other]} | other in after.tables
      ensures var u := after.tables[other].table;
              && u.id == other && Storable(u) && after.tables[other].revision >= 1
              && (u.retire <==> other !in g.tables)
              && (!u.retire ==> g.tables[other] == Final(u, g))
              && (u.spawn.Some? ==> JournalSettles(after, g, u.spawn.value))
    {
      if other != d.id {
        assert w.tables[other].table.id == other;
        if after.tables[other].table.spawn.Some? {
          JournalStays(w, g, d, revision, after.tables[other].table.spawn.value);
        }
      }
    }
    forall k | k in g.tables
      ensures k in after.tables || Journalled(after, k)
    {
      if k !in w.tables {
        var other :| other in w.tables && JournalOf(w.tables[other].table) == Some(k);
        assert JournalOf(after.tables[other].table) == Some(k);
      }
    }
  }

  lemma JournalStays(w: World, g: Goal, d: Table, revision: int, other: Table)
    requires JournalSettles(w, g, other) && d.id in g.tables && g.tables[d.id] == d
    ensures JournalSettles(Put(w, d.id, revision, d), g, other)
  {
    hide Quiet;
  }

  lemma SpawnIs(w: World, g: Goal, source: int)
    requires TablesSettle(w, g) && source in w.tables && w.tables[source].table.spawn.Some? && Storable(w.tables[source].table.spawn.value)
    ensures var d := w.tables[source].table.spawn.value;
            d.id in g.tables && g.tables[d.id] == d == Final(d, g) && !d.retire && d.spawn.None?
  {
    hide Storable, Final;
    var d := w.tables[source].table.spawn.value;
    JournalOfSource(w, g, source);
    StorableArchived(d);
    QuietFinal(d, g);
  }

  lemma StorableArchived(t: Table)
    requires Storable(t)
    ensures t.archived <= |t.chat|
  {}

  lemma AddedChat(w: World, g: Goal, d: Table, revision: int)
    requires ChatSettles(w, g) && d.id !in w.tables && Unarchived(d) == []
    ensures ChatSettles(Put(w, d.id, revision, d), g)
  {
    hide Unarchived;
    var after := Put(w, d.id, revision, d);
    forall id {:trigger after.tables[id]} | id in after.tables
      ensures forall c <- Unarchived(after.tables[id].table) :: FiledAs(g.chat, c)
    {
      if id != d.id {
        assert forall c <- Unarchived(w.tables[id].table) :: FiledAs(g.chat, c);
      }
    }
    forall k | k in g.chat
      ensures k in after.chat || Unfiled(after, k)
    {
      if k !in w.chat {
        var id :| id in w.tables && HasChat(w.tables[id].table, k);
        assert HasChat(after.tables[id].table, k);
      }
    }
  }

  lemma AddedGames(deal: Dealer, w: World, g: Goal, d: Table, revision: int)
    requires GamesSettle(deal, w, g) && d.id !in w.tables && ToComplete(d).None?
    ensures GamesSettle(deal, Put(w, d.id, revision, d), g)
  {
    hide ToComplete, Completed, Fits, Insertable, Matches;
    var after := Put(w, d.id, revision, d);
    forall id {:trigger after.tables[id]} | id in after.tables
      ensures ToComplete(after.tables[id].table).Some? ==> GameSettles(deal, after, g, ToComplete(after.tables[id].table).value)
    {
      if id != d.id {
        assert ToComplete(w.tables[id].table).Some? ==> GameSettles(deal, w, g, ToComplete(w.tables[id].table).value);
      }
    }
    forall k | k in g.games
      ensures k in after.games || Unstored(after, k)
    {
      if k !in w.games {
        var id :| id in w.tables && GameIdOf(ToComplete(w.tables[id].table)) == Some(k);
        assert GameIdOf(ToComplete(after.tables[id].table)) == Some(k);
      }
    }
  }

  lemma AddedTags(w: World, g: Goal, d: Table, revision: int)
    requires TagsSettle(w, g) && d.id !in w.tables && d.tag.None?
    ensures TagsSettle(Put(w, d.id, revision, d), g)
  {
    hide TagsSettle;
    TagsKept(w, g, Put(w, d.id, revision, d));
  }

  /** Removing a source that retires, once its journalled table is saved. */
  function Removed(w: World, id: int): World {
    w.(tables := w.tables - {id}, reserved := w.reserved - {id})
  }

  lemma RetireSettles(deal: Dealer, w: World, g: Goal, id: int)
    requires Settles(deal, w, g) && id in w.tables
    requires var t := w.tables[id].table;
             && t.retire && t.spawn.Some? && t.spawn.value.id in w.tables
             && t.tag.None? && Unarchived(t) == []
    ensures Settles(deal, Removed(w, id), g)
  {
    hide TablesSettle, ChatSettles, GamesSettle, TagsSettle, RoomSettles;
    var t := w.tables[id].table;
    assert ToComplete(t).None?;
    RetireTables(w, g, id);
    RetireChat(w, g, id);
    RetireGames(deal, w, g, id);
    RetireTags(w, g, id);
    RetireRoom(w, g, id);
  }

  lemma RetireRoom(w: World, g: Goal, id: int)
    requires RoomSettles(w, g)
    ensures RoomSettles(Removed(w, id), g)
  {
    Smaller(Removed(w, id).tables.Keys + g.tables.Keys, w.tables.Keys + g.tables.Keys);
  }

  lemma RetireTables(w: World, g: Goal, id: int)
    requires TablesSettle(w, g) && id in w.tables
    requires var t := w.tables[id].table; t.retire && t.spawn.Some? && t.spawn.value.id in w.tables
    ensures TablesSettle(Removed(w, id), g)
  {
    hide Storable, Final, Quiet;
    var after := Removed(w, id);
    JournalOfSource(w, g, id);
    forall other {:trigger after.tables[other]} | other in after.tables
      ensures var u := after.tables[other].table;
              && u.id == other && Storable(u) && after.tables[other].revision >= 1
              && (u.retire <==> other !in g.tables)
              && (!u.retire ==> g.tables[other] == Final(u, g))
              && (u.spawn.Some? ==> JournalSettles(after, g, u.spawn.value))
    {
      assert w.tables[other].table.id == other;
    }
    forall k | k in g.tables
      ensures k in after.tables || Journalled(after, k)
    {
      assert w.tables[id].table.id == id;
      if k !in w.tables {
        var other :| other in w.tables && JournalOf(w.tables[other].table) == Some(k);
        assert JournalOf(after.tables[other].table) == Some(k);
      }
    }
  }

  lemma RetireChat(w: World, g: Goal, id: int)
    requires ChatSettles(w, g) && id in w.tables && Unarchived(w.tables[id].table) == []
    ensures ChatSettles(Removed(w, id), g)
  {
    hide Unarchived;
    var after := Removed(w, id);
    forall other {:trigger after.tables[other]} | other in after.tables
      ensures forall c <- Unarchived(after.tables[other].table) :: FiledAs(g.chat, c)
    {
      assert forall c <- Unarchived(w.tables[other].table) :: FiledAs(g.chat, c);
    }
    forall k | k in g.chat
      ensures k in after.chat || Unfiled(after, k)
    {
      if k !in w.chat {
        var other :| other in w.tables && HasChat(w.tables[other].table, k);
        assert HasChat(after.tables[other].table, k);
      }
    }
  }

  lemma RetireGames(deal: Dealer, w: World, g: Goal, id: int)
    requires GamesSettle(deal, w, g) && id in w.tables && ToComplete(w.tables[id].table).None?
    ensures GamesSettle(deal, Removed(w, id), g)
  {
    hide ToComplete, Completed, Fits, Insertable, Matches;
    var after := Removed(w, id);
    forall other {:trigger after.tables[other]} | other in after.tables
      ensures ToComplete(after.tables[other].table).Some? ==> GameSettles(deal, after, g, ToComplete(after.tables[other].table).value)
    {
      assert ToComplete(w.tables[other].table).Some? ==> GameSettles(deal, w, g, ToComplete(w.tables[other].table).value);
    }
    forall k | k in g.games
      ensures k in after.games || Unstored(after, k)
    {
      if k !in w.games {
        var other :| other in w.tables && GameIdOf(ToComplete(w.tables[other].table)) == Some(k);
        assert GameIdOf(ToComplete(after.tables[other].table)) == Some(k);
      }
    }
  }

  lemma RetireTags(w: World, g: Goal, id: int)
    requires TagsSettle(w, g) && id in w.tables && w.tables[id].table.tag.None?
    ensures TagsSettle(Removed(w, id), g)
  {
    hide TagsSettle;
    TagsKept(w, g, Removed(w, id));
  }

  /** Reservations stand for nothing. */
  lemma ReservingSettles(deal: Dealer, w: World, g: Goal, reserved: map<int, nat>)
    requires Settles(deal, w, g) && reserved.Keys !! w.tables.Keys
    ensures Settles(deal, w.(reserved := reserved), g)
  {
    hide TablesSettle, ChatSettles, GamesSettle, TagsSettle;
    var after := w.(reserved := reserved);
    SameTables(w, g, after);
    SameChat(w, g, after);
    SameGames(deal, w, g, after);
    SameTags(w, g, after);
  }

  // ---------------------------------------------------------------------------------------------
  // Nothing pending.

  ghost predicate AllQuiet(w: World) {
    forall id {:trigger w.tables[id]} :: id in w.tables ==> Quiet(w.tables[id].table)
  }

  ghost predicate Reached(w: World, g: Goal) {
    && w.tables.Keys == g.tables.Keys
    && (forall id {:trigger w.tables[id]} :: id in w.tables ==> w.tables[id].table == g.tables[id])
    && w.chat == g.chat && w.games == g.games && w.tags == g.tags
  }

  /** A store with nothing pending is what it settles to. */
  lemma QuietIsReached(deal: Dealer, w: World, g: Goal)
    requires Settles(deal, w, g) && AllQuiet(w)
    ensures Reached(w, g)
  {
    hide TablesSettle, ChatSettles, GamesSettle, TagsSettle, RoomSettles, Quiet;
    QuietTables(w, g);
    QuietChat(w, g);
    QuietGames(deal, w, g);
    QuietTags(deal, w, g);
  }

  lemma QuietTables(w: World, g: Goal)
    requires TablesSettle(w, g) && AllQuiet(w)
    ensures w.tables.Keys == g.tables.Keys
    ensures forall id {:trigger w.tables[id]} :: id in w.tables ==> w.tables[id].table == g.tables[id]
  {
    hide Storable, Final, Quiet;
    forall id {:trigger w.tables[id]} | id in w.tables
      ensures id in g.tables && w.tables[id].table == g.tables[id]
    {
      QuietIs(w.tables[id].table);
      StorableArchived(w.tables[id].table);
      QuietFinal(w.tables[id].table, g);
    }
    forall id
      ensures id in w.tables <==> id in g.tables
    {
      NothingPending(w, id);
    }
    SameNumbers(w.tables.Keys, g.tables.Keys);
  }

  lemma NothingPending(w: World, k: int)
    requires AllQuiet(w)
    ensures !Journalled(w, k) && !Unfiled(w, k) && !Unstored(w, k) && !EditPending(w, k)
  {
    hide Quiet, Unarchived, ToComplete;
    forall id | id in w.tables
      ensures var t := w.tables[id].table;
              JournalOf(t).None? && !HasChat(t, k) && GameIdOf(ToComplete(t)).None? && EditOf(t).None?
    {
      QuietIs(w.tables[id].table);
    }
  }

  lemma QuietChat(w: World, g: Goal)
    requires ChatSettles(w, g) && AllQuiet(w)
    ensures w.chat == g.chat
  {
    hide AllQuiet, Unfiled, Unarchived;
    forall k
      ensures k in w.chat <==> k in g.chat
    {
      NothingPending(w, k);
    }
    SameByNumber(w.chat, g.chat);
  }

  lemma QuietGames(deal: Dealer, w: World, g: Goal)
    requires GamesSettle(deal, w, g) && AllQuiet(w)
    ensures w.games == g.games && w.tags.Keys == g.tags.Keys
  {
    hide AllQuiet, Unstored, ToComplete, GameSettles;
    forall k
      ensures k in w.games <==> k in g.games
    {
      NothingPending(w, k);
    }
    SameByNumber(w.games, g.games);
  }

  lemma QuietTags(deal: Dealer, w: World, g: Goal)
    requires TagsSettle(w, g) && GamesSettle(deal, w, g) && AllQuiet(w)
    ensures w.tags == g.tags
  {
    hide GamesSettle, AllQuiet, EditPending, FirstEdit, NextEdit, LastEdit;
    QuietGames(deal, w, g);
    forall k | k in w.tags
      ensures w.tags[k] == g.tags[k]
    {
      NothingPending(w, k);
    }
    SameByNumber(w.tags, g.tags);
  }
}
