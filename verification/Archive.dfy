/**
 The permanent record of a finished game. Storing it again must find the same game there, and the
 columns are narrower than the values that the server holds.
 */
module Archive {
  import opened Common
  import opened Model
  import opened Deck

  /** A number cut to 16 or 32 bits, as a two's complement conversion does. */
  function Short(n: int): int {
    (n + 0x8000) % 0x1_0000 - 0x8000
  }

  function Long(n: int): int {
    (n + 0x8000_0000) % 0x1_0000_0000 - 0x8000_0000
  }

  /** A number of seconds without its fraction, within 32 bits. */
  function Whole(r: real): int {
    var n := if r < 0.0 then -((-r).Floor) else r.Floor;
    if n < -0x8000_0000 then -0x8000_0000 else if n > 0x7fff_ffff then 0x7fff_ffff else n
  }

  predicate FitsShort(n: int) {
    -0x8000 <= n < 0x8000
  }

  predicate FitsLong(n: int) {
    -0x8000_0000 <= n < 0x8000_0000
  }

  lemma CutsUnlessItFits(n: int)
    ensures Short(n) == n <==> FitsShort(n)
    ensures Long(n) == n <==> FitsLong(n)
  {}

  const MICRO := 1000

  datatype Participant = Participant(user: int, seat: int, assignment: int, metadata: int)
  datatype NoteRow = NoteRow(seat: int, order: int, text: string)

  datatype GameRow = GameRow(
    name: string, numPlayers: int, startingPlayer: int, variant: int, timed: bool, timeBase: int,
    timePerTurn: int, rules: seq<bool>, seed: string, score: int, turns: int, end: int,
    started: int, finished: int
  )

  datatype Row = Row(
    game: GameRow, participants: seq<Participant>, notes: seq<NoteRow>, actions: seq<Action>,
    deck: Option<seq<Byte>>
  )

  /** The deck that a variant deals for a seed. */
  type Dealer = (int, string) -> seq<Card>

  function Metadata(c: Character): Option<int> {
    if !c.keepsMetadata then Some(0)
    else if FitsShort(c.metadata) then Some(c.metadata)
    else None
  }

  function GameRowOf(s: Snapshot, finished: int): GameRow {
    var o := s.game.options;
    GameRow(s.name, Short(o.numPlayers), Short(o.startingPlayer), Short(o.variant), o.timed, Whole(o.timeBase),
            Long(o.timePerTurn), o.rules, s.seed, Short(s.game.score), Short(s.game.turn), Short(s.game.end),
            s.started / MICRO, finished / MICRO)
  }

  function ParticipantOf(s: Snapshot, seat: nat): Participant
    requires seat < |s.players| == |s.game.characters|
  {
    var c := s.game.characters[seat];
    Participant(s.players[seat].id, Short(seat), c.assignment, if Metadata(c).Some? then Metadata(c).value else 0)
  }

  function ParticipantsOf(s: Snapshot): seq<Participant>
    requires |s.players| == |s.game.characters|
  {
    seq(|s.players|, seat requires 0 <= seat < |s.players| == |s.game.characters| => ParticipantOf(s, seat))
  }

  predicate MetadataFits(s: Snapshot) {
    forall c <- s.game.characters :: Metadata(c).Some?
  }

  /** The notes that say something, seat by seat and card by card. */
  function NotesOf(texts: seq<string>, seat: nat, order: nat): seq<NoteRow> {
    if texts == [] then []
    else (if texts[0] == "" then [] else [NoteRow(Short(seat), Short(order), texts[0])])
         + NotesOf(texts[1..], seat, order + 1)
  }

  function AllNotes(notes: seq<seq<string>>, seat: nat): seq<NoteRow> {
    if notes == [] then [] else NotesOf(notes[0], seat, 0) + AllNotes(notes[1..], seat + 1)
  }

  function ShortAction(a: Action): Action {
    Action(Short(a.kind), Short(a.target), Short(a.value))
  }

  function ShortActions(actions: seq<Action>): (cut: seq<Action>)
    ensures |cut| == |actions|
  {
    seq(|actions|, i requires 0 <= i < |actions| => ShortAction(actions[i]))
  }

  /** A deck is stored only when the seed does not deal it. */
  function StoredDeck(deal: Dealer, s: Snapshot): Option<seq<Byte>> {
    if s.game.deck == deal(s.game.options.variant, s.seed) then None else Encoded(s.game.deck)
  }

  /** Everything that the archive holds of one finished game. */
  function RowOf(deal: Dealer, s: Snapshot): Row
    requires |s.players| == |s.game.characters| && s.finished.Some?
  {
    Row(GameRowOf(s, s.finished.value), ParticipantsOf(s), AllNotes(s.notes, 0), ShortActions(s.game.actions),
        StoredDeck(deal, s))
  }

  /** Whether a fresh record can be stored at all. */
  predicate Insertable(deal: Dealer, s: Snapshot) {
    && MetadataFits(s)
    && (s.game.deck != deal(s.game.options.variant, s.seed) ==> Encoded(s.game.deck).Some?)
  }

  /** The deck that a stored record stands for. */
  ghost predicate DeckIs(deal: Dealer, row: Row, variant: int, seed: string, deck: seq<Card>) {
    match row.deck
    case Some(bytes) => Encoded(deck) == Some(bytes)
    case None => deck == deal(variant, seed)
  }

  /** The columns of the game itself, each read back at full width. */
  predicate SameGame(game: GameRow, s: Snapshot)
    requires s.finished.Some?
  {
    var o := s.game.options;
    && game.numPlayers == o.numPlayers && game.startingPlayer == o.startingPlayer
    && game.variant == o.variant && game.timed == o.timed && game.timeBase == Whole(o.timeBase)
    && game.timePerTurn == o.timePerTurn && game.rules == o.rules
    && game.seed == s.seed && game.name == s.name
    && game.score == s.game.score && game.end == s.game.end && game.turns == s.game.turn
    && game.started == s.started / MICRO && game.finished == s.finished.value / MICRO
  }

  /** What a repeated completion compares with the record it finds. */
  ghost predicate Matches(deal: Dealer, row: Row, s: Snapshot)
    requires |s.players| == |s.game.characters| && s.finished.Some?
  {
    && SameGame(row.game, s)
    && MetadataFits(s) && row.participants == ParticipantsOf(s)
    && row.notes == AllNotes(s.notes, 0)
    && row.actions == s.game.actions
    && DeckIs(deal, row, s.game.options.variant, s.seed, s.game.deck)
  }

  /** What a record says about a game, in full width. */
  datatype Essence = Essence(
    options: Options, name: string, seed: string, score: int, turn: int, end: int,
    users: seq<int>, assignments: seq<int>, metadata: seq<Option<int>>, notes: seq<NoteRow>, actions: seq<Action>,
    deck: seq<Card>, started: int, finished: int
  )

  function EssenceOf(s: Snapshot): Essence
    requires s.finished.Some?
  {
    Essence(s.game.options.(timeBase := Whole(s.game.options.timeBase) as real), s.name, s.seed,
            s.game.score, s.game.turn, s.game.end,
            seq(|s.players|, i requires 0 <= i < |s.players| => s.players[i].id),
            seq(|s.game.characters|, i requires 0 <= i < |s.game.characters| => s.game.characters[i].assignment),
            seq(|s.game.characters|, i requires 0 <= i < |s.game.characters| => Metadata(s.game.characters[i])),
            AllNotes(s.notes, 0), s.game.actions, s.game.deck, s.started / MICRO, s.finished.value / MICRO)
  }

  /** Whether nothing that is compared was cut. */
  predicate Fits(s: Snapshot) {
    && FitsShort(s.game.options.variant) && FitsLong(s.game.options.timePerTurn)
    && FitsShort(s.game.score)
    && (forall a <- s.game.actions :: FitsShort(a.kind) && FitsShort(a.target) && FitsShort(a.value))
    && MetadataFits(s)
  }

  /** The games that completion is asked to store. */
  predicate Completed(s: Snapshot) {
    SnapshotValid(s) && s.game.end != IN_PROGRESS && s.gameId > 0
  }

  lemma CompleteIsFinished(s: Snapshot)
    requires Completed(s)
    ensures s.finished.Some? && |s.players| == |s.game.characters| == |s.notes|
    ensures FitsShort(s.game.options.numPlayers) && FitsShort(s.game.options.startingPlayer)
    ensures FitsShort(s.game.end) && FitsShort(s.game.turn)
    ensures Encoded(s.game.deck).Some?
  {}

  // ---------------------------------------------------------------------------------------------
  // The archive itself.

  class Database {
    var games: map<int, Row>
    var tags: map<int, set<Tag>>
    const deal: Dealer

    constructor (deal: Dealer)
      ensures games == map[] && tags == map[] && this.deal == deal
    {
      this.deal := deal;
      games, tags := map[], map[];
    }

    method InsertParticipants(s: Snapshot) returns (participants: Option<seq<Participant>>, notes: seq<NoteRow>)
      requires |s.players| == |s.game.characters| == |s.notes|
      ensures participants.Some? <==> MetadataFits(s)
      ensures participants.Some? ==> participants.value == ParticipantsOf(s) && notes == AllNotes(s.notes, 0)
    {
      var rows: seq<Participant> := [];
      notes := [];
      assert s.notes[0..] == s.notes;
      for seat := 0 to |s.players|
        invariant |rows| == seat
        invariant forall k :: 0 <= k < seat ==> Metadata(s.game.characters[k]).Some? && rows[k] == ParticipantOf(s, k)
        invariant notes + AllNotes(s.notes[seat..], seat) == AllNotes(s.notes, 0)
      {
        var character := s.game.characters[seat];
        var metadata := 0;
        if character.keepsMetadata {
          if !FitsShort(character.metadata) {
            assert character in s.game.characters;
            return None, [];
          }
          metadata := character.metadata;
        }
        rows := rows + [Participant(s.players[seat].id, Short(seat), character.assignment, metadata)];
        var authored := InsertNotes(s.notes[seat], seat);
        assert s.notes[seat..][1..] == s.notes[seat + 1..] && s.notes[seat..][0] == s.notes[seat];
        notes := notes + authored;
      }
      assert rows == ParticipantsOf(s);
      participants := Some(rows);
    }

    method InsertNotes(texts: seq<string>, seat: nat) returns (rows: seq<NoteRow>)
      ensures rows == NotesOf(texts, seat, 0)
    {
      rows := [];
      assert texts[0..] == texts;
      for order := 0 to |texts|
        invariant rows + NotesOf(texts[order..], seat, order) == NotesOf(texts, seat, 0)
      {
        assert texts[order..][1..] == texts[order + 1..] && texts[order..][0] == texts[order];
        if texts[order] != "" {
          rows := rows + [NoteRow(Short(seat), Short(order), texts[order])];
        }
      }
    }

    method SameActions(rows: seq<Action>, actions: seq<Action>) returns (same: bool)
      ensures same <==> rows == actions
    {
      if |rows| != |actions| {
        return false;
      }
      for i := 0 to |rows|
        invariant rows[..i] == actions[..i]
      {
        if rows[i] != actions[i] {
          return false;
        }
      }
      assert rows == rows[..|rows|] && actions == actions[..|actions|];
      same := true;
    }

    method SameParticipants(rows: seq<Participant>, s: Snapshot) returns (same: bool)
      requires |s.players| == |s.game.characters|
      ensures same <==> MetadataFits(s) && rows == ParticipantsOf(s)
    {
      if |rows| != |s.players| {
        return false;
      }
      for seat := 0 to |rows|
        invariant forall k :: 0 <= k < seat ==> Metadata(s.game.characters[k]).Some? && rows[k] == ParticipantOf(s, k)
      {
        var character := s.game.characters[seat];
        if character.keepsMetadata && !FitsShort(character.metadata) {
          assert character in s.game.characters;
          return false;
        }
        if rows[seat] != ParticipantOf(s, seat) {
          assert ParticipantsOf(s)[seat] == ParticipantOf(s, seat);
          return false;
        }
      }
      same := true;
    }

    method SameDeck(row: Row, s: Snapshot) returns (same: bool)
      ensures same <==> DeckIs(deal, row, s.game.options.variant, s.seed, s.game.deck)
    {
      if row.deck.Some? {
        var actual := DecodeDeck(row.deck.value);
        if actual.None? {
          return false;
        }
        DecodedIs(actual.value, s.game.deck, row.deck.value);
        same := actual.value == s.game.deck;
      } else {
        same := deal(s.game.options.variant, s.seed) == s.game.deck;
      }
    }

    /**
     Stores a finished game, or finds it there. The record never changes once it exists, and a
     failure leaves everything as it was.
     */
    method Complete(s: Snapshot) returns (ok: bool)
      requires Completed(s)
      modifies this
      ensures s.finished.Some? && |s.players| == |s.game.characters|
      ensures s.gameId in old(games) ==> ok == Matches(deal, old(games)[s.gameId], s)
      ensures s.gameId !in old(games) ==> ok == Insertable(deal, s)
      ensures ok && s.gameId !in old(games) ==>
                games == old(games)[s.gameId := RowOf(deal, s)] && tags == old(tags)[s.gameId := s.tags]
      ensures !ok || s.gameId in old(games) ==> games == old(games) && tags == old(tags)
    {
      CompleteIsFinished(s);
      hide SnapshotValid;
      if s.gameId in games {
        var row := games[s.gameId];
        if !SameGame(row.game, s) {
          return false;
        }
        ok := SameParticipants(row.participants, s);
        if !ok || row.notes != AllNotes(s.notes, 0) {
          return false;
        }
        ok := SameActions(row.actions, s.game.actions);
        if !ok {
          return;
        }
        ok := SameDeck(row, s);
        return;
      }
      var participants, notes := InsertParticipants(s);
      if participants.None? {
        return false;
      }
      var deck: Option<seq<Byte>> := None;
      if s.game.deck != deal(s.game.options.variant, s.seed) {
        deck := EncodeDeck(s.game.deck);
        if deck.None? {
          return false;
        }
      }
      var row := Row(GameRowOf(s, s.finished.value), participants.value, notes, ShortActions(s.game.actions), deck);
      games, tags := games[s.gameId := row], tags[s.gameId := s.tags];
      ok := true;
    }
  }

  lemma DecodedIs(actual: seq<Card>, deck: seq<Card>, bytes: seq<Byte>)
    requires Encoded(actual) == Some(bytes)
    ensures Encoded(deck) == Some(bytes) <==> actual == deck
  {
    if Encoded(deck) == Some(bytes) {
      EncodingIsInjective(actual, deck);
    }
  }

  // ---------------------------------------------------------------------------------------------
  // Storing again.

  /** Completion can fail to store a finished game only for a character's number. */
  lemma InsertableWhenMetadataFits(deal: Dealer, s: Snapshot)
    requires Completed(s)
    ensures Insertable(deal, s) <==> MetadataFits(s)
  {
    hide SnapshotValid;
    CompleteIsFinished(s);
  }

  lemma ShortActionsAre(actions: seq<Action>)
    ensures ShortActions(actions) == actions <==>
              forall a <- actions :: FitsShort(a.kind) && FitsShort(a.target) && FitsShort(a.value)
  {
    if forall a <- actions :: FitsShort(a.kind) && FitsShort(a.target) && FitsShort(a.value) {
      forall i | 0 <= i < |actions|
        ensures ShortActions(actions)[i] == actions[i]
      {
        assert actions[i] in actions;
      }
    } else {
      var a :| a in actions && !(FitsShort(a.kind) && FitsShort(a.target) && FitsShort(a.value));
      var i :| 0 <= i < |actions| && actions[i] == a;
      assert ShortActions(actions)[i] == ShortAction(a);
    }
  }

  lemma GameRowMatches(s: Snapshot)
    requires Completed(s) && s.finished.Some?
    ensures SameGame(GameRowOf(s, s.finished.value), s) <==>
              (&& FitsShort(s.game.options.variant) && FitsLong(s.game.options.timePerTurn)
               && FitsShort(s.game.score))
  {
    hide SnapshotValid;
    CompleteIsFinished(s);
  }

  /**
   Completing the same game again is accepted exactly when nothing that is compared had to be cut to
   fit its column.
   */
  lemma RetryAcceptsItself(deal: Dealer, s: Snapshot)
    requires Completed(s) && Insertable(deal, s)
    ensures s.finished.Some? && |s.players| == |s.game.characters|
    ensures Matches(deal, RowOf(deal, s), s) <==> Fits(s)
  {
    hide SnapshotValid, Encoded, AllNotes, SameGame, GameRowOf, ParticipantsOf, ShortActions;
    CompleteIsFinished(s);
    GameRowMatches(s);
    ShortActionsAre(s.game.actions);
  }

  const SLOW := Snapshot(FORMAT, 1, 1, "slow", [Player(7, "a"), Player(8, "b")], "seed", 0, Some(0),
                         Game(Options(2, 0, 0, true, 60.0, 0x8000_0000, []), ["a", "b"],
                              [Character(-1, false, 0), Character(-1, false, 0)], [Card(0, 1)], 0, [], 0, 0, 1, false, 0, true),
                         [0, 0], 0, 0, true, 0, -1, [false, false], [[""], [""]], map[], {}, [false, false], false)

  /** A finished game that can be saved and stored, and whose own repeated completion is refused. */
  lemma SlowGameIsRefused(deal: Dealer)
    ensures Completed(SLOW) && Insertable(deal, SLOW)
    ensures !Matches(deal, RowOf(deal, SLOW), SLOW)
  {
    SlowIsComplete();
    InsertableWhenMetadataFits(deal, SLOW);
    assert MetadataFits(SLOW);
    hide Completed, Insertable, RowOf, Matches;
    RetryAcceptsItself(deal, SLOW);
  }

  lemma SlowIsComplete()
    ensures Completed(SLOW)
  {
    assert |SLOW.notes[0]| == |SLOW.notes[1]| == 1;
  }

  lemma SameUsers(s: Snapshot, t: Snapshot)
    requires s.finished.Some? && t.finished.Some?
    requires |s.players| == |s.game.characters| && |t.players| == |t.game.characters|
    requires MetadataFits(s)
    ensures (MetadataFits(t) && ParticipantsOf(s) == ParticipantsOf(t)) <==>
              (&& EssenceOf(s).users == EssenceOf(t).users
               && EssenceOf(s).assignments == EssenceOf(t).assignments
               && EssenceOf(s).metadata == EssenceOf(t).metadata)
  {
    hide AllNotes;
    var a, b := EssenceOf(s), EssenceOf(t);
    if MetadataFits(t) && ParticipantsOf(s) == ParticipantsOf(t) {
      assert |s.players| == |ParticipantsOf(s)| == |t.players|;
      forall i | 0 <= i < |s.players|
        ensures a.users[i] == b.users[i] && a.assignments[i] == b.assignments[i] && a.metadata[i] == b.metadata[i]
      {
        assert ParticipantsOf(s)[i] == ParticipantsOf(t)[i];
        assert s.game.characters[i] in s.game.characters && t.game.characters[i] in t.game.characters;
      }
    }
    if a.users == b.users && a.assignments == b.assignments && a.metadata == b.metadata {
      assert |s.players| == |a.users| == |t.players|;
      forall i | 0 <= i < |s.players|
        ensures Metadata(t.game.characters[i]).Some? && ParticipantsOf(s)[i] == ParticipantsOf(t)[i]
      {
        assert s.game.characters[i] in s.game.characters;
        assert a.users[i] == b.users[i] && a.assignments[i] == b.assignments[i] && a.metadata[i] == b.metadata[i];
      }
      assert ParticipantsOf(s) == ParticipantsOf(t);
    }
  }

  /** The part of an essence that the game's own columns hold. */
  predicate SameColumns(a: Essence, b: Essence) {
    && a.options == b.options && a.name == b.name && a.seed == b.seed && a.score == b.score
    && a.turn == b.turn && a.end == b.end && a.started == b.started && a.finished == b.finished
  }

  lemma SameColumnsMatch(s: Snapshot, t: Snapshot)
    requires Completed(s) && s.finished.Some? && t.finished.Some?
    requires FitsShort(s.game.options.variant) && FitsLong(s.game.options.timePerTurn) && FitsShort(s.game.score)
    ensures SameGame(GameRowOf(s, s.finished.value), t) <==> SameColumns(EssenceOf(s), EssenceOf(t))
  {
    hide SnapshotValid, AllNotes, Whole, Short, Long, Encoded;
    CompleteIsFinished(s);
    var o, p := s.game.options, t.game.options;
    CutsUnlessItFits(o.numPlayers);
    CutsUnlessItFits(o.startingPlayer);
    CutsUnlessItFits(o.variant);
    CutsUnlessItFits(o.timePerTurn);
    CutsUnlessItFits(s.game.score);
    CutsUnlessItFits(s.game.turn);
    CutsUnlessItFits(s.game.end);
    var a, b := EssenceOf(s), EssenceOf(t);
    assert a.options == o.(timeBase := Whole(o.timeBase) as real);
    assert b.options == p.(timeBase := Whole(p.timeBase) as real);
  }

  lemma SameDecks(deal: Dealer, s: Snapshot, t: Snapshot)
    requires Encoded(s.game.deck).Some? && |s.players| == |s.game.characters| && s.finished.Some?
    requires s.game.options.variant == t.game.options.variant && s.seed == t.seed
    ensures DeckIs(deal, RowOf(deal, s), t.game.options.variant, t.seed, t.game.deck) <==> s.game.deck == t.game.deck
  {
    hide AllNotes, GameRowOf, ParticipantsOf, ShortActions, Encoded;
    if RowOf(deal, s).deck.Some? {
      DecodedIs(s.game.deck, t.game.deck, RowOf(deal, s).deck.value);
    }
  }

  /**
   A stored game is mistaken for no other: whatever is completed under its identity later is accepted
   exactly when it agrees in everything that the record stands for.
   */
  lemma RetryAcceptsOnlyTheSame(deal: Dealer, s: Snapshot, t: Snapshot)
    requires Completed(s) && Completed(t) && Fits(s)
    ensures s.finished.Some? && |s.players| == |s.game.characters|
    ensures t.finished.Some? && |t.players| == |t.game.characters|
    ensures Matches(deal, RowOf(deal, s), t) <==> EssenceOf(s) == EssenceOf(t)
  {
    hide SnapshotValid, Encoded, AllNotes, SameGame, GameRowOf, ParticipantsOf, ShortActions, DeckIs, MetadataFits, StoredDeck;
    CompleteIsFinished(s);
    CompleteIsFinished(t);
    SameUsers(s, t);
    SameColumnsMatch(s, t);
    ShortActionsAre(s.game.actions);
    if SameColumns(EssenceOf(s), EssenceOf(t)) {
      OptionsSame(s, t);
      SameDecks(deal, s, t);
    }
  }

  lemma OptionsSame(s: Snapshot, t: Snapshot)
    requires s.finished.Some? && t.finished.Some? && SameColumns(EssenceOf(s), EssenceOf(t))
    ensures s.game.options.variant == t.game.options.variant && s.seed == t.seed
  {
    assert EssenceOf(s).options.variant == s.game.options.variant;
    assert EssenceOf(t).options.variant == t.game.options.variant;
  }
}
