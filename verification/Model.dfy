/** Tables and games as they are checkpointed, the checks that every checkpoint passes, and replay conversion. */
module Model {
  import opened Common

  const MAX_SAFE: int := 9_007_199_254_740_991
  const IDLE_TIMEOUT: int := 1_800_000
  const MAX_LIST := 4096
  const FORMAT := "hanabi-live-1"

  const IN_PROGRESS := 0
  const ENDED_IDLE := 6

  datatype Player = Player(id: int, name: string)
  datatype Card = Card(suit: int, rank: int)
  datatype Action = Action(kind: int, target: int, value: int)
  datatype Character = Character(assignment: int, keepsMetadata: bool, metadata: int)
  datatype Tag = Tag(user: int, text: string)

  datatype Options = Options(
    numPlayers: int, startingPlayer: int, variant: int, timed: bool, timeBase: real, timePerTurn: int,
    rules: seq<bool>
  )

  /**
   The state of the rules engine, as far as the server looks at it. `consistent` is the engine's own
   verdict on everything else that it holds.
   */
  datatype Game = Game(
    options: Options, names: seq<string>, characters: seq<Character>, deck: seq<Card>, stacks: nat,
    actions: seq<Action>, score: int, turn: int, end: int, paused: bool, active: nat, consistent: bool
  )

  datatype Snapshot = Snapshot(
    format: string, tableId: int, gameId: int, name: string, players: seq<Player>, seed: string,
    started: int, finished: Option<int>, game: Game,
    clocks: seq<int>, duration: int, turnElapsed: int, timerStarted: bool, idleRemaining: int,
    pausePlayer: int, queuedPauses: seq<bool>,
    notes: seq<seq<string>>, spectatorNotes: map<int, seq<string>>, tags: set<Tag>, votes: seq<bool>,
    maintenanceApplied: bool
  )

  datatype Move = Move(length: nat, json: bool)
  datatype Controls = Controls(leader: int, segment: int, moves: seq<Move>, hypothetical: Option<Game>)

  datatype Phase =
    | Pregame(roster: seq<Player>, automaticStart: Option<int>, countdown: Option<int>, kicked: seq<int>)
    | Live(live: Snapshot)
    | Replay(reviewed: Snapshot, controls: Controls)

  datatype Operation = AddTag | DeleteTag | DeleteAllTags | UnknownOperation
  datatype TagEdit = TagEdit(gameId: int, user: int, operation: Operation, text: string)
  datatype Chat = Chat(id: Option<int>, user: int, content: string)

  datatype Table = Table(
    format: string, id: int, name: string, owner: int, visible: bool, options: Options, maxPlayers: int,
    noWrite: bool, phase: Phase, chat: seq<Chat>, archived: nat, shadows: map<int, Option<int>>,
    spawn: Option<Table>, retire: bool, tag: Option<TagEdit>
  )

  function Players(t: Table): seq<Player> {
    match t.phase
    case Pregame(roster, _, _, _) => roster
    case Live(s) => s.players
    case Replay(s, _) => s.players
  }

  function GameOf(t: Table): Option<Snapshot> {
    match t.phase
    case Pregame(_, _, _, _) => None
    case Live(s) => Some(s)
    case Replay(s, _) => Some(s)
  }

  function WithGame(t: Table, s: Snapshot): Table {
    match t.phase
    case Pregame(_, _, _, _) => t
    case Live(_) => t.(phase := Live(s))
    case Replay(_, controls) => t.(phase := Replay(s, controls))
  }

  /** What the engine checks of a state that it is given back. */
  predicate Sound(g: Game) {
    && 2 <= g.options.numPlayers <= 6 && 0 <= g.options.startingPlayer < g.options.numPlayers
    && |g.names| == |g.characters| == g.options.numPlayers && g.active < |g.names|
    && 1 <= |g.deck| <= 60 && g.stacks <= 6 && |g.actions| <= 512
    && (forall c <- g.deck :: 0 <= c.suit < 6 && (1 <= c.rank <= 5 || c.rank == 7))
    && 0 <= g.turn <= |g.actions| + 1 && 0 <= g.score
    && IN_PROGRESS <= g.end <= 10
    && g.consistent
  }

  predicate SafeInteger(n: int) {
    -MAX_SAFE <= n <= MAX_SAFE
  }

  predicate SnapshotValid(s: Snapshot) {
    var n := |s.players|;
    var size := |s.game.deck| + s.game.stacks;
    && s.format == FORMAT && s.tableId > 0 && s.gameId >= 0
    && Sound(s.game)
    && n == |s.game.names| && (forall i :: 0 <= i < n ==> s.players[i].name == s.game.names[i])
    && (s.finished.Some? <==> s.game.end != IN_PROGRESS)
    && |s.clocks| == |s.queuedPauses| == |s.notes| == |s.votes| == n
    && (forall note <- s.notes :: |note| == size && (forall text <- note :: |text| <= 65536))
    && (forall user <- s.spectatorNotes.Keys ::
          |s.spectatorNotes[user]| == size && (forall text <- s.spectatorNotes[user] :: |text| <= 1200))
    && TimingValid(s)
    && -1 <= s.pausePlayer < n && (s.game.paused <==> s.pausePlayer >= 0)
  }

  predicate TimingValid(s: Snapshot) {
    && 0 <= s.duration <= MAX_SAFE && 0 <= s.turnElapsed <= MAX_SAFE
    && (forall i :: 0 <= i < |s.clocks| ==> SafeInteger(s.clocks[i]))
    && 0 <= s.idleRemaining <= IDLE_TIMEOUT
  }

  predicate MetaValid(t: Table) {
    && t.format == FORMAT && 0 < t.id <= MAX_SAFE
    && 0 < |t.name| <= 200 && 2 <= t.maxPlayers <= 6
    && t.owner > 0 && 2 <= t.options.numPlayers <= 6
    && 0 <= t.options.startingPlayer < t.options.numPlayers
  }

  predicate ShadowsValid(t: Table) {
    && |t.shadows| <= MAX_LIST
    && (forall user <- t.shadows ::
          user > 0 && (t.shadows[user].Some? ==> 0 <= t.shadows[user].value < |Players(t)|))
  }

  /** Imported games name the players that are not accounts by their seats. */
  predicate PlayerValid(t: Table, seat: nat, p: Player) {
    && (p.id > 0 || (t.phase.Replay? && t.noWrite && p.id == -1 - seat))
    && 0 < |p.name| <= 100
  }

  predicate DistinctPlayers(players: seq<Player>) {
    forall i, j :: 0 <= i < j < |players| ==> players[i].id != players[j].id
  }

  predicate PlayersValid(t: Table) {
    && |Players(t)| <= t.maxPlayers
    && (forall seat :: 0 <= seat < |Players(t)| ==> PlayerValid(t, seat, Players(t)[seat]))
    && DistinctPlayers(Players(t))
  }

  predicate ChatValid(t: Table) {
    && t.archived <= |t.chat| <= MAX_LIST
    && (forall i, j :: 0 <= i < j < |t.chat| && t.chat[i].id.Some? ==> t.chat[i].id != t.chat[j].id)
    && (forall c <- t.chat :: c.id.Some? ==> c.id.value > 0)
  }

  predicate Seated(players: seq<Player>, id: int) {
    exists p <- players :: p.id == id
  }

  predicate PhaseValid(t: Table) {
    match t.phase
    case Pregame(roster, automaticStart, _, kicked) =>
      && (Seated(roster, t.owner) || (t.retire && t.spawn.Some?))
      && (automaticStart.Some? ==> 2 <= automaticStart.value <= 6) && |kicked| <= MAX_LIST
    case Live(s) => GameFits(t, s)
    case Replay(s, controls) => GameFits(t, s) && ControlsValid(controls)
  }

  predicate GameFits(t: Table, s: Snapshot) {
    SnapshotValid(s) && s.tableId == t.id && s.game.options == t.options
  }

  function MovesLength(moves: seq<Move>): nat {
    if moves == [] then 0 else moves[0].length + MovesLength(moves[1..])
  }

  predicate ControlsValid(c: Controls) {
    && c.segment >= 0 && |c.moves| <= MAX_LIST
    && MovesLength(c.moves) <= 4_194_304
    && (forall move <- c.moves :: move.json)
    && (c.hypothetical.Some? ==> Sound(c.hypothetical.value))
  }

  predicate TagValid(t: Table) {
    t.tag.Some? ==>
      var edit := t.tag.value;
      && edit.gameId > 0 && edit.user > 0 && edit.operation != UnknownOperation && |edit.text| <= 100
      && t.phase.Replay? && t.phase.reviewed.gameId == edit.gameId
  }

  /** What every checkpoint satisfies, except for the table that it is about to hand players to. */
  predicate SelfValid(t: Table) {
    MetaValid(t) && ShadowsValid(t) && PlayersValid(t) && ChatValid(t) && PhaseValid(t) && TagValid(t)
  }

  predicate Valid(t: Table) {
    && SelfValid(t)
    && (match t.spawn
        case None => !t.retire
        case Some(d) => d.id != t.id && d.spawn.None? && !d.retire && Valid(d))
  }

  /** Messages waiting for the archive have their identities before they are checkpointed. */
  predicate ChatReserved(t: Table)
    requires t.archived <= |t.chat|
  {
    forall c <- t.chat[t.archived..] :: c.id.Some?
  }

  predicate Storable(t: Table) {
    Valid(t) && ChatReserved(t)
  }

  predicate Finished(t: Table) {
    t.phase.Live? && t.phase.live.game.end != IN_PROGRESS
  }

  /** A finished game becomes its own review, with a fresh idle window unless it ended for idleness. */
  function AsReplay(t: Table): Table
    requires Finished(t)
  {
    var s := t.phase.live;
    var kept := if s.game.end == ENDED_IDLE then s.idleRemaining else IDLE_TIMEOUT;
    t.(phase := Replay(s.(idleRemaining := kept), Controls(t.owner, s.game.turn, [], None)))
  }

  method ConvertToReplay(t: Table) returns (r: Option<Table>)
    ensures r.Some? <==> Finished(t)
    ensures r.Some? ==> r.value == AsReplay(t)
  {
    if !t.phase.Live? {
      return None;
    }
    var snapshot := t.phase.live;
    if snapshot.game.end == IN_PROGRESS {
      return None;
    }
    if snapshot.game.end != ENDED_IDLE {
      snapshot := snapshot.(idleRemaining := IDLE_TIMEOUT);
    }
    var segment := snapshot.game.turn;
    r := Some(t.(phase := Replay(snapshot, Controls(t.owner, segment, [], None))));
  }

  /** A finished game that could be checkpointed can be checkpointed as a review. */
  lemma ReplayIsStorable(t: Table)
    requires Storable(t) && Finished(t)
    ensures Storable(AsReplay(t)) && !Finished(AsReplay(t))
    ensures Players(AsReplay(t)) == Players(t)
  {
    hide SnapshotValid, ChatValid, ShadowsValid, PlayerValid, DistinctPlayers;
    var r := AsReplay(t);
    assert Players(r) == Players(t);
    ReplayPlayers(t);
    ReplayGame(t);
  }

  lemma ReplayPlayers(t: Table)
    requires Finished(t) && PlayersValid(t) && ShadowsValid(t) && ChatValid(t)
    ensures PlayersValid(AsReplay(t)) && ShadowsValid(AsReplay(t)) && ChatValid(AsReplay(t))
  {
    assert Players(AsReplay(t)) == Players(t);
    assert forall seat :: 0 <= seat < |Players(t)| ==> PlayerValid(t, seat, Players(t)[seat]);
  }

  lemma ReplayGame(t: Table)
    requires Finished(t) && GameFits(t, t.phase.live)
    ensures GameFits(t, AsReplay(t).phase.reviewed) && ControlsValid(AsReplay(t).phase.controls)
  {}
}
