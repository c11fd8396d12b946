/**
 The clocks of one live game over any run of its table: what is charged, granted and kept, through
 rejected commands, restarts of the server and crashes.
 */
module Clock {
  import opened Common
  import opened Model

  const ALLOWANCE := 20_000

  function Least(a: int, b: int): int {
    if a < b then a else b
  }

  /** The time since the anchor that the next change accounts for. */
  function Delta(anchor: nat, now: nat): nat {
    if now < anchor then 0 else Least(now - anchor, MAX_SAFE)
  }

  predicate Playing(s: Snapshot) {
    s.game.end == IN_PROGRESS
  }

  predicate Running(s: Snapshot) {
    Playing(s) && s.timerStarted && !s.game.paused
  }

  function SaturatingAdd(a: int, b: nat): int {
    Least(a + b, 0x7fff_ffff_ffff_ffff)
  }

  /** The game as it is some time after its last change. */
  function Later(s: Snapshot, delta: nat): Snapshot
    requires s.game.active < |s.clocks|
  {
    var idle := if s.idleRemaining > delta then s.idleRemaining - delta else 0;
    var t := s.(idleRemaining := idle);
    if !Playing(s) then t
    else
      var u := t.(duration := SaturatingAdd(s.duration, delta));
      if !Running(s) then u
      else u.(clocks := s.clocks[s.game.active := s.clocks[s.game.active] - delta], turnElapsed := s.turnElapsed + delta)
  }

  /** The whole table, whose review only loses idle time. */
  function CandidateOf(t: Table, delta: nat): Table
    requires t.phase.Live? ==> t.phase.live.game.active < |t.phase.live.clocks|
  {
    match t.phase
    case Pregame(_, _, _, _) => t
    case Live(s) => t.(phase := Live(Later(s, delta)))
    case Replay(s, controls) =>
      t.(phase := Replay(s.(idleRemaining := if s.idleRemaining > delta then s.idleRemaining - delta else 0), controls))
  }

  /**
   Time alone makes a game invalid exactly when it takes a number past the largest safe integer, so
   this is when a change that is kept without a checkpoint could no longer be checkpointed.
   */
  lemma LaterIsValid(s: Snapshot, delta: nat)
    requires SnapshotValid(s) && delta <= MAX_SAFE
    ensures SnapshotValid(Later(s, delta)) <==>
              && (Playing(s) ==> s.duration + delta <= MAX_SAFE)
              && (Running(s) ==> -MAX_SAFE <= s.clocks[s.game.active] - delta && s.turnElapsed + delta <= MAX_SAFE)
  {
    SoundActive(s.game);
    LaterTiming(s, delta);
    LaterOtherwise(s, delta);
  }

  /** A running game whose clocks and durations are as given. */
  function Timed(duration: int, turnElapsed: int): Snapshot {
    Snapshot(FORMAT, 1, 1, "long", [Player(7, "a"), Player(8, "b")], "seed", 0, None,
             Game(Options(2, 0, 0, true, 60.0, 20, []), ["a", "b"], [Character(-1, false, 0), Character(-1, false, 0)],
                  [Card(0, 1)], 0, [], 0, 0, IN_PROGRESS, false, 0, true),
             [60_000, 60_000], duration, turnElapsed, true, 0, -1, [false, false], [[""], [""]], map[], {}, [false, false], false)
  }

  lemma TimedIsValid(duration: int, turnElapsed: int)
    requires 0 <= duration <= MAX_SAFE && 0 <= turnElapsed <= MAX_SAFE
    ensures SnapshotValid(Timed(duration, turnElapsed))
  {
    var s := Timed(duration, turnElapsed);
    assert |s.notes[0]| == |s.notes[1]| == 1;
  }

  /** Two games that are valid now and no more a millisecond later. */
  lemma TimeAloneInvalidates()
    ensures SnapshotValid(Timed(MAX_SAFE, 0)) && !SnapshotValid(Later(Timed(MAX_SAFE, 0), 1))
    ensures SnapshotValid(Timed(0, MAX_SAFE)) && !SnapshotValid(Later(Timed(0, MAX_SAFE), 1))
  {
    hide SnapshotValid;
    TimedIsValid(MAX_SAFE, 0);
    TimedIsValid(0, MAX_SAFE);
    LaterIsValid(Timed(MAX_SAFE, 0), 1);
    LaterIsValid(Timed(0, MAX_SAFE), 1);
  }

  lemma LaterTiming(s: Snapshot, delta: nat)
    requires TimingValid(s) && s.game.active < |s.clocks| && delta <= MAX_SAFE
    ensures TimingValid(Later(s, delta)) <==>
              && (Playing(s) ==> s.duration + delta <= MAX_SAFE)
              && (Running(s) ==> -MAX_SAFE <= s.clocks[s.game.active] - delta && s.turnElapsed + delta <= MAX_SAFE)
  {
    var t := Later(s, delta);
    assert SafeInteger(s.clocks[s.game.active]);
    assert TimingValid(t) ==> SafeInteger(t.clocks[s.game.active]);
    assert forall i :: 0 <= i < |t.clocks| && i != s.game.active ==> t.clocks[i] == s.clocks[i];
  }

  lemma LaterOtherwise(s: Snapshot, delta: nat)
    requires SnapshotValid(s)
    ensures s.game.active < |s.clocks|
    ensures SnapshotValid(Later(s, delta)) <==> TimingValid(Later(s, delta))
  {
    hide TimingValid;
    SoundActive(s.game);
  }

  lemma SoundActive(g: Game)
    requires Sound(g)
    ensures g.active < |g.names|
  {}

  // ---------------------------------------------------------------------------------------------
  // The changes.

  /** What the actor holds, since when, and what it last checkpointed. */
  datatype State = State(game: Snapshot, anchor: nat, saved: Snapshot)

  /**
   A command or timer at one moment, and the later moment at which its checkpoint was confirmed. The
   engine's answer and whether the checkpoint was accepted are not under the actor's control. Loading is
   by whoever is to act or not, and the engine was told before that the clock runs, or not. A gesture is
   an arrow or a sound in a review.
   */
  datatype Event =
    | Act(now: nat, done: nat, accepted: bool, seat: nat, after: Game)
    | SetPaused(now: nat, done: nat, accepted: bool, seat: nat, paused: bool)
    | QueuePause(now: nat, done: nat, accepted: bool, seat: nat, queued: bool)
    | Load(now: nat, done: nat, accepted: bool, byActive: bool, told: bool)
    | Other(now: nat, done: nat, accepted: bool)
    | Gesture(now: nat, accepted: bool)
    | Tick(now: nat, done: nat, accepted: bool, after: Game)
    | Drain(now: nat, done: nat, accepted: bool)
    | Crash(now: nat)

  /** The engine leaves the players and the options as they are, and keeps a player active. */
  predicate Answers(before: Game, after: Game) {
    after.options == before.options && |after.names| == |before.names| && after.active < |before.names|
  }

  predicate Shaped(s: Snapshot) {
    |s.clocks| == |s.queuedPauses| == |s.players| == |s.game.names| && s.game.active < |s.clocks|
  }

  function Acted(s: Snapshot, next: Snapshot, after: Game): Snapshot
    requires Shaped(s) && next.game == s.game && |next.clocks| == |s.clocks| && Answers(s.game, after)
  {
    var seat := s.game.active;
    var paid := if s.game.options.timed
                then next.clocks[seat := next.clocks[seat] + s.game.options.timePerTurn * 1000] else next.clocks;
    var acted := next.(clocks := paid, game := after, timerStarted := true, turnElapsed := 0,
                       idleRemaining := IDLE_TIMEOUT, maintenanceApplied := false);
    var active := after.active;
    if after.end == IN_PROGRESS && s.queuedPauses[active] then
      acted.(queuedPauses := s.queuedPauses[active := false], pausePlayer := active, game := after.(paused := true))
    else acted
  }

  function PausedBy(s: Snapshot, next: Snapshot, seat: nat, paused: bool): Option<Snapshot> {
    if !Playing(s) || !s.game.options.timed || seat >= |s.clocks| || s.game.paused == paused then None
    else
      var changed := next.(game := next.game.(paused := paused), pausePlayer := if paused then seat else -1);
      Some(if paused then changed else changed.(turnElapsed := 0))
  }

  /** The game that an event asks to checkpoint, if its guards let it. */
  function Wanted(s: Snapshot, delta: nat, event: Event): Option<Snapshot>
    requires Shaped(s)
    requires event.Act? || event.Tick? ==> Answers(s.game, event.after)
  {
    var next := Later(s, delta);
    match event
    case Act(_, _, _, seat, after) => if !Playing(s) || seat != s.game.active then None else Some(Acted(s, next, after))
    case SetPaused(_, _, _, seat, paused) => PausedBy(s, next, seat, paused)
    case QueuePause(_, _, _, seat, queued) =>
      // Whoever is to act pauses at once.
      if queued && seat == s.game.active then PausedBy(s, next, seat, true)
      else if !Playing(s) || !s.game.options.timed || seat >= |s.clocks| || s.queuedPauses[seat] == queued then None
      else Some(next.(queuedPauses := s.queuedPauses[seat := queued]))
    case Load(_, _, _, byActive, _) =>
      if Playing(s) && byActive then Some(next.(timerStarted := true)) else Some(next)
    case Other(_, _, _) => Some(next)
    case Gesture(_, _) => if Playing(s) then None else Some(next.(idleRemaining := IDLE_TIMEOUT))
    case Tick(_, _, _, after) =>
      var idle, timeout := next.idleRemaining == 0, s.game.options.timed && Running(s) && next.clocks[s.game.active] <= 0;
      if !Playing(s) || !(idle || timeout) then None
      else Some(next.(clocks := if timeout then next.clocks[s.game.active := 0] else next.clocks, game := after))
    case Drain(_, _, _) =>
      Some(if Playing(s) && s.game.options.timed && !s.maintenanceApplied then
             next.(clocks := Raised(next.clocks, ALLOWANCE), maintenanceApplied := true)
           else next)
    case Crash(_) => None
  }

  function Raised(clocks: seq<int>, amount: int): (raised: seq<int>)
    ensures |raised| == |clocks|
  {
    seq(|clocks|, i requires 0 <= i < |clocks| => clocks[i] + amount)
  }

  /** Whether a change is only kept in memory: loading saves nothing unless it starts the clock. */
  predicate Kept(s: Snapshot, event: Event) {
    event.Gesture? || (event.Load? && !(Playing(s) && event.byActive && !(s.timerStarted && event.told)))
  }

  predicate Accepted(event: Event) {
    match event
    case Crash(_) => false
    case _ => event.accepted
  }

  predicate Possible(s: State, event: Event) {
    && Shaped(s.game) && Shaped(s.saved)
    && s.anchor <= event.now
    && (!event.Gesture? && !event.Crash? ==> event.now <= event.done)
    && (event.Act? || event.Tick? ==> Answers(s.game.game, event.after))
  }

  /** A rejected change leaves everything as it was; a crash leaves the last checkpoint. */
  function Next(s: State, event: Event): State
    requires Possible(s, event)
  {
    var wanted := Wanted(s.game, Delta(s.anchor, event.now), event);
    if event.Crash? then State(s.saved, event.now, s.saved)
    else if wanted.None? || !Accepted(event) then s
    else if Kept(s.game, event) then State(wanted.value, event.now, s.saved)
    else State(wanted.value, event.done, wanted.value)
  }

  // ---------------------------------------------------------------------------------------------
  // When an action can be saved.

  /** What the engine answers to an action: a sound state of the same game, not paused by itself. */
  predicate Plays(before: Game, after: Game) {
    && Answers(before, after) && Sound(after) && after.names == before.names && after.paused == before.paused
    && |after.deck| + after.stacks == |before.deck| + before.stacks
  }

  /** A game that is over is saved with the time at which it ended. */
  function Ended(s: Snapshot, now: int): Snapshot {
    if s.game.end != IN_PROGRESS && s.finished.None? then s.(finished := Some(now)) else s
  }

  /** The clock of whoever acts, with the time that passed and the increment. */
  function PaidClock(s: Snapshot, delta: nat): int
    requires s.game.active < |s.clocks|
  {
    s.clocks[s.game.active] - (if Running(s) then delta else 0)
    + (if s.game.options.timed then s.game.options.timePerTurn * 1000 else 0)
  }

  /**
   An action that the engine takes can be saved exactly when neither the duration of the game nor the
   clock of whoever acts leaves the safe integers. The time of the turn does not matter: it starts anew.
   */
  lemma ActionIsValid(s: Snapshot, delta: nat, event: Event)
    requires SnapshotValid(s) && Playing(s) && delta <= MAX_SAFE
    requires event.Act? && event.seat == s.game.active && Plays(s.game, event.after)
    ensures Shaped(s) && Wanted(s, delta, event).Some?
    ensures SnapshotValid(Ended(Wanted(s, delta, event).value, event.now)) <==>
              s.duration + delta <= MAX_SAFE && SafeInteger(PaidClock(s, delta))
  {
    SoundActive(s.game);
    hide Acted, Sound;
    ActionTiming(s, delta, event.after, event.now);
    ActionOtherwise(s, Later(s, delta), event.after, event.now);
  }

  lemma ActionTiming(s: Snapshot, delta: nat, after: Game, now: int)
    requires TimingValid(s) && Shaped(s) && Playing(s) && delta <= MAX_SAFE && Answers(s.game, after)
    ensures TimingValid(Ended(Acted(s, Later(s, delta), after), now)) <==>
              s.duration + delta <= MAX_SAFE && SafeInteger(PaidClock(s, delta))
  {
    hide Acted, Ended, Later, PaidClock, SafeInteger, Answers;
    LaterFits(s, delta);
    var next := Ended(Acted(s, Later(s, delta), after), now);
    ActedTiming(s, delta, after, now);
    assert TimingValid(next) ==> SafeInteger(next.clocks[s.game.active]);
    assert forall i :: 0 <= i < |next.clocks| && i != s.game.active ==> next.clocks[i] == s.clocks[i];
  }

  lemma LaterFits(s: Snapshot, delta: nat)
    requires s.game.active < |s.clocks|
    ensures Later(s, delta).game == s.game && |Later(s, delta).clocks| == |s.clocks|
  {}

  lemma ActedTiming(s: Snapshot, delta: nat, after: Game, now: int)
    requires Shaped(s) && Playing(s) && Answers(s.game, after)
    ensures var next := Ended(Acted(s, Later(s, delta), after), now);
            && next.clocks == s.clocks[s.game.active := PaidClock(s, delta)] && next.duration == SaturatingAdd(s.duration, delta)
            && next.turnElapsed == 0 && next.idleRemaining == IDLE_TIMEOUT
  {}

  lemma ActionOtherwise(s: Snapshot, next: Snapshot, after: Game, now: int)
    requires SnapshotValid(s) && Shaped(s) && Playing(s) && Plays(s.game, after)
    requires next == s.(idleRemaining := next.idleRemaining, duration := next.duration, clocks := next.clocks, turnElapsed := next.turnElapsed)
    requires |next.clocks| == |s.clocks|
    ensures var saved := Ended(Acted(s, next, after), now);
            SnapshotValid(saved) <==> TimingValid(saved)
  {
    hide TimingValid;
    var saved := Ended(Acted(s, next, after), now);
    PausedIsSound(after);
    assert Sound(saved.game) && saved.game.names == s.game.names;
  }

  lemma PausedIsSound(g: Game)
    ensures Sound(g.(paused := true)) <==> Sound(g)
  {}

  // ---------------------------------------------------------------------------------------------
  // The account.

  function Sum(clocks: seq<int>): int {
    if clocks == [] then 0 else Sum(clocks[..|clocks| - 1]) + clocks[|clocks| - 1]
  }

  lemma {:induction false} SumUpdates(clocks: seq<int>, i: nat, v: int)
    requires i < |clocks|
    ensures Sum(clocks[i := v]) == Sum(clocks) - clocks[i] + v
    decreases |clocks|
  {
    var last := |clocks| - 1;
    if i < last {
      SumUpdates(clocks[..last], i, v);
      assert clocks[i := v][..last] == clocks[..last][i := v];
    } else {
      assert clocks[i := v][..last] == clocks[..last];
    }
  }

  lemma {:induction false} SumRaised(clocks: seq<int>, amount: int)
    ensures Sum(Raised(clocks, amount)) == Sum(clocks) + |clocks| * amount
    decreases |clocks|
  {
    if clocks != [] {
      var last := |clocks| - 1;
      SumRaised(clocks[..last], amount);
      assert Raised(clocks, amount)[..last] == Raised(clocks[..last], amount);
      assert |clocks| * amount == last * amount + amount;
    }
  }

  datatype Interval = Interval(from: nat, to: nat)

  /** What happened to the clocks since the game began. */
  datatype Account = Account(start: int, increments: int, allowances: int, granted: nat, charged: seq<Interval>, forgiven: int)

  /** The account of what the actor holds and that of its last checkpoint. */
  datatype Books = Books(held: Account, saved: Account)

  function Length(intervals: seq<Interval>): int {
    if intervals == [] then 0
    else Length(intervals[..|intervals| - 1]) + Delta(intervals[|intervals| - 1].from, intervals[|intervals| - 1].to)
  }

  /** What one accepted change books. */
  function Booked(s: State, event: Event, a: Account): Account
    requires Possible(s, event) && Wanted(s.game, Delta(s.anchor, event.now), event).Some?
  {
    var g := s.game;
    var next := Later(g, Delta(s.anchor, event.now));
    var b := if Running(g) then a.(charged := a.charged + [Interval(s.anchor, event.now)]) else a;
    match event
    case Act(_, _, _, _, _) =>
      b.(increments := a.increments + (if g.game.options.timed then g.game.options.timePerTurn * 1000 else 0), granted := 0)
    case Tick(_, _, _, _) =>
      if g.game.options.timed && Running(g) && next.clocks[g.game.active] <= 0
      then b.(forgiven := a.forgiven - next.clocks[g.game.active]) else b
    case Drain(_, _, _) =>
      if Playing(g) && g.game.options.timed && !g.maintenanceApplied
      then b.(allowances := a.allowances + |g.clocks| * ALLOWANCE, granted := a.granted + 1) else b
    case _ => b
  }

  function Book(s: State, event: Event, books: Books): Books
    requires Possible(s, event)
  {
    if event.Crash? then books.(held := books.saved)
    else if Wanted(s.game, Delta(s.anchor, event.now), event).None? || !Accepted(event) then books
    else
      var held := Booked(s, event, books.held);
      if Kept(s.game, event) then books.(held := held) else Books(held, held)
  }

  /** The clocks add up, and each charged interval ended before the next one began. */
  ghost predicate Balanced(s: Snapshot, until: nat, a: Account) {
    && Shaped(s)
    && Sum(s.clocks) == a.start + a.increments + a.allowances - Length(a.charged) + a.forgiven
    && Disjoint(a.charged, until)
    && a.granted == (if s.maintenanceApplied then 1 else 0)
  }

  ghost predicate Disjoint(charged: seq<Interval>, until: nat) {
    && (forall i {:trigger charged[i]} :: 0 <= i < |charged| ==> charged[i].from <= charged[i].to <= until)
    && (forall i, j {:trigger charged[i], charged[j]} :: 0 <= i < j < |charged| ==> charged[i].to <= charged[j].from)
  }

  lemma DisjointMore(charged: seq<Interval>, anchor: nat, now: nat, until: nat)
    requires Disjoint(charged, anchor) && anchor <= now <= until
    ensures Disjoint(charged + [Interval(anchor, now)], until) && Disjoint(charged, until)
    ensures Length(charged + [Interval(anchor, now)]) == Length(charged) + Delta(anchor, now)
  {
    assert (charged + [Interval(anchor, now)])[..|charged|] == charged;
  }

  lemma LaterCharges(s: Snapshot, delta: nat)
    requires Shaped(s)
    ensures Shaped(Later(s, delta)) && Later(s, delta).game == s.game
    ensures Sum(Later(s, delta).clocks) == Sum(s.clocks) - (if Running(s) then delta else 0)
    ensures Later(s, delta).maintenanceApplied == s.maintenanceApplied && Later(s, delta).queuedPauses == s.queuedPauses
  {
    SumUpdates(s.clocks, s.game.active, s.clocks[s.game.active] - delta);
  }

  /** What each kind of change does to the sum, besides the time it charges. */
  lemma WantedAdds(s: State, event: Event, a: Account)
    requires Possible(s, event)
    requires Wanted(s.game, Delta(s.anchor, event.now), event).Some?
    ensures var w := Wanted(s.game, Delta(s.anchor, event.now), event).value;
            var b := Booked(s, event, a);
            && Shaped(w)
            && Sum(w.clocks) - Sum(Later(s.game, Delta(s.anchor, event.now)).clocks)
               == (b.increments - a.increments) + (b.allowances - a.allowances) + (b.forgiven - a.forgiven)
            && b.start == a.start
            && b.charged == (if Running(s.game) then a.charged + [Interval(s.anchor, event.now)] else a.charged)
            && (a.granted == (if s.game.maintenanceApplied then 1 else 0) ==> b.granted == (if w.maintenanceApplied then 1 else 0))
  {
    hide Later, Sum, Delta;
    var delta := Delta(s.anchor, event.now);
    var next := Later(s.game, delta);
    LaterCharges(s.game, delta);
    match event
    case Act(_, _, _, _, _) => ActAdds(s, event, a);
    case Tick(_, _, _, _) => SumUpdates(next.clocks, s.game.game.active, 0);
    case Drain(_, _, _) => SumRaised(next.clocks, ALLOWANCE);
    case _ =>
  }

  lemma ActAdds(s: State, event: Event, a: Account)
    requires Possible(s, event) && event.Act?
    requires Wanted(s.game, Delta(s.anchor, event.now), event).Some?
    ensures var w := Wanted(s.game, Delta(s.anchor, event.now), event).value;
            var b := Booked(s, event, a);
            && Shaped(w)
            && Sum(w.clocks) - Sum(Later(s.game, Delta(s.anchor, event.now)).clocks) == b.increments - a.increments
            && b == a.(increments := b.increments, granted := 0, charged := b.charged)
            && b.charged == (if Running(s.game) then a.charged + [Interval(s.anchor, event.now)] else a.charged)
            && !w.maintenanceApplied
  {
    hide Later, Sum, Delta;
    var next := Later(s.game, Delta(s.anchor, event.now));
    LaterCharges(s.game, Delta(s.anchor, event.now));
    SumUpdates(next.clocks, event.seat, next.clocks[event.seat] + s.game.game.options.timePerTurn * 1000);
  }

  lemma StepBalances(s: State, event: Event, books: Books)
    requires Possible(s, event)
    requires Balanced(s.game, s.anchor, books.held) && Balanced(s.saved, s.anchor, books.saved)
    ensures var next := Next(s, event);
            var after := Book(s, event, books);
            Balanced(next.game, next.anchor, after.held) && Balanced(next.saved, next.anchor, after.saved)
  {
    hide Wanted, Booked, Sum, Length, Later;
    var delta := Delta(s.anchor, event.now);
    var until := if Kept(s.game, event) || event.Crash? then event.now else event.done;
    DisjointMore(books.held.charged, s.anchor, event.now, until);
    DisjointMore(books.saved.charged, s.anchor, event.now, until);
    if Wanted(s.game, delta, event).Some? {
      LaterCharges(s.game, delta);
      WantedAdds(s, event, books.held);
    }
  }

  // ---------------------------------------------------------------------------------------------
  // Runs.

  ghost predicate IsRun(states: seq<State>, events: seq<Event>) {
    && |states| == |events| + 1
    && (forall i {:trigger states[i]} :: 0 <= i < |events| ==> Moves(states[i], events[i], states[i + 1]))
  }

  predicate Moves(s: State, event: Event, next: State) {
    Possible(s, event) && next == Next(s, event)
  }

  function Opening(s: Snapshot): Account {
    Account(Sum(s.clocks), 0, 0, 0, [], 0)
  }

  /** The books after some of the events of a run. */
  ghost function BooksAt(states: seq<State>, events: seq<Event>, k: nat): Books
    requires IsRun(states, events) && k <= |events|
    requires Shaped(states[0].game)
  {
    if k == 0 then Books(Opening(states[0].game), Opening(states[0].game))
    else
      assert Moves(states[k - 1], events[k - 1], states[k - 1 + 1]);
      Book(states[k - 1], events[k - 1], BooksAt(states, events, k - 1))
  }

  /**
   From the moment a game starts, through any commands, rejections, drains and crashes: the clocks are
   the time granted less the time charged, no moment is charged twice, and the allowance for
   maintenance is granted at most once until somebody acts.
   */
  lemma {:induction false} ClocksBalance(states: seq<State>, events: seq<Event>, k: nat)
    requires IsRun(states, events) && k <= |events|
    requires Shaped(states[0].game) && states[0].saved == states[0].game && !states[0].game.maintenanceApplied
    ensures Balanced(states[k].game, states[k].anchor, BooksAt(states, events, k).held)
    ensures Balanced(states[k].saved, states[k].anchor, BooksAt(states, events, k).saved)
    ensures BooksAt(states, events, k).held.granted <= 1
  {
    hide Wanted, Booked, Sum, Length, Later, Next, Book, Balanced;
    if k == 0 {
      NothingBooked(states[0].game, states[0].anchor);
    } else {
      assert Moves(states[k - 1], events[k - 1], states[k - 1 + 1]);
      ClocksBalance(states, events, k - 1);
      StepBalances(states[k - 1], events[k - 1], BooksAt(states, events, k - 1));
    }
    GrantedOnce(states[k].game, states[k].anchor, BooksAt(states, events, k).held);
  }

  lemma NothingBooked(s: Snapshot, anchor: nat)
    requires Shaped(s) && !s.maintenanceApplied
    ensures Balanced(s, anchor, Opening(s))
  {}

  lemma GrantedOnce(s: Snapshot, until: nat, a: Account)
    requires Balanced(s, until, a)
    ensures a.granted <= 1
  {}

  /** What is rejected charges nothing: the next change accounts for the whole time once. */
  lemma RejectedChargesNothing(s: State, event: Event, next: Event, books: Books)
    requires Possible(s, event) && !event.Crash? && !event.accepted
    requires Possible(s, next)
    ensures Next(s, event) == s && Book(s, event, books) == books
    ensures Next(Next(s, event), next) == Next(s, next)
  {
    hide Wanted, Booked, Later;
  }

  // ---------------------------------------------------------------------------------------------
  // The actor.

  lemma LaterKeeps(s: Snapshot, delta: nat)
    requires s.game.active < |s.clocks|
    ensures Later(s, delta).timerStarted == s.timerStarted
  {}

  class Actor {
    var game: Snapshot
    var anchor: nat
    var saved: Snapshot

    constructor (s: Snapshot, now: nat)
      ensures Contents() == State(s, now, s)
    {
      game, anchor, saved := s, now, s;
    }

    function Contents(): State
      reads this
    {
      State(game, anchor, saved)
    }

    method Candidate(now: nat) returns (next: Snapshot)
      requires Shaped(game)
      ensures next == Later(game, Delta(anchor, now))
    {
      var delta := if now < anchor then 0 else Least(now - anchor, MAX_SAFE);
      next := game;
      next := next.(idleRemaining := if next.idleRemaining - delta < 0 then 0 else next.idleRemaining - delta);
      if next.game.end == IN_PROGRESS {
        next := next.(duration := SaturatingAdd(next.duration, delta));
        if next.timerStarted && !next.game.paused {
          var active := next.game.active;
          next := next.(clocks := next.clocks[active := next.clocks[active] - delta], turnElapsed := next.turnElapsed + delta);
        }
      }
    }

    method Persist(next: Snapshot, done: nat, accepted: bool) returns (ok: bool)
      modifies this
      ensures ok == accepted
      ensures Contents() == if accepted then State(next, done, next) else old(Contents())
    {
      if accepted {
        game, anchor, saved := next, done, next;
      }
      ok := accepted;
    }

    method TakeAction(event: Event) returns (ok: bool)
      requires event.Act? && Possible(Contents(), event)
      modifies this
      ensures Contents() == Next(old(Contents()), event)
    {
      hide Later;
      LaterCharges(game, Delta(anchor, event.now));
      var seat := event.seat;
      if game.game.end != IN_PROGRESS || seat != game.game.active {
        return false;
      }
      var next := Candidate(event.now);
      if next.game.options.timed {
        next := next.(clocks := next.clocks[seat := next.clocks[seat] + next.game.options.timePerTurn * 1000]);
      }
      next := next.(game := event.after, timerStarted := true, turnElapsed := 0,
                    idleRemaining := IDLE_TIMEOUT, maintenanceApplied := false);
      var active := next.game.active;
      if next.game.end == IN_PROGRESS && next.queuedPauses[active] {
        next := next.(queuedPauses := next.queuedPauses[active := false], pausePlayer := active,
                      game := next.game.(paused := true));
      }
      ok := Persist(next, event.done, event.accepted);
    }

    method Pause(event: Event) returns (ok: bool)
      requires (event.SetPaused? || event.QueuePause?) && Possible(Contents(), event)
      modifies this
      ensures Contents() == Next(old(Contents()), event)
    {
      hide Later;
      LaterCharges(game, Delta(anchor, event.now));
      if game.game.end != IN_PROGRESS || !game.game.options.timed || event.seat >= |game.clocks| {
        return false;
      }
      var seat := event.seat;
      var queue := event.QueuePause? && !(event.queued && seat == game.game.active);
      var paused := if event.SetPaused? then event.paused else true;
      if if queue then game.queuedPauses[seat] == event.queued else game.game.paused == paused {
        return false;
      }
      var next := Candidate(event.now);
      if queue {
        next := next.(queuedPauses := next.queuedPauses[seat := event.queued]);
      } else {
        next := next.(game := next.game.(paused := paused), pausePlayer := if paused then seat else -1);
        if !paused {
          next := next.(turnElapsed := 0);
        }
      }
      ok := Persist(next, event.done, event.accepted);
    }

    method Timer(event: Event) returns (ok: bool)
      requires event.Tick? && Possible(Contents(), event)
      modifies this
      ensures Contents() == Next(old(Contents()), event)
    {
      hide Later;
      LaterCharges(game, Delta(anchor, event.now));
      var next := Candidate(event.now);
      if next.game.end != IN_PROGRESS {
        return false;
      }
      var active := next.game.active;
      var idle := next.idleRemaining == 0;
      var timeout := next.game.options.timed && game.timerStarted && !next.game.paused && next.clocks[active] <= 0;
      if !idle && !timeout {
        return false;
      }
      if timeout {
        next := next.(clocks := next.clocks[active := 0]);
      }
      next := next.(game := event.after);
      ok := Persist(next, event.done, event.accepted);
    }

    method Stop(event: Event) returns (ok: bool)
      requires event.Drain? && Possible(Contents(), event)
      modifies this
      ensures Contents() == Next(old(Contents()), event)
    {
      hide Later;
      LaterCharges(game, Delta(anchor, event.now));
      var next := Candidate(event.now);
      if next.game.end == IN_PROGRESS && next.game.options.timed && !next.maintenanceApplied {
        var clocks: seq<int> := [];
        for i := 0 to |next.clocks|
          invariant |clocks| == i && forall k :: 0 <= k < i ==> clocks[k] == next.clocks[k] + ALLOWANCE
        {
          clocks := clocks + [next.clocks[i] + ALLOWANCE];
        }
        assert clocks == Raised(next.clocks, ALLOWANCE);
        next := next.(clocks := clocks, maintenanceApplied := true);
      }
      ok := Persist(next, event.done, event.accepted);
    }

    /** A change that is not worth a checkpoint is kept in memory, unless the table is frozen or the lease is lost. */
    method ApplyWithoutCheckpoint(next: Snapshot, now: nat, leased: bool, frozen: bool) returns (ok: bool)
      modifies this`game, this`anchor
      ensures ok <==> leased && !frozen
      ensures Contents() == if ok then State(next, now, old(saved)) else old(Contents())
    {
      if !leased || frozen {
        return false;
      }
      game, anchor := next, now;
      ok := true;
    }

    /** Whoever is to act starts the clock by loading, which is saved; any other loading only moves the anchor. */
    method Loaded(event: Event, leased: bool, frozen: bool) returns (ok: bool)
      requires event.Load? && Possible(Contents(), event)
      requires Kept(game, event) ==> event.accepted == (leased && !frozen)
      modifies this
      ensures ok == event.accepted && Contents() == Next(old(Contents()), event)
    {
      hide Later;
      LaterCharges(game, Delta(anchor, event.now));
      var next := Candidate(event.now);
      var starts := false;
      LaterKeeps(game, Delta(anchor, event.now));
      if next.game.end == IN_PROGRESS && event.byActive {
        starts := !next.timerStarted || !event.told;
        next := next.(timerStarted := true);
      }
      if starts {
        ok := Persist(next, event.done, event.accepted);
      } else {
        ok := ApplyWithoutCheckpoint(next, event.now, leased, frozen);
      }
    }

    /** An arrow or a sound in a review resets its idle time, which is not worth a checkpoint. */
    method Point(event: Event, leased: bool, frozen: bool) returns (ok: bool)
      requires event.Gesture? && Possible(Contents(), event) && game.game.end != IN_PROGRESS
      requires event.accepted == (leased && !frozen)
      modifies this
      ensures ok == event.accepted && saved == old(saved) && Contents() == Next(old(Contents()), event)
    {
      var next := Candidate(event.now);
      next := next.(idleRemaining := IDLE_TIMEOUT);
      ok := ApplyWithoutCheckpoint(next, event.now, leased, frozen);
    }
  }
}
