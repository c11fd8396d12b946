/**
 Players who lose their connection before a game keep their seats for a while: who is removed, and when,
 over any run of cleanups, disconnects and reconnects.
 */
module Grace {
  import opened Common
  import opened Model
  import opened Roster

  const GRACE: nat := 60_000

  /** One connection to the table; a connection that is gone does not come back. */
  datatype Attendance = Attendance(spectator: bool, active: bool)

  datatype State = State(table: Table, attendees: map<int, Attendance>, absentUntil: map<int, nat>, retired: bool)

  datatype Event =
    | Cleanup(now: nat, accepted: bool)
    | Attend(now: nat, user: int, spectator: bool, active: bool)
    | Enter(now: nat, player: Player, accepted: bool)
    | Disconnect(now: nat, user: int)
    | Exit(now: nat, user: int, accepted: bool)
    | Change(now: nat, next: Table)

  /** Whether somebody sits at the table over a connection that is alive. */
  predicate Here(s: State, user: int) {
    user in s.attendees && !s.attendees[user].spectator && s.attendees[user].active
  }

  predicate Possible(s: State, event: Event) {
    match event
    case Cleanup(_, _) => !s.retired
    // Only a player or a spectator who does not play attends a pregame.
    case Attend(_, user, spectator, _) => !s.retired && (spectator ==> !Seated(Players(s.table), user))
    case Enter(_, p, _) => !s.retired && s.table.phase.Pregame?
    case Disconnect(_, _) => true
    case Exit(_, _, _) => !s.retired
    case Change(_, _) => !s.retired
  }

  function Absent(s: State): set<int> {
    set p <- Players(s.table) | !Here(s, p.id) :: p.id
  }

  /** The deadlines of those who are absent; whoever was not before is given the whole grace. */
  function Deadlines(s: State, now: nat): map<int, nat> {
    map id | id in Absent(s) :: if id in s.absentUntil then s.absentUntil[id] else now + GRACE
  }

  function Expired(until: map<int, nat>, now: nat): set<int> {
    set id | id in until && until[id] <= now
  }

  function Alive(attendees: map<int, Attendance>): map<int, Attendance> {
    map id | id in attendees && attendees[id].active :: attendees[id]
  }

  /** A cleanup, whose checkpoint may be rejected; then everybody stays. */
  function Cleaned(s0: State, now: nat, accepted: bool): State {
    var s := s0.(attendees := Alive(s0.attendees));
    if !s.table.phase.Pregame? then s.(absentUntil := map[])
    else
      var until := Deadlines(s, now);
      var removed := Expired(until, now);
      var t := s.(absentUntil := until);
      if removed == {} then t
      else
        var next := Roster.Without(s.table, removed);
        if Players(next) == [] then t.(retired := accepted)
        else if !accepted then t
        else t.(table := next, absentUntil := until - removed)
  }

  function Next(s: State, event: Event): State
    requires Possible(s, event)
  {
    match event
    case Cleanup(now, accepted) => Cleaned(s, now, accepted)
    case Attend(_, user, spectator, active) =>
      s.(attendees := s.attendees[user := Attendance(spectator, active)],
         absentUntil := if !spectator && active then s.absentUntil - {user} else s.absentUntil)
    case Enter(_, p, accepted) =>
      if !accepted || Seated(Players(s.table), p.id) then s
      else
        s.(table := WithRoster(s.table, Players(s.table) + [p]),
           attendees := s.attendees[p.id := Attendance(false, true)],
           absentUntil := s.absentUntil - {p.id})
    case Disconnect(_, user) =>
      if user in s.attendees then s.(attendees := s.attendees[user := s.attendees[user].(active := false)]) else s
    case Exit(_, user, accepted) =>
      if !accepted then s
      else s.(table := Roster.Without(s.table, {user}), attendees := s.attendees - {user},
              retired := Players(Roster.Without(s.table, {user})) == [])
    case Change(_, next) => s.(table := next)
  }

  // ---------------------------------------------------------------------------------------------
  // Runs.

  ghost predicate IsRun(states: seq<State>, events: seq<Event>) {
    && |states| == |events| + 1 && states[0].absentUntil == map[]
    && (forall i {:trigger states[i]} :: 0 <= i < |events| ==> Moves(states[i], events[i], states[i + 1]))
    && (forall i, j {:trigger events[i], events[j]} :: 0 <= i < j < |events| ==> events[i].now <= events[j].now)
  }

  predicate Moves(s: State, event: Event, next: State) {
    Possible(s, event) && next == Next(s, event)
  }

  /** What a step does to the deadline of one player. */
  lemma StepKeepsDeadline(s: State, event: Event, user: int)
    requires Possible(s, event) && (user in s.absentUntil ==> !Here(s, user))
    ensures var next := Next(s, event);
            user in next.absentUntil ==>
              && !Here(next, user)
              && (user in s.absentUntil ==> next.absentUntil[user] == s.absentUntil[user])
              && (user !in s.absentUntil ==> event.Cleanup? && next.absentUntil[user] == event.now + GRACE)
  {
    hide Roster.Without, Seated, Players, WithRoster;
    if event.Cleanup? {
      CleanedDeadline(s, event.now, event.accepted, user);
    }
  }

  lemma CleanedDeadline(s: State, now: nat, accepted: bool, user: int)
    ensures var next := Cleaned(s, now, accepted);
            user in next.absentUntil ==>
              && !Here(next, user)
              && next.absentUntil[user] == (if user in s.absentUntil then s.absentUntil[user] else now + GRACE)
  {
    hide Roster.Without, Players;
  }

  /**
   While a deadline is set, its player has not been here; and every moment at which the player was here
   lies at least the whole grace before the deadline.
   */
  lemma {:induction false} DeadlineIsLate(states: seq<State>, events: seq<Event>, k: nat, user: int)
    requires IsRun(states, events) && k < |states| && user in states[k].absentUntil
    ensures !Here(states[k], user)
    ensures forall j {:trigger states[j]} :: 0 <= j < k && Here(states[j], user) ==>
              events[j].now + GRACE <= states[k].absentUntil[user]
  {
    hide Next, Possible, Here;
    if k > 0 {
      assert Moves(states[k - 1], events[k - 1], states[k - 1 + 1]);
      if user in states[k - 1].absentUntil {
        DeadlineIsLate(states, events, k - 1, user);
      }
      StepKeepsDeadline(states[k - 1], events[k - 1], user);
      forall j | 0 <= j < k && Here(states[j], user)
        ensures events[j].now + GRACE <= states[k].absentUntil[user]
      {
        if j < k - 1 {
          assert events[j].now <= events[k - 1].now;
        }
      }
    }
  }

  /** A cleanup removes only players whose deadline had been set before and is over. */
  lemma OnlyExpiredAreRemoved(s: State, now: nat, accepted: bool, user: int)
    requires Seated(Players(s.table), user) && !Seated(Players(Cleaned(s, now, accepted).table), user)
    ensures user in s.absentUntil && s.absentUntil[user] <= now
  {
    hide Here, Absent;
    var s1 := s.(attendees := Alive(s.attendees));
    var until := Deadlines(s1, now);
    StaysUnlessRemoved(s.table, Expired(until, now), user);
  }

  lemma StaysUnlessRemoved(t: Table, removed: set<int>, user: int)
    requires t.phase.Pregame? ==> Seated(Players(t), user)
    ensures t.phase.Pregame? && user !in removed ==> Seated(Players(Roster.Without(t, removed)), user)
    ensures !t.phase.Pregame? ==> Roster.Without(t, removed) == t
  {
    if t.phase.Pregame? && user !in removed {
      var p :| p in t.phase.roster && p.id == user;
      var rest := Staying(t.phase.roster, removed);
      assert p in rest;
      WithoutRoster(t, removed);
    }
  }

  lemma WithoutRoster(t: Table, removed: set<int>)
    requires t.phase.Pregame?
    ensures var rest := Staying(t.phase.roster, removed);
            Players(Roster.Without(t, removed)) == if |rest| == |t.phase.roster| then t.phase.roster else rest
  {
    hide Notices, Seated, Staying;
    var rest := Staying(t.phase.roster, removed);
    if |rest| != |t.phase.roster| && rest != [] {
      NoticesKeep(WithRoster(t, rest).(owner := if Seated(rest, t.owner) then t.owner else rest[0].id,
                                       shadows := t.shadows - removed), |t.phase.roster| - |rest|);
    }
  }

  /**
   Nobody is removed too early: a player whom a cleanup removes was not here at any moment of the minute
   before it, in whatever way connections came and went.
   */
  lemma RemovedAfterTheWholeGrace(states: seq<State>, events: seq<Event>, i: nat, user: int)
    requires IsRun(states, events) && i < |events| && events[i].Cleanup?
    requires Seated(Players(states[i].table), user) && !Seated(Players(states[i + 1].table), user)
    ensures !Here(states[i], user)
    ensures forall j {:trigger states[j]} :: 0 <= j <= i && Here(states[j], user) ==> events[j].now + GRACE <= events[i].now
  {
    hide Cleaned, Here, Players, Seated;
    assert Moves(states[i], events[i], states[i + 1]);
    OnlyExpiredAreRemoved(states[i], events[i].now, events[i].accepted, user);
    DeadlineIsLate(states, events, i, user);
  }

  /** Nobody stays too long either: who is still absent at the deadline is gone after an accepted cleanup. */
  lemma ExpiredAreRemoved(s: State, now: nat, user: int)
    requires s.table.phase.Pregame? && Seated(Players(s.table), user) && !Here(s, user)
    requires user in s.absentUntil && s.absentUntil[user] <= now
    ensures Cleaned(s, now, true).retired || !Seated(Players(Cleaned(s, now, true).table), user)
  {
    hide Roster.Without, Staying;
    var s1 := s.(attendees := Alive(s.attendees));
    var p :| p in s.table.phase.roster && p.id == user;
    assert !Here(s1, p.id);
    assert user in Absent(s1);
    var until := Deadlines(s1, now);
    assert user in Expired(until, now);
    WithoutRoster(s.table, Expired(until, now));
    RemovedIsGone(s.table.phase.roster, Expired(until, now), user);
  }

  lemma RemovedIsGone(players: seq<Player>, removed: set<int>, user: int)
    requires user in removed
    ensures !Seated(Staying(players, removed), user)
    ensures Seated(players, user) ==> |Staying(players, removed)| < |players|
  {
    if Seated(players, user) {
      var p :| p in players && p.id == user;
      StayingShrinks(players, removed, p);
    }
  }

  lemma {:induction false} StayingShrinks(players: seq<Player>, removed: set<int>, p: Player)
    requires p in players && p.id in removed
    ensures |Staying(players, removed)| < |players|
  {
    if players[0] != p {
      StayingShrinks(players[1..], removed, p);
    }
  }

  /** After a cleanup the table is gone, or somebody who still sits there owns it. */
  lemma CleanedHasOwner(s: State, now: nat)
    requires s.table.phase.Pregame? && Seated(Players(s.table), s.table.owner)
    ensures var next := Cleaned(s, now, true);
            next.retired || Seated(Players(next.table), next.table.owner)
  {
    var s1 := s.(attendees := Alive(s.attendees));
    WithoutHasOwner(s.table, Expired(Deadlines(s1, now), now));
  }

  lemma WithoutHasOwner(t: Table, removed: set<int>)
    requires t.phase.Pregame? && Seated(t.phase.roster, t.owner)
    ensures var next := Roster.Without(t, removed);
            Players(next) == [] || Seated(Players(next), next.owner)
  {
    hide Notices, Staying;
    var rest := Staying(t.phase.roster, removed);
    if |rest| != |t.phase.roster| && rest != [] {
      SeatedAt(rest, 0);
      NoticesKeep(WithRoster(t, rest).(owner := if Seated(rest, t.owner) then t.owner else rest[0].id,
                                       shadows := t.shadows - removed), |t.phase.roster| - |rest|);
    }
  }

  // ---------------------------------------------------------------------------------------------
  // The actor's side.

  class Lobby {
    var table: Table
    var attendees: map<int, Attendance>
    var absentUntil: map<int, nat>
    var retired: bool

    constructor (table: Table)
      ensures Contents() == State(table, map[], map[], false)
    {
      this.table, attendees, absentUntil, retired := table, map[], map[], false;
    }

    function Contents(): State
      reads this
    {
      State(table, attendees, absentUntil, retired)
    }

    /** Sets the deadlines of the absent players, keeping those that run already. */
    method Mark(now: nat) returns (until: map<int, nat>)
      ensures until == Deadlines(Contents(), now)
    {
      var players := Players(table);
      until := map[];
      for i := 0 to |players|
        invariant forall id :: id in until <==> AbsentBefore(Contents(), players, i, id)
        invariant forall id :: id in until ==>
                    until[id] == if id in absentUntil then absentUntil[id] else now + GRACE
      {
        var id := players[i].id;
        AbsentMore(Contents(), players, i);
        if !(id in attendees && !attendees[id].spectator && attendees[id].active) {
          until := until[id := if id in absentUntil then absentUntil[id] else now + GRACE];
        }
      }
      forall id
        ensures id in until <==> id in Absent(Contents())
      {
        AllAbsent(Contents(), id);
      }
      SameByNumber(until, Deadlines(Contents(), now));
    }

    method Cleanup(now: nat, accepted: bool)
      modifies this
      ensures Contents() == Cleaned(old(Contents()), now, accepted)
    {
      hide Deadlines, Roster.Without, Players;
      attendees := map id | id in attendees && attendees[id].active :: attendees[id];
      assert attendees == Alive(old(attendees));
      if !table.phase.Pregame? {
        absentUntil := map[];
        return;
      }
      var until := Mark(now);
      absentUntil := until;
      var removed := set id | id in until && until[id] <= now;
      assert removed == Expired(until, now);
      if removed == {} {
        return;
      }
      var next := RemovePregamePlayers(table, removed);
      if Players(next) == [] {
        retired := accepted;
        return;
      }
      if accepted {
        table := next;
        absentUntil := absentUntil - removed;
      }
    }
  }

  predicate AbsentBefore(s: State, players: seq<Player>, i: nat, id: int)
    requires i <= |players|
  {
    exists k :: 0 <= k < i && players[k].id == id && !Here(s, id)
  }

  lemma AbsentMore(s: State, players: seq<Player>, i: nat)
    requires i < |players|
    ensures forall id :: AbsentBefore(s, players, i + 1, id) <==>
                         AbsentBefore(s, players, i, id) || (id == players[i].id && !Here(s, id))
  {
    hide Here;
    forall id | AbsentBefore(s, players, i, id) || (id == players[i].id && !Here(s, id))
      ensures AbsentBefore(s, players, i + 1, id)
    {
      if AbsentBefore(s, players, i, id) {
        var k :| 0 <= k < i && players[k].id == id && !Here(s, id);
        assert players[k].id == id;
      } else {
        assert players[i].id == id;
      }
    }
  }

  lemma AllAbsent(s: State, id: int)
    ensures AbsentBefore(s, Players(s.table), |Players(s.table)|, id) <==> id in Absent(s)
  {
    hide Here, Players;
    var players := Players(s.table);
    if id in Absent(s) {
      var p :| p in players && !Here(s, p.id) && p.id == id;
      var k :| 0 <= k < |players| && players[k] == p;
      assert players[k].id == id;
    }
    if AbsentBefore(s, players, |players|, id) {
      var k :| 0 <= k < |players| && players[k].id == id && !Here(s, id);
      assert players[k] in players;
    }
  }
}
