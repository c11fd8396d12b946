/**
 Every change to who sits at a table: what becomes of the spectators who shadow a player, and that
 the changed table still passes the checks of a checkpoint.
 */
module Roster {
  import opened Common
  import opened Model
  import opened Shuffling

  function Position(ids: seq<int>, id: int): (at: Option<nat>)
    ensures at.Some? ==> at.value < |ids| && ids[at.value] == id && id !in ids[..at.value]
    ensures at.None? ==> id !in ids
  {
    if ids == [] then None
    else if ids[0] == id then Some(0)
    else
      match Position(ids[1..], id)
      case None => None
      case Some(k) =>
        assert ids[..k + 1] == [ids[0]] + ids[1..][..k];
        Some(k + 1)
  }

  function Ids(players: seq<Player>): (ids: seq<int>)
    ensures |ids| == |players|
    ensures forall i :: 0 <= i < |players| ==> ids[i] == players[i].id
  {
    seq(|players|, i requires 0 <= i < |players| => players[i].id)
  }

  /** The seat of the player who sat in the shadowed seat, if there was one who still sits. */
  function Moved(shadow: Option<int>, before: seq<int>, after: seq<int>): Option<int> {
    if shadow.None? || !(0 <= shadow.value < |before|) then None
    else
      match Position(after, before[shadow.value])
      case None => None
      case Some(seat) => Some(seat)
  }

  function MovedAll(shadows: map<int, Option<int>>, before: seq<int>, after: seq<int>): map<int, Option<int>> {
    if before == after then shadows else map user | user in shadows :: Moved(shadows[user], before, after)
  }

  method RemapShadows(shadows: map<int, Option<int>>, before: seq<int>, after: seq<int>)
    returns (moved: map<int, Option<int>>)
    ensures moved == MovedAll(shadows, before, after)
  {
    moved := shadows;
    if before != after {
      var rest := shadows.Keys;
      while rest != {}
        invariant rest <= shadows.Keys && moved.Keys == shadows.Keys
        invariant forall user <- shadows ::
                    moved[user] == if user in rest then shadows[user] else Moved(shadows[user], before, after)
        decreases |rest|
      {
        SomeNumber(rest);
        var user :| user in rest;
        moved := moved[user := Moved(moved[user], before, after)];
        rest := rest - {user};
      }
      SameByNumber(moved, MovedAll(shadows, before, after));
    }
  }

  /** Whether a shadow stands for the same player as before: the player's seat, or nobody. */
  predicate Follows(before: seq<Player>, shadow: Option<int>, after: seq<Player>, now: Option<int>) {
    match now
    case Some(seat) =>
      && shadow.Some? && 0 <= shadow.value < |before|
      && 0 <= seat < |after| && after[seat].id == before[shadow.value].id
    case None =>
      shadow.None? || !(0 <= shadow.value < |before|) || !Seated(after, before[shadow.value].id)
  }

  /** There is only one seat that a shadow can follow its player to. */
  lemma FollowsOneSeat(before: seq<Player>, shadow: Option<int>, after: seq<Player>, a: Option<int>, b: Option<int>)
    requires DistinctPlayers(after)
    requires Follows(before, shadow, after, a) && Follows(before, shadow, after, b)
    ensures a == b
  {
    if a.Some? {
      SeatedAt(after, a.value);
    }
    if b.Some? {
      SeatedAt(after, b.value);
    }
    if a.Some? && b.Some? {
      assert !(a.value < b.value) && !(b.value < a.value);
    }
  }

  lemma SeatedAt(players: seq<Player>, seat: nat)
    requires seat < |players|
    ensures Seated(players, players[seat].id)
  {
    assert players[seat] in players;
  }

  lemma MovedFollows(before: seq<Player>, shadow: Option<int>, after: seq<Player>)
    ensures Follows(before, shadow, after, Moved(shadow, Ids(before), Ids(after)))
  {
    if shadow.Some? && 0 <= shadow.value < |before| {
      SeatedHasPosition(after, before[shadow.value].id);
    }
  }

  lemma SeatedHasPosition(players: seq<Player>, id: int)
    ensures Seated(players, id) ==> Position(Ids(players), id).Some?
  {
    if Seated(players, id) {
      var p :| p in players && p.id == id;
      var seat :| 0 <= seat < |players| && players[seat] == p;
      assert Ids(players)[seat] == id;
    }
  }

  // ---------------------------------------------------------------------------------------------
  // The changes.

  /** The players that stay when some leave, in their order. */
  function Staying(players: seq<Player>, removed: set<int>): (rest: seq<Player>)
    ensures |rest| <= |players|
    ensures forall p :: p in rest <==> p in players && p.id !in removed
  {
    if players == [] then []
    else if players[0].id in removed then Staying(players[1..], removed)
    else [players[0]] + Staying(players[1..], removed)
  }

  lemma {:induction false} StayingDistinct(players: seq<Player>, removed: set<int>)
    requires DistinctPlayers(players)
    ensures DistinctPlayers(Staying(players, removed))
  {
    if players != [] {
      StayingDistinct(players[1..], removed);
      var rest := Staying(players[1..], removed);
      forall j | 0 <= j < |rest|
        ensures rest[j].id != players[0].id
      {
        assert rest[j] in players[1..];
      }
    }
  }

  function Notice(t: Table, text: string): Table {
    if |t.chat| >= MAX_LIST then t else t.(chat := t.chat + [Chat(None, 0, text)])
  }

  function WithRoster(t: Table, roster: seq<Player>): Table {
    match t.phase
    case Pregame(_, automaticStart, _, kicked) => t.(phase := Pregame(roster, automaticStart, None, kicked))
    case _ => t
  }

  function Notices(t: Table, count: nat): Table
    decreases count
  {
    if count == 0 then t else Notices(Notice(t, "left the game"), count - 1)
  }

  /** A pregame after some of its players left; who owned it may be among them. */
  function Without(t: Table, removed: set<int>): Table {
    if !t.phase.Pregame? then t
    else
      var rest := Staying(t.phase.roster, removed);
      if |rest| == |t.phase.roster| then t
      else if rest == [] then WithRoster(t, [])
      else
        var next := WithRoster(t, rest).(owner := if Seated(rest, t.owner) then t.owner else rest[0].id,
                                         shadows := t.shadows - removed);
        Notices(next, |t.phase.roster| - |rest|)
  }

  method Retain(players: seq<Player>, removed: set<int>) returns (rest: seq<Player>)
    ensures rest == Staying(players, removed)
  {
    rest := [];
    var i := |players|;
    while i > 0
      invariant 0 <= i <= |players|
      invariant rest == Staying(players[i..], removed)
    {
      i := i - 1;
      assert players[i..][1..] == players[i + 1..];
      if players[i].id !in removed {
        rest := [players[i]] + rest;
      }
    }
    assert players[0..] == players;
  }

  method RemovePregamePlayers(t: Table, removed: set<int>) returns (next: Table)
    ensures next == Without(t, removed)
  {
    hide Staying;
    next := t;
    if !t.phase.Pregame? {
      return;
    }
    var players := t.phase.roster;
    var rest := Retain(players, removed);
    if |rest| == |players| {
      return;
    }
    next := WithRoster(next, rest);
    if rest == [] {
      return;
    }
    if !exists p <- rest :: p.id == next.owner {
      next := next.(owner := rest[0].id);
    }
    next := next.(shadows := next.shadows - removed);
    var left := |players| - |rest|;
    while left > 0
      invariant left >= 0
      invariant Notices(next, left)
                == Notices(WithRoster(t, rest).(owner := if Seated(rest, t.owner) then t.owner else rest[0].id,
                                                shadows := t.shadows - removed), |players| - |rest|)
    {
      next := Notice(next, "left the game");
      left := left - 1;
    }
  }

  function Drop<T>(s: seq<T>, at: nat): (rest: seq<T>)
    requires at < |s|
    ensures |rest| == |s| - 1
  {
    s[..at] + s[at + 1..]
  }

  datatype Change =
    | Join(player: Player)
    | Leave(user: int)
    | Cleanup(absent: set<int>)
    | Kick(seat: nat)
    | Resize(capacity: int)
    | Promote(id: int)
    | Start(choices: seq<nat>, game: Snapshot)
    | Split(selected: set<int>)

  /** What the command checks before it changes the table. */
  ghost predicate Allowed(t: Table, change: Change) {
    && t.phase.Pregame?
    && (match change
        case Join(p) =>
          && p.id > 0 && 0 < |p.name| <= 100 && p.id !in t.phase.kicked
          && |t.phase.roster| < t.maxPlayers && !Seated(t.phase.roster, p.id)
        case Leave(user) => true
        case Cleanup(absent) => true
        case Kick(seat) =>
          seat < |t.phase.roster| && t.phase.roster[seat].id != t.owner
        case Resize(capacity) => 2 <= capacity <= 6
        case Promote(id) => Seated(t.phase.roster, id)
        case Start(choices, game) =>
          && |choices| <= |t.phase.roster| && Choosable(choices)
          && game.players == Arrange(t.phase.roster, choices)
          && SnapshotValid(game) && game.tableId == t.id
          && 2 <= game.game.options.numPlayers <= 6
        case Split(selected) => true)
  }

  function SwapFirst(players: seq<Player>, seat: nat): seq<Player>
    requires seat < |players|
  {
    Swap(players, 0, seat)
  }

  /** Messages that a command adds without looking at how many there are. */
  function Said(t: Table, messages: seq<Chat>): Table {
    t.(chat := t.chat + messages)
  }

  /** The table that a command asks to checkpoint, with the shadows as they were. */
  ghost function Changed(t: Table, change: Change): Table
    requires Allowed(t, change)
  {
    var roster := t.phase.roster;
    match change
    case Join(p) =>
      Notice(t.(phase := t.phase.(roster := roster + [p]), shadows := t.shadows - {p.id}), "joined the game")
    case Leave(user) => Without(t.(shadows := t.shadows - {user}), {user})
    case Cleanup(absent) => Without(t, absent)
    case Kick(seat) =>
      Said(t.(phase := t.phase.(roster := Drop(roster, seat), countdown := None,
                                kicked := t.phase.kicked + [roster[seat].id])),
           [Chat(None, t.owner, "kick"), Chat(None, 0, "kicked from the game")])
    case Resize(capacity) =>
      var rest := roster[..if |roster| < capacity then |roster| else capacity];
      Said(t.(maxPlayers := capacity,
              phase := t.phase.(roster := rest, countdown := None, automaticStart := None),
              owner := if Seated(rest, t.owner) || rest == [] then t.owner else rest[0].id),
           [Chat(None, 0, "has changed game options")])
    case Promote(id) =>
      var seat := Position(Ids(roster), id);
      if seat.None? then t
      else Said(t.(owner := id, phase := t.phase.(roster := SwapFirst(roster, seat.value))),
                [Chat(None, 0, "has passed table ownership")])
    case Start(_, game) => t.(options := game.game.options, phase := Live(game))
    case Split(selected) =>
      var rest := Staying(roster, selected);
      t.(phase := Pregame(rest, None, None, t.phase.kicked),
         owner := if t.owner in selected && rest != [] then rest[0].id else t.owner)
  }

  /** What is checkpointed: the same table, in which the shadows followed their players. */
  function Remapped(t: Table, next: Table): Table {
    next.(shadows := MovedAll(next.shadows, Ids(Players(t)), Ids(Players(next))))
  }

  // ---------------------------------------------------------------------------------------------
  // Shadows.

  /**
   Whatever became of the roster, each spectator who still has a place shadows the same player as
   before, and nobody when that player is gone.
   */
  lemma ShadowsFollowTheirPlayers(t: Table, next: Table, user: int)
    requires ShadowsValid(t) && user in next.shadows && user in t.shadows && next.shadows[user] == t.shadows[user]
    ensures user in Remapped(t, next).shadows
    ensures Follows(Players(t), t.shadows[user], Players(next), Remapped(t, next).shadows[user])
  {
    var shadow := t.shadows[user];
    MovedFollows(Players(t), shadow, Players(next));
    if Ids(Players(t)) == Ids(Players(next)) && shadow.Some? {
      assert Ids(Players(t))[shadow.value] == Ids(Players(next))[shadow.value];
    }
  }

  /** No command moves a shadow by itself; commands only end the shadowing of those who join or leave. */
  lemma ChangesOnlyDropShadows(t: Table, change: Change, user: int)
    requires Allowed(t, change) && user in Changed(t, change).shadows
    ensures user in t.shadows && Changed(t, change).shadows[user] == t.shadows[user]
  {
    hide Staying, Allowed, Position, SwapFirst, Drop, Seated, Without, Said;
    match change
    case Leave(u) => WithoutOnlyDrops(t.(shadows := t.shadows - {u}), {u}, user);
    case Cleanup(absent) => WithoutOnlyDrops(t, absent, user);
    case Join(_) =>
    case _ => OthersKeepShadows(t, change);
  }

  lemma OthersKeepShadows(t: Table, change: Change)
    requires Allowed(t, change) && !change.Join? && !change.Leave? && !change.Cleanup?
    ensures Changed(t, change).shadows == t.shadows
  {
    hide Staying, Position, SwapFirst, Drop, Seated;
  }

  lemma {:induction false} NoticesKeep(t: Table, count: nat)
    ensures Notices(t, count) == t.(chat := Notices(t, count).chat)
    decreases count
  {
    if count > 0 {
      NoticesKeep(Notice(t, "left the game"), count - 1);
    }
  }

  lemma WithoutOnlyDrops(t: Table, removed: set<int>, user: int)
    requires user in Without(t, removed).shadows
    ensures user in t.shadows && Without(t, removed).shadows[user] == t.shadows[user]
  {
    hide Staying, Notices;
    if t.phase.Pregame? {
      var rest := Staying(t.phase.roster, removed);
      if |rest| != |t.phase.roster| && rest != [] {
        NoticesKeep(WithRoster(t, rest).(owner := if Seated(rest, t.owner) then t.owner else rest[0].id,
                                         shadows := t.shadows - removed), |t.phase.roster| - |rest|);
      }
    }
  }

  /** Spectators shadow the same players after every change of the roster. */
  lemma ChangesKeepShadowedPlayers(t: Table, change: Change, user: int)
    requires Allowed(t, change) && ShadowsValid(t) && user in Remapped(t, Changed(t, change)).shadows
    ensures user in t.shadows
    ensures var next := Remapped(t, Changed(t, change));
            Follows(Players(t), t.shadows[user], Players(next), next.shadows[user])
  {
    hide Changed, Allowed, Follows, Position;
    var next := Changed(t, change);
    assert user in next.shadows;
    ChangesOnlyDropShadows(t, change, user);
    ShadowsFollowTheirPlayers(t, next, user);
    assert Players(Remapped(t, next)) == Players(next);
  }

  // ---------------------------------------------------------------------------------------------
  // Validity.

  lemma MovedAllInRange(t: Table, next: Table)
    requires ShadowsValid(t)
    requires next.shadows.Keys <= t.shadows.Keys
    requires forall user <- next.shadows :: next.shadows[user] == t.shadows[user]
    ensures ShadowsValid(Remapped(t, next))
  {
    var r := Remapped(t, next);
    assert Players(r) == Players(next);
    assert r.shadows.Keys == next.shadows.Keys;
    SmallerMap(r.shadows, t.shadows);
    forall user | user in r.shadows
      ensures user > 0 && (r.shadows[user].Some? ==> 0 <= r.shadows[user].value < |Players(r)|)
    {
      assert user in t.shadows;
    }
  }

  lemma SmallerMap<K, V>(a: map<K, V>, b: map<K, V>)
    requires a.Keys <= b.Keys
    ensures |a| <= |b|
  {
    assert b.Keys == a.Keys + (b.Keys - a.Keys);
  }

  lemma RemappedValid(t: Table, change: Change)
    requires Allowed(t, change) && Valid(t) && t.spawn.None?
    requires var next := Changed(t, change);
             MetaValid(next) && PlayersValid(next) && ChatValid(next) && PhaseValid(next) && next.tag.None? && next.spawn.None? && !next.retire
    ensures Valid(Remapped(t, Changed(t, change)))
  {
    hide Changed, Allowed, MetaValid, PlayerValid, DistinctPlayers, ChatValid, PhaseValid, ShadowsValid;
    var next := Changed(t, change);
    forall user | user in next.shadows
      ensures user in t.shadows && next.shadows[user] == t.shadows[user]
    {
      ChangesOnlyDropShadows(t, change, user);
    }
    MovedAllInRange(t, next);
    SameOtherwise(next, Remapped(t, next));
  }

  lemma SameOtherwise(a: Table, b: Table)
    requires b == a.(shadows := b.shadows)
    requires MetaValid(a) && PlayersValid(a) && ChatValid(a) && PhaseValid(a)
    ensures MetaValid(b) && PlayersValid(b) && ChatValid(b) && PhaseValid(b)
  {
    assert Players(b) == Players(a);
    assert forall seat :: 0 <= seat < |Players(b)| ==> PlayerValid(a, seat, Players(a)[seat]);
  }

  /** A pregame with a roster that is valid by itself, whatever else of it changed within bounds. */
  lemma PregameValid(t: Table, next: Table)
    requires Valid(t) && t.spawn.None? && t.phase.Pregame? && next.phase.Pregame?
    requires next == t.(phase := next.phase, owner := next.owner, maxPlayers := next.maxPlayers, shadows := next.shadows, chat := next.chat)
    requires 2 <= next.maxPlayers <= 6 && ChatValid(next)
    requires |next.phase.roster| <= next.maxPlayers
    requires forall p :: p in next.phase.roster ==> p.id > 0 && 0 < |p.name| <= 100
    requires DistinctPlayers(next.phase.roster)
    requires Seated(next.phase.roster, next.owner)
    requires next.phase.automaticStart.None? || next.phase.automaticStart == t.phase.automaticStart
    requires |next.phase.kicked| <= MAX_LIST
    ensures MetaValid(next) && PlayersValid(next) && PhaseValid(next)
  {}

  lemma RosterOf(t: Table)
    requires Valid(t) && t.phase.Pregame? && t.spawn.None?
    ensures forall p :: p in t.phase.roster ==> p.id > 0 && 0 < |p.name| <= 100
    ensures DistinctPlayers(t.phase.roster) && Seated(t.phase.roster, t.owner)
    ensures |t.phase.roster| <= t.maxPlayers <= 6 && 2 <= t.maxPlayers
    ensures ChatValid(t) && |t.phase.kicked| <= MAX_LIST && t.tag.None? && !t.retire
  {
    forall p | p in t.phase.roster
      ensures p.id > 0 && 0 < |p.name| <= 100
    {
      var seat :| 0 <= seat < |t.phase.roster| && t.phase.roster[seat] == p;
      assert PlayerValid(t, seat, Players(t)[seat]);
    }
  }

  lemma NoticeChatValid(t: Table, text: string)
    requires ChatValid(t)
    ensures ChatValid(Notice(t, text))
  {}

  lemma {:induction false} NoticesChatValid(t: Table, count: nat)
    requires ChatValid(t)
    ensures ChatValid(Notices(t, count))
    decreases count
  {
    hide ChatValid, Notice;
    if count > 0 {
      NoticeChatValid(t, "left the game");
      NoticesChatValid(Notice(t, "left the game"), count - 1);
    }
  }

  lemma JoinValid(t: Table, p: Player)
    requires Allowed(t, Join(p)) && Valid(t) && t.spawn.None?
    ensures Valid(Remapped(t, Changed(t, Join(p))))
  {
    hide Valid, MetaValid, PlayersValid, PhaseValid, ChatValid, Remapped, Notice;
    RosterOf(t);
    var next := Changed(t, Join(p));
    var before := t.(phase := t.phase.(roster := t.phase.roster + [p]), shadows := t.shadows - {p.id});
    SameChat(t, before);
    NoticeChatValid(before, "joined the game");
    NoticeKeeps(before, "joined the game");
    SeatedMore(t.phase.roster, p, t.owner);
    PregameValid(t, next);
    RemappedValid(t, Join(p));
  }

  lemma SeatedMore(roster: seq<Player>, p: Player, id: int)
    requires Seated(roster, id)
    ensures Seated(roster + [p], id)
  {
    var q :| q in roster && q.id == id;
    assert q in roster + [p];
  }

  lemma SameChat(a: Table, b: Table)
    requires ChatValid(a) && b.chat == a.chat && b.archived == a.archived
    ensures ChatValid(b)
  {}

  lemma NoticeKeeps(t: Table, text: string)
    ensures Notice(t, text) == t.(chat := Notice(t, text).chat)
  {}

  lemma WithoutValid(t: Table, removed: set<int>)
    requires Valid(t) && t.phase.Pregame? && t.spawn.None? && Players(Without(t, removed)) != []
    ensures var next := Without(t, removed);
            && MetaValid(next) && PlayersValid(next) && ChatValid(next) && PhaseValid(next)
            && next.tag.None? && next.spawn.None? && !next.retire
  {
    hide Valid, MetaValid, PlayersValid, PhaseValid, ChatValid, Notices, DistinctPlayers, Seated, Staying;
    RosterOf(t);
    var rest := Staying(t.phase.roster, removed);
    if |rest| == |t.phase.roster| {
      PregameValid(t, t);
    } else if rest != [] {
      SomeLeftValid(t, removed, rest);
    }
  }

  lemma SomeLeftValid(t: Table, removed: set<int>, rest: seq<Player>)
    requires Valid(t) && t.phase.Pregame? && t.spawn.None?
    requires rest == Staying(t.phase.roster, removed) && rest != [] && |rest| < |t.phase.roster|
    ensures var next := Without(t, removed);
            && MetaValid(next) && PlayersValid(next) && ChatValid(next) && PhaseValid(next)
            && next.tag.None? && next.spawn.None? && !next.retire
  {
    hide Valid, MetaValid, PlayersValid, PhaseValid, ChatValid, Notices, DistinctPlayers, Seated;
    RosterOf(t);
    StayingDistinct(t.phase.roster, removed);
    SeatedAt(rest, 0);
    var middle := WithRoster(t, rest).(owner := if Seated(rest, t.owner) then t.owner else rest[0].id,
                                       shadows := t.shadows - removed);
    SameChat(t, middle);
    NoticesChatValid(middle, |t.phase.roster| - |rest|);
    NoticesKeep(middle, |t.phase.roster| - |rest|);
    PregameValid(t, Without(t, removed));
  }

  lemma ShrinkValid(t: Table, shadows: map<int, Option<int>>)
    requires Valid(t) && shadows.Keys <= t.shadows.Keys && (forall user <- shadows :: shadows[user] == t.shadows[user])
    ensures Valid(t.(shadows := shadows))
  {
    var next := t.(shadows := shadows);
    SmallerMap(shadows, t.shadows);
    SameOtherwise(t, next);
    forall user | user in next.shadows
      ensures user > 0 && (next.shadows[user].Some? ==> 0 <= next.shadows[user].value < |Players(next)|)
    {
      assert user in t.shadows;
    }
  }

  /** Whoever stays when some players leave has a valid table, which one of them owns. */
  lemma LeavingValid(t: Table, change: Change)
    requires Allowed(t, change) && Valid(t) && t.spawn.None? && (change.Leave? || change.Cleanup?)
    requires Players(Changed(t, change)) != []
    ensures Valid(Remapped(t, Changed(t, change)))
    ensures Seated(Players(Changed(t, change)), Changed(t, change).owner)
  {
    hide Valid, MetaValid, PlayersValid, ChatValid, Remapped, Without;
    if change.Leave? {
      ShrinkValid(t, t.shadows - {change.user});
      WithoutValid(t.(shadows := t.shadows - {change.user}), {change.user});
    } else {
      WithoutValid(t, change.absent);
    }
    WithoutPregame(if change.Leave? then t.(shadows := t.shadows - {change.user}) else t,
                   if change.Leave? then {change.user} else change.absent);
    RemappedValid(t, change);
  }

  lemma WithoutPregame(t: Table, removed: set<int>)
    requires t.phase.Pregame?
    ensures Without(t, removed).phase.Pregame?
  {
    hide Staying, Notices, Seated;
    var rest := Staying(t.phase.roster, removed);
    if |rest| != |t.phase.roster| && rest != [] {
      NoticesKeep(WithRoster(t, rest).(owner := if Seated(rest, t.owner) then t.owner else rest[0].id,
                                       shadows := t.shadows - removed), |t.phase.roster| - |rest|);
    }
  }

  lemma KeepsSeated(roster: seq<Player>, seat: nat, id: int)
    requires Seated(roster, id) && seat < |roster| && roster[seat].id != id && DistinctPlayers(roster)
    ensures Seated(Drop(roster, seat), id) && DistinctPlayers(Drop(roster, seat))
    ensures forall p :: p in Drop(roster, seat) ==> p in roster
  {
    var p :| p in roster && p.id == id;
    assert p in Drop(roster, seat);
  }

  /** How many messages a command adds whether or not there is room for them. */
  function MessagesOf(change: Change): nat {
    match change
    case Kick(_) => 2
    case Resize(_) => 1
    case Promote(_) => 1
    case _ => 0
  }

  /** What a command would have to check so that its table can be saved. */
  predicate HasRoom(t: Table, change: Change) {
    && |t.chat| + MessagesOf(change) <= MAX_LIST
    && (change.Kick? && t.phase.Pregame? ==> |t.phase.kicked| < MAX_LIST)
  }

  lemma SaidChatValid(t: Table, messages: seq<Chat>)
    requires ChatValid(t) && forall c <- messages :: c.id.None?
    ensures ChatValid(Said(t, messages)) <==> |t.chat| + |messages| <= MAX_LIST
  {
    var next := Said(t, messages);
    if |t.chat| + |messages| <= MAX_LIST {
      forall j {:trigger next.chat[j]} | |t.chat| <= j < |next.chat|
        ensures next.chat[j].id.None?
      {
        assert next.chat[j] == messages[j - |t.chat|];
      }
    }
  }

  /** A table without room for what a command adds cannot be saved. */
  lemma NoRoom(t: Table, next: Table)
    ensures Valid(Remapped(t, next)) ==> |next.chat| <= MAX_LIST
    ensures Valid(Remapped(t, next)) && next.phase.Pregame? ==> |next.phase.kicked| <= MAX_LIST
  {
    hide MovedAll, MetaValid, ShadowsValid, PlayersValid, TagValid, Ids;
    assert Remapped(t, next).chat == next.chat && Remapped(t, next).phase == next.phase;
  }

  /** A kick can be saved exactly if there is room for its two messages and for who was kicked. */
  lemma KickValid(t: Table, seat: nat)
    requires Allowed(t, Kick(seat)) && Valid(t) && t.spawn.None?
    ensures Valid(Remapped(t, Changed(t, Kick(seat)))) <==> HasRoom(t, Kick(seat))
  {
    hide Valid, MetaValid, PlayersValid, PhaseValid, ChatValid, Remapped, Drop, DistinctPlayers;
    RosterOf(t);
    var next := Changed(t, Kick(seat));
    NoRoom(t, next);
    if HasRoom(t, Kick(seat)) {
      KeepsSeated(t.phase.roster, seat, t.owner);
      var before := next.(chat := t.chat);
      SameChat(t, before);
      SaidChatValid(before, [Chat(None, t.owner, "kick"), Chat(None, 0, "kicked from the game")]);
      PregameValid(t, next);
      RemappedValid(t, Kick(seat));
    }
  }

  /** A change of size can be saved exactly if there is room for its message. */
  lemma ResizeValid(t: Table, capacity: int)
    requires Allowed(t, Resize(capacity)) && Valid(t) && t.spawn.None?
    ensures Valid(Remapped(t, Changed(t, Resize(capacity)))) <==> HasRoom(t, Resize(capacity))
  {
    hide Valid, MetaValid, PlayersValid, PhaseValid, ChatValid, Remapped;
    RosterOf(t);
    var next := Changed(t, Resize(capacity));
    NoRoom(t, next);
    if HasRoom(t, Resize(capacity)) {
      assert next.phase.roster != [];
      assert next.phase.roster[0] in next.phase.roster;
      var before := next.(chat := t.chat);
      SameChat(t, before);
      SaidChatValid(before, [Chat(None, 0, "has changed game options")]);
      PregameValid(t, next);
      RemappedValid(t, Resize(capacity));
    }
  }

  lemma SwapDistinct(players: seq<Player>, seat: nat)
    requires seat < |players| && DistinctPlayers(players)
    ensures DistinctPlayers(SwapFirst(players, seat))
    ensures forall p :: p in SwapFirst(players, seat) <==> p in players
  {
    var swapped := SwapFirst(players, seat);
    forall p | p in players
      ensures p in swapped
    {
      var i :| 0 <= i < |players| && players[i] == p;
      assert swapped[if i == 0 then seat else if i == seat then 0 else i] == p;
    }
  }

  /** The new owner of a pregame sits first; the change can be saved exactly if there is room for its message. */
  lemma PromoteValid(t: Table, id: int)
    requires Allowed(t, Promote(id)) && Valid(t) && t.spawn.None?
    ensures Valid(Remapped(t, Changed(t, Promote(id)))) <==> HasRoom(t, Promote(id))
    ensures Changed(t, Promote(id)).owner == id == Changed(t, Promote(id)).phase.roster[0].id
  {
    hide Valid, MetaValid, PlayersValid, PhaseValid, ChatValid, Remapped, SwapFirst;
    RosterOf(t);
    var roster := t.phase.roster;
    SeatedHasPosition(roster, id);
    var seat := Position(Ids(roster), id).value;
    SwapDistinct(roster, seat);
    FirstSwapped(roster, seat);
    var next := Changed(t, Promote(id));
    assert next.phase.roster[0] in next.phase.roster;
    NoRoom(t, next);
    if HasRoom(t, Promote(id)) {
      var before := next.(chat := t.chat);
      SameChat(t, before);
      SaidChatValid(before, [Chat(None, 0, "has passed table ownership")]);
      PregameValid(t, next);
      RemappedValid(t, Promote(id));
    }
  }

  lemma FirstSwapped(players: seq<Player>, seat: nat)
    requires seat < |players|
    ensures |SwapFirst(players, seat)| == |players| && SwapFirst(players, seat)[0] == players[seat]
  {}

  /** A game starts with the same players in another order. */
  lemma StartValid(t: Table, choices: seq<nat>, game: Snapshot)
    requires Allowed(t, Start(choices, game)) && Valid(t) && t.spawn.None?
    ensures Valid(Remapped(t, Changed(t, Start(choices, game))))
    ensures multiset(Ids(Players(Changed(t, Start(choices, game))))) == multiset(Ids(Players(t)))
  {
    hide Valid, ChatValid, Remapped, SnapshotValid, Arrange;
    RosterOf(t);
    var next := Changed(t, Start(choices, game));
    SameChat(t, next);
    ArrangePermutes(t.phase.roster, choices);
    PermutedIds(game.players, t.phase.roster);
    PermutedPlayers(game.players, t.phase.roster);
    StartMeta(t, next);
    GameOptions(game);
    RemappedValid(t, Start(choices, game));
  }

  lemma GameOptions(s: Snapshot)
    requires SnapshotValid(s)
    ensures 0 <= s.game.options.startingPlayer < s.game.options.numPlayers
  {}

  lemma StartMeta(t: Table, next: Table)
    requires Valid(t) && next.format == t.format && next.id == t.id && next.name == t.name && next.owner == t.owner && next.maxPlayers == t.maxPlayers
    ensures MetaValid(next) <==> (2 <= next.options.numPlayers <= 6 && 0 <= next.options.startingPlayer < next.options.numPlayers)
  {}

  lemma PermutedPlayers(a: seq<Player>, b: seq<Player>)
    requires multiset(a) == multiset(b) && DistinctPlayers(b)
    ensures |a| == |b| && DistinctPlayers(a) && forall p :: p in a ==> p in b
  {
    assert |a| == |multiset(a)| == |multiset(b)| == |b|;
    forall p | p in a
      ensures p in b
    {
      assert p in multiset(a);
    }
    forall i, j | 0 <= i < j < |a|
      ensures a[i].id != a[j].id
    {
      if a[i].id == a[j].id {
        TwiceIn(a, i, j);
        SamePlayer(b, a[i], a[j]);
        OnceIn(b, a[i]);
      }
    }
  }

  lemma SamePlayer(b: seq<Player>, p: Player, q: Player)
    requires DistinctPlayers(b) && p in b && q in b && p.id == q.id
    ensures p == q
  {}

  lemma TwiceIn<T>(a: seq<T>, i: nat, j: nat)
    requires i < j < |a|
    ensures a[i] == a[j] ==> multiset(a)[a[i]] >= 2
  {
    assert a == a[..j] + [a[j]] + a[j + 1..];
    assert a[i] in a[..j];
  }

  lemma {:induction false} OnceIn(b: seq<Player>, p: Player)
    requires DistinctPlayers(b)
    ensures multiset(b)[p] <= 1
    decreases |b|
  {
    if b != [] {
      var k := |b| - 1;
      OnceIn(b[..k], p);
      assert b == b[..k] + [b[k]];
      if b[k] == p {
        assert p !in b[..k];
      }
    }
  }

  lemma DropOne<T>(s: seq<T>, at: nat)
    requires at < |s|
    ensures multiset(s) == multiset(Drop(s, at)) + multiset{s[at]}
    ensures multiset(Drop(s, at)) == multiset(s) - multiset{s[at]}
  {
    assert s == s[..at] + [s[at]] + s[at + 1..];
  }

  lemma {:induction false} PermutedIds(a: seq<Player>, b: seq<Player>)
    requires multiset(a) == multiset(b)
    ensures multiset(Ids(a)) == multiset(Ids(b))
    decreases |a|
  {
    hide Drop, Ids;
    if a == [] {
      assert |b| == |multiset(b)| == |multiset(a)| == 0;
    } else {
      var last := |a| - 1;
      var p := a[last];
      assert p in multiset(b);
      var at :| 0 <= at < |b| && b[at] == p;
      DropOne(a, last);
      DropOne(b, at);
      PermutedIds(Drop(a, last), Drop(b, at));
      DropOne(Ids(a), last);
      DropOne(Ids(b), at);
      DropIds(a, last);
      DropIds(b, at);
    }
  }

  lemma DropIds(s: seq<Player>, at: nat)
    requires at < |s|
    ensures Ids(Drop(s, at)) == Drop(Ids(s), at)
  {}

  /** A split that leaves somebody behind leaves a valid table, which one of those owns. */
  lemma SplitValid(t: Table, selected: set<int>)
    requires Allowed(t, Split(selected)) && Valid(t) && t.spawn.None?
    requires Staying(t.phase.roster, selected) != []
    ensures Valid(Remapped(t, Changed(t, Split(selected))))
  {
    hide Valid, MetaValid, PlayersValid, PhaseValid, ChatValid, Remapped, DistinctPlayers;
    RosterOf(t);
    var next := Changed(t, Split(selected));
    StayingDistinct(t.phase.roster, selected);
    var owner :| owner in t.phase.roster && owner.id == t.owner;
    if owner.id in selected {
      assert next.phase.roster[0] in next.phase.roster;
    } else {
      assert owner in next.phase.roster;
    }
    SameChat(t, next);
    PregameValid(t, next);
    RemappedValid(t, Split(selected));
  }

  /** A change of the roster that leaves somebody at the table can be saved exactly if there is room for it. */
  lemma ChangesKeepValid(t: Table, change: Change)
    requires Allowed(t, change) && Valid(t) && t.spawn.None? && Players(Changed(t, change)) != []
    ensures Valid(Remapped(t, Changed(t, change))) <==> HasRoom(t, change)
  {
    hide Valid, Remapped, ChatValid, PhaseValid, Staying, Without, Notice, Said, SwapFirst, Drop, Position;
    RosterOf(t);
    RoomForOthers(t);
    match change
    case Join(p) => JoinValid(t, p);
    case Leave(_) => LeavingValid(t, change);
    case Cleanup(_) => LeavingValid(t, change);
    case Kick(seat) => KickValid(t, seat);
    case Resize(capacity) => ResizeValid(t, capacity);
    case Promote(id) => PromoteValid(t, id);
    case Start(choices, game) => StartValid(t, choices, game);
    case Split(selected) => SplitValid(t, selected);
  }

  lemma RoomForOthers(t: Table)
    requires ChatValid(t)
    ensures |t.chat| <= MAX_LIST
  {}

  const FULL := Table(FORMAT, 1, "table", 7, true, Options(2, 0, 0, false, 0.0, 0, []), 5, false,
                      Pregame([Player(7, "a"), Player(8, "b")], None, None, []),
                      seq(MAX_LIST, _ => Chat(None, 7, "hello")), MAX_LIST, map[], None, false, None)

  /** With a full chat the owner can neither kick, nor change the size, nor pass the table on. */
  lemma FullChatRejects()
    ensures Valid(FULL) && Allowed(FULL, Kick(1)) && Allowed(FULL, Resize(4)) && Allowed(FULL, Promote(8))
    ensures !Valid(Remapped(FULL, Changed(FULL, Kick(1))))
    ensures !Valid(Remapped(FULL, Changed(FULL, Resize(4))))
    ensures !Valid(Remapped(FULL, Changed(FULL, Promote(8))))
  {
    hide Remapped, Changed;
    FullIsValid();
    KickValid(FULL, 1);
    ResizeValid(FULL, 4);
    PromoteValid(FULL, 8);
  }

  lemma FullIsValid()
    ensures Valid(FULL) && Allowed(FULL, Kick(1)) && Allowed(FULL, Resize(4)) && Allowed(FULL, Promote(8))
  {
    var roster := FULL.phase.roster;
    assert roster[0].id == 7 && roster[1].id == 8;
    SeatedAt(roster, 0);
    SeatedAt(roster, 1);
  }

  // ---------------------------------------------------------------------------------------------
  // Who stays.

  /** Whether one player sits before another. */
  ghost predicate Before(players: seq<Player>, p: Player, q: Player) {
    exists a, b :: 0 <= a < b < |players| && players[a] == p && players[b] == q
  }

  ghost predicate InOrder(players: seq<Player>, rest: seq<Player>) {
    forall i, j :: 0 <= i < j < |rest| ==> Before(players, rest[i], rest[j])
  }

  lemma {:induction false} StayingInOrder(players: seq<Player>, removed: set<int>)
    ensures InOrder(players, Staying(players, removed))
    decreases |players|
  {
    hide InOrder, Before;
    if players == [] {
      NobodyInOrder(players);
    } else {
      StayingInOrder(players[1..], removed);
      OneMoreInOrder(players, Staying(players[1..], removed));
    }
  }

  lemma NobodyInOrder(players: seq<Player>)
    ensures InOrder(players, [])
  {}

  lemma OneMoreInOrder(players: seq<Player>, rest: seq<Player>)
    requires players != [] && InOrder(players[1..], rest) && forall p <- rest :: p in players[1..]
    ensures InOrder(players, rest) && InOrder(players, [players[0]] + rest)
  {
    hide Before;
    forall i, j | 0 <= i < j < |rest|
      ensures Before(players, rest[i], rest[j])
    {
      BeforeMore(players, rest[i], rest[j]);
    }
    forall j | 0 < j < |[players[0]] + rest|
      ensures Before(players, players[0], ([players[0]] + rest)[j])
    {
      FirstBefore(players, rest[j - 1]);
    }
  }

  lemma BeforeMore(players: seq<Player>, p: Player, q: Player)
    requires players != [] && Before(players[1..], p, q)
    ensures Before(players, p, q)
  {
    var a, b :| 0 <= a < b < |players[1..]| && players[1..][a] == p && players[1..][b] == q;
    assert players[a + 1] == p && players[b + 1] == q;
  }

  lemma FirstBefore(players: seq<Player>, q: Player)
    requires players != [] && q in players[1..]
    ensures Before(players, players[0], q)
  {
    var k :| 0 <= k < |players[1..]| && players[1..][k] == q;
    assert players[k + 1] == q;
  }

  /**
   A split leaves everybody behind who does not move, in the same order. Its owner stays the owner; if
   the owner moves, the first of those who stay is.
   */
  lemma SplitLeavesInOrder(t: Table, selected: set<int>)
    requires Allowed(t, Split(selected)) && Seated(t.phase.roster, t.owner) && Players(Changed(t, Split(selected))) != []
    ensures var rest := Players(Changed(t, Split(selected)));
            && (forall p :: p in rest <==> p in t.phase.roster && p.id !in selected)
            && InOrder(t.phase.roster, rest)
    ensures var next := Changed(t, Split(selected));
            && Seated(Players(next), next.owner)
            && (t.owner !in selected ==> next.owner == t.owner)
            && (t.owner in selected ==> forall p <- Players(next) ::
                  p.id != next.owner ==> exists q <- Players(next) :: q.id == next.owner && Before(t.phase.roster, q, p))
  {
    hide Before, Seated, InOrder;
    var roster, next := t.phase.roster, Changed(t, Split(selected));
    var rest := Staying(roster, selected);
    assert Players(next) == rest;
    StayingInOrder(roster, selected);
    if t.owner in selected {
      SeatedAt(rest, 0);
      FirstOwns(roster, rest, next.owner);
    } else {
      StaysSeated(roster, rest, selected, t.owner);
    }
  }

  lemma FirstOwns(roster: seq<Player>, rest: seq<Player>, owner: int)
    requires rest != [] && owner == rest[0].id && InOrder(roster, rest)
    ensures forall p <- rest :: p.id != owner ==> exists q <- rest :: q.id == owner && Before(roster, q, p)
  {
    hide Before;
    forall p | p in rest && p.id != owner
      ensures exists q <- rest :: q.id == owner && Before(roster, q, p)
    {
      var k :| 0 <= k < |rest| && rest[k] == p;
      assert rest[0] in rest && Before(roster, rest[0], rest[k]);
    }
  }

  lemma StaysSeated(roster: seq<Player>, rest: seq<Player>, selected: set<int>, owner: int)
    requires Seated(roster, owner) && owner !in selected
    requires forall p :: p in rest <==> p in roster && p.id !in selected
    ensures Seated(rest, owner)
  {
    var q :| q in roster && q.id == owner;
    assert q in rest;
  }
}
