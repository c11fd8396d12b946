/**
 What a browser may tell its user. Every change of a setting, and every command that is to be confirmed,
 is followed by a barrier that the server answers in order; warnings are put down to the first barrier
 that is still open.
 */
module Preferences {
  import opened Common

  /** What a barrier stands for: the latest change of a setting, or one command. */
  datatype Tag = Version(n: nat) | Confirm(id: nat)

  datatype Command = Do(purpose: Option<Tag>) | Sync(tag: Tag)

  /** The server's messages. What they answer to is not in them; it is kept to reason about. */
  datatype Event = Warning(cause: Option<Tag>) | Synced(tag: Tag)

  datatype Barrier = Barrier(tag: Tag, warned: bool)
  datatype Status = Idle | Saving | Saved | Failed

  /**
   A connection: the client's fields, the commands and messages on their way in either direction, and
   whether the server goes down and refuses barriers. `fine` are the tagged commands that the server
   carried out without a warning, `completed` the commands reported as confirmed, and `start` is the
   first change of the settings that are being saved. `asked` and `told` count the barriers sent and the
   answers received on this connection.
   */
  datatype State = State(
    open: bool, barriers: seq<Barrier>, version: nat, failed: bool, status: Status,
    confirmation: Option<nat>, nextId: nat,
    up: seq<Command>, down: seq<Event>, refusing: bool, refused: seq<Tag>,
    fine: set<Tag>, completed: set<nat>, start: nat, asked: nat, told: nat
  )

  const INITIAL := State(true, [], 0, false, Idle, None, 0, [], [], false, [], {}, {}, 0, 0, 0)

  datatype Step =
    | ChangeSetting
    | Send
    | SendConfirmed
    | Serve(succeeds: bool)
    | Warn
    | Refuse
    | Receive
    | SettingTimeout
    | ConfirmationTimeout
    | Close
    | Lose
    | Reconnect

  predicate Enabled(s: State, step: Step) {
    match step
    case ChangeSetting => s.open
    case Send => s.open
    case SendConfirmed => s.open && s.confirmation.None?
    case Serve(_) => s.up != []
    case Warn => true
    case Refuse => true
    case Receive => s.down != []
    case SettingTimeout => s.status == Saving
    case ConfirmationTimeout => s.confirmation.Some?
    case Close => true
    case Lose => true
    case Reconnect => !s.open && s.barriers == [] && s.up == [] && s.down == []
  }

  function Changed(s: State): State {
    var n := s.version + 1;
    s.(failed := if s.status == Saving then s.failed else false,
       start := if s.status == Saving then s.start else n,
       version := n, status := Saving,
       up := s.up + [Do(Some(Version(n))), Sync(Version(n))],
       barriers := s.barriers + [Barrier(Version(n), false)], asked := s.asked + 1)
  }

  function Confirmed(s: State): State {
    var tag := Confirm(s.nextId);
    s.(nextId := s.nextId + 1, confirmation := Some(s.nextId),
       up := s.up + [Do(Some(tag)), Sync(tag)], barriers := s.barriers + [Barrier(tag, false)], asked := s.asked + 1)
  }

  /** The server takes one command after the other. */
  function Served(s: State, succeeds: bool): State
    requires s.up != []
  {
    var rest := s.(up := s.up[1..]);
    match s.up[0]
    case Do(tag) =>
      if !succeeds then rest.(down := s.down + [Warning(tag)])
      else if tag.Some? then rest.(fine := s.fine + {tag.value})
      else rest
    case Sync(tag) =>
      if s.refusing then rest.(down := s.down + [Warning(None)], refused := s.refused + [tag])
      else rest.(down := s.down + [Synced(tag)])
  }

  function Warned(s: State): State {
    if s.barriers == [] then s
    else if s.barriers[0].tag.Version? then s.(failed := true)
    else s.(barriers := s.barriers[0 := s.barriers[0].(warned := true)])
  }

  function Answered(s: State): State {
    if s.barriers == [] then s
    else
      var barrier, rest := s.barriers[0], s.(barriers := s.barriers[1..]);
      match barrier.tag
      case Version(n) =>
        if n == s.version && s.status == Saving then rest.(status := if s.failed then Failed else Saved) else rest
      case Confirm(id) =>
        if s.confirmation != Some(id) then rest
        else rest.(confirmation := None, completed := if barrier.warned then s.completed else s.completed + {id})
  }

  function Received(s: State): State
    requires s.down != []
  {
    var rest := s.(down := s.down[1..]);
    if s.down[0].Warning? then Warned(rest) else Answered(rest).(told := s.told + 1)
  }

  /** Whatever is not confirmed when a connection is gone has failed. */
  function Cleared(s: State): State {
    s.(open := false, barriers := [], confirmation := None, up := [], down := [], refused := [], refusing := false, asked := 0, told := 0,
       status := if s.status == Saving then Failed else s.status)
  }

  function Apply(s: State, step: Step): State
    requires Enabled(s, step)
  {
    match step
    case ChangeSetting => Changed(s)
    case Send => s.(up := s.up + [Do(None)])
    case SendConfirmed => Confirmed(s)
    case Serve(succeeds) => Served(s, succeeds)
    case Warn => s.(down := s.down + [Warning(None)])
    case Refuse => s.(refusing := true)
    case Receive => Received(s)
    case SettingTimeout => s.(status := Failed, failed := true)
    case ConfirmationTimeout => s.(confirmation := None, open := false)
    case Close => s.(open := false)
    case Lose => Cleared(s)
    case Reconnect => s.(open := true, refusing := false, refused := [])
  }

  // ---------------------------------------------------------------------------------------------
  // Barriers on their way.

  function TagsOf(barriers: seq<Barrier>): (tags: seq<Tag>)
    ensures |tags| == |barriers|
  {
    seq(|barriers|, i requires 0 <= i < |barriers| => barriers[i].tag)
  }

  function UpTags(up: seq<Command>): seq<Tag> {
    if up == [] then []
    else UpTags(up[..|up| - 1]) + if up[|up| - 1].Sync? then [up[|up| - 1].tag] else []
  }

  function DownTags(down: seq<Event>): seq<Tag> {
    if down == [] then []
    else DownTags(down[..|down| - 1]) + if down[|down| - 1].Synced? then [down[|down| - 1].tag] else []
  }

  function Head(c: Command): seq<Tag> {
    if c.Sync? then [c.tag] else []
  }

  function First(e: Event): seq<Tag> {
    if e.Synced? then [e.tag] else []
  }

  lemma UpMore(up: seq<Command>, c: Command)
    ensures UpTags(up + [c]) == UpTags(up) + Head(c)
  {
    assert (up + [c])[..|up|] == up;
  }

  lemma DownMore(down: seq<Event>, e: Event)
    ensures DownTags(down + [e]) == DownTags(down) + First(e)
  {
    assert (down + [e])[..|down|] == down;
  }

  lemma {:induction false} UpFirst(up: seq<Command>)
    requires up != []
    ensures UpTags(up) == Head(up[0]) + UpTags(up[1..])
    decreases |up|
  {
    var last := |up| - 1;
    if last == 0 {
      assert up[..0] == [] && up[1..] == [];
    } else {
      UpFirst(up[..last]);
      assert up[1..][..last - 1] == up[..last][1..];
    }
  }

  lemma {:induction false} DownFirst(down: seq<Event>)
    requires down != []
    ensures DownTags(down) == First(down[0]) + DownTags(down[1..])
    decreases |down|
  {
    var last := |down| - 1;
    if last == 0 {
      assert down[..0] == [] && down[1..] == [];
    } else {
      DownFirst(down[..last]);
      assert down[1..][..last - 1] == down[..last][1..];
    }
  }

  lemma {:induction false} UpHas(up: seq<Command>, i: nat)
    requires i < |up| && up[i].Sync?
    ensures up[i].tag in UpTags(up)
    decreases |up|
  {
    if i < |up| - 1 {
      UpHas(up[..|up| - 1], i);
    }
  }

  /** How many answers come before a message. */
  function Before(down: seq<Event>, i: nat): nat
    requires i <= |down|
  {
    |DownTags(down[..i])|
  }

  // ---------------------------------------------------------------------------------------------
  // The invariant.

  /** Open barriers are those answered, refused and still to be taken, in this order. */
  predicate Aligned(s: State) {
    TagsOf(s.barriers) == DownTags(s.down) + s.refused + UpTags(s.up)
  }

  ghost predicate Ordered(s: State) {
    && (forall i, j {:trigger s.barriers[i], s.barriers[j]} :: 0 <= i < j < |s.barriers| ==> Follows(s.barriers[i].tag, s.barriers[j].tag))
    && (forall i {:trigger s.barriers[i]} :: 0 <= i < |s.barriers| ==> Known(s, s.barriers[i].tag))
  }

  predicate Follows(a: Tag, b: Tag) {
    a != b && (a.Version? && b.Version? ==> a.n < b.n)
  }

  predicate Known(s: State, t: Tag) {
    match t
    case Version(n) => n <= s.version
    case Confirm(id) => id < s.nextId
  }

  /** Each command that is to be confirmed goes up right before its barrier. */
  ghost predicate Paired(up: seq<Command>) {
    forall i {:trigger up[i]} :: 0 <= i < |up| && up[i].Do? && up[i].purpose.Some? ==>
      i + 1 < |up| && up[i + 1] == Sync(up[i].purpose.value)
  }

  /** The server refused a barrier before it took this command, so none of its answers is still to come. */
  ghost predicate Gone(s: State, t: Tag) {
    s.refused != [] && forall k {:trigger s.down[k]} :: 0 <= k < |s.down| && s.down[k].Synced? ==> Follows(s.down[k].tag, t)
  }

  /** A warning meets the barrier of the command that it is about. */
  ghost predicate Meets(s: State, i: nat, t: Tag)
    requires i <= |s.down|
  {
    Before(s.down, i) < |s.barriers| && s.barriers[Before(s.down, i)].tag == t
  }

  ghost predicate Attributed(s: State) {
    forall i {:trigger s.down[i]} :: 0 <= i < |s.down| && s.down[i].Warning? && s.down[i].cause.Some? ==>
      Meets(s, i, s.down[i].cause.value) || Gone(s, s.down[i].cause.value)
  }

  /** A tagged command is still to be taken, was carried out, or its warning is on the way. */
  predicate Tracked(s: State, t: Tag) {
    t in s.fine || Do(Some(t)) in s.up || Warning(Some(t)) in s.down
  }

  ghost predicate SettingsTracked(s: State) {
    s.status == Saving ==>
      forall n {:trigger Version(n)} :: s.start <= n <= s.version ==> Tracked(s, Version(n)) || s.failed || Gone(s, Version(n))
  }

  ghost predicate CommandsTracked(s: State) {
    && (forall i {:trigger s.barriers[i]} :: 0 <= i < |s.barriers| && s.barriers[i].tag.Confirm? ==>
          Tracked(s, s.barriers[i].tag) || s.barriers[i].warned || Gone(s, s.barriers[i].tag))
    && (forall id {:trigger id in s.completed} :: id in s.completed ==> Confirm(id) in s.fine)
    && (s.confirmation.Some? ==> s.confirmation.value < s.nextId)
  }

  /** Everything that is shown as saved was carried out without a warning. */
  ghost predicate SavedIsFine(s: State) {
    s.status == Saved ==> forall n {:trigger Version(n)} :: s.start <= n <= s.version ==> Version(n) in s.fine
  }

  ghost predicate Inv(s: State) {
    && Aligned(s) && Ordered(s) && Paired(s.up) && Attributed(s)
    && SettingsTracked(s) && CommandsTracked(s) && SavedIsFine(s)
    && (!s.refusing ==> s.refused == [])
  }

  // ---------------------------------------------------------------------------------------------
  // Sending.

  lemma TagsMore(barriers: seq<Barrier>, b: Barrier)
    ensures TagsOf(barriers + [b]) == TagsOf(barriers) + [b.tag]
  {}

  /** A tagged command goes up with its barrier. */
  function Sent(s: State, tag: Tag): State {
    s.(up := s.up + [Do(Some(tag)), Sync(tag)], barriers := s.barriers + [Barrier(tag, false)])
  }

  lemma SentAligned(s: State, tag: Tag)
    requires Aligned(s) && Paired(s.up)
    ensures Aligned(Sent(s, tag)) && Paired(Sent(s, tag).up)
  {
    hide UpTags, DownTags;
    UpMore(s.up, Do(Some(tag)));
    UpMore(s.up + [Do(Some(tag))], Sync(tag));
    assert s.up + [Do(Some(tag))] + [Sync(tag)] == s.up + [Do(Some(tag)), Sync(tag)];
    TagsMore(s.barriers, Barrier(tag, false));
    var up := Sent(s, tag).up;
    forall i | 0 <= i < |up| && up[i].Do? && up[i].purpose.Some?
      ensures i + 1 < |up| && up[i + 1] == Sync(up[i].purpose.value)
    {
      if i < |s.up| {
        assert up[i] == s.up[i] && up[i + 1] == s.up[i + 1];
      }
    }
  }

  lemma SentAttributed(s: State, next: State, tag: Tag)
    requires Attributed(s) && next.down == s.down && next.refused == s.refused
    requires next.barriers == s.barriers + [Barrier(tag, false)]
    ensures Attributed(next)
  {
    hide DownTags;
    forall i {:trigger next.down[i]} | 0 <= i < |next.down| && next.down[i].Warning? && next.down[i].cause.Some?
      ensures Meets(next, i, next.down[i].cause.value) || Gone(next, next.down[i].cause.value)
    {
      assert Meets(s, i, s.down[i].cause.value) || Gone(s, s.down[i].cause.value);
    }
  }

  lemma TrackedStill(s: State, next: State, tag: Tag, t: Tag)
    requires next.up == s.up + [Do(Some(tag)), Sync(tag)] && next.down == s.down && next.fine == s.fine
    ensures Tracked(s, t) ==> Tracked(next, t)
    ensures Tracked(next, tag)
  {
    assert next.up[|s.up|] == Do(Some(tag));
  }

  lemma GoneStill(s: State, next: State, t: Tag)
    requires next.refused == s.refused && next.down == s.down
    ensures Gone(s, t) <==> Gone(next, t)
  {}

  lemma ChangedKeepsInv(s: State)
    requires Inv(s)
    ensures Inv(Changed(s))
  {
    hide Aligned, Paired, Attributed, Tracked, Gone;
    var next := Changed(s);
    var tag := Version(s.version + 1);
    SentAligned(s, tag);
    assert Aligned(next) && Paired(next.up) by {
      SameChannels(Sent(s, tag), next);
    }
    SentAttributed(s, next, tag);
    forall t
      ensures Tracked(s, t) ==> Tracked(next, t)
      ensures Gone(s, t) ==> Gone(next, t)
      ensures Tracked(next, tag)
    {
      TrackedStill(s, next, tag, t);
      GoneStill(s, next, t);
    }
  }

  lemma SameChannels(s: State, next: State)
    requires next.up == s.up && next.down == s.down && next.refused == s.refused && next.barriers == s.barriers
    ensures Aligned(s) ==> Aligned(next)
    ensures Attributed(s) ==> Attributed(next)
  {
    if Attributed(s) {
      forall i {:trigger next.down[i]} | 0 <= i < |next.down| && next.down[i].Warning? && next.down[i].cause.Some?
        ensures Meets(next, i, next.down[i].cause.value) || Gone(next, next.down[i].cause.value)
      {
        assert Meets(s, i, s.down[i].cause.value) || Gone(s, s.down[i].cause.value);
      }
    }
  }

  lemma ConfirmedKeepsInv(s: State)
    requires Inv(s)
    ensures Inv(Confirmed(s))
  {
    hide Aligned, Paired, Attributed, Tracked, Gone;
    var next := Confirmed(s);
    var tag := Confirm(s.nextId);
    SentAligned(s, tag);
    assert Aligned(next) && Paired(next.up) by {
      SameChannels(Sent(s, tag), next);
    }
    SentAttributed(s, next, tag);
    forall t
      ensures Tracked(s, t) ==> Tracked(next, t)
      ensures Gone(s, t) ==> Gone(next, t)
      ensures Tracked(next, tag)
    {
      TrackedStill(s, next, tag, t);
      GoneStill(s, next, t);
    }
  }

  /** Nothing that the invariant speaks of is lost. */
  lemma SameKeepsInv(s: State, next: State)
    requires Inv(s) && Aligned(next) && Ordered(next) && Paired(next.up) && Attributed(next)
    requires next.barriers == s.barriers && next.version == s.version && next.nextId == s.nextId
    requires next.fine == s.fine && next.completed == s.completed && next.start == s.start
    requires next.status == s.status || next.status == Failed
    requires s.failed ==> next.failed
    requires next.confirmation == s.confirmation || next.confirmation == None
    requires forall t :: Tracked(s, t) ==> Tracked(next, t)
    requires forall t :: Gone(s, t) ==> Gone(next, t)
    requires !next.refusing ==> next.refused == []
    ensures Inv(next)
  {
    hide Aligned, Ordered, Paired, Attributed, Tracked, Gone;
  }

  lemma PlainKeepsInv(s: State)
    requires Inv(s)
    ensures Inv(s.(up := s.up + [Do(None)]))
  {
    hide DownTags, UpTags;
    var next := s.(up := s.up + [Do(None)]);
    UpMore(s.up, Do(None));
    assert UpTags(s.up) + [] == UpTags(s.up);
    forall i | 0 <= i < |next.up| && next.up[i].Do? && next.up[i].purpose.Some?
      ensures i + 1 < |next.up| && next.up[i + 1] == Sync(next.up[i].purpose.value)
    {
      assert next.up[i] == s.up[i] && next.up[i + 1] == s.up[i + 1];
    }
    forall t
      ensures Tracked(s, t) ==> Tracked(next, t)
      ensures Gone(s, t) ==> Gone(next, t)
    {}
    forall i {:trigger next.down[i]} | 0 <= i < |next.down| && next.down[i].Warning? && next.down[i].cause.Some?
      ensures Meets(next, i, next.down[i].cause.value) || Gone(next, next.down[i].cause.value)
    {
      assert Meets(s, i, s.down[i].cause.value) || Gone(s, s.down[i].cause.value);
    }
    hide Tracked, Gone, Attributed;
    SameKeepsInv(s, next);
  }

  // ---------------------------------------------------------------------------------------------
  // The server.

  lemma BeforeStays(down: seq<Event>, e: Event, i: nat)
    requires i <= |down|
    ensures Before(down + [e], i) == Before(down, i)
  {
    assert (down + [e])[..i] == down[..i];
  }

  lemma GoneMore(s: State, next: State, e: Event, t: Tag)
    requires next.down == s.down + [e] && s.refused <= next.refused && e.Warning?
    ensures Gone(s, t) ==> Gone(next, t)
  {
    assert forall k {:trigger next.down[k]} :: 0 <= k < |s.down| ==> next.down[k] == s.down[k];
  }

  /** A message added behind; an answer is only added while nothing was refused. */
  lemma AttributedMore(s: State, next: State, e: Event)
    requires Attributed(s) && next.down == s.down + [e] && s.refused <= next.refused && next.barriers == s.barriers
    requires e.Synced? ==> s.refused == []
    requires e.Warning? && e.cause.Some? ==> Meets(next, |s.down|, e.cause.value) || Gone(next, e.cause.value)
    ensures Attributed(next)
  {
    hide DownTags, Gone;
    forall i {:trigger next.down[i]} | 0 <= i < |next.down| && next.down[i].Warning? && next.down[i].cause.Some?
      ensures Meets(next, i, next.down[i].cause.value) || Gone(next, next.down[i].cause.value)
    {
      if i < |s.down| {
        assert next.down[i] == s.down[i];
        assert Meets(s, i, s.down[i].cause.value) || Gone(s, s.down[i].cause.value);
        BeforeStays(s.down, e, i);
        if e.Warning? {
          GoneMore(s, next, e, s.down[i].cause.value);
        } else {
          GoneRefused(s, s.down[i].cause.value);
        }
      }
    }
  }

  lemma GoneRefused(s: State, t: Tag)
    ensures Gone(s, t) ==> s.refused != []
  {}

  lemma TrackedMore(s: State, next: State, e: Event)
    requires next.up == s.up && next.fine == s.fine && next.down == s.down + [e]
    ensures forall t :: Tracked(s, t) ==> Tracked(next, t)
  {}

  lemma WarnKeepsInv(s: State)
    requires Inv(s)
    ensures Inv(s.(down := s.down + [Warning(None)]))
  {
    hide DownTags, UpTags, Attributed, Gone;
    var next := s.(down := s.down + [Warning(None)]);
    DownMore(s.down, Warning(None));
    assert DownTags(s.down) + [] == DownTags(s.down);
    AttributedMore(s, next, Warning(None));
    TrackedMore(s, next, Warning(None));
    forall t
      ensures Gone(s, t) ==> Gone(next, t)
    {
      GoneMore(s, next, Warning(None), t);
    }
    hide Tracked, Aligned, Ordered, Paired;
    assert Aligned(next) && Ordered(next) by {
      WarnedAligned(s, next);
    }
    SameKeepsInv(s, next);
  }

  lemma WarnedAligned(s: State, next: State)
    requires Aligned(s) && Ordered(s) && next == s.(down := next.down) && DownTags(next.down) == DownTags(s.down)
    ensures Aligned(next) && Ordered(next)
  {}

  lemma RestPaired(up: seq<Command>)
    requires Paired(up) && up != []
    ensures Paired(up[1..])
  {
    var rest := up[1..];
    forall i | 0 <= i < |rest| && rest[i].Do? && rest[i].purpose.Some?
      ensures i + 1 < |rest| && rest[i + 1] == Sync(rest[i].purpose.value)
    {
      assert rest[i] == up[i + 1] && up[i + 2] == Sync(up[i + 1].purpose.value);
    }
  }

  /** A barrier is answered, or refused; the commands before it were taken. */
  lemma ServedSync(s: State)
    requires Inv(s) && s.up != [] && s.up[0].Sync?
    ensures Inv(Served(s, true)) && Served(s, true) == Served(s, false)
  {
    hide DownTags, UpTags, Attributed, Gone;
    var next, tag := Served(s, true), s.up[0].tag;
    var e := if s.refusing then Warning(None) else Synced(tag);
    UpFirst(s.up);
    DownMore(s.down, e);
    RestPaired(s.up);
    assert next.down == s.down + [e];
    SyncAligned(s, next, tag, e);
    AttributedMore(s, next, e);
    forall t
      ensures Tracked(s, t) ==> Tracked(next, t)
      ensures Gone(s, t) ==> Gone(next, t)
    {
      SyncTracked(s, next, e, t);
      GoneRefused(s, t);
      if s.refusing {
        GoneMore(s, next, e, t);
      }
    }
    hide Tracked, Aligned, Ordered, Paired;
    SameKeepsInv(s, next);
  }

  lemma SyncTracked(s: State, next: State, e: Event, t: Tag)
    requires s.up != [] && s.up[0].Sync? && next.up == s.up[1..] && next.fine == s.fine && next.down == s.down + [e]
    ensures Tracked(s, t) ==> Tracked(next, t)
  {
    if Do(Some(t)) in s.up {
      var i :| 0 <= i < |s.up| && s.up[i] == Do(Some(t));
      assert next.up[i - 1] == Do(Some(t));
    }
  }

  lemma SyncAligned(s: State, next: State, tag: Tag, e: Event)
    requires Aligned(s) && Ordered(s) && next.barriers == s.barriers && next.version == s.version && next.nextId == s.nextId
    requires UpTags(s.up) == [tag] + UpTags(next.up)
    requires DownTags(next.down) == DownTags(s.down) + First(e)
    requires if e.Synced? then e.tag == tag && next.refused == s.refused == [] else next.refused == s.refused + [tag]
    ensures Aligned(next) && Ordered(next)
  {
    hide DownTags, UpTags;
    var d, u := DownTags(s.down), UpTags(next.up);
    if e.Synced? {
      assert d + [] + ([tag] + u) == (d + [tag]) + [] + u;
    } else {
      assert d + s.refused + ([tag] + u) == (d + []) + (s.refused + [tag]) + u;
    }
  }

  lemma ServedDo(s: State, succeeds: bool)
    requires Inv(s) && s.up != [] && s.up[0].Do?
    ensures Inv(Served(s, succeeds))
  {
    hide DownTags, UpTags, Attributed, Gone, Tracked;
    var next, purpose := Served(s, succeeds), s.up[0].purpose;
    UpFirst(s.up);
    assert [] + UpTags(next.up) == UpTags(next.up);
    RestPaired(s.up);
    if succeeds {
      DoneKeepsInv(s, next, purpose);
    } else {
      FailedKeepsInv(s, next, purpose);
    }
  }

  lemma DoneKeepsInv(s: State, next: State, purpose: Option<Tag>)
    requires Inv(s) && s.up != [] && s.up[0] == Do(purpose) && Paired(next.up) && UpTags(next.up) == UpTags(s.up)
    requires next == s.(up := s.up[1..], fine := if purpose.Some? then s.fine + {purpose.value} else s.fine)
    ensures Inv(next)
  {
    hide DownTags, UpTags, Attributed, Gone, Paired;
    assert Attributed(next) by {
      DoneAttributed(s, next);
    }
    forall t
      ensures Tracked(s, t) ==> Tracked(next, t)
      ensures Gone(s, t) ==> Gone(next, t)
    {
      DoneTracked(s, next, purpose, t);
      GoneStill(s, next, t);
    }
    hide Tracked;
    assert Aligned(next) && Ordered(next);
    hide Aligned, Ordered;
    FineKeepsInv(s, next);
  }

  lemma FineKeepsInv(s: State, next: State)
    requires Inv(s) && Aligned(next) && Ordered(next) && Paired(next.up) && Attributed(next)
    requires next == s.(up := next.up, fine := next.fine) && s.fine <= next.fine
    requires forall t :: Tracked(s, t) ==> Tracked(next, t)
    requires forall t :: Gone(s, t) ==> Gone(next, t)
    ensures Inv(next)
  {
    hide Aligned, Ordered, Paired, Attributed, Tracked, Gone;
  }

  lemma DoneAttributed(s: State, next: State)
    requires Attributed(s) && next.down == s.down && next.refused == s.refused && next.barriers == s.barriers
    ensures Attributed(next)
  {
    hide DownTags;
    forall i {:trigger next.down[i]} | 0 <= i < |next.down| && next.down[i].Warning? && next.down[i].cause.Some?
      ensures Meets(next, i, next.down[i].cause.value) || Gone(next, next.down[i].cause.value)
    {
      assert Meets(s, i, s.down[i].cause.value) || Gone(s, s.down[i].cause.value);
    }
  }

  lemma DoneTracked(s: State, next: State, purpose: Option<Tag>, t: Tag)
    requires s.up != [] && s.up[0] == Do(purpose) && next.up == s.up[1..]
    requires s.down <= next.down && s.fine <= next.fine
    requires purpose.Some? ==> purpose.value in next.fine || Warning(purpose) in next.down
    ensures Tracked(s, t) ==> Tracked(next, t)
  {
    if Do(Some(t)) in s.up && purpose != Some(t) {
      var i :| 0 <= i < |s.up| && s.up[i] == Do(Some(t));
      assert next.up[i - 1] == Do(Some(t));
    }
  }

  lemma FailedKeepsInv(s: State, next: State, purpose: Option<Tag>)
    requires Inv(s) && s.up != [] && s.up[0] == Do(purpose) && Paired(next.up) && UpTags(next.up) == UpTags(s.up)
    requires next == s.(up := s.up[1..], down := s.down + [Warning(purpose)])
    ensures Inv(next)
  {
    hide DownTags, UpTags, Attributed, Gone, Paired;
    DownMore(s.down, Warning(purpose));
    assert DownTags(s.down) + [] == DownTags(s.down);
    if purpose.Some? {
      FailureMeets(s, next, purpose.value);
    }
    AttributedMore(s, next, Warning(purpose));
    forall t
      ensures Tracked(s, t) ==> Tracked(next, t)
      ensures Gone(s, t) ==> Gone(next, t)
    {
      assert next.down[|s.down|] == Warning(purpose);
      DoneTracked(s, next, purpose, t);
      GoneMore(s, next, Warning(purpose), t);
    }
    hide Tracked;
    assert Aligned(next) && Ordered(next);
    hide Aligned, Ordered;
    SameKeepsInv(s, next);
  }

  /** The first open barrier that is not answered yet is the one behind the command being taken. */
  lemma FailureMeets(s: State, next: State, t: Tag)
    requires Aligned(s) && Ordered(s) && Paired(s.up) && s.up != [] && s.up[0] == Do(Some(t))
    requires next.down == s.down + [Warning(Some(t))] && next.refused == s.refused && next.barriers == s.barriers
    ensures Meets(next, |s.down|, t) || Gone(next, t)
  {
    hide DownTags, UpTags;
    assert s.up[1] == Sync(t);
    UpFirst(s.up);
    UpFirst(s.up[1..]);
    var d, tags := DownTags(s.down), TagsOf(s.barriers);
    var u := UpTags(s.up);
    assert u != [] && u[0] == t;
    var at := |d| + |s.refused|;
    assert tags[at] == t;
    assert next.down[..|s.down|] == s.down;
    if s.refused != [] {
      forall k | 0 <= k < |next.down| && next.down[k].Synced?
        ensures Follows(next.down[k].tag, t)
      {
        assert next.down[k] == s.down[k];
        DownHas(s.down, k);
        var j :| 0 <= j < |d| && d[j] == s.down[k].tag;
        assert tags[j] == d[j];
        assert Follows(s.barriers[j].tag, s.barriers[at].tag);
      }
    }
  }

  lemma {:induction false} DownHas(down: seq<Event>, i: nat)
    requires i < |down| && down[i].Synced?
    ensures down[i].tag in DownTags(down)
    decreases |down|
  {
    if i < |down| - 1 {
      DownHas(down[..|down| - 1], i);
    }
  }

  // ---------------------------------------------------------------------------------------------
  // Receiving.

  lemma BeforeShifts(down: seq<Event>, i: nat)
    requires down != [] && i < |down|
    ensures Before(down, i + 1) == |First(down[0])| + Before(down[1..], i)
  {
    DownFirst(down[..i + 1]);
    assert down[..i + 1][1..] == down[1..][..i];
  }

  lemma GoneRest(s: State, next: State, t: Tag)
    requires s.down != [] && next.down == s.down[1..] && next.refused == s.refused
    ensures Gone(s, t) ==> Gone(next, t)
  {
    assert forall k {:trigger next.down[k]} :: 0 <= k < |next.down| ==> next.down[k] == s.down[k + 1];
  }

  lemma TrackedRest(s: State, next: State, t: Tag)
    requires s.down != [] && next.down == s.down[1..] && next.up == s.up && next.fine == s.fine
    ensures Tracked(s, t) && s.down[0] != Warning(Some(t)) ==> Tracked(next, t)
  {
    if Warning(Some(t)) in s.down && s.down[0] != Warning(Some(t)) {
      var i :| 0 <= i < |s.down| && s.down[i] == Warning(Some(t));
      assert next.down[i - 1] == Warning(Some(t));
    }
  }

  lemma RestAttributed(s: State, next: State)
    requires Attributed(s) && s.down != [] && next.down == s.down[1..] && next.refused == s.refused
    requires |next.barriers| == |s.barriers| - |First(s.down[0])|
    requires forall j {:trigger next.barriers[j]} :: 0 <= j < |next.barriers| ==> next.barriers[j].tag == s.barriers[j + |First(s.down[0])|].tag
    ensures Attributed(next)
  {
    hide DownTags, Gone;
    forall i {:trigger next.down[i]} | 0 <= i < |next.down| && next.down[i].Warning? && next.down[i].cause.Some?
      ensures Meets(next, i, next.down[i].cause.value) || Gone(next, next.down[i].cause.value)
    {
      var t := next.down[i].cause.value;
      assert next.down[i] == s.down[i + 1];
      assert Meets(s, i + 1, t) || Gone(s, t);
      BeforeShifts(s.down, i);
      GoneRest(s, next, t);
    }
  }

  lemma NothingBefore(s: State, t: Tag)
    requires Attributed(s) && s.down != [] && s.down[0] == Warning(Some(t))
    ensures (s.barriers != [] && s.barriers[0].tag == t) || Gone(s, t)
  {
    hide Gone;
    assert Meets(s, 0, s.down[0].cause.value) || Gone(s, t);
    assert s.down[..0] == [];
  }

  lemma WarningKeepsInv(s: State)
    requires Inv(s) && s.down != [] && s.down[0].Warning?
    ensures Inv(Received(s))
  {
    hide DownTags, UpTags, Attributed, Gone, Tracked, Paired;
    var next := Received(s);
    assert next.down == s.down[1..] && next.up == s.up && next.refused == s.refused && next.fine == s.fine;
    DownFirst(s.down);
    assert [] + DownTags(next.down) == DownTags(next.down);
    assert TagsOf(next.barriers) == TagsOf(s.barriers);
    RestAttributed(s, next);
    if s.down[0].cause.Some? {
      NothingBefore(s, s.down[0].cause.value);
    }
    forall t
      ensures Tracked(s, t) && s.down[0] != Warning(Some(t)) ==> Tracked(next, t)
      ensures Gone(s, t) ==> Gone(next, t)
    {
      TrackedRest(s, next, t);
      GoneRest(s, next, t);
    }
    WarnedTracked(s, next);
  }

  lemma WarnedTracked(s: State, next: State)
    requires Inv(s) && s.down != [] && s.down[0].Warning? && next == Received(s)
    requires forall t :: Tracked(s, t) && s.down[0] != Warning(Some(t)) ==> Tracked(next, t)
    requires forall t :: Gone(s, t) ==> Gone(next, t)
    requires s.down[0].cause.Some? ==>
               (s.barriers != [] && s.barriers[0].tag == s.down[0].cause.value) || Gone(s, s.down[0].cause.value)
    ensures SettingsTracked(next) && CommandsTracked(next) && SavedIsFine(next) && Ordered(next)
  {
    hide DownTags, UpTags, Attributed, Gone, Tracked, Paired, Aligned;
    assert forall i {:trigger next.barriers[i]} :: 0 <= i < |next.barriers| ==> next.barriers[i].tag == s.barriers[i].tag;
    forall i {:trigger next.barriers[i]} | 0 <= i < |next.barriers| && next.barriers[i].tag.Confirm?
      ensures Tracked(next, next.barriers[i].tag) || next.barriers[i].warned || Gone(next, next.barriers[i].tag)
    {
      assert Tracked(s, s.barriers[i].tag) || s.barriers[i].warned || Gone(s, s.barriers[i].tag);
      if i > 0 {
        assert Follows(s.barriers[0].tag, s.barriers[i].tag);
      }
    }
  }

  /** The answer meets the first open barrier. */
  lemma AnswerMeets(s: State)
    requires Aligned(s) && s.down != [] && s.down[0].Synced?
    ensures s.barriers != [] && s.barriers[0].tag == s.down[0].tag
    ensures TagsOf(s.barriers[1..]) == DownTags(s.down[1..]) + s.refused + UpTags(s.up)
  {
    hide DownTags, UpTags;
    DownFirst(s.down);
    var d, tags := DownTags(s.down), TagsOf(s.barriers);
    assert d == [s.down[0].tag] + DownTags(s.down[1..]);
    assert tags[0] == d[0];
    assert TagsOf(s.barriers[1..]) == tags[1..];
    assert tags[1..] == DownTags(s.down[1..]) + s.refused + UpTags(s.up);
  }

  /** What was not sent after the barrier being answered was carried out, or its warning has arrived. */
  lemma AnsweredIsFine(s: State, t: Tag)
    requires Aligned(s) && Ordered(s) && Paired(s.up) && Attributed(s) && s.down != [] && s.down[0].Synced?
    requires Tracked(s, t) && !Follows(s.down[0].tag, t)
    ensures t in s.fine
  {
    hide DownTags, UpTags, Gone;
    AnswerMeets(s);
    AnswerNotGone(s, t);
    forall j | 1 <= j < |s.barriers|
      ensures s.barriers[j].tag != t
    {
      assert Follows(s.barriers[0].tag, s.barriers[j].tag);
    }
    NotInUp(s, t);
    NotInDown(s, t);
  }

  lemma AnswerNotGone(s: State, t: Tag)
    requires s.down != [] && s.down[0].Synced? && !Follows(s.down[0].tag, t)
    ensures !Gone(s, t)
  {
    assert s.down[0] == s.down[0];
  }

  lemma NotInUp(s: State, t: Tag)
    requires Paired(s.up) && s.barriers != [] && s.down != []
    requires TagsOf(s.barriers[1..]) == DownTags(s.down[1..]) + s.refused + UpTags(s.up)
    requires forall j :: 1 <= j < |s.barriers| ==> s.barriers[j].tag != t
    ensures Do(Some(t)) !in s.up
  {
    hide DownTags, UpTags;
    var rest := TagsOf(s.barriers[1..]);
    assert t !in rest by {
      forall j | 0 <= j < |rest|
        ensures rest[j] != t
      {
        assert rest[j] == s.barriers[j + 1].tag;
      }
    }
    assert t !in UpTags(s.up);
    forall i | 0 <= i < |s.up|
      ensures s.up[i] != Do(Some(t))
    {
      if i + 1 < |s.up| && s.up[i + 1] == Sync(t) {
        UpHas(s.up, i + 1);
      }
    }
  }

  lemma NotInDown(s: State, t: Tag)
    requires Attributed(s) && s.down != [] && s.down[0].Synced? && !Gone(s, t)
    requires forall j :: 1 <= j < |s.barriers| ==> s.barriers[j].tag != t
    ensures Warning(Some(t)) !in s.down
  {
    hide DownTags, Gone;
    forall i | 0 <= i < |s.down|
      ensures s.down[i] != Warning(Some(t))
    {
      if i > 0 {
        BeforeShifts(s.down, i - 1);
        assert !Meets(s, i, t);
      }
    }
  }

  lemma SyncedKeepsInv(s: State)
    requires Inv(s) && s.down != [] && s.down[0].Synced?
    ensures Inv(Received(s))
  {
    hide DownTags, UpTags, Attributed, Gone, Tracked, Paired;
    var next := Received(s);
    AnswerMeets(s);
    assert next.down == s.down[1..] && next.up == s.up && next.refused == s.refused && next.fine == s.fine;
    assert next.barriers == s.barriers[1..];
    RestAttributed(s, next);
    forall t
      ensures Tracked(s, t) ==> Tracked(next, t)
      ensures Gone(s, t) ==> Gone(next, t)
    {
      TrackedRest(s, next, t);
      GoneRest(s, next, t);
    }
    SyncedTracked(s, next);
  }

  lemma SyncedTracked(s: State, next: State)
    requires Inv(s) && s.down != [] && s.down[0].Synced? && next == Received(s)
    requires s.barriers != [] && s.barriers[0].tag == s.down[0].tag
    requires forall t :: Tracked(s, t) ==> Tracked(next, t)
    requires forall t :: Gone(s, t) ==> Gone(next, t)
    ensures SettingsTracked(next) && CommandsTracked(next) && SavedIsFine(next) && Ordered(next)
  {
    hide DownTags, UpTags, Attributed, Gone, Tracked, Paired, Aligned;
    var tag := s.down[0].tag;
    assert forall i {:trigger next.barriers[i]} :: 0 <= i < |next.barriers| ==> next.barriers[i] == s.barriers[i + 1];
    if tag == Version(s.version) && s.status == Saving && !s.failed {
      forall n {:trigger Version(n)} | s.start <= n <= s.version
        ensures Version(n) in s.fine
      {
        AnswerNotGone(s, Version(n));
        AnsweredIsFine(s, Version(n));
      }
    }
    if tag.Confirm? && !s.barriers[0].warned {
      assert Tracked(s, tag) || s.barriers[0].warned || Gone(s, s.barriers[0].tag);
      AnswerNotGone(s, tag);
      AnsweredIsFine(s, tag);
    }
  }

  // ---------------------------------------------------------------------------------------------
  // Each step.

  lemma QuietKeepsInv(s: State, next: State)
    requires Inv(s) && next == s.(open := next.open, status := next.status, failed := next.failed, confirmation := next.confirmation,
                                  refusing := next.refusing)
    requires next.status == s.status || next.status == Failed
    requires s.failed ==> next.failed
    requires next.confirmation == s.confirmation || next.confirmation == None
    requires !next.refusing ==> s.refused == []
    ensures Inv(next)
  {
    hide DownTags, UpTags, Attributed, Gone, Tracked, Paired, Aligned;
    SameChannels(s, next);
    forall t
      ensures Gone(s, t) ==> Gone(next, t)
      ensures Tracked(s, t) ==> Tracked(next, t)
    {
      GoneStill(s, next, t);
      SameTracked(s, next, t);
    }
    assert Ordered(next);
    hide Ordered;
    SameKeepsInv(s, next);
  }

  lemma SameTracked(s: State, next: State, t: Tag)
    requires next.up == s.up && next.down == s.down && next.fine == s.fine
    ensures Tracked(s, t) ==> Tracked(next, t)
  {}

  lemma ClearedKeepsInv(s: State)
    requires Inv(s)
    ensures Inv(Cleared(s))
  {}

  lemma ReconnectKeepsInv(s: State)
    requires Inv(s) && Enabled(s, Reconnect)
    ensures Inv(Apply(s, Reconnect))
  {
    assert TagsOf(s.barriers) == DownTags(s.down) + s.refused + UpTags(s.up);
    assert |s.refused| == 0;
    QuietKeepsInv(s, Apply(s, Reconnect));
  }

  lemma StepKeepsInv(s: State, step: Step)
    requires Inv(s) && Enabled(s, step)
    ensures Inv(Apply(s, step))
  {
    hide Inv, Changed, Confirmed, Served, Received, Cleared;
    assert !s.refusing ==> s.refused == [] by {
      RefusedOnly(s);
    }
    match step
    case ChangeSetting => ChangedKeepsInv(s);
    case Send => PlainKeepsInv(s);
    case SendConfirmed => ConfirmedKeepsInv(s);
    case Serve(succeeds) =>
      if s.up[0].Sync? {
        ServedSync(s);
      } else {
        ServedDo(s, succeeds);
      }
    case Warn => WarnKeepsInv(s);
    case Refuse => QuietKeepsInv(s, Apply(s, step));
    case Receive =>
      if s.down[0].Warning? {
        WarningKeepsInv(s);
      } else {
        SyncedKeepsInv(s);
      }
    case SettingTimeout => QuietKeepsInv(s, Apply(s, step));
    case ConfirmationTimeout => QuietKeepsInv(s, Apply(s, step));
    case Close => QuietKeepsInv(s, Apply(s, step));
    case Lose => ClearedKeepsInv(s);
    case Reconnect => ReconnectKeepsInv(s);
  }

  lemma RefusedOnly(s: State)
    requires Inv(s)
    ensures !s.refusing ==> s.refused == []
  {}

  // ---------------------------------------------------------------------------------------------
  // Runs.

  ghost predicate IsRun(states: seq<State>, steps: seq<Step>) {
    && |states| == |steps| + 1 && states[0] == INITIAL
    && (forall i {:trigger states[i]} :: 0 <= i < |steps| ==> Moves(states[i], steps[i], states[i + 1]))
  }

  predicate Moves(s: State, step: Step, next: State) {
    Enabled(s, step) && next == Apply(s, step)
  }

  lemma {:induction false} RunKeepsInv(states: seq<State>, steps: seq<Step>, i: nat)
    requires IsRun(states, steps) && i < |states|
    ensures Inv(states[i])
  {
    hide Inv, Apply, Enabled;
    if i == 0 {
      InitialFits();
    } else {
      RunKeepsInv(states, steps, i - 1);
      assert Moves(states[i - 1], steps[i - 1], states[i - 1 + 1]);
      StepKeepsInv(states[i - 1], steps[i - 1]);
    }
  }

  lemma InitialFits()
    ensures Inv(INITIAL)
  {}

  /**
   The barriers that are open are exactly those that the server has still to answer, has refused, or
   has answered with a message that is still on its way.
   */
  lemma OpenBarriers(states: seq<State>, steps: seq<Step>, i: nat)
    requires IsRun(states, steps) && i < |states|
    ensures |states[i].barriers| == |DownTags(states[i].down)| + |states[i].refused| + |UpTags(states[i].up)|
  {
    hide IsRun, DownTags, UpTags;
    RunKeepsInv(states, steps, i);
    assert Aligned(states[i]);
  }

  /** The barriers that are open are as many as were sent on this connection, less the answers received. */
  lemma {:induction false} BarriersCount(states: seq<State>, steps: seq<Step>, i: nat)
    requires IsRun(states, steps) && i < |states|
    ensures |states[i].barriers| == states[i].asked - states[i].told
  {
    hide Apply, Enabled, Inv;
    if i > 0 {
      BarriersCount(states, steps, i - 1);
      RunKeepsInv(states, steps, i - 1);
      assert Moves(states[i - 1], steps[i - 1], states[i - 1 + 1]);
      StepCounts(states[i - 1], steps[i - 1]);
    }
  }

  lemma StepCounts(s: State, step: Step)
    requires Inv(s) && Enabled(s, step) && |s.barriers| == s.asked - s.told
    ensures |Apply(s, step).barriers| == Apply(s, step).asked - Apply(s, step).told
  {
    hide Inv;
    if step.Receive? && s.down[0].Synced? {
      AnswerExpected(s);
    }
  }

  lemma AnswerExpected(s: State)
    requires Inv(s) && s.down != [] && s.down[0].Synced?
    ensures s.barriers != []
  {
    hide Ordered, Attributed, Paired;
    AnswerMeets(s);
  }

  /** Settings are shown as saved only when the server carried out every change since saving began. */
  lemma SavedSettingsAreSaved(states: seq<State>, steps: seq<Step>, i: nat, n: nat)
    requires IsRun(states, steps) && i < |states| && states[i].status == Saved
    requires states[i].start <= n <= states[i].version
    ensures Version(n) in states[i].fine
  {
    hide IsRun;
    RunKeepsInv(states, steps, i);
    assert Version(n) == Version(n);
  }

  /** A command is reported as done only when the server carried it out without a warning. */
  lemma CompletedCommandsAreDone(states: seq<State>, steps: seq<Step>, i: nat, id: nat)
    requires IsRun(states, steps) && i < |states| && id in states[i].completed
    ensures Confirm(id) in states[i].fine
  {
    hide IsRun;
    RunKeepsInv(states, steps, i);
  }

  // ---------------------------------------------------------------------------------------------
  // The client.

  class Connection {
    var open: bool
    var syncBarriers: seq<Barrier>
    var preferenceVersion: nat
    var preferenceFailed: bool
    var preferenceStatus: Status
    var confirmation: Option<nat>
    var nextId: nat
    var sent: seq<Command>
    var completed: set<nat>
    ghost var start: nat
    ghost var asked: nat

    constructor ()
      ensures Contents(INITIAL) == INITIAL
    {
      open, syncBarriers, preferenceVersion, preferenceFailed := true, [], 0, false;
      preferenceStatus, confirmation, nextId, sent, completed, start, asked := Idle, None, 0, [], {}, 0, 0;
    }

    /** The whole connection, given what is under way on the network. */
    ghost function Contents(net: State): State
      reads this
    {
      net.(open := open, barriers := syncBarriers, version := preferenceVersion, failed := preferenceFailed,
           status := preferenceStatus, confirmation := confirmation, nextId := nextId,
           up := net.up + sent, completed := completed, start := start, asked := asked)
    }

    method Setting(ghost net: State) returns (ok: bool)
      modifies this
      ensures ok == old(open)
      ensures Contents(net) == if old(open) then Changed(old(Contents(net))) else old(Contents(net))
    {
      if !open {
        return false;
      }
      if preferenceStatus != Saving {
        preferenceFailed := false;
        start := preferenceVersion + 1;
      }
      preferenceVersion := preferenceVersion + 1;
      preferenceStatus := Saving;
      var version := Version(preferenceVersion);
      sent := sent + [Do(Some(version)), Sync(version)];
      syncBarriers, asked := syncBarriers + [Barrier(version, false)], asked + 1;
      assert net.up + old(sent) + [Do(Some(version)), Sync(version)] == net.up + sent;
      ok := true;
    }

    method SendWithConfirmation(ghost net: State) returns (ok: bool)
      modifies this
      ensures ok == (old(open) && old(confirmation).None?)
      ensures Contents(net) == if ok then Confirmed(old(Contents(net))) else old(Contents(net))
    {
      if !open || confirmation.Some? {
        return false;
      }
      var tag := Confirm(nextId);
      sent := sent + [Do(Some(tag)), Sync(tag)];
      confirmation := Some(nextId);
      nextId := nextId + 1;
      syncBarriers, asked := syncBarriers + [Barrier(tag, false)], asked + 1;
      assert net.up + old(sent) + [Do(Some(tag)), Sync(tag)] == net.up + sent;
      ok := true;
    }

    method OnWarning(ghost net: State)
      modifies this
      ensures Contents(net) == Warned(old(Contents(net)))
    {
      if syncBarriers == [] {
        return;
      }
      var barrier := syncBarriers[0];
      if barrier.tag.Version? {
        preferenceFailed := true;
      } else {
        syncBarriers := syncBarriers[0 := barrier.(warned := true)];
      }
    }

    method OnSynced(ghost net: State)
      modifies this
      ensures Contents(net) == Answered(old(Contents(net)))
    {
      if syncBarriers == [] {
        return;
      }
      var barrier := syncBarriers[0];
      syncBarriers := syncBarriers[1..];
      if barrier.tag == Version(preferenceVersion) && preferenceStatus == Saving {
        preferenceStatus := if preferenceFailed then Failed else Saved;
      } else if barrier.tag.Confirm? && confirmation == Some(barrier.tag.id) {
        confirmation := None;
        if !barrier.warned {
          completed := completed + {barrier.tag.id};
        }
      }
    }

    method ClearPreferenceRequests(ghost net: State)
      modifies this
      ensures Cleared(Contents(net)) == Cleared(old(Contents(net)))
      ensures syncBarriers == [] && confirmation.None? && preferenceStatus != Saving
    {
      confirmation := None;
      syncBarriers := [];
      if preferenceStatus == Saving {
        preferenceStatus := Failed;
      }
    }
  }
}
