/**
 One table per player. The hub decides on views of the tables that lag behind them; claims bridge the
 gap until the view of a table has caught up with whoever was let in.
 */
module Playing {
  import opened Common

  /** Who plays at a table; a review has no players in this sense. */
  datatype Roster = Roster(players: set<int>, replay: bool)

  /** Where an operation stands that may add players to its target. */
  datatype Stage =
    | Started
    | Asking
    | Allowed
    | Saved
    | Published
    | Installing(accepted: bool)
    | Refused
    | Leaving

  datatype Operation =
    | Join(target: int, user: int, stage: Stage)
    | Create(target: int, user: int, stage: Stage)
    | Move(source: int, target: int, users: set<int>, retire: bool, stage: Stage)

  datatype Message =
    | Effects(table: int, roster: Roster)
    | Retire(table: int)
    | Install(op: int, table: int, roster: Roster, accepted: bool)
    | Ask(op: int)
    | Finished(op: int)

  /** The tables themselves, the hub's views and mailbox, and the claims with their operations. */
  datatype State = State(
    tables: map<int, Roster>, views: map<int, Roster>, queue: seq<Message>,
    claims: map<int, int>, ops: map<int, Operation>, busy: set<int>, used: set<int>
  )

  datatype Step =
    | Route(op: int, user: int, table: int)
    | Prepare(op: int, user: int, table: int)
    | Begin(op: int, source: int, target: int, users: set<int>, retire: bool)
    | Claim(op: int, user: int)
    | Check(op: int)
    | Admit(op: int)
    | Reject(op: int)
    | SaveNew(op: int)
    | Journal(op: int)
    | Publish(table: int)
    | PublishJoin(op: int)
    | PublishMove(op: int)
    | Send(op: int, accepted: bool)
    | Answer(op: int)
    | Abandon(op: int)
    | CleanUp(op: int)
    | Shrink(table: int, players: set<int>)
    | Convert(table: int)
    | Remove(table: int)
    | SendRetire(table: int)
    | Deliver

  predicate Shows(view: Option<Roster>, user: int) {
    view.Some? && !view.value.replay && user in view.value.players
  }

  function ViewOf(s: State, t: int): Option<Roster> {
    if t in s.views then Some(s.views[t]) else None
  }

  /** What the coordinator sees when it asks whether somebody plays elsewhere. */
  predicate Elsewhere(s: State, user: int, except: Option<int>) {
    exists t <- s.views :: Some(t) != except && Shows(ViewOf(s, t), user)
  }

  function UsersOf(o: Operation): set<int> {
    match o
    case Join(_, user, _) => {user}
    case Create(_, user, _) => {user}
    case Move(_, _, users, _, _) => users
  }

  predicate ClaimedBy(s: State, user: int, op: int) {
    user in s.claims && s.claims[user] == op
  }

  predicate At(s: State, op: int, stage: Stage) {
    op in s.ops && s.ops[op].stage == stage
  }

  predicate Plays(s: State, t: int, user: int) {
    t in s.tables && !s.tables[t].replay && user in s.tables[t].players
  }

  /** Whether the new table of an operation does not exist yet. */
  predicate Uncreated(o: Operation) {
    !o.Join? && (o.stage == Started || o.stage == Asking || o.stage == Allowed)
  }

  predicate Enabled(s: State, step: Step) {
    match step
    case Route(op, user, t) =>
      op !in s.ops && t in s.views && user !in s.claims && !Elsewhere(s, user, Some(t))
    case Prepare(op, user, t) =>
      op !in s.ops && t !in s.used && user !in s.claims && !Elsewhere(s, user, None)
    case Begin(op, source, target, users, retire) =>
      op !in s.ops && target !in s.used && source in s.tables && source !in s.busy
    case Claim(op, user) => At(s, op, Started) && s.ops[op].Move? && user in s.ops[op].users && user !in s.claims
    case Check(op) => At(s, op, Started) && s.ops[op].Move? && forall user <- s.ops[op].users :: ClaimedBy(s, user, op)
    case Admit(op) =>
      && At(s, op, Started) && s.ops[op].Join?
      && s.ops[op].target in s.tables && !s.tables[s.ops[op].target].replay && s.ops[op].target !in s.busy
    case Reject(op) => At(s, op, Started) && s.ops[op].Join?
    case SaveNew(op) => At(s, op, Started) && s.ops[op].Create?
    case Journal(op) => At(s, op, Allowed) && s.ops[op].Move? && s.ops[op].source in s.tables
    case Publish(t) => t in s.tables && t !in s.busy
    case PublishJoin(op) => At(s, op, Saved) && s.ops[op].Join? && s.ops[op].target !in s.busy
    case PublishMove(op) => At(s, op, Saved) && s.ops[op].Move?
    case Send(op, accepted) =>
      || (At(s, op, Saved) && s.ops[op].Create?)
      || (At(s, op, Published) && s.ops[op].Move? && accepted)
    case Answer(op) => At(s, op, Published) && s.ops[op].Join?
    // Preparing a table failed, or somebody is claimed or plays elsewhere, or asking failed.
    case Abandon(op) =>
      op in s.ops && ((s.ops[op].Create? && s.ops[op].stage == Started)
                      || (s.ops[op].Move? && (s.ops[op].stage == Started || s.ops[op].stage == Allowed || s.ops[op].stage == Refused)))
    case CleanUp(op) => op in s.ops && s.ops[op].Create? && s.ops[op].stage == Refused
    case Shrink(t, players) => t in s.tables && t !in s.busy && players <= s.tables[t].players
    case Convert(t) => t in s.tables && t !in s.busy
    case Remove(t) => t in s.tables && t !in s.busy
    case SendRetire(t) => t !in s.tables && t in s.used && !exists op <- s.ops :: Uncreated(s.ops[op]) && s.ops[op].target == t
    case Deliver => s.queue != []
  }

  function Staged(s: State, op: int, stage: Stage): State
    requires op in s.ops
  {
    s.(ops := s.ops[op := s.ops[op].(stage := stage)])
  }

  /** Forgets an operation and gives its claims back. */
  function Freed(s: State, op: int): State {
    s.(ops := s.ops - {op}, claims := map user | user in s.claims && s.claims[user] != op :: s.claims[user])
  }

  function TableOf(s: State, t: int): Roster {
    if t in s.tables then s.tables[t] else Roster({}, true)
  }

  function Added(r: Roster, user: int): Roster {
    r.(players := r.players + {user})
  }

  function Seen(views: map<int, Roster>, m: Message): map<int, Roster> {
    match m
    case Effects(t, r) => if t in views then views[t := r] else views
    case Retire(t) => views - {t}
    case Install(_, t, r, accepted) => if accepted then views[t := r] else views
    case _ => views
  }

  function Delivered(s: State): State
    requires s.queue != []
  {
    var m, rest := s.queue[0], s.(queue := s.queue[1..], views := Seen(s.views, s.queue[0]));
    match m
    case Install(op, _, _, accepted) =>
      if op !in s.ops then rest
      else if accepted then Freed(rest, op)
      else Staged(rest, op, Refused)
    case Finished(op) => Freed(rest, op)
    case Ask(op) =>
      if !At(s, op, Asking) || !s.ops[op].Move? then rest
      else if exists user <- s.ops[op].users :: Elsewhere(s, user, Some(s.ops[op].source)) then Staged(rest, op, Refused)
      else Staged(rest, op, Allowed)
    case _ => rest
  }

  function Apply(s: State, step: Step): State
    requires Enabled(s, step)
  {
    match step
    case Route(op, user, t) => s.(ops := s.ops[op := Join(t, user, Started)], claims := s.claims[user := op])
    case Prepare(op, user, t) =>
      s.(ops := s.ops[op := Create(t, user, Started)], claims := s.claims[user := op], used := s.used + {t})
    case Begin(op, source, target, users, retire) =>
      s.(ops := s.ops[op := Move(source, target, users, retire, Started)], busy := s.busy + {source}, used := s.used + {target})
    case Claim(op, user) => s.(claims := s.claims[user := op])
    case Check(op) => Staged(s, op, Asking).(queue := s.queue + [Ask(op)])
    case Admit(op) =>
      var o := s.ops[op];
      if o.user in s.tables[o.target].players then s
      else Staged(s, op, Saved).(tables := s.tables[o.target := Added(s.tables[o.target], o.user)])
    case Reject(op) => Staged(s, op, Leaving).(queue := s.queue + [Finished(op)])
    case SaveNew(op) => Staged(s, op, Saved).(tables := s.tables[s.ops[op].target := Roster({s.ops[op].user}, false)])
    case Journal(op) =>
      var o := s.ops[op];
      var left := s.tables[o.source].(players := s.tables[o.source].players - o.users);
      Staged(s, op, Saved).(
        tables := (if o.retire then s.tables - {o.source} else s.tables[o.source := left])[o.target := Roster(o.users, false)])
    case Publish(t) => s.(queue := s.queue + [Effects(t, s.tables[t])])
    case PublishJoin(op) => Staged(s, op, Published).(queue := s.queue + [Effects(s.ops[op].target, TableOf(s, s.ops[op].target))])
    case PublishMove(op) => Staged(s, op, Published).(queue := s.queue + [Effects(s.ops[op].source, TableOf(s, s.ops[op].source))])
    case Send(op, accepted) =>
      var o := s.ops[op];
      Staged(s, op, Installing(accepted)).(
        queue := s.queue + [Install(op, o.target, TableOf(s, o.target), accepted)],
        busy := if o.Move? then s.busy - {o.source} else s.busy)
    case Answer(op) => Staged(s, op, Leaving).(queue := s.queue + [Finished(op)])
    case Abandon(op) =>
      var o := s.ops[op];
      Freed(s, op).(busy := if o.Move? then s.busy - {o.source} else s.busy)
    case CleanUp(op) => Freed(s.(tables := s.tables - {s.ops[op].target}), op)
    case Shrink(t, players) => s.(tables := s.tables[t := s.tables[t].(players := players)])
    case Convert(t) => s.(tables := s.tables[t := s.tables[t].(replay := true)])
    case Remove(t) => s.(tables := s.tables - {t})
    case SendRetire(t) => s.(queue := s.queue + [Retire(t)])
    case Deliver => Delivered(s)
  }

  // ---------------------------------------------------------------------------------------------
  // The invariant.

  /** The view of a table once the first messages are handled. */
  function ViewAfter(s: State, k: nat, t: int): Option<Roster>
    requires k <= |s.queue|
  {
    if k == 0 then ViewOf(s, t) else NextView(ViewAfter(s, k - 1, t), s.queue[k - 1], t)
  }

  function NextView(view: Option<Roster>, m: Message, t: int): Option<Roster> {
    match m
    case Effects(u, r) => if u == t && view.Some? then Some(r) else view
    case Retire(u) => if u == t then None else view
    case Install(_, u, r, accepted) => if u == t && accepted then Some(r) else view
    case _ => view
  }

  predicate Releases(m: Message, op: int) {
    (m.Finished? && m.op == op) || (m.Install? && m.op == op)
  }

  predicate Released(s: State, k: nat, op: int)
    requires k <= |s.queue|
  {
    exists i :: 0 <= i < k && Releases(s.queue[i], op) && !(s.queue[i].Install? && !s.queue[i].accepted)
  }

  /** Stages in which an operation has let its users in, and those in which no view says so yet. */
  predicate LetIn(stage: Stage, o: Operation) {
    match stage
    case Saved => true
    case Published => true
    case Installing(_) => true
    case Refused => o.Create?
    case Leaving => true
    case _ => false
  }

  predicate Unseen(stage: Stage, o: Operation) {
    match stage
    case Saved => true
    case Published => o.Move?
    case Installing(accepted) => !accepted
    case Refused => o.Create?
    case _ => false
  }

  /** Whether the claim of a user bridges the gap at a table until so many messages are handled. */
  predicate Bridged(s: State, k: nat, t: int, user: int)
    requires k <= |s.queue|
  {
    && user in s.claims && s.claims[user] in s.ops
    && s.ops[s.claims[user]].target == t && LetIn(s.ops[s.claims[user]].stage, s.ops[s.claims[user]])
    && !Released(s, k, s.claims[user])
  }

  predicate Exempt(s: State, t: int, user: int) {
    && user in s.claims && s.claims[user] in s.ops
    && s.ops[s.claims[user]].target == t && Unseen(s.ops[s.claims[user]].stage, s.ops[s.claims[user]])
  }

  /** Whoever plays is in the view at every coming moment, or claimed for that table. */
  ghost predicate Covered(s: State) {
    forall t, user, k {:trigger Plays(s, t, user), ViewAfter(s, k, t)} ::
      Plays(s, t, user) && 0 <= k <= |s.queue| ==> Shows(ViewAfter(s, k, t), user) || Bridged(s, k, t, user)
  }

  /** The last view on its way shows whoever plays, unless the operation has yet to publish it. */
  ghost predicate CatchesUp(s: State) {
    forall t, user {:trigger Plays(s, t, user)} ::
      Plays(s, t, user) ==> Shows(ViewAfter(s, |s.queue|, t), user) || Exempt(s, t, user)
  }

  /** Whoever an operation is about to let in plays nowhere else. */
  ghost predicate Clear(s: State, op: int, o: Operation) {
    match o
    case Join(target, user, Started) => ClaimedBy(s, user, op) && forall t {:trigger Plays(s, t, user)} :: t != target ==> !Plays(s, t, user)
    case Create(target, user, Started) => ClaimedBy(s, user, op) && forall t {:trigger Plays(s, t, user)} :: !Plays(s, t, user)
    case Move(source, _, users, _, Allowed) =>
      forall t, user {:trigger Plays(s, t, user)} :: user in users && t != source ==> !Plays(s, t, user)
    case _ => true
  }

  ghost predicate Clears(s: State) {
    forall op {:trigger s.ops[op]} :: op in s.ops ==> Clear(s, op, s.ops[op])
  }

  predicate HoldsClaims(o: Operation) {
    o.Move? && o.stage != Started && o.stage != Refused
  }

  /** Claims belong to operations, and a handover that was checked holds all of its claims. */
  ghost predicate Owned(s: State) {
    && (forall user {:trigger s.claims[user]} :: user in s.claims ==> s.claims[user] in s.ops && user in UsersOf(s.ops[s.claims[user]]))
    && (forall op, user {:trigger ClaimedBy(s, user, op)} :: op in s.ops && HoldsClaims(s.ops[op]) && user in s.ops[op].users ==>
          ClaimedBy(s, user, op))
  }

  /** New tables are new, and tables that are gone do not come back. */
  ghost predicate Fresh(s: State) {
    && (forall op {:trigger s.ops[op]} :: op in s.ops ==>
          && s.ops[op].target in s.used
          && (Uncreated(s.ops[op]) ==> s.ops[op].target !in s.tables && s.ops[op].target !in s.views)
          && (s.ops[op].Join? ==> s.ops[op].target in s.views || s.ops[op].target !in s.tables))
    && (forall a, b {:trigger s.ops[a], s.ops[b]} ::
          (a in s.ops && b in s.ops && a != b && !s.ops[a].Join?) ==>
            (!s.ops[b].Join? || Uncreated(s.ops[a]) ==> s.ops[a].target != s.ops[b].target))
    && (forall t {:trigger t in s.tables} :: t in s.tables ==> t in s.used)
    && (forall t {:trigger t in s.views} :: t in s.views ==> t in s.used)
    && (forall i {:trigger s.queue[i]} :: 0 <= i < |s.queue| && s.queue[i].Retire? ==>
          && s.queue[i].table !in s.tables && s.queue[i].table in s.used
          && forall op {:trigger s.ops[op]} :: op in s.ops && Uncreated(s.ops[op]) ==> s.ops[op].target != s.queue[i].table)
  }

  /** A message that ends an operation is in the mailbox only while that operation waits for it. */
  ghost predicate Orderly(s: State) {
    && (forall i, op {:trigger Releases(s.queue[i], op)} :: 0 <= i < |s.queue| && Releases(s.queue[i], op) ==>
          op in s.ops && Awaits(s.ops[op], s.queue[i]))
    && (forall i, j, op {:trigger Releases(s.queue[i], op), Releases(s.queue[j], op)} ::
          0 <= i < j < |s.queue| ==> !(Releases(s.queue[i], op) && Releases(s.queue[j], op)))
  }

  predicate Awaits(o: Operation, m: Message) {
    match m
    case Finished(_) => o.Join? && o.stage == Leaving
    case Install(_, t, _, accepted) => !o.Join? && o.stage == Installing(accepted) && t == o.target && (accepted || o.Create?)
    case _ => true
  }

  /** Nobody plays at two tables. */
  ghost predicate Unique(s: State) {
    forall t, u, user {:trigger Plays(s, t, user), Plays(s, u, user)} :: Plays(s, t, user) && Plays(s, u, user) ==> t == u
  }

  ghost predicate Inv(s: State) {
    Unique(s) && Covered(s) && CatchesUp(s) && Clears(s) && Owned(s) && Fresh(s) && Orderly(s)
  }

  // ---------------------------------------------------------------------------------------------
  // Views through the mailbox.

  /** Messages added behind do not change what is seen before them. */
  lemma {:induction false} ViewBefore(s: State, next: State, k: nat, t: int)
    requires k <= |s.queue| && s.queue <= next.queue && next.views == s.views
    ensures ViewAfter(next, k, t) == ViewAfter(s, k, t)
  {
    hide NextView;
    if k > 0 {
      ViewBefore(s, next, k - 1, t);
    }
  }

  lemma SeenIsNext(views: map<int, Roster>, s: State, m: Message, t: int)
    requires s.views == Seen(views, m)
    ensures ViewOf(s, t) == NextView(if t in views then Some(views[t]) else None, m, t)
  {}

  /** Handling the first message moves everything one step closer. */
  lemma {:induction false} ViewShifts(s: State, next: State, k: nat, t: int)
    requires s.queue != [] && next.queue == s.queue[1..] && k <= |next.queue| && next.views == Seen(s.views, s.queue[0])
    ensures ViewAfter(next, k, t) == ViewAfter(s, k + 1, t)
  {
    hide NextView;
    if k > 0 {
      ViewShifts(s, next, k - 1, t);
      assert next.queue[k - 1] == s.queue[k];
    } else {
      SeenIsNext(s.views, next, s.queue[0], t);
      FirstView(s, t);
    }
  }

  lemma FirstView(s: State, t: int)
    requires s.queue != []
    ensures ViewAfter(s, 1, t) == NextView(ViewOf(s, t), s.queue[0], t)
  {
    assert ViewAfter(s, 0, t) == ViewOf(s, t);
  }

  /** A table that is there and in view stays in view. */
  lemma {:induction false} ViewStays(s: State, k: nat, t: int)
    requires Fresh(s) && k <= |s.queue| && t in s.views && t in s.tables
    ensures ViewAfter(s, k, t).Some?
  {
    if k > 0 {
      ViewStays(s, k - 1, t);
      assert s.queue[k - 1].Retire? ==> s.queue[k - 1].table !in s.tables;
    }
  }

  // ---------------------------------------------------------------------------------------------
  // Fewer players: whoever is left is covered as before.

  lemma SameClaimsBridge(s: State, next: State, k: nat, t: int, user: int)
    requires k <= |s.queue| && next.queue == s.queue && next.claims == s.claims && next.ops == s.ops
    ensures Bridged(next, k, t, user) <==> Bridged(s, k, t, user)
    ensures Exempt(next, t, user) <==> Exempt(s, t, user)
  {}

  lemma FewerCovered(s: State, next: State)
    requires Covered(s) && CatchesUp(s) && next == s.(tables := next.tables)
    requires forall t, user {:trigger Plays(next, t, user)} :: Plays(next, t, user) ==> Plays(s, t, user)
    ensures Covered(next) && CatchesUp(next)
  {
    hide Plays, Shows, Bridged, Exempt;
    forall t, user, k | Plays(next, t, user) && 0 <= k <= |next.queue|
      ensures Shows(ViewAfter(next, k, t), user) || Bridged(next, k, t, user)
    {
      ViewBefore(s, next, k, t);
      SameClaimsBridge(s, next, k, t, user);
      assert Plays(s, t, user);
    }
    forall t, user | Plays(next, t, user)
      ensures Shows(ViewAfter(next, |next.queue|, t), user) || Exempt(next, t, user)
    {
      ViewBefore(s, next, |s.queue|, t);
      SameClaimsBridge(s, next, |s.queue|, t, user);
      assert Plays(s, t, user);
    }
  }

  lemma FewerClears(s: State, next: State)
    requires Clears(s) && Unique(s) && next.claims == s.claims && next.ops == s.ops
    requires forall t, user {:trigger Plays(next, t, user)} :: Plays(next, t, user) ==> Plays(s, t, user)
    ensures Clears(next) && Unique(next)
  {
    hide Plays;
    forall op {:trigger next.ops[op]} | op in next.ops
      ensures Clear(next, op, next.ops[op])
    {
      assert Clear(s, op, s.ops[op]);
      assert forall user :: ClaimedBy(next, user, op) <==> ClaimedBy(s, user, op);
    }
  }

  lemma FewerKeepsInv(s: State, next: State)
    requires Inv(s) && next == s.(tables := next.tables)
    requires forall t {:trigger t in next.tables} :: t in next.tables ==> t in s.tables
    requires forall t, user {:trigger Plays(next, t, user)} :: Plays(next, t, user) ==> Plays(s, t, user)
    ensures Inv(next)
  {
    hide Plays, Covered, CatchesUp, Clears, Unique, Releases;
    FewerCovered(s, next);
    FewerClears(s, next);
    assert forall op, user :: ClaimedBy(next, user, op) <==> ClaimedBy(s, user, op);
  }

  // ---------------------------------------------------------------------------------------------
  // Publications.

  /** Adding a message that ends no operation. */
  lemma MoreMessages(s: State, next: State, m: Message)
    requires Covered(s) && CatchesUp(s) && next == s.(queue := s.queue + [m])
    requires !m.Finished? && !m.Install?
    requires m.Effects? ==> m.table !in s.tables || m.roster == s.tables[m.table]
    requires m.Retire? ==> m.table !in s.tables
    ensures Covered(next) && CatchesUp(next)
  {
    hide Shows, Exempt, Bridged;
    forall t, user | Plays(next, t, user)
      ensures Shows(ViewAfter(next, |next.queue|, t), user) || Exempt(next, t, user)
      ensures Shows(ViewAfter(next, |next.queue|, t), user) || Bridged(next, |next.queue|, t, user)
    {
      assert Plays(s, t, user);
      AddedView(s, next, m, t, user);
      AddedBridge(s, next, m, |s.queue|, t, user);
      AddedBridge(s, next, m, |next.queue|, t, user);
    }
    forall t, user, k | Plays(next, t, user) && 0 <= k <= |next.queue|
      ensures Shows(ViewAfter(next, k, t), user) || Bridged(next, k, t, user)
    {
      assert Plays(s, t, user);
      if k <= |s.queue| {
        ViewBefore(s, next, k, t);
        AddedBridge(s, next, m, k, t, user);
      }
    }
  }

  lemma AddedView(s: State, next: State, m: Message, t: int, user: int)
    requires next == s.(queue := s.queue + [m]) && Plays(s, t, user)
    requires !m.Finished? && !m.Install?
    requires m.Effects? ==> m.table !in s.tables || m.roster == s.tables[m.table]
    requires m.Retire? ==> m.table !in s.tables
    ensures Shows(ViewAfter(s, |s.queue|, t), user) ==> Shows(ViewAfter(next, |next.queue|, t), user)
  {
    ViewBefore(s, next, |s.queue|, t);
    assert next.queue[|s.queue|] == m;
  }

  lemma AddedBridge(s: State, next: State, m: Message, k: nat, t: int, user: int)
    requires next == s.(queue := s.queue + [m]) && k <= |next.queue|
    requires (!m.Finished? && !m.Install?) || k <= |s.queue|
    ensures Bridged(next, k, t, user) <==> Bridged(s, if k <= |s.queue| then k else |s.queue|, t, user)
    ensures Exempt(next, t, user) <==> Exempt(s, t, user)
  {
    var j := if k <= |s.queue| then k else |s.queue|;
    forall op
      ensures Released(next, k, op) <==> Released(s, j, op)
    {
      AddedRelease(s, next, m, k, op);
    }
  }

  lemma AddedRelease(s: State, next: State, m: Message, k: nat, op: int)
    requires next.queue == s.queue + [m] && k <= |next.queue|
    requires (!m.Finished? && !m.Install?) || k <= |s.queue|
    ensures Released(next, k, op) <==> Released(s, if k <= |s.queue| then k else |s.queue|, op)
  {
    var j := if k <= |s.queue| then k else |s.queue|;
    if Released(s, j, op) {
      var i :| 0 <= i < j && Releases(s.queue[i], op) && !(s.queue[i].Install? && !s.queue[i].accepted);
      assert Releases(next.queue[i], op);
    }
    if Released(next, k, op) {
      var i :| 0 <= i < k && Releases(next.queue[i], op) && !(next.queue[i].Install? && !next.queue[i].accepted);
      assert i < |s.queue| && Releases(s.queue[i], op);
    }
  }

  lemma QueueGrows(s: State, next: State, m: Message)
    requires Fresh(s) && Orderly(s) && next == s.(queue := s.queue + [m])
    requires !m.Finished? && !m.Install?
    requires m.Retire? ==>
               && m.table !in s.tables && m.table in s.used
               && forall op {:trigger s.ops[op]} :: op in s.ops && Uncreated(s.ops[op]) ==> s.ops[op].target != m.table
    ensures Fresh(next) && Orderly(next)
  {
    hide Uncreated;
    assert forall i {:trigger next.queue[i]} :: 0 <= i < |next.queue| ==> next.queue[i] == if i < |s.queue| then s.queue[i] else m;
    forall i, op {:trigger Releases(next.queue[i], op)} | 0 <= i < |next.queue| && Releases(next.queue[i], op)
      ensures op in next.ops && Awaits(next.ops[op], next.queue[i])
    {
      assert Releases(s.queue[i], op);
    }
    forall i, j, op {:trigger Releases(next.queue[i], op), Releases(next.queue[j], op)} | 0 <= i < j < |next.queue|
      ensures !(Releases(next.queue[i], op) && Releases(next.queue[j], op))
    {
      if j < |s.queue| {
        assert !(Releases(s.queue[i], op) && Releases(s.queue[j], op));
      }
    }
  }

  lemma SameOtherwise(s: State, next: State)
    requires Clears(s) && Unique(s) && Owned(s)
    requires next.tables == s.tables && next.claims == s.claims && next.ops == s.ops
    ensures Clears(next) && Unique(next) && Owned(next)
  {
    assert forall t, user :: Plays(next, t, user) <==> Plays(s, t, user);
    hide Plays;
    assert forall op, user :: ClaimedBy(next, user, op) <==> ClaimedBy(s, user, op);
    forall op {:trigger next.ops[op]} | op in next.ops
      ensures Clear(next, op, next.ops[op])
    {
      assert Clear(s, op, s.ops[op]);
    }
  }

  lemma MessageKeepsInv(s: State, next: State, m: Message)
    requires Inv(s) && next == s.(queue := s.queue + [m])
    requires !m.Finished? && !m.Install?
    requires m.Effects? ==> m.table !in s.tables || m.roster == s.tables[m.table]
    requires m.Retire? ==>
               && m.table !in s.tables && m.table in s.used
               && forall op {:trigger s.ops[op]} :: op in s.ops && Uncreated(s.ops[op]) ==> s.ops[op].target != m.table
    ensures Inv(next)
  {
    hide Covered, CatchesUp, Clears, Unique, Owned, Fresh, Orderly;
    MoreMessages(s, next, m);
    QueueGrows(s, next, m);
    SameOtherwise(s, next);
  }

  // ---------------------------------------------------------------------------------------------
  // Operations that move on.

  ghost predicate NoRelease(s: State, op: int) {
    forall i {:trigger s.queue[i]} :: 0 <= i < |s.queue| ==> !Releases(s.queue[i], op)
  }

  lemma NotAwaited(s: State, op: int)
    requires Orderly(s) && op in s.ops && s.ops[op].stage != Leaving && !s.ops[op].stage.Installing?
    ensures NoRelease(s, op)
  {
    forall i | 0 <= i < |s.queue|
      ensures !Releases(s.queue[i], op)
    {
      assert Releases(s.queue[i], op) ==> Awaits(s.ops[op], s.queue[i]);
    }
  }

  lemma NotReleased(s: State, k: nat, op: int)
    requires NoRelease(s, op) && k <= |s.queue|
    ensures !Released(s, k, op)
  {}

  lemma ExemptIsBridged(s: State, k: nat, t: int, user: int)
    requires Orderly(s) && k <= |s.queue| && Exempt(s, t, user)
    ensures Bridged(s, k, t, user)
  {
    var op := s.claims[user];
    forall i | 0 <= i < k && Releases(s.queue[i], op)
      ensures s.queue[i].Install? && !s.queue[i].accepted
    {
      assert Awaits(s.ops[op], s.queue[i]);
    }
  }

  /** What a change of stage has to respect. */
  ghost predicate MayMoveOn(s: State, op: int, stage: Stage) {
    && op in s.ops && NoRelease(s, op)
    && var o := s.ops[op];
       var after := o.(stage := stage);
       && (LetIn(o.stage, o) ==> LetIn(stage, after))
       && (Unseen(o.stage, o) && !Unseen(stage, after) ==>
             forall user {:trigger ClaimedBy(s, user, op)} :: ClaimedBy(s, user, op) && Plays(s, o.target, user) ==>
               Shows(ViewAfter(s, |s.queue|, o.target), user))
       && Clear(s, op, after)
       && (HoldsClaims(after) ==> forall user {:trigger ClaimedBy(s, user, op)} :: user in o.users ==> ClaimedBy(s, user, op))
       && (Uncreated(after) ==> Uncreated(o))
  }

  lemma StagedBridge(s: State, op: int, stage: Stage, k: nat, t: int, user: int)
    requires MayMoveOn(s, op, stage) && k <= |s.queue|
    ensures Bridged(s, k, t, user) ==> Bridged(Staged(s, op, stage), k, t, user)
    ensures Exempt(s, t, user) && (!ClaimedBy(s, user, op) || Unseen(stage, s.ops[op].(stage := stage))) ==> Exempt(Staged(s, op, stage), t, user)
    ensures Exempt(s, t, user) && ClaimedBy(s, user, op) ==> t == s.ops[op].target && Unseen(s.ops[op].stage, s.ops[op])
  {
    hide Clear;
    assert forall other :: Released(Staged(s, op, stage), k, other) <==> Released(s, k, other);
  }

  lemma StageCovered(s: State, op: int, stage: Stage)
    requires Covered(s) && CatchesUp(s) && MayMoveOn(s, op, stage)
    ensures Covered(Staged(s, op, stage)) && CatchesUp(Staged(s, op, stage))
  {
    hide Shows, Bridged, Exempt, Clear, LetIn, Unseen;
    var next := Staged(s, op, stage);
    forall t, user, k | Plays(next, t, user) && 0 <= k <= |next.queue|
      ensures Shows(ViewAfter(next, k, t), user) || Bridged(next, k, t, user)
    {
      assert Plays(s, t, user);
      ViewBefore(s, next, k, t);
      StagedBridge(s, op, stage, k, t, user);
    }
    forall t, user | Plays(next, t, user)
      ensures Shows(ViewAfter(next, |next.queue|, t), user) || Exempt(next, t, user)
    {
      assert Plays(s, t, user);
      ViewBefore(s, next, |s.queue|, t);
      StagedBridge(s, op, stage, |s.queue|, t, user);
    }
  }

  lemma StageOrderly(s: State, op: int, stage: Stage)
    requires Fresh(s) && Orderly(s) && op in s.ops && NoRelease(s, op)
    requires Uncreated(s.ops[op].(stage := stage)) ==> Uncreated(s.ops[op])
    ensures Fresh(Staged(s, op, stage)) && Orderly(Staged(s, op, stage))
  {
    hide Uncreated;
    var next := Staged(s, op, stage);
    forall i, other {:trigger Releases(next.queue[i], other)} | 0 <= i < |next.queue| && Releases(next.queue[i], other)
      ensures other in next.ops && Awaits(next.ops[other], next.queue[i])
    {
      assert Releases(s.queue[i], other);
    }
  }

  lemma StageClears(s: State, op: int, stage: Stage)
    requires Clears(s) && Unique(s) && Owned(s) && op in s.ops && Clear(s, op, s.ops[op].(stage := stage))
    requires HoldsClaims(s.ops[op].(stage := stage)) ==>
               forall user {:trigger ClaimedBy(s, user, op)} :: user in s.ops[op].users ==> ClaimedBy(s, user, op)
    ensures Clears(Staged(s, op, stage)) && Unique(Staged(s, op, stage)) && Owned(Staged(s, op, stage))
  {
    var next := Staged(s, op, stage);
    assert forall t, user :: Plays(next, t, user) <==> Plays(s, t, user);
    assert forall other, user :: ClaimedBy(next, user, other) <==> ClaimedBy(s, user, other);
    hide Plays, LetIn, Unseen;
    forall other {:trigger next.ops[other]} | other in next.ops
      ensures Clear(next, other, next.ops[other])
    {
      assert Clear(s, other, s.ops[other]);
    }
  }

  lemma StageKeepsInv(s: State, op: int, stage: Stage)
    requires Inv(s) && MayMoveOn(s, op, stage)
    ensures Inv(Staged(s, op, stage))
  {
    hide Covered, CatchesUp, Clears, Unique, Owned, Fresh, Orderly, Clear;
    StageCovered(s, op, stage);
    StageOrderly(s, op, stage);
    StageClears(s, op, stage);
  }

  /** The message that ends an operation, once the operation waits for nothing else. */
  lemma EndKeepsInv(s: State, next: State, op: int, m: Message)
    requires Inv(s) && next == s.(queue := s.queue + [m]) && op in s.ops && NoRelease(s, op)
    requires (m == Finished(op) && s.ops[op].Join? && s.ops[op].stage == Leaving)
             || (m.Install? && m.op == op && !s.ops[op].Join? && s.ops[op].stage == Installing(m.accepted)
                 && m.table == s.ops[op].target && m.roster == TableOf(s, m.table) && (m.accepted || s.ops[op].Create?))
    ensures Inv(next)
  {
    hide Clears, Unique, Owned;
    SameOtherwise(s, next);
    EndOrderly(s, next, op, m);
    EndCovered(s, next, op, m);
  }

  lemma EndOrderly(s: State, next: State, op: int, m: Message)
    requires Fresh(s) && Orderly(s) && next == s.(queue := s.queue + [m]) && op in s.ops && NoRelease(s, op)
    requires Releases(m, op) && Awaits(s.ops[op], m)
    ensures Fresh(next) && Orderly(next)
  {
    assert forall i {:trigger next.queue[i]} :: 0 <= i < |next.queue| ==> next.queue[i] == if i < |s.queue| then s.queue[i] else m;
    forall i, other {:trigger Releases(next.queue[i], other)} | 0 <= i < |next.queue| && Releases(next.queue[i], other)
      ensures other in next.ops && Awaits(next.ops[other], next.queue[i])
    {
      if i < |s.queue| {
        assert Releases(s.queue[i], other);
      }
    }
    forall i, j, other {:trigger Releases(next.queue[i], other), Releases(next.queue[j], other)} | 0 <= i < j < |next.queue|
      ensures !(Releases(next.queue[i], other) && Releases(next.queue[j], other))
    {
      if j < |s.queue| {
        assert !(Releases(s.queue[i], other) && Releases(s.queue[j], other));
      } else if other == op {
        assert !Releases(s.queue[i], op);
      }
    }
  }

  lemma EndView(s: State, next: State, m: Message, t: int, user: int)
    requires next == s.(queue := s.queue + [m]) && Plays(s, t, user)
    requires m.Finished? || (m.Install? && m.roster == TableOf(s, m.table))
    ensures Shows(ViewAfter(s, |s.queue|, t), user) ==> Shows(ViewAfter(next, |next.queue|, t), user)
    ensures m.Install? && m.accepted && m.table == t ==> Shows(ViewAfter(next, |next.queue|, t), user)
  {
    ViewBefore(s, next, |s.queue|, t);
    assert next.queue[|s.queue|] == m;
  }

  lemma EndCovered(s: State, next: State, op: int, m: Message)
    requires Covered(s) && CatchesUp(s) && Orderly(next) && next == s.(queue := s.queue + [m])
    requires m.Finished? || (m.Install? && m.roster == TableOf(s, m.table))
    ensures Covered(next) && CatchesUp(next)
  {
    hide Shows, Bridged, Orderly, Exempt;
    forall t, user | Plays(next, t, user)
      ensures Shows(ViewAfter(next, |next.queue|, t), user) || Exempt(next, t, user)
      ensures Shows(ViewAfter(next, |next.queue|, t), user) || Bridged(next, |next.queue|, t, user)
    {
      assert Plays(s, t, user);
      EndView(s, next, m, t, user);
      SameExempt(s, next, t, user);
      if Exempt(next, t, user) {
        ExemptIsBridged(next, |next.queue|, t, user);
      }
    }
    forall t, user, k | Plays(next, t, user) && 0 <= k <= |next.queue|
      ensures Shows(ViewAfter(next, k, t), user) || Bridged(next, k, t, user)
    {
      assert Plays(s, t, user);
      if k <= |s.queue| {
        ViewBefore(s, next, k, t);
        AddedBridge(s, next, m, k, t, user);
      }
    }
  }

  lemma SameExempt(s: State, next: State, t: int, user: int)
    requires next.claims == s.claims && next.ops == s.ops
    ensures Exempt(next, t, user) <==> Exempt(s, t, user)
  {}

  // ---------------------------------------------------------------------------------------------
  // New players.

  /** An operation lets its claimed users in at its target, where nobody of them plays elsewhere. */
  ghost predicate LetsIn(s: State, next: State, op: int) {
    && op in s.ops && NoRelease(s, op) && s.ops[op].stage != Refused
    && next == Staged(s, op, Saved).(tables := next.tables)
    && (forall t, user {:trigger Plays(next, t, user)} :: Plays(next, t, user) ==>
          Plays(s, t, user) || (t == s.ops[op].target && ClaimedBy(s, user, op)))
    && (forall t, user {:trigger Plays(next, t, user)} :: ClaimedBy(s, user, op) && Plays(next, s.ops[op].target, user) && Plays(next, t, user) ==>
          t == s.ops[op].target || !Entered(s, next, op, user))
    && (forall t {:trigger t in next.tables} :: t in next.tables ==> t in s.tables || t == s.ops[op].target)
    && (s.ops[op].Join? ==> s.ops[op].target in s.tables)
    && (!s.ops[op].Join? ==> Uncreated(s.ops[op]))
    && (s.ops[op].Move? ==> HoldsClaims(s.ops[op]))
  }

  predicate Entered(s: State, next: State, op: int, user: int)
    requires op in s.ops
  {
    Plays(next, s.ops[op].target, user) && !Plays(s, s.ops[op].target, user)
  }

  lemma LetInCovered(s: State, next: State, op: int)
    requires Covered(s) && CatchesUp(s) && LetsIn(s, next, op)
    requires s.ops[op].stage == Started || s.ops[op].stage == Allowed
    ensures Covered(next) && CatchesUp(next)
  {
    hide Shows, Plays;
    forall t, user, k | Plays(next, t, user) && 0 <= k <= |next.queue|
      ensures Shows(ViewAfter(next, k, t), user) || Bridged(next, k, t, user)
    {
      ViewBefore(s, next, k, t);
      NotReleased(s, k, op);
      LetInBridge(s, next, op, k, t, user);
    }
    forall t, user | Plays(next, t, user)
      ensures Shows(ViewAfter(next, |next.queue|, t), user) || Exempt(next, t, user)
    {
      ViewBefore(s, next, |s.queue|, t);
      NotReleased(s, |s.queue|, op);
      LetInBridge(s, next, op, |s.queue|, t, user);
    }
  }

  lemma LetInBridge(s: State, next: State, op: int, k: nat, t: int, user: int)
    requires op in s.ops && NoRelease(s, op) && (s.ops[op].stage == Started || s.ops[op].stage == Allowed)
    requires next == Staged(s, op, Saved).(tables := next.tables) && k <= |s.queue| && !Released(s, k, op)
    ensures Bridged(s, k, t, user) ==> Bridged(next, k, t, user)
    ensures Exempt(s, t, user) ==> Exempt(next, t, user)
    ensures t == s.ops[op].target && ClaimedBy(s, user, op) ==> Bridged(next, k, t, user) && Exempt(next, t, user)
  {
    assert forall other :: Released(next, k, other) <==> Released(s, k, other);
  }

  lemma LetInUnique(s: State, next: State, op: int)
    requires Unique(s) && LetsIn(s, next, op)
    ensures Unique(next)
  {
    hide Plays;
    forall t, u, user | Plays(next, t, user) && Plays(next, u, user)
      ensures t == u
    {
      if !Plays(s, t, user) || !Plays(s, u, user) {
        assert ClaimedBy(s, user, op) && Entered(s, next, op, user);
      }
    }
  }

  /** Users of other operations are claimed by those, so they are not let in here. */
  lemma LetInClears(s: State, next: State, op: int)
    requires Clears(s) && Owned(s) && LetsIn(s, next, op)
    ensures Clears(next) && Owned(next)
  {
    hide Plays, Uncreated, Entered;
    assert forall other, user :: ClaimedBy(next, user, other) <==> ClaimedBy(s, user, other);
    forall other {:trigger next.ops[other]} | other in next.ops
      ensures Clear(next, other, next.ops[other])
    {
      if other != op {
        assert Clear(s, other, s.ops[other]);
        var o := s.ops[other];
        if HoldsClaims(o) {
          forall t, user | user in o.users && Plays(next, t, user)
            ensures Plays(s, t, user)
          {
            assert ClaimedBy(s, user, other);
          }
        }
      }
    }
  }

  lemma LetInFresh(s: State, next: State, op: int)
    requires Fresh(s) && Orderly(s) && LetsIn(s, next, op)
    ensures Fresh(next) && Orderly(next)
  {
    hide Plays, Entered;
    forall i, other {:trigger Releases(next.queue[i], other)} | 0 <= i < |next.queue| && Releases(next.queue[i], other)
      ensures other in next.ops && Awaits(next.ops[other], next.queue[i])
    {
      assert Releases(s.queue[i], other);
    }
  }

  lemma LetInKeepsInv(s: State, next: State, op: int)
    requires Inv(s) && LetsIn(s, next, op)
    requires s.ops[op].stage == Started || s.ops[op].stage == Allowed
    ensures Inv(next)
  {
    hide Covered, CatchesUp, Clears, Unique, Owned, Fresh, Orderly, LetsIn;
    LetInCovered(s, next, op);
    LetInUnique(s, next, op);
    LetInClears(s, next, op);
    LetInFresh(s, next, op);
  }

  // ---------------------------------------------------------------------------------------------
  // Operations that end.

  /** Giving back the claims of an operation that bridges nothing. */
  ghost predicate MayEnd(s: State, op: int) {
    && NoRelease(s, op)
    && forall t, user, k {:trigger Plays(s, t, user), ViewAfter(s, k, t)} ::
         Plays(s, t, user) && ClaimedBy(s, user, op) && 0 <= k <= |s.queue| ==> Shows(ViewAfter(s, k, t), user)
  }

  lemma FreedClaims(s: State, op: int)
    ensures forall user, other {:trigger ClaimedBy(Freed(s, op), user, other)} ::
              ClaimedBy(Freed(s, op), user, other) <==> ClaimedBy(s, user, other) && other != op
    ensures forall t, user {:trigger Plays(Freed(s, op), t, user)} :: Plays(Freed(s, op), t, user) <==> Plays(s, t, user)
  {}

  lemma FreedBridge(s: State, op: int, k: nat, t: int, user: int)
    requires k <= |s.queue| && !ClaimedBy(s, user, op)
    ensures Bridged(s, k, t, user) ==> Bridged(Freed(s, op), k, t, user)
    ensures Exempt(s, t, user) ==> Exempt(Freed(s, op), t, user)
  {
    assert forall other :: Released(Freed(s, op), k, other) <==> Released(s, k, other);
  }

  lemma FreedCovered(s: State, op: int)
    requires Covered(s) && CatchesUp(s) && MayEnd(s, op)
    ensures Covered(Freed(s, op)) && CatchesUp(Freed(s, op))
  {
    hide Shows, Bridged, Exempt, Plays, Freed;
    FreedClaims(s, op);
    FreedSame(s, op);
    var next := Freed(s, op);
    forall t, user, k | Plays(next, t, user) && 0 <= k <= |next.queue|
      ensures Shows(ViewAfter(next, k, t), user) || Bridged(next, k, t, user)
    {
      assert Plays(s, t, user);
      ViewBefore(s, next, k, t);
      if !ClaimedBy(s, user, op) {
        FreedBridge(s, op, k, t, user);
      }
    }
    forall t, user | Plays(next, t, user)
      ensures Shows(ViewAfter(next, |next.queue|, t), user) || Exempt(next, t, user)
    {
      assert Plays(s, t, user);
      ViewBefore(s, next, |s.queue|, t);
      if !ClaimedBy(s, user, op) {
        FreedBridge(s, op, |s.queue|, t, user);
      }
    }
  }

  lemma FreedSame(s: State, op: int)
    ensures Freed(s, op).queue == s.queue && Freed(s, op).views == s.views && Freed(s, op).tables == s.tables
    ensures Freed(s, op).ops == s.ops - {op} && Freed(s, op).used == s.used
  {}

  lemma FreedRest(s: State, op: int)
    requires Clears(s) && Unique(s) && Owned(s) && Fresh(s) && Orderly(s) && NoRelease(s, op)
    ensures Clears(Freed(s, op)) && Unique(Freed(s, op)) && Owned(Freed(s, op)) && Fresh(Freed(s, op)) && Orderly(Freed(s, op))
  {
    hide Plays, Freed, Uncreated;
    FreedClaims(s, op);
    FreedSame(s, op);
    FreedOwned(s, op);
    var next := Freed(s, op);
    forall other {:trigger next.ops[other]} | other in next.ops
      ensures Clear(next, other, next.ops[other])
    {
      assert Clear(s, other, s.ops[other]);
    }
    forall i, other {:trigger Releases(next.queue[i], other)} | 0 <= i < |next.queue| && Releases(next.queue[i], other)
      ensures other in next.ops && Awaits(next.ops[other], next.queue[i])
    {
      assert Releases(s.queue[i], other);
    }
  }

  lemma FreedOwned(s: State, op: int)
    requires Owned(s)
    ensures Owned(Freed(s, op))
  {
    FreedClaims(s, op);
  }

  lemma FreedKeepsInv(s: State, op: int)
    requires Inv(s) && MayEnd(s, op)
    ensures Inv(Freed(s, op))
  {
    hide Covered, CatchesUp, Clears, Unique, Owned, Fresh, Orderly, Freed;
    FreedCovered(s, op);
    FreedRest(s, op);
  }

  /** An operation that has let nobody in bridges nothing. */
  lemma NobodyLetIn(s: State, op: int)
    requires Covered(s) && Orderly(s) && op in s.ops && !LetIn(s.ops[op].stage, s.ops[op])
    ensures MayEnd(s, op)
  {
    hide Plays, Shows, ViewAfter;
    assert s.ops[op].stage != Leaving && !s.ops[op].stage.Installing?;
    NotAwaited(s, op);
    forall t, user, k | Plays(s, t, user) && ClaimedBy(s, user, op) && 0 <= k <= |s.queue|
      ensures Shows(ViewAfter(s, k, t), user)
    {
      assert !Bridged(s, k, t, user);
    }
  }

  // ---------------------------------------------------------------------------------------------
  // The mailbox.

  /** The first message is handled, without what it means for an operation. */
  function Handled(s: State): State
    requires s.queue != []
  {
    s.(queue := s.queue[1..], views := Seen(s.views, s.queue[0]))
  }

  lemma ShiftBridge(s: State, k: nat, t: int, user: int)
    requires s.queue != [] && k < |s.queue|
    ensures Bridged(s, k + 1, t, user) ==> Bridged(Handled(s), k, t, user)
    ensures Exempt(s, t, user) <==> Exempt(Handled(s), t, user)
  {
    forall op | Released(Handled(s), k, op)
      ensures Released(s, k + 1, op)
    {
      var i :| 0 <= i < k && Releases(Handled(s).queue[i], op) && !(Handled(s).queue[i].Install? && !Handled(s).queue[i].accepted);
      assert Releases(s.queue[i + 1], op);
    }
  }

  lemma ShiftCovered(s: State)
    requires Covered(s) && CatchesUp(s) && s.queue != []
    ensures Covered(Handled(s)) && CatchesUp(Handled(s))
  {
    hide Shows, Bridged, Exempt, Seen;
    var next := Handled(s);
    forall t, user, k | Plays(next, t, user) && 0 <= k <= |next.queue|
      ensures Shows(ViewAfter(next, k, t), user) || Bridged(next, k, t, user)
    {
      assert Plays(s, t, user);
      ViewShifts(s, next, k, t);
      ShiftBridge(s, k, t, user);
    }
    forall t, user | Plays(next, t, user)
      ensures Shows(ViewAfter(next, |next.queue|, t), user) || Exempt(next, t, user)
    {
      assert Plays(s, t, user);
      ViewShifts(s, next, |next.queue|, t);
      ShiftBridge(s, |next.queue|, t, user);
    }
  }

  lemma ShiftOrderly(s: State)
    requires Orderly(s) && s.queue != []
    ensures Orderly(Handled(s))
    ensures forall op {:trigger NoRelease(Handled(s), op)} :: Releases(s.queue[0], op) ==> NoRelease(Handled(s), op)
  {
    var next := Handled(s);
    assert forall i {:trigger next.queue[i]} :: 0 <= i < |next.queue| ==> next.queue[i] == s.queue[i + 1];
    forall i, op {:trigger Releases(next.queue[i], op)} | 0 <= i < |next.queue| && Releases(next.queue[i], op)
      ensures op in next.ops && Awaits(next.ops[op], next.queue[i])
    {
      assert Releases(s.queue[i + 1], op);
    }
    forall i, j, op {:trigger Releases(next.queue[i], op), Releases(next.queue[j], op)} | 0 <= i < j < |next.queue|
      ensures !(Releases(next.queue[i], op) && Releases(next.queue[j], op))
    {
      assert !(Releases(s.queue[i + 1], op) && Releases(s.queue[j + 1], op));
    }
    forall op, i | Releases(s.queue[0], op) && 0 <= i < |next.queue|
      ensures !Releases(next.queue[i], op)
    {
      assert !(Releases(s.queue[0], op) && Releases(s.queue[i + 1], op));
    }
  }

  lemma ShiftFresh(s: State)
    requires Fresh(s) && Orderly(s) && s.queue != []
    ensures Fresh(Handled(s))
  {
    hide Uncreated, Seen;
    var m, next := s.queue[0], Handled(s);
    assert forall i {:trigger next.queue[i]} :: 0 <= i < |next.queue| ==> next.queue[i] == s.queue[i + 1];
    InstalledIsKnown(s);
    forall t
      ensures t in next.views ==> t in s.views || (m.Install? && t == m.table)
      ensures t in s.views ==> t in next.views || (m.Retire? && t == m.table)
    {
      SeenKeys(s.views, m, t);
    }
  }

  lemma SeenKeys(views: map<int, Roster>, m: Message, t: int)
    ensures t in Seen(views, m) ==> t in views || (m.Install? && t == m.table)
    ensures t in views ==> t in Seen(views, m) || (m.Retire? && t == m.table)
  {}

  lemma InstalledIsKnown(s: State)
    requires Fresh(s) && Orderly(s) && s.queue != []
    ensures var m := s.queue[0];
            m.Install? ==>
              && m.table in s.used
              && forall op {:trigger s.ops[op]} :: op in s.ops && Uncreated(s.ops[op]) ==> s.ops[op].target != m.table
  {
    var m := s.queue[0];
    if m.Install? {
      assert Releases(m, m.op);
      assert m.op in s.ops && Awaits(s.ops[m.op], m);
      InstallingIsCreated(s.ops[m.op]);
    }
  }

  lemma InstallingIsCreated(o: Operation)
    ensures o.stage.Installing? ==> !Uncreated(o)
  {}

  lemma HandledKeepsInv(s: State)
    requires Inv(s) && s.queue != []
    ensures Inv(Handled(s))
  {
    hide Covered, CatchesUp, Clears, Unique, Owned, Fresh, Orderly, Handled;
    ShiftCovered(s);
    ShiftOrderly(s);
    ShiftFresh(s);
    HandledSame(s);
    SameOtherwise(s, Handled(s));
  }

  lemma HandledSame(s: State)
    requires s.queue != []
    ensures Handled(s).tables == s.tables && Handled(s).claims == s.claims && Handled(s).ops == s.ops
  {}

  /** An operation whose end was handled bridges nothing any more. */
  lemma EndedBridgesNothing(s: State, op: int)
    requires Inv(s) && s.queue != [] && Releases(s.queue[0], op) && (s.queue[0].Install? ==> s.queue[0].accepted)
    ensures MayEnd(Handled(s), op)
  {
    hide Shows, Plays, Seen, CatchesUp, Clears, Unique, Owned, Fresh;
    ShiftOrderly(s);
    var next := Handled(s);
    assert NoRelease(next, op);
    forall t, user, k | Plays(next, t, user) && ClaimedBy(next, user, op) && 0 <= k <= |next.queue|
      ensures Shows(ViewAfter(next, k, t), user)
    {
      SamePlays(s, next, t, user);
      ViewShifts(s, next, k, t);
      assert Releases(s.queue[0], op);
      assert Released(s, k + 1, op);
    }
  }

  lemma SamePlays(s: State, next: State, t: int, user: int)
    requires next.tables == s.tables
    ensures Plays(next, t, user) <==> Plays(s, t, user)
  {}

  // ---------------------------------------------------------------------------------------------
  // Operations that begin.

  lemma StartedBridge(s: State, next: State, op: int, o: Operation, k: nat, t: int, user: int)
    requires Orderly(s) && k <= |s.queue| && op !in s.ops && o.stage == Started
    requires next == s.(ops := s.ops[op := o], claims := next.claims, busy := next.busy, used := next.used)
    requires user in s.claims ==> user in next.claims && next.claims[user] == s.claims[user]
    ensures Bridged(s, k, t, user) ==> Bridged(next, k, t, user)
    ensures Exempt(s, t, user) ==> Exempt(next, t, user)
  {
    assert forall other :: Released(next, k, other) <==> Released(s, k, other);
  }

  lemma StartCovered(s: State, next: State, op: int, o: Operation)
    requires Covered(s) && CatchesUp(s) && Orderly(s) && op !in s.ops && o.stage == Started
    requires next == s.(ops := s.ops[op := o], claims := next.claims, busy := next.busy, used := next.used)
    requires forall user {:trigger s.claims[user]} :: user in s.claims ==> user in next.claims && next.claims[user] == s.claims[user]
    ensures Covered(next) && CatchesUp(next)
  {
    hide Shows, Bridged, Exempt;
    forall t, user, k | Plays(next, t, user) && 0 <= k <= |next.queue|
      ensures Shows(ViewAfter(next, k, t), user) || Bridged(next, k, t, user)
    {
      assert Plays(s, t, user);
      ViewBefore(s, next, k, t);
      KeptClaim(s, next, user);
      StartedBridge(s, next, op, o, k, t, user);
    }
    forall t, user | Plays(next, t, user)
      ensures Shows(ViewAfter(next, |next.queue|, t), user) || Exempt(next, t, user)
    {
      assert Plays(s, t, user);
      ViewBefore(s, next, |s.queue|, t);
      KeptClaim(s, next, user);
      StartedBridge(s, next, op, o, |s.queue|, t, user);
    }
  }

  lemma KeptClaim(s: State, next: State, user: int)
    requires forall u {:trigger s.claims[u]} :: u in s.claims ==> u in next.claims && next.claims[u] == s.claims[u]
    ensures user in s.claims ==> user in next.claims && next.claims[user] == s.claims[user]
  {
    if user in s.claims {
      assert s.claims[user] == s.claims[user];
    }
  }

  lemma StartOrderly(s: State, next: State, op: int, o: Operation)
    requires Fresh(s) && Orderly(s) && op !in s.ops && o.stage == Started
    requires next == s.(ops := s.ops[op := o], claims := next.claims, busy := next.busy, used := s.used + {o.target})
    requires if o.Join? then o.target in s.views else o.target !in s.used
    ensures Fresh(next) && Orderly(next)
  {
    forall i, other {:trigger Releases(next.queue[i], other)} | 0 <= i < |next.queue| && Releases(next.queue[i], other)
      ensures other in next.ops && Awaits(next.ops[other], next.queue[i])
    {
      assert Releases(s.queue[i], other);
    }
  }

  lemma StartClears(s: State, next: State, op: int, o: Operation)
    requires Clears(s) && Unique(s) && Owned(s) && op !in s.ops && o.stage == Started
    requires next == s.(ops := s.ops[op := o], claims := next.claims, busy := next.busy, used := next.used)
    requires if o.Move? then next.claims == s.claims else o.user !in s.claims && next.claims == s.claims[o.user := op]
    requires o.Join? ==> forall t {:trigger Plays(s, t, o.user)} :: t != o.target ==> !Plays(s, t, o.user)
    requires o.Create? ==> forall t {:trigger Plays(s, t, o.user)} :: !Plays(s, t, o.user)
    ensures Clears(next) && Unique(next) && Owned(next)
  {
    assert forall t, user :: Plays(next, t, user) <==> Plays(s, t, user);
    hide Plays;
    forall other, user
      ensures ClaimedBy(s, user, other) ==> ClaimedBy(next, user, other)
    {}
    forall other {:trigger next.ops[other]} | other in next.ops
      ensures Clear(next, other, next.ops[other])
    {
      if other != op {
        assert Clear(s, other, s.ops[other]);
      }
    }
  }

  /** The coordinator's look at its views tells the truth about whoever is not claimed for a table. */
  lemma ElsewhereIsSound(s: State, user: int, t: int, except: Option<int>)
    requires Covered(s) && !Elsewhere(s, user, except) && Some(t) != except
    requires !Bridged(s, 0, t, user)
    ensures !Plays(s, t, user)
  {
    assert Plays(s, t, user) ==> Shows(ViewAfter(s, 0, t), user);
    assert ViewAfter(s, 0, t) == ViewOf(s, t);
    assert Shows(ViewOf(s, t), user) ==> t in s.views;
  }

  lemma StartKeepsInv(s: State, step: Step)
    requires Inv(s) && Enabled(s, step) && (step.Route? || step.Prepare? || step.Begin?)
    ensures Inv(Apply(s, step))
  {
    hide Covered, CatchesUp, Clears, Unique, Owned, Fresh, Orderly, Elsewhere, Plays;
    var next, op := Apply(s, step), step.op;
    var o := next.ops[op];
    if !step.Begin? {
      forall t {:trigger Plays(s, t, o.user)} | !(step.Route? && t == step.table)
        ensures !Plays(s, t, o.user)
      {
        ElsewhereIsSound(s, o.user, t, if step.Route? then Some(step.table) else None);
      }
    }
    StartCovered(s, next, op, o);
    ViewsAreUsed(s);
    UsedAlready(s, o);
    StartOrderly(s, next.(used := s.used + {o.target}), op, o);
    StartClears(s, next, op, o);
  }

  lemma ViewsAreUsed(s: State)
    requires Fresh(s)
    ensures forall t {:trigger t in s.views} :: t in s.views ==> t in s.used
  {}

  lemma UsedAlready(s: State, o: Operation)
    requires o.Join? ==> o.target in s.used
    ensures o.Join? ==> s.used + {o.target} == s.used
  {
    if o.Join? {
      SameNumbers(s.used + {o.target}, s.used);
    }
  }

  lemma ClaimKeepsInv(s: State, op: int, user: int)
    requires Inv(s) && Enabled(s, Claim(op, user))
    ensures Inv(s.(claims := s.claims[user := op]))
  {
    var next := s.(claims := s.claims[user := op]);
    ClaimCovered(s, op, user);
    assert forall t, u :: Plays(next, t, u) <==> Plays(s, t, u);
    hide Plays, Covered, CatchesUp, Uncreated;
    forall other, u
      ensures ClaimedBy(s, u, other) ==> ClaimedBy(next, u, other)
    {}
    forall other {:trigger next.ops[other]} | other in next.ops
      ensures Clear(next, other, next.ops[other])
    {
      assert Clear(s, other, s.ops[other]);
    }
  }

  lemma ClaimCovered(s: State, op: int, user: int)
    requires Covered(s) && CatchesUp(s) && user !in s.claims
    ensures Covered(s.(claims := s.claims[user := op])) && CatchesUp(s.(claims := s.claims[user := op]))
  {
    hide Shows;
    var next := s.(claims := s.claims[user := op]);
    forall t, u, k | Plays(next, t, u) && 0 <= k <= |next.queue|
      ensures Shows(ViewAfter(next, k, t), u) || Bridged(next, k, t, u)
    {
      assert Plays(s, t, u);
      ViewBefore(s, next, k, t);
      assert forall other :: Released(next, k, other) <==> Released(s, k, other);
    }
    forall t, u | Plays(next, t, u)
      ensures Shows(ViewAfter(next, |next.queue|, t), u) || Exempt(next, t, u)
    {
      assert Plays(s, t, u);
      ViewBefore(s, next, |s.queue|, t);
    }
  }

  // ---------------------------------------------------------------------------------------------
  // Each step.

  lemma CheckKeepsInv(s: State, op: int)
    requires Inv(s) && Enabled(s, Check(op))
    ensures Inv(Apply(s, Check(op)))
  {
    hide Covered, CatchesUp, Clears, Unique, Owned, Fresh, Orderly;
    NotAwaited(s, op);
    var asked := s.(queue := s.queue + [Ask(op)]);
    MessageKeepsInv(s, asked, Ask(op));
    NotAwaited(asked, op);
    assert forall user :: ClaimedBy(asked, user, op) <==> ClaimedBy(s, user, op);
    StageKeepsInv(asked, op, Asking);
  }

  lemma AdmitKeepsInv(s: State, op: int)
    requires Inv(s) && Enabled(s, Admit(op))
    ensures Inv(Apply(s, Admit(op)))
  {
    hide Covered, CatchesUp, Unique, Fresh, Orderly;
    var o, next := s.ops[op], Apply(s, Admit(op));
    if next != s {
      NotAwaited(s, op);
      assert Clear(s, op, o);
      OnlyClaim(s, op);
      OneEnters(s, next, op);
      LetInKeepsInv(s, next, op);
    }
  }

  /** The one user that a join or a new table lets in plays nowhere else. */
  lemma OneEnters(s: State, next: State, op: int)
    requires op in s.ops && !s.ops[op].Move? && s.ops[op].stage == Started && Clear(s, op, s.ops[op])
    requires s.ops[op].target in next.tables
    requires next.tables == s.tables[s.ops[op].target := next.tables[s.ops[op].target]]
    requires forall user :: user in next.tables[s.ops[op].target].players ==>
               user == s.ops[op].user || Plays(s, s.ops[op].target, user)
    ensures forall t, user {:trigger Plays(next, t, user)} :: Plays(next, t, user) ==>
              Plays(s, t, user) || (t == s.ops[op].target && ClaimedBy(s, user, op))
    ensures forall t, user {:trigger Plays(next, t, user)} :: user == s.ops[op].user && Plays(next, t, user) ==> t == s.ops[op].target
  {
    var o := s.ops[op];
    forall t, user | Plays(next, t, user)
      ensures Plays(s, t, user) || (t == o.target && ClaimedBy(s, user, op))
      ensures user == o.user ==> t == o.target
    {
      if t != o.target {
        assert Plays(s, t, user);
      }
    }
  }

  /** The only claim of a join or of a new table is that of its user. */
  lemma OnlyClaim(s: State, op: int)
    requires Owned(s) && op in s.ops && !s.ops[op].Move?
    ensures forall user {:trigger ClaimedBy(s, user, op)} :: ClaimedBy(s, user, op) ==> user == s.ops[op].user
  {}

  lemma SaveNewKeepsInv(s: State, op: int)
    requires Inv(s) && Enabled(s, SaveNew(op))
    ensures Inv(Apply(s, SaveNew(op)))
  {
    hide Covered, CatchesUp, Unique, Orderly;
    var o, next := s.ops[op], Apply(s, SaveNew(op));
    NotAwaited(s, op);
    assert Clear(s, op, o);
    OnlyClaim(s, op);
    OneEnters(s, next, op);
    LetInKeepsInv(s, next, op);
  }

  lemma JournalKeepsInv(s: State, op: int)
    requires Inv(s) && Enabled(s, Journal(op))
    ensures Inv(Apply(s, Journal(op)))
  {
    hide Covered, CatchesUp, Unique, Orderly;
    var o, next := s.ops[op], Apply(s, Journal(op));
    NotAwaited(s, op);
    assert Clear(s, op, o);
    forall user | user in o.users
      ensures ClaimedBy(s, user, op)
    {
      assert HoldsClaims(o);
    }
    JournalPlays(s, op);
    LetInKeepsInv(s, next, op);
  }

  lemma JournalPlays(s: State, op: int)
    requires Enabled(s, Journal(op)) && Fresh(s) && Clear(s, op, s.ops[op])
    ensures var o, next := s.ops[op], Apply(s, Journal(op));
            && (forall t, user {:trigger Plays(next, t, user)} :: Plays(next, t, user) ==>
                  if t == o.target then user in o.users else Plays(s, t, user) && (user in o.users ==> t != o.source))
            && (forall t, user {:trigger Plays(next, t, user)} :: user in o.users && Plays(next, t, user) ==> t == o.target)
  {
    var o := s.ops[op];
    assert Uncreated(o);
  }

  lemma PublishJoinKeepsInv(s: State, op: int)
    requires Inv(s) && Enabled(s, PublishJoin(op))
    ensures Inv(Apply(s, PublishJoin(op)))
  {
    hide Covered, CatchesUp, Clears, Unique, Owned, Orderly;
    var o := s.ops[op];
    var m := Effects(o.target, TableOf(s, o.target));
    var said := s.(queue := s.queue + [m]);
    MessageKeepsInv(s, said, m);
    NotAwaited(said, op);
    forall user {:trigger ClaimedBy(said, user, op)} | ClaimedBy(said, user, op) && Plays(said, o.target, user)
      ensures Shows(ViewAfter(said, |said.queue|, o.target), user)
    {
      ViewStays(s, |s.queue|, o.target);
      ViewBefore(s, said, |s.queue|, o.target);
      assert said.queue[|s.queue|] == m;
    }
    StageKeepsInv(said, op, Published);
  }

  lemma PublishMoveKeepsInv(s: State, op: int)
    requires Inv(s) && Enabled(s, PublishMove(op))
    ensures Inv(Apply(s, PublishMove(op)))
  {
    hide Covered, CatchesUp, Clears, Unique, Owned, Fresh, Orderly;
    var o := s.ops[op];
    var m := Effects(o.source, TableOf(s, o.source));
    var said := s.(queue := s.queue + [m]);
    MessageKeepsInv(s, said, m);
    NotAwaited(said, op);
    HeldStill(said, op);
    StageKeepsInv(said, op, Published);
  }

  lemma HeldStill(s: State, op: int)
    requires Owned(s) && op in s.ops && HoldsClaims(s.ops[op])
    ensures forall user {:trigger ClaimedBy(s, user, op)} :: user in s.ops[op].users ==> ClaimedBy(s, user, op)
  {}

  lemma LeaveKeepsInv(s: State, op: int)
    requires Inv(s) && op in s.ops && s.ops[op].Join? && (s.ops[op].stage == Started || s.ops[op].stage == Published)
    ensures Inv(Staged(s, op, Leaving).(queue := s.queue + [Finished(op)]))
  {
    hide Covered, CatchesUp, Clears, Unique, Owned, Fresh, Orderly;
    NotAwaited(s, op);
    StageKeepsInv(s, op, Leaving);
    EndKeepsInv(Staged(s, op, Leaving), Staged(s, op, Leaving).(queue := s.queue + [Finished(op)]), op, Finished(op));
  }

  lemma SendKeepsInv(s: State, op: int, accepted: bool)
    requires Inv(s) && Enabled(s, Send(op, accepted))
    ensures Inv(Apply(s, Send(op, accepted)))
  {
    hide Covered, CatchesUp, Clears, Unique, Owned, Fresh, Orderly;
    var o, next := s.ops[op], Apply(s, Send(op, accepted));
    var m := Install(op, o.target, TableOf(s, o.target), accepted);
    NotAwaited(s, op);
    var staged := Staged(s, op, Installing(accepted));
    if o.Move? {
      HeldStill(s, op);
    }
    StageOrderly(s, op, Installing(accepted));
    StageClears(s, op, Installing(accepted));
    EndOrderly(staged, staged.(queue := s.queue + [m]), op, m);
    SameOtherwise(staged, next);
    BusyIsFree(staged.(queue := s.queue + [m]), next);
    SendCovered(s, next, op, m);
  }

  lemma BusyIsFree(s: State, next: State)
    requires next == s.(busy := next.busy) && Fresh(s) && Orderly(s)
    ensures Fresh(next) && Orderly(next)
  {
    forall i, op {:trigger Releases(next.queue[i], op)} | 0 <= i < |next.queue| && Releases(next.queue[i], op)
      ensures op in next.ops && Awaits(next.ops[op], next.queue[i])
    {
      assert Releases(s.queue[i], op);
    }
  }

  lemma SendBridge(s: State, next: State, op: int, m: Message, k: nat, t: int, user: int)
    requires op in s.ops && NoRelease(s, op) && m.Install? && m.op == op && k <= |s.queue|
    requires LetIn(s.ops[op].stage, s.ops[op])
    requires next == Staged(s, op, Installing(m.accepted)).(queue := s.queue + [m], busy := next.busy)
    ensures Bridged(s, k, t, user) ==> Bridged(next, k, t, user)
    ensures Exempt(s, t, user) ==> Exempt(next, t, user) || (m.accepted && t == s.ops[op].target)
  {
    forall other
      ensures Released(next, k, other) <==> Released(s, k, other)
    {
      AddedRelease(s, next, m, k, other);
    }
  }

  lemma SendCovered(s: State, next: State, op: int, m: Message)
    requires Covered(s) && CatchesUp(s) && Orderly(next) && op in s.ops && NoRelease(s, op)
    requires LetIn(s.ops[op].stage, s.ops[op])
    requires m.Install? && m.op == op && m.table == s.ops[op].target && m.roster == TableOf(s, m.table)
    requires next == Staged(s, op, Installing(m.accepted)).(queue := s.queue + [m], busy := next.busy)
    ensures Covered(next) && CatchesUp(next)
  {
    hide Shows, Bridged, Orderly, Exempt, LetIn, TableOf;
    forall t, user | Plays(next, t, user)
      ensures Shows(ViewAfter(next, |next.queue|, t), user) || Exempt(next, t, user)
      ensures Shows(ViewAfter(next, |next.queue|, t), user) || Bridged(next, |next.queue|, t, user)
    {
      assert Plays(s, t, user);
      EndView(s, s.(queue := s.queue + [m]), m, t, user);
      ViewBefore(s.(queue := s.queue + [m]), next, |next.queue|, t);
      SendBridge(s, next, op, m, |s.queue|, t, user);
      if Exempt(next, t, user) {
        ExemptIsBridged(next, |next.queue|, t, user);
      }
    }
    forall t, user, k | Plays(next, t, user) && 0 <= k <= |next.queue|
      ensures Shows(ViewAfter(next, k, t), user) || Bridged(next, k, t, user)
    {
      assert Plays(s, t, user);
      if k <= |s.queue| {
        ViewBefore(s, next, k, t);
        SendBridge(s, next, op, m, k, t, user);
      }
    }
  }

  lemma AbandonKeepsInv(s: State, op: int)
    requires Inv(s) && Enabled(s, Abandon(op))
    ensures Inv(Apply(s, Abandon(op)))
  {
    hide Covered, CatchesUp, Clears, Unique, Owned, Fresh, Orderly, Freed;
    NobodyLetIn(s, op);
    FreedKeepsInv(s, op);
    BusyKeepsInv(Freed(s, op), Apply(s, Abandon(op)));
  }

  lemma BusyKeepsInv(s: State, next: State)
    requires Inv(s) && next == s.(busy := next.busy)
    ensures Inv(next)
  {
    hide Covered, CatchesUp, Clears, Unique, Owned, Fresh, Orderly;
    BusyIsFree(s, next);
    SameOtherwise(s, next);
    BusyCovered(s, next);
  }

  lemma BusyCovered(s: State, next: State)
    requires Covered(s) && CatchesUp(s) && next == s.(busy := next.busy)
    ensures Covered(next) && CatchesUp(next)
  {
    hide Shows, Bridged, Exempt;
    forall t, user, k | Plays(next, t, user) && 0 <= k <= |next.queue|
      ensures Shows(ViewAfter(next, k, t), user) || Bridged(next, k, t, user)
    {
      assert Plays(s, t, user);
      ViewBefore(s, next, k, t);
      SameClaimsBridge(s, next, k, t, user);
    }
    forall t, user | Plays(next, t, user)
      ensures Shows(ViewAfter(next, |next.queue|, t), user) || Exempt(next, t, user)
    {
      assert Plays(s, t, user);
      ViewBefore(s, next, |s.queue|, t);
      SameClaimsBridge(s, next, |s.queue|, t, user);
    }
  }

  lemma CleanUpKeepsInv(s: State, op: int)
    requires Inv(s) && Enabled(s, CleanUp(op))
    ensures Inv(Apply(s, CleanUp(op)))
  {
    var removed := s.(tables := s.tables - {s.ops[op].target});
    assert forall t, user :: Plays(removed, t, user) ==> Plays(s, t, user);
    hide Covered, CatchesUp, Clears, Unique, Owned, Fresh, Orderly, Freed, Plays;
    FewerKeepsInv(s, removed);
    NobodyThere(removed, op);
    FreedKeepsInv(removed, op);
  }

  /** An operation whose table is not there bridges nothing. */
  lemma NobodyThere(s: State, op: int)
    requires Covered(s) && Orderly(s) && op in s.ops && s.ops[op].stage == Refused && s.ops[op].target !in s.tables
    ensures MayEnd(s, op)
  {
    hide Shows, ViewAfter;
    NotAwaited(s, op);
    forall t, user, k | Plays(s, t, user) && ClaimedBy(s, user, op) && 0 <= k <= |s.queue|
      ensures Shows(ViewAfter(s, k, t), user)
    {
      assert !Bridged(s, k, t, user);
    }
  }

  lemma DeliverKeepsInv(s: State)
    requires Inv(s) && s.queue != []
    ensures Inv(Delivered(s))
  {
    hide Covered, CatchesUp, Clears, Unique, Owned, Fresh, Freed;
    var m, rest := s.queue[0], Handled(s);
    HandledKeepsInv(s);
    match m
    case Install(op, _, _, accepted) =>
      assert Releases(s.queue[0], op);
      if accepted {
        EndedBridgesNothing(s, op);
        FreedKeepsInv(rest, op);
      } else {
        ShiftOrderly(s);
        assert NoRelease(rest, op);
        hide Orderly;
        StageKeepsInv(rest, op, Refused);
      }
    case Finished(op) =>
      assert Releases(s.queue[0], op);
      EndedBridgesNothing(s, op);
      FreedKeepsInv(rest, op);
    case Ask(op) =>
      if At(s, op, Asking) && s.ops[op].Move? {
        AskKeepsInv(s, rest, op);
      }
    case _ =>
  }

  lemma AskKeepsInv(s: State, rest: State, op: int)
    requires Inv(s) && s.queue != [] && s.queue[0] == Ask(op) && rest == Handled(s) && Inv(rest)
    requires At(s, op, Asking) && s.ops[op].Move?
    ensures Inv(Delivered(s))
  {
    hide Covered, CatchesUp, Clears, Unique, Owned, Fresh, Orderly, Elsewhere, Plays;
    var o := s.ops[op];
    NotAwaited(rest, op);
    HeldStill(rest, op);
    assert forall user, other :: ClaimedBy(rest, user, other) <==> ClaimedBy(s, user, other);
    if exists user <- o.users :: Elsewhere(s, user, Some(o.source)) {
      StageKeepsInv(rest, op, Refused);
    } else {
      forall t, user {:trigger Plays(rest, t, user)} | user in o.users && t != o.source
        ensures !Plays(rest, t, user)
      {
        SamePlays(s, rest, t, user);
        NotBridgedYet(s, op, t, user);
        ElsewhereIsSound(s, user, t, Some(o.source));
      }
      StageKeepsInv(rest, op, Allowed);
    }
  }

  lemma NotBridgedYet(s: State, op: int, t: int, user: int)
    requires Owned(s) && At(s, op, Asking) && s.ops[op].Move? && user in s.ops[op].users
    ensures !Bridged(s, 0, t, user)
  {
    assert ClaimedBy(s, user, op);
  }

  lemma StepKeepsInv(s: State, step: Step)
    requires Inv(s) && Enabled(s, step)
    ensures Inv(Apply(s, step))
  {
    hide Inv;
    match step
    case Route(_, _, _) => StartKeepsInv(s, step);
    case Prepare(_, _, _) => StartKeepsInv(s, step);
    case Begin(_, _, _, _, _) => StartKeepsInv(s, step);
    case Claim(op, user) => ClaimKeepsInv(s, op, user);
    case Check(op) => CheckKeepsInv(s, op);
    case Admit(op) => AdmitKeepsInv(s, op);
    case Reject(op) => LeaveKeepsInv(s, op);
    case SaveNew(op) => SaveNewKeepsInv(s, op);
    case Journal(op) => JournalKeepsInv(s, op);
    case Publish(t) => MessageKeepsInv(s, Apply(s, step), Effects(t, s.tables[t]));
    case PublishJoin(op) => PublishJoinKeepsInv(s, op);
    case PublishMove(op) => PublishMoveKeepsInv(s, op);
    case Send(op, accepted) => SendKeepsInv(s, op, accepted);
    case Answer(op) => LeaveKeepsInv(s, op);
    case Abandon(op) => AbandonKeepsInv(s, op);
    case CleanUp(op) => CleanUpKeepsInv(s, op);
    case Shrink(_, _) => FewerKeepsInv(s, Apply(s, step));
    case Convert(_) => FewerKeepsInv(s, Apply(s, step));
    case Remove(_) => FewerKeepsInv(s, Apply(s, step));
    case SendRetire(t) => MessageKeepsInv(s, Apply(s, step), Retire(t));
    case Deliver => DeliverKeepsInv(s);
  }

  // ---------------------------------------------------------------------------------------------
  // Runs.

  /** Where the hub begins: its views are right, and nobody plays at two tables. */
  ghost predicate Begins(s: State) {
    && s.views == s.tables && s.queue == [] && s.claims == map[] && s.ops == map[]
    && Unique(s) && (forall t {:trigger t in s.tables} :: t in s.tables ==> t in s.used)
  }

  ghost predicate IsRun(states: seq<State>, steps: seq<Step>) {
    && |states| == |steps| + 1 && Begins(states[0])
    && (forall i {:trigger states[i]} :: 0 <= i < |steps| ==> Moves(states[i], steps[i], states[i + 1]))
  }

  predicate Moves(s: State, step: Step, next: State) {
    Enabled(s, step) && next == Apply(s, step)
  }

  lemma BeginsWell(s: State)
    requires Begins(s)
    ensures Inv(s)
  {}

  lemma {:induction false} RunKeepsInv(states: seq<State>, steps: seq<Step>, i: nat)
    requires IsRun(states, steps) && i < |states|
    ensures Inv(states[i])
  {
    hide Inv, Apply, Enabled, Begins;
    if i == 0 {
      BeginsWell(states[0]);
    } else {
      RunKeepsInv(states, steps, i - 1);
      assert Moves(states[i - 1], steps[i - 1], states[i - 1 + 1]);
      StepKeepsInv(states[i - 1], steps[i - 1]);
    }
  }

  /**
   In every interleaving of joins, new tables, splits, restarts and everything that removes players, in
   which no table freezes, nobody plays at two tables. `Freezing` adds the tables that do.
   */
  lemma OneTablePerPlayer(states: seq<State>, steps: seq<Step>, i: nat, t: int, u: int, user: int)
    requires IsRun(states, steps) && i < |states| && Plays(states[i], t, user) && Plays(states[i], u, user)
    ensures t == u
  {
    hide Covered, CatchesUp, Clears, Owned, Fresh, Orderly, IsRun;
    RunKeepsInv(states, steps, i);
  }
}
