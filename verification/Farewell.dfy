/**
 A maintenance close while other tasks are still sending to the session: what it adds to the queue, and
 exactly when a frame that was let through before can still be queued behind the close frame.
 */
module Farewell {
  import opened Common
  import opened Transport

  predicate Held(c: Call) {
    c.rest != [] && c.stage != Ready
  }

  /** A call that can only fail, or has nothing left to send. */
  predicate Stuck(c: Call) {
    c.rest == [] || (c.stage == Ready && !Admissible(c.rest[0]))
  }

  /** Some call still has a frame for the session that is not too long. */
  predicate StillSends(s: State, i: nat) {
    exists c <- s.calls :: c.session == i && c.rest != [] && Admissible(c.rest[0])
  }

  lemma OthersStuck(s: State, i: nat, n: nat)
    requires Inv(s) && !StillSends(s, i) && n < |s.calls| && s.calls[n].session == i
    ensures Stuck(s.calls[n])
  {
    hide Balances, InOrder, OffersInOrder;
    assert s.calls[n] in s.calls;
  }

  /** Only one call still sends to a closing session: the one that closes it, or has failed to. */
  ghost predicate Closes(s: State, i: nat, k: nat, before: seq<Frame>, all: seq<Frame>) {
    && i < |s.sessions| && k < |s.calls| && s.sessions[i].closing && s.calls[k].session == i
    && (forall n {:trigger s.calls[n]} :: 0 <= n < |s.calls| && n != k && s.calls[n].session == i ==> Stuck(s.calls[n]))
    && before <= s.sessions[i].pushed <= all
    && (s.calls[k].rest == [] || s.sessions[i].pushed + s.calls[k].rest == all)
  }

  lemma CloseBegins(s: State, i: nat, messages: seq<Frame>)
    requires Inv(s) && Enabled(s, CloseAfter(i, messages)) && !StillSends(s, i)
    ensures Closes(Apply(s, CloseAfter(i, messages)), i, |s.calls|, s.sessions[i].pushed, s.sessions[i].pushed + messages + [Close])
  {
    hide Inv, StillSends;
    var next := Apply(s, CloseAfter(i, messages));
    forall n {:trigger next.calls[n]} | 0 <= n < |s.calls| && next.calls[n].session == i
      ensures Stuck(next.calls[n])
    {
      OthersStuck(s, i, n);
    }
    assert s.sessions[i].pushed + (messages + [Close]) == s.sessions[i].pushed + messages + [Close];
  }

  lemma StepKeepsCloses(s: State, step: Step, i: nat, k: nat, before: seq<Frame>, all: seq<Frame>)
    requires Enabled(s, step) && Closes(s, i, k, before, all)
    ensures Closes(Apply(s, step), i, k, before, all)
  {
    var next := Apply(s, step);
    if step.Push? && step.call == k {
      var f := s.calls[k].rest[0];
      assert s.sessions[i].pushed + [f] + s.calls[k].rest[1..] == s.sessions[i].pushed + s.calls[k].rest;
      assert next.sessions[i].pushed <= all;
      assert before <= next.sessions[i].pushed;
    }
  }

  // ---------------------------------------------------------------------------------------------
  // Continuations.

  ghost predicate IsPath(states: seq<State>, steps: seq<Step>) {
    |states| == |steps| + 1 && forall i {:trigger states[i]} :: 0 <= i < |steps| ==> Moves(states[i], steps[i], states[i + 1])
  }

  ghost predicate Reaches(s: State, t: State) {
    exists states, steps {:trigger IsPath(states, steps)} :: IsPath(states, steps) && states[0] == s && states[|steps|] == t
  }

  lemma ReachesItself(s: State)
    ensures Reaches(s, s)
  {
    assert IsPath([s], []);
  }

  lemma OneStep(s: State, step: Step) returns (t: State)
    requires Inv(s) && Enabled(s, step)
    ensures t == Apply(s, step) && Inv(t) && Reaches(s, t)
  {
    hide Inv, Apply, Enabled;
    t := Apply(s, step);
    StepKeepsInv(s, step);
    assert IsPath([s, t], [step]);
  }

  lemma ReachesFurther(a: State, b: State, c: State)
    requires Reaches(a, b) && Reaches(b, c)
    ensures Reaches(a, c)
  {
    hide Moves;
    var states, steps :| IsPath(states, steps) && states[0] == a && states[|steps|] == b;
    var more, rest :| IsPath(more, rest) && more[0] == b && more[|rest|] == c;
    var all, every := states + more[1..], steps + rest;
    forall i {:trigger all[i]} | 0 <= i < |every|
      ensures Moves(all[i], every[i], all[i + 1])
    {
      if i < |steps| {
        assert all[i] == states[i] && all[i + 1] == states[i + 1] && every[i] == steps[i];
      } else {
        assert all[i] == more[i - |steps|] && all[i + 1] == more[i - |steps| + 1] && every[i] == rest[i - |steps|];
      }
    }
    assert IsPath(all, every);
    assert all[|every|] == c;
  }

  lemma {:induction false} PathKeepsCloses(states: seq<State>, steps: seq<Step>, n: nat, i: nat, k: nat, before: seq<Frame>, all: seq<Frame>)
    requires IsPath(states, steps) && n < |states| && Closes(states[0], i, k, before, all)
    ensures Closes(states[n], i, k, before, all)
  {
    hide Closes, Apply, Enabled;
    if n > 0 {
      PathKeepsCloses(states, steps, n - 1, i, k, before, all);
      assert Moves(states[n - 1], steps[n - 1], states[n - 1 + 1]);
      StepKeepsCloses(states[n - 1], steps[n - 1], i, k, before, all);
    }
  }

  // ---------------------------------------------------------------------------------------------
  // When nothing follows.

  predicate BehindClose(pushed: seq<Frame>) {
    exists m :: 0 <= m < |pushed| - 1 && pushed[m] == Close
  }

  /** A close that has a message too long to send never gets to its close frame, and nobody else has one. */
  ghost predicate Blocked(s: State, i: nat, k: nat) {
    && i < |s.sessions| && k < |s.calls| && s.sessions[i].closing && s.calls[k].session == i && Close !in s.sessions[i].pushed
    && (forall n {:trigger s.calls[n]} :: 0 <= n < |s.calls| && n != k && s.calls[n].session == i ==> Close !in s.calls[n].rest)
    && (s.calls[k].rest == [] || TooLong(s.calls[k].rest))
  }

  predicate TooLong(frames: seq<Frame>) {
    exists m :: 0 <= m < |frames| && !Admissible(frames[m]) && Close !in frames[..m]
  }

  lemma TooLongRest(frames: seq<Frame>)
    requires TooLong(frames) && Admissible(frames[0])
    ensures frames[0] != Close && TooLong(frames[1..])
  {
    var m :| 0 <= m < |frames| && !Admissible(frames[m]) && Close !in frames[..m];
    assert frames[0] in frames[..m];
    assert frames[1..][m - 1] == frames[m] && frames[1..][..m - 1] == frames[..m][1..];
  }

  lemma StepKeepsBlocked(s: State, step: Step, i: nat, k: nat)
    requires Inv(s) && Enabled(s, step) && Blocked(s, i, k)
    ensures Blocked(Apply(s, step), i, k)
  {
    hide Balances, InOrder, OffersInOrder, TooLong, Finished, Offers;
    if step.Push? && step.call == k {
      TooLongRest(s.calls[k].rest);
    }
    OnlyPushed(s, step, i);
  }

  lemma OnlyPushed(s: State, step: Step, i: nat)
    requires Enabled(s, step) && i < |s.sessions|
    ensures Apply(s, step).sessions[i].pushed == s.sessions[i].pushed
            || (step.Push? && s.calls[step.call].session == i && s.calls[step.call].rest != []
                && Apply(s, step).sessions[i].pushed == s.sessions[i].pushed + [s.calls[step.call].rest[0]])
    ensures s.sessions[i].closing ==> Apply(s, step).sessions[i].closing
  {
    hide Cost, Total, Admissible, Finished, Offers;
    match step
    case Finish(j, outcome) => FinishedOnly(s.sessions[j], outcome);
    case Explain(j, taken) => OffersOnly(s.sessions[j], taken, Notice);
    case Leave(j, taken) => OffersOnly(s.sessions[j], taken, Goodbye);
    case _ => {}
  }

  lemma FinishedOnly(at: Session, outcome: Outcome)
    requires at.writing.Some?
    ensures Finished(at, outcome).pushed == at.pushed && Finished(at, outcome).closing == at.closing
  {}

  lemma {:induction false} PathKeepsBlocked(states: seq<State>, steps: seq<Step>, n: nat, i: nat, k: nat)
    requires IsPath(states, steps) && n < |states| && Inv(states[0]) && Blocked(states[0], i, k)
    ensures Inv(states[n]) && Blocked(states[n], i, k)
  {
    hide Blocked, Inv, Apply, Enabled;
    if n > 0 {
      PathKeepsBlocked(states, steps, n - 1, i, k);
      assert Moves(states[n - 1], steps[n - 1], states[n - 1 + 1]);
      StepKeepsBlocked(states[n - 1], steps[n - 1], i, k);
      StepKeepsInv(states[n - 1], steps[n - 1]);
    }
  }

  lemma BlockedBegins(s: State, i: nat, messages: seq<Frame>)
    requires Inv(s) && Enabled(s, CloseAfter(i, messages)) && exists m <- messages :: !Admissible(m)
    ensures Blocked(Apply(s, CloseAfter(i, messages)), i, |s.calls|)
  {
    hide Balances, OffersInOrder;
    var next := Apply(s, CloseAfter(i, messages));
    assert InOrder(s.sessions[i]);
    var m :| m in messages && !Admissible(m);
    var n :| 0 <= n < |messages| && messages[n] == m;
    var rest := messages + [Close];
    assert next.calls[|s.calls|].rest == rest && rest[n] == m;
    forall f | f in rest[..n]
      ensures f != Close
    {
      assert f in messages;
    }
    assert TooLong(rest);
  }

  lemma NothingBehind(pushed: seq<Frame>, all: seq<Frame>, front: seq<Frame>)
    requires Close !in front && all == front + [Close] && pushed <= all
    ensures !BehindClose(pushed)
  {
    forall m | 0 <= m < |pushed| - 1
      ensures pushed[m] in front
    {
      assert pushed[m] == all[m] == front[m];
    }
  }

  /** Whatever happens later, a frame follows the close frame only if it can be pushed there. */
  lemma NoneFollows(s: State, i: nat, messages: seq<Frame>, t: State)
    requires Inv(s) && Enabled(s, CloseAfter(i, messages)) && Reaches(Apply(s, CloseAfter(i, messages)), t)
    requires !StillSends(s, i) || exists m <- messages :: !Admissible(m)
    ensures i < |t.sessions| && !BehindClose(t.sessions[i].pushed)
  {
    hide Inv, Apply, StillSends, Admissible, BehindClose;
    var start := Apply(s, CloseAfter(i, messages));
    var states, steps :| IsPath(states, steps) && states[0] == start && states[|steps|] == t;
    StepKeepsInv(s, CloseAfter(i, messages));
    var before := s.sessions[i].pushed;
    if !StillSends(s, i) {
      CloseBegins(s, i, messages);
      PathKeepsCloses(states, steps, |steps|, i, |s.calls|, before, before + messages + [Close]);
      NoneClosed(s, i);
      assert forall f <- messages :: f != Close;
      NothingBehind(t.sessions[i].pushed, before + messages + [Close], before + messages);
    } else {
      BlockedBegins(s, i, messages);
      PathKeepsBlocked(states, steps, |steps|, i, |s.calls|);
      NoCloseBehind(t.sessions[i].pushed);
    }
  }

  lemma NoCloseBehind(pushed: seq<Frame>)
    requires Close !in pushed
    ensures !BehindClose(pushed)
  {}

  lemma NoneClosed(s: State, i: nat)
    requires Inv(s) && i < |s.sessions| && !s.sessions[i].closing
    ensures Close !in s.sessions[i].pushed
  {
    hide Balances, OffersInOrder;
    assert InOrder(s.sessions[i]);
  }

  /**
   A close that begins while no other call has a frame it could send adds its messages and then its close
   frame and nothing else, and if the close frame was written, so was all of it, right after what came before.
   */
  lemma UndisturbedClose(states: seq<State>, steps: seq<Step>, i: nat, j: nat, session: nat, messages: seq<Frame>)
    requires IsRun(states, steps) && i < j < |states| && steps[i] == CloseAfter(session, messages)
    requires !StillSends(states[i], session)
    ensures session < |states[i].sessions| && session < |states[j].sessions|
    ensures var before, at := states[i].sessions[session].pushed, states[j].sessions[session];
            && before <= at.pushed <= before + messages + [Close]
            && (Close in at.written ==> at.written == before + messages + [Close])
  {
    hide Inv, Apply, StillSends;
    assert Moves(states[i], steps[i], states[i + 1]);
    var before := states[i].sessions[session].pushed;
    RunKeepsInv(states, steps, i);
    RunKeepsInv(states, steps, j);
    CloseBegins(states[i], session, messages);
    var rest, more := states[i + 1..], steps[i + 1..];
    forall m {:trigger rest[m]} | 0 <= m < |more|
      ensures Moves(rest[m], more[m], rest[m + 1])
    {
      assert Moves(states[i + 1 + m], steps[i + 1 + m], states[i + 1 + m + 1]);
    }
    PathKeepsCloses(rest, more, j - i - 1, session, |states[i].calls|, before, before + messages + [Close]);
    CloseWritesAll(states[i], states[j], session, before + messages + [Close], messages);
  }

  lemma CloseWritesAll(start: State, s: State, i: nat, all: seq<Frame>, messages: seq<Frame>)
    requires Inv(start) && Inv(s) && Enabled(start, CloseAfter(i, messages)) && i < |s.sessions|
    requires all == start.sessions[i].pushed + messages + [Close] && s.sessions[i].pushed <= all
    ensures Close in s.sessions[i].written ==> s.sessions[i].written == all
  {
    hide Balances, OffersInOrder;
    assert InOrder(start.sessions[i]) && InOrder(s.sessions[i]);
    var written := s.sessions[i].written;
    assert written <= all;
    if Close in written {
      var m :| 0 <= m < |written| && written[m] == Close;
      assert forall f <- messages :: f != Close;
      ClosesLast(start.sessions[i].pushed + messages, m);
      assert written == all[..|written|];
    }
  }

  lemma ClosesLast(front: seq<Frame>, m: nat)
    requires Close !in front && m <= |front| && (front + [Close])[m] == Close
    ensures m == |front|
  {}

  // ---------------------------------------------------------------------------------------------
  // When something follows: the other sessions end, what is queued is written, and the messages are
  // sent one by one, so that there is room for everything.

  predicate Idle(at: Session) {
    at.queue == [] && at.writing.None?
  }

  predicate Writing(at: Session) {
    !at.cancelled && !at.ended && !at.dropped
  }

  /** Only this session changed. */
  predicate SameBut(s: State, t: State, i: nat) {
    |t.sessions| == |s.sessions| && forall j :: 0 <= j < |s.sessions| && j != i ==> t.sessions[j] == s.sessions[j]
  }

  lemma EndWriter(s: State, i: nat) returns (t: State)
    requires Inv(s) && i < |s.sessions|
    ensures Inv(t) && Reaches(s, t) && t.calls == s.calls && SameBut(s, t, i) && t.sessions[i].ended
    ensures s.sessions[i].dropped ==> t.sessions[i].dropped
  {
    hide Inv, Reaches, Total, Cost;
    t := s;
    ReachesItself(s);
    if !s.sessions[i].ended {
      var a := OneStep(s, Cancel(i));
      if a.sessions[i].writing.Some? {
        t := OneStep(a, Finish(i, Skipped));
      } else {
        t := OneStep(a, End(i));
      }
      ReachesFurther(s, a, t);
    }
  }

  lemma PartWriter(s: State, i: nat) returns (t: State)
    requires Inv(s) && i < |s.sessions| && s.sessions[i].ended
    ensures Inv(t) && Reaches(s, t) && t.calls == s.calls && SameBut(s, t, i) && t.sessions[i].parting.Gone?
    decreases match s.sessions[i].parting case Serving => 3 case Explaining => 2 case Leaving(_) => 1 case Gone(_, _) => 0
  {
    hide Inv, Reaches;
    var parting := s.sessions[i].parting;
    t := s;
    ReachesItself(s);
    if !parting.Gone? {
      var next := OneStep(s, if parting == Serving then Turn(i) else if parting == Explaining then Explain(i, false) else Leave(i, false));
      t := PartWriter(next, i);
      ReachesFurther(s, next, t);
    }
  }

  /** A session is given up, and its bytes come back. */
  lemma GiveUp(s: State, i: nat) returns (t: State)
    requires Inv(s) && i < |s.sessions|
    ensures Inv(t) && Reaches(s, t) && t.calls == s.calls && SameBut(s, t, i) && t.sessions[i].dropped
  {
    hide Inv, Reaches, Total;
    var a := EndWriter(s, i);
    var b := PartWriter(a, i);
    t := OneStep(b, Discard(i));
    ReachesFurther(s, a, b);
    ReachesFurther(s, b, t);
  }

  lemma {:induction false} GiveOthersUp(s: State, i: nat, n: nat) returns (t: State)
    requires Inv(s) && i < |s.sessions| && n <= |s.sessions|
    ensures Inv(t) && Reaches(s, t) && t.calls == s.calls && |t.sessions| == |s.sessions| && t.sessions[i] == s.sessions[i]
    ensures forall j :: 0 <= j < n && j != i ==> t.sessions[j].dropped
  {
    hide Inv, Reaches;
    t := s;
    ReachesItself(s);
    if n > 0 {
      var a := GiveOthersUp(s, i, n - 1);
      t := a;
      if n - 1 != i {
        t := GiveUp(a, n - 1);
        ReachesFurther(s, a, t);
      }
    }
  }

  /** A call to a session that is gone fails, and gives back what it paid. */
  lemma LetGo(s: State, k: nat) returns (t: State)
    requires Inv(s) && k < |s.calls| && s.calls[k].session < |s.sessions| && s.sessions[s.calls[k].session].dropped
    ensures Inv(t) && Reaches(s, t) && |t.calls| == |s.calls| && SameBut(s, t, s.calls[k].session)
    ensures t.calls == s.calls[k := t.calls[k]] && t.calls[k].session == s.calls[k].session && !Held(t.calls[k])
    ensures t.sessions[s.calls[k].session].dropped
  {
    hide Inv, Reaches, Total;
    t := s;
    ReachesItself(s);
    if Held(s.calls[k]) {
      var a := s;
      if s.calls[k].stage == PaidSession && Cost(s.calls[k].rest[0]) <= s.available {
        a := OneStep(s, PayServer(k));
      }
      t := OneStep(a, Fail(k));
      ReachesFurther(s, a, t);
    }
  }

  ghost predicate OthersDropped(s: State, i: nat) {
    forall j {:trigger s.sessions[j]} :: 0 <= j < |s.sessions| && j != i ==> s.sessions[j].dropped
  }

  lemma CallsFit(s: State, k: nat)
    requires Inv(s) && k < |s.calls|
    ensures s.calls[k].session < |s.sessions|
  {
    hide Balances, InOrder, OffersInOrder;
  }

  lemma {:induction false} LetOthersGo(s: State, i: nat, n: nat) returns (t: State)
    requires Inv(s) && i < |s.sessions| && n <= |s.calls| && OthersDropped(s, i)
    ensures Inv(t) && Reaches(s, t) && |t.calls| == |s.calls| && |t.sessions| == |s.sessions| && t.sessions[i] == s.sessions[i]
    ensures OthersDropped(t, i)
    ensures forall k {:trigger t.calls[k]} :: 0 <= k < |s.calls| ==> t.calls[k].session == s.calls[k].session
    ensures forall k {:trigger t.calls[k]} :: 0 <= k < |s.calls| && s.calls[k].session == i ==> t.calls[k] == s.calls[k]
    ensures forall k {:trigger t.calls[k]} :: 0 <= k < n && s.calls[k].session != i ==> !Held(t.calls[k])
  {
    hide Inv, Reaches, Held;
    t := s;
    ReachesItself(s);
    if n > 0 {
      var a := LetOthersGo(s, i, n - 1);
      t := a;
      if s.calls[n - 1].session != i {
        CallsFit(a, n - 1);
        t := LetGo(a, n - 1);
        ReachesFurther(s, a, t);
      }
    }
  }

  /** No session but this one holds any bytes. */
  ghost predicate Alone(s: State, i: nat) {
    OthersDropped(s, i) && forall k {:trigger s.calls[k]} :: 0 <= k < |s.calls| && s.calls[k].session != i ==> !Held(s.calls[k])
  }

  lemma {:induction false} PaidBelow(calls: seq<Call>, i: nat)
    requires forall k {:trigger calls[k]} :: 0 <= k < |calls| && calls[k].session != i ==> !Held(calls[k])
    ensures AllPaid(calls) <= PaidTo(calls, i)
    decreases |calls|
  {
    if calls != [] {
      PaidBelow(calls[..|calls| - 1], i);
    }
  }

  lemma {:induction false} OneLoad(sessions: seq<Session>, i: nat)
    requires i < |sessions| && forall j {:trigger sessions[j]} :: 0 <= j < |sessions| && j != i ==> Load(sessions[j]) == 0
    ensures AllLoad(sessions) == Load(sessions[i])
    decreases |sessions|
  {
    hide Load;
    if i < |sessions| - 1 {
      OneLoad(sessions[..|sessions| - 1], i);
    } else {
      NoLoad(sessions[..i]);
    }
  }

  lemma {:induction false} NoLoad(sessions: seq<Session>)
    requires forall j {:trigger sessions[j]} :: 0 <= j < |sessions| ==> Load(sessions[j]) == 0
    ensures AllLoad(sessions) == 0
    decreases |sessions|
  {
    hide Load;
    if sessions != [] {
      NoLoad(sessions[..|sessions| - 1]);
    }
  }

  lemma DroppedIsEmpty(s: State, j: nat)
    requires Inv(s) && j < |s.sessions| && s.sessions[j].dropped
    ensures Load(s.sessions[j]) == 0
  {
    hide Balances, OffersInOrder;
    assert InOrder(s.sessions[j]);
  }

  /** Whatever this session still has to pay, the server has room for it. */
  lemma ServerHasRoom(s: State, i: nat)
    requires Inv(s) && i < |s.sessions| && Alone(s, i)
    ensures s.available >= SERVER_BYTES - SESSION_BYTES + s.sessions[i].available
    ensures s.sessions[i].available + PaidTo(s.calls, i) + Load(s.sessions[i]) == SESSION_BYTES
  {
    hide Load, AllLoad, PaidTo, AllPaid, InOrder, OffersInOrder, Held;
    assert SessionBalances(s, i);
    PaidBelow(s.calls, i);
    forall j {:trigger s.sessions[j]} | 0 <= j < |s.sessions| && j != i
      ensures Load(s.sessions[j]) == 0
    {
      DroppedIsEmpty(s, j);
    }
    OneLoad(s.sessions, i);
  }

  /** Everything that is queued gets written. */
  lemma Drain(s: State, i: nat) returns (t: State)
    requires Inv(s) && i < |s.sessions| && Writing(s.sessions[i])
    requires Close !in s.sessions[i].queue && s.sessions[i].writing != Some(Close)
    ensures Inv(t) && Reaches(s, t) && t.calls == s.calls && SameBut(s, t, i)
    ensures Writing(t.sessions[i]) && Idle(t.sessions[i]) && t.sessions[i].pushed == s.sessions[i].pushed
    decreases |s.sessions[i].queue|, if s.sessions[i].writing.Some? then 1 else 0
  {
    hide Inv, Reaches, Cost;
    t := s;
    ReachesItself(s);
    var at := s.sessions[i];
    if !Idle(at) {
      var next := OneStep(s, if at.writing.Some? then Finish(i, Wrote) else Next(i));
      t := Drain(next, i);
      ReachesFurther(s, next, t);
    }
  }

  /** The session writes, and of the first calls only the late one holds something of it. */
  ghost predicate Calming(s: State, i: nat, late: nat, n: nat) {
    && Inv(s) && i < |s.sessions| && late < |s.calls| && s.calls[late].session == i && Alone(s, i)
    && Writing(s.sessions[i]) && Idle(s.sessions[i])
    && s.calls[late].rest != [] && Admissible(s.calls[late].rest[0])
    && forall k {:trigger s.calls[k]} :: 0 <= k < |s.calls| && k < n && k != late && s.calls[k].session == i ==> !Held(s.calls[k])
  }

  /** What the closing call needs. */
  ghost predicate Calm(s: State, i: nat, late: nat) {
    Calming(s, i, late, |s.calls|)
  }

  /** Only the closing call has a close frame for the session. */
  ghost predicate OneCloser(s: State, i: nat, k: nat) {
    forall n {:trigger s.calls[n]} :: 0 <= n < |s.calls| && n != k && s.calls[n].session == i ==> Close !in s.calls[n].rest
  }

  lemma {:induction false} OnlyOnePays(calls: seq<Call>, i: nat, late: nat)
    requires forall k {:trigger calls[k]} :: 0 <= k < |calls| && k != late && calls[k].session == i ==> !Held(calls[k])
    ensures PaidTo(calls, i) == if late < |calls| then SessionShare(calls[late], i) else 0
    decreases |calls|
  {
    if calls != [] {
      var front := calls[..|calls| - 1];
      forall k {:trigger front[k]} | 0 <= k < |front| && k != late && front[k].session == i
        ensures !Held(front[k])
      {
        assert front[k] == calls[k];
      }
      OnlyOnePays(front, i, late);
    }
  }

  lemma CalmHasRoom(s: State, i: nat, late: nat)
    requires Calm(s, i, late)
    ensures s.sessions[i].available >= SESSION_BYTES - MAX_MESSAGE_BYTES && s.available >= SERVER_BYTES - MAX_MESSAGE_BYTES
  {
    hide Inv, PaidTo, Alone;
    ServerHasRoom(s, i);
    OnlyOnePays(s.calls, i, late);
  }

  lemma PaidIsAdmissible(s: State, k: nat)
    requires Inv(s) && k < |s.calls| && Held(s.calls[k])
    ensures Admissible(s.calls[k].rest[0])
  {
    hide Balances, InOrder, OffersInOrder;
  }

  lemma AloneStill(s: State, t: State, i: nat, k: nat)
    requires Alone(s, i) && k < |s.calls| && s.calls[k].session == i && SameBut(s, t, i)
    requires |t.calls| == |s.calls| && t.calls == s.calls[k := t.calls[k]] && t.calls[k].session == i
    ensures Alone(t, i)
  {}

  /** A call that has paid gets its frame pushed and written. */
  lemma FlushOne(s: State, i: nat, late: nat, k: nat) returns (t: State)
    requires Calming(s, i, late, k) && k < |s.calls| && k != late && s.calls[k].session == i && Held(s.calls[k]) && s.calls[k].rest[0] != Close
    ensures Calming(t, i, late, k + 1) && Reaches(s, t)
    ensures t.calls == s.calls[k := Call(i, s.calls[k].rest[1..], Ready)]
  {
    hide Inv, Reaches, Alone, PaidTo, Load;
    ServerHasRoom(s, i);
    PaidIsAdmissible(s, k);
    var a := s;
    ReachesItself(s);
    if s.calls[k].stage == PaidSession {
      a := OneStep(s, PayServer(k));
    }
    var b := OneStep(a, Push(k));
    assert b.sessions[i].queue == [s.calls[k].rest[0]];
    t := Drain(b, i);
    ReachesFurther(s, a, b);
    ReachesFurther(s, b, t);
    AloneStill(s, t, i, k);
  }

  lemma {:induction false} FlushAll(s: State, i: nat, late: nat, closer: nat, n: nat) returns (t: State)
    requires Calming(s, i, late, 0) && n <= |s.calls| && OneCloser(s, i, closer)
    requires closer < |s.calls| && s.calls[closer].session == i && closer != late && !Held(s.calls[closer])
    ensures Calming(t, i, late, n) && Reaches(s, t) && OneCloser(t, i, closer)
    ensures |t.calls| == |s.calls| && t.calls[late] == s.calls[late] && t.calls[closer] == s.calls[closer]
  {
    hide Inv, Reaches, Alone;
    t := s;
    ReachesItself(s);
    if n > 0 {
      var a := FlushAll(s, i, late, closer, n - 1);
      t := a;
      if n - 1 != late && a.calls[n - 1].session == i && Held(a.calls[n - 1]) {
        assert n - 1 != closer && a.calls[n - 1].rest[0] in a.calls[n - 1].rest;
        t := FlushOne(a, i, late, n - 1);
        assert Close !in a.calls[n - 1].rest[1..];
        ReachesFurther(s, a, t);
      }
    }
  }

  /** A call whose frame fits everywhere gets it pushed in three steps. */
  lemma SendsOne(s: State, k: nat) returns (t: State)
    requires Inv(s) && Sends(s, k, Ready) && Admissible(s.calls[k].rest[0])
    requires Cost(s.calls[k].rest[0]) <= s.sessions[s.calls[k].session].available && Cost(s.calls[k].rest[0]) <= s.available
    requires |s.sessions[s.calls[k].session].queue| < MAX_QUEUED && !s.sessions[s.calls[k].session].dropped
    ensures Inv(t) && Reaches(s, t) && SameBut(s, t, s.calls[k].session)
    ensures var c, to := s.calls[k], s.sessions[s.calls[k].session];
            && t.calls == s.calls[k := Call(c.session, c.rest[1..], Ready)]
            && t.sessions[c.session] == to.(available := to.available - Cost(c.rest[0]),
                                            queue := to.queue + [c.rest[0]], pushed := to.pushed + [c.rest[0]])
  {
    hide Inv, Reaches;
    var a := OneStep(s, PaySession(k));
    var b := OneStep(a, PayServer(k));
    t := OneStep(b, Push(k));
    ReachesFurther(s, a, b);
    ReachesFurther(s, b, t);
  }

  lemma SendMessage(s: State, i: nat, late: nat, k: nat) returns (t: State)
    requires Calm(s, i, late) && k < |s.calls| && k != late && s.calls[k].session == i
    requires s.calls[k].rest != [] && s.calls[k].rest[0].Text? && Admissible(s.calls[k].rest[0])
    ensures Calm(t, i, late) && Reaches(s, t) && t.sessions[i].pushed == s.sessions[i].pushed + [s.calls[k].rest[0]]
    ensures t.calls == s.calls[k := Call(i, s.calls[k].rest[1..], Ready)]
  {
    hide Inv, Reaches, Alone;
    CalmHasRoom(s, i, late);
    var a := SendsOne(s, k);
    assert a.sessions[i].queue == [s.calls[k].rest[0]];
    t := Drain(a, i);
    ReachesFurther(s, a, t);
    AloneStill(s, t, i, k);
  }

  /** All of the messages are written, and then the close frame is queued. */
  lemma {:induction false} SendMessages(s: State, i: nat, late: nat, k: nat, messages: seq<Frame>) returns (t: State)
    requires Calm(s, i, late) && k < |s.calls| && k != late && s.calls[k].session == i && s.calls[k].rest == messages + [Close]
    requires forall m <- messages :: m.Text? && Admissible(m)
    ensures Inv(t) && Reaches(s, t) && i < |t.sessions| && Alone(t, i) && |t.calls| == |s.calls|
    ensures t.sessions[i].queue == [Close] && t.sessions[i].writing.None? && !t.sessions[i].dropped
    ensures Close in t.sessions[i].pushed && t.calls == s.calls[k := Call(i, [], Ready)]
    decreases |messages|
  {
    hide Inv, Reaches, Alone;
    if messages == [] {
      CalmHasRoom(s, i, late);
      t := SendsOne(s, k);
      AloneStill(s, t, i, k);
      assert t.sessions[i].pushed[|s.sessions[i].pushed|] == Close;
    } else {
      var a := SendMessage(s, i, late, k);
      assert s.calls[k].rest[1..] == messages[1..] + [Close];
      t := SendMessages(a, i, late, k, messages[1..]);
      ReachesFurther(s, a, t);
      assert t.calls == s.calls[k := Call(i, [], Ready)];
    }
  }

  lemma CloseLoad(at: Session)
    requires at.queue == [Close] && at.writing.None?
    ensures Load(at) == 1
  {
    var queue := at.queue;
    assert queue[1..] == [] && queue[0] == Close;
    assert Total(queue) == Cost(queue[0]) + Total(queue[1..]);
  }

  /** A call pays what it has not paid yet. */
  lemma PayRest(s: State, k: nat) returns (t: State)
    requires Inv(s) && k < |s.calls| && s.calls[k].session < |s.sessions| && s.calls[k].rest != [] && Admissible(s.calls[k].rest[0])
    requires s.calls[k].stage == Ready ==> Cost(s.calls[k].rest[0]) <= s.sessions[s.calls[k].session].available
    requires Cost(s.calls[k].rest[0]) <= s.available
    ensures Inv(t) && Reaches(s, t) && |t.calls| == |s.calls| && |t.sessions| == |s.sessions|
    ensures t.calls[k] == s.calls[k].(stage := PaidBoth)
    ensures t.sessions[s.calls[k].session] == s.sessions[s.calls[k].session].(available := t.sessions[s.calls[k].session].available)
  {
    hide Inv, Reaches;
    ReachesItself(s);
    var a := s;
    if s.calls[k].stage == Ready {
      a := OneStep(s, PaySession(k));
    }
    t := a;
    if a.calls[k].stage == PaidSession {
      t := OneStep(a, PayServer(k));
      ReachesFurther(s, a, t);
    }
  }

  /** The late call pushes its frame behind the close frame. */
  lemma SendLate(s: State, i: nat, late: nat) returns (t: State)
    requires Inv(s) && i < |s.sessions| && Alone(s, i) && late < |s.calls| && s.calls[late].session == i
    requires s.sessions[i].queue == [Close] && s.sessions[i].writing.None? && !s.sessions[i].dropped && Close in s.sessions[i].pushed
    requires s.calls[late].rest != [] && Admissible(s.calls[late].rest[0])
    requires forall k {:trigger s.calls[k]} :: 0 <= k < |s.calls| && k != late && s.calls[k].session == i ==> !Held(s.calls[k])
    ensures Reaches(s, t) && i < |t.sessions| && BehindClose(t.sessions[i].pushed)
  {
    hide Inv, Reaches, Alone, PaidTo, Load, BehindClose;
    LateHasRoom(s, i, late);
    var a := PayRest(s, late);
    t := OneStep(a, Push(late));
    ReachesFurther(s, a, t);
    Behind(s.sessions[i].pushed, s.calls[late].rest[0]);
  }

  lemma LateHasRoom(s: State, i: nat, late: nat)
    requires Inv(s) && i < |s.sessions| && Alone(s, i) && late < |s.calls| && s.calls[late].session == i
    requires s.sessions[i].queue == [Close] && s.sessions[i].writing.None?
    requires s.calls[late].rest != [] && Admissible(s.calls[late].rest[0])
    requires forall k {:trigger s.calls[k]} :: 0 <= k < |s.calls| && k != late && s.calls[k].session == i ==> !Held(s.calls[k])
    ensures s.calls[late].stage == Ready ==> Cost(s.calls[late].rest[0]) <= s.sessions[i].available
    ensures Cost(s.calls[late].rest[0]) <= s.available
  {
    hide Inv, Alone, PaidTo, Load;
    ServerHasRoom(s, i);
    OnlyOnePays(s.calls, i, late);
    CloseLoad(s.sessions[i]);
  }

  lemma Behind(pushed: seq<Frame>, f: Frame)
    requires Close in pushed
    ensures BehindClose(pushed + [f])
  {
    var m :| 0 <= m < |pushed| && pushed[m] == Close;
    assert (pushed + [f])[m] == Close;
  }

  // ---------------------------------------------------------------------------------------------
  // Exactly when.

  /** Whether anything that can happen after the close begins puts a frame behind its close frame. */
  ghost predicate CanFollowClose(s: State, i: nat, messages: seq<Frame>)
    requires Enabled(s, CloseAfter(i, messages))
  {
    exists t {:trigger Reaches(Apply(s, CloseAfter(i, messages)), t)} ::
      Reaches(Apply(s, CloseAfter(i, messages)), t) && i < |t.sessions| && BehindClose(t.sessions[i].pushed)
  }

  /** The close has begun, and every session but this one is gone. */
  lemma BecomesCalm(s: State, i: nat, messages: seq<Frame>, late: nat) returns (t: State)
    requires Inv(s) && Enabled(s, CloseAfter(i, messages)) && late < |s.calls| && s.calls[late].session == i
    requires s.calls[late].rest != [] && Admissible(s.calls[late].rest[0])
    ensures Calm(t, i, late) && Reaches(Apply(s, CloseAfter(i, messages)), t)
    ensures |t.calls| == |s.calls| + 1 && t.calls[|s.calls|] == Call(i, messages + [Close], Ready)
  {
    hide Inv, Reaches, Alone, StillSends;
    var start := Apply(s, CloseAfter(i, messages));
    StepKeepsInv(s, CloseAfter(i, messages));
    OpenIsWriting(s, i);
    var a := Drain(start, i);
    var b := GiveOthersUp(a, i, |a.sessions|);
    var c := LetOthersGo(b, i, |b.calls|);
    IsAlone(c, i);
    ReachesFurther(start, a, b);
    ReachesFurther(start, b, c);
    NobodyElseCloses(s, i);
    t := FlushAll(c, i, late, |s.calls|, |c.calls|);
    ReachesFurther(start, c, t);
  }

  lemma IsAlone(s: State, i: nat)
    requires OthersDropped(s, i) && forall k {:trigger s.calls[k]} :: 0 <= k < |s.calls| && s.calls[k].session != i ==> !Held(s.calls[k])
    ensures Alone(s, i)
  {}

  lemma OpenIsWriting(s: State, i: nat)
    requires Inv(s) && IsOpen(s, i)
    ensures Writing(s.sessions[i]) && Close !in s.sessions[i].queue && s.sessions[i].writing != Some(Close)
  {
    hide Balances, OffersInOrder;
    var at := s.sessions[i];
    assert InOrder(at);
    assert at.writing.Some? ==> at.writing.value in at.pushed;
    assert forall f <- at.queue :: f in at.pushed;
  }

  lemma NobodyElseCloses(s: State, i: nat)
    requires Inv(s) && IsOpen(s, i)
    ensures forall n {:trigger s.calls[n]} :: 0 <= n < |s.calls| && s.calls[n].session == i ==> Close !in s.calls[n].rest
  {
    hide Balances, InOrder, OffersInOrder;
  }

  /**
   For every state that a server can be in: after a maintenance close begins, a frame can still be pushed
   behind its close frame if and only if none of its messages is too long and some other call still holds
   a frame for the session that is not too long.
   */
  lemma LateFrameExactly(states: seq<State>, steps: seq<Step>, n: nat, i: nat, messages: seq<Frame>)
    requires IsRun(states, steps) && n < |states| && Enabled(states[n], CloseAfter(i, messages))
    ensures CanFollowClose(states[n], i, messages) <==>
              (forall m <- messages :: Admissible(m)) && StillSends(states[n], i)
  {
    hide IsRun, Inv, Apply, Reaches, BehindClose, Alone, Admissible;
    RunKeepsInv(states, steps, n);
    var s := states[n];
    if (forall m <- messages :: Admissible(m)) && StillSends(s, i) {
      var c :| c in s.calls && c.session == i && c.rest != [] && Admissible(c.rest[0]);
      var late :| 0 <= late < |s.calls| && s.calls[late] == c;
      var a := BecomesCalm(s, i, messages, late);
      var b := SendMessages(a, i, late, |s.calls|, messages);
      var t := SendLate(b, i, late);
      ReachesFurther(Apply(s, CloseAfter(i, messages)), a, b);
      ReachesFurther(Apply(s, CloseAfter(i, messages)), b, t);
    } else {
      forall t {:trigger Reaches(Apply(s, CloseAfter(i, messages)), t)} | Reaches(Apply(s, CloseAfter(i, messages)), t)
        ensures i < |t.sessions| && !BehindClose(t.sessions[i].pushed)
      {
        NoneFollows(s, i, messages, t);
      }
    }
  }

  const LATE := Text(7, 1)

  /** One call passed the check and has not paid yet, and the close begins. */
  lemma LateFrameFollowsClose()
    ensures IsRun([INITIAL, Apply(INITIAL, Connect), Apply(Apply(INITIAL, Connect), Emit(0, 7, 1))], [Connect, Emit(0, 7, 1)])
    ensures var s := Apply(Apply(INITIAL, Connect), Emit(0, 7, 1));
            Enabled(s, CloseAfter(0, [])) && CanFollowClose(s, 0, [])
  {
    var a := Apply(INITIAL, Connect);
    var s := Apply(a, Emit(0, 7, 1));
    var states, steps := [INITIAL, a, s], [Connect, Emit(0, 7, 1)];
    assert Moves(states[0], steps[0], states[1]) && Moves(states[1], steps[1], states[2]);
    assert s.calls == [Call(0, [LATE], Ready)];
    assert s.calls[0] in s.calls && StillSends(s, 0);
    LateFrameExactly(states, steps, 2, 0, []);
  }
}
