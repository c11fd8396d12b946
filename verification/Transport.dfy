/**
 What is sent to a browser. Tasks send to a session at the same time, each frame paid for with bytes of
 the session's budget and of the server's; a maintenance close sends its messages and a close frame.
 */
module Transport {
  import opened Common

  const MAX_MESSAGE_BYTES: nat := 4 * 1024 * 1024
  const SESSION_BYTES: nat := 8 * 1024 * 1024
  const SERVER_BYTES: nat := 128 * 1024 * 1024
  const MAX_QUEUED: nat := 64

  datatype Frame = Text(id: int, size: nat) | Close

  function Cost(f: Frame): nat {
    if f.Text? then f.size else 1
  }

  predicate Admissible(f: Frame) {
    f.Text? ==> f.size <= MAX_MESSAGE_BYTES
  }

  /** How much of the price of its next frame a call has paid. */
  datatype Stage = Ready | PaidSession | PaidBoth

  /** A call to send some frames, in order; one that has nothing left to send is over. */
  datatype Call = Call(session: nat, rest: seq<Frame>, stage: Stage)

  /** What the writer hands to the websocket: frames of the queue, and what it adds once it has stopped. */
  datatype Offer = Queued(frame: Frame) | Notice | Goodbye

  /** A frame was written, or given up after the websocket had taken it, or before. */
  datatype Outcome = Wrote | Cut | Skipped

  /** How far a writer is that has stopped: it tells whoever was replaced, then closes the connection. */
  datatype Parting = Serving | Explaining | Leaving(notice: bool) | Gone(notice: bool, goodbye: bool)

  /**
   One session. `pushed` and `written` are all frames that ever entered its queue and that its writer
   ever wrote; the writer stops at a close frame, at a failure, or when the session is cancelled.
   `offered` is all that the websocket took, with the frame that was given up if `cut`.
   */
  datatype Session = Session(
    cancelled: bool, closing: bool, superseded: bool, ended: bool, dropped: bool, available: nat,
    queue: seq<Frame>, writing: Option<Frame>, pushed: seq<Frame>, written: seq<Frame>,
    cut: bool, parting: Parting, offered: seq<Offer>
  )

  datatype State = State(sessions: seq<Session>, calls: seq<Call>, available: nat)

  datatype Step =
    | Connect
    | Emit(session: nat, id: int, size: nat)
    | CloseAfter(session: nat, messages: seq<Frame>)
    | PaySession(call: nat)
    | PayServer(call: nat)
    | Push(call: nat)
    | Fail(call: nat)
    | Cancel(session: nat)
    | Next(session: nat)
    | Finish(session: nat, outcome: Outcome)
    | End(session: nat)
    | Supersede(session: nat)
    | Turn(session: nat)
    | Explain(session: nat, taken: bool)
    | Leave(session: nat, taken: bool)
    | Discard(session: nat)

  const INITIAL := State([], [], SERVER_BYTES)
  const CONNECTED := Session(false, false, false, false, false, SESSION_BYTES, [], None, [], [], false, Serving, [])

  predicate Sends(s: State, call: nat, stage: Stage) {
    && call < |s.calls| && s.calls[call].rest != [] && s.calls[call].stage == stage
    && s.calls[call].session < |s.sessions|
  }

  predicate IsOpen(s: State, i: nat) {
    i < |s.sessions| && !s.sessions[i].cancelled && !s.sessions[i].closing
  }

  predicate Enabled(s: State, step: Step) {
    match step
    case Connect => true
    case Emit(i, _, _) => IsOpen(s, i)
    case CloseAfter(i, messages) => IsOpen(s, i) && forall m <- messages :: m.Text?
    case PaySession(k) =>
      && Sends(s, k, Ready) && Admissible(s.calls[k].rest[0])
      && Cost(s.calls[k].rest[0]) <= s.sessions[s.calls[k].session].available
    case PayServer(k) => Sends(s, k, PaidSession) && Cost(s.calls[k].rest[0]) <= s.available
    case Push(k) =>
      && Sends(s, k, PaidBoth)
      && |s.sessions[s.calls[k].session].queue| < MAX_QUEUED && !s.sessions[s.calls[k].session].dropped
    case Fail(k) =>
      || (Sends(s, k, Ready) && !(Admissible(s.calls[k].rest[0])
                                  && Cost(s.calls[k].rest[0]) <= s.sessions[s.calls[k].session].available))
      || (Sends(s, k, PaidSession) && Cost(s.calls[k].rest[0]) > s.available)
      || (Sends(s, k, PaidBoth) && (|s.sessions[s.calls[k].session].queue| >= MAX_QUEUED || s.sessions[s.calls[k].session].dropped))
    case Cancel(i) => i < |s.sessions|
    case Next(i) => i < |s.sessions| && !s.sessions[i].ended && s.sessions[i].writing.None? && s.sessions[i].queue != []
    // Each attempt to write begins by looking whether the session is cancelled.
    case Finish(i, outcome) => i < |s.sessions| && s.sessions[i].writing.Some? && (outcome == Wrote ==> !s.sessions[i].cancelled)
    case End(i) => i < |s.sessions| && s.sessions[i].cancelled && s.sessions[i].writing.None?
    case Supersede(i) => i < |s.sessions|
    case Turn(i) => i < |s.sessions| && s.sessions[i].ended && s.sessions[i].parting == Serving
    case Explain(i, _) => i < |s.sessions| && s.sessions[i].parting == Explaining
    case Leave(i, _) => i < |s.sessions| && s.sessions[i].parting.Leaving?
    case Discard(i) => i < |s.sessions| && s.sessions[i].parting.Gone?
  }

  function Offers(at: Session, taken: bool, o: Offer): Session {
    if taken then at.(offered := at.offered + [o]) else at
  }

  /** A writer stops when it could not write a frame, and after a close frame. */
  function Finished(at: Session, outcome: Outcome): Session
    requires at.writing.Some?
  {
    var f := at.writing.value;
    var stops := outcome != Wrote || f == Close;
    Offers(at, outcome != Skipped, Queued(f)).(
      writing := None, available := at.available + Cost(f), written := if outcome == Wrote then at.written + [f] else at.written,
      cut := outcome == Cut, ended := at.ended || stops, cancelled := at.cancelled || stops)
  }

  function Apply(s: State, step: Step): State
    requires Enabled(s, step)
  {
    match step
    case Connect => s.(sessions := s.sessions + [CONNECTED])
    case Emit(i, id, size) => s.(calls := s.calls + [Call(i, [Text(id, size)], Ready)])
    case CloseAfter(i, messages) =>
      s.(sessions := s.sessions[i := s.sessions[i].(closing := true)], calls := s.calls + [Call(i, messages + [Close], Ready)])
    case PaySession(k) =>
      var c := s.calls[k];
      var to := s.sessions[c.session];
      s.(calls := s.calls[k := c.(stage := PaidSession)],
         sessions := s.sessions[c.session := to.(available := to.available - Cost(c.rest[0]))])
    case PayServer(k) =>
      var c := s.calls[k];
      s.(calls := s.calls[k := c.(stage := PaidBoth)], available := s.available - Cost(c.rest[0]))
    case Push(k) =>
      var c := s.calls[k];
      var to := s.sessions[c.session];
      s.(calls := s.calls[k := Call(c.session, c.rest[1..], Ready)],
         sessions := s.sessions[c.session := to.(queue := to.queue + [c.rest[0]], pushed := to.pushed + [c.rest[0]])])
    case Fail(k) =>
      var c := s.calls[k];
      var to := s.sessions[c.session];
      s.(calls := s.calls[k := Call(c.session, [], Ready)],
         sessions := s.sessions[c.session := to.(cancelled := true, available := to.available + PaidToSession(c))],
         available := s.available + PaidToServer(c))
    case Cancel(i) => s.(sessions := s.sessions[i := s.sessions[i].(cancelled := true)])
    case Next(i) =>
      var at := s.sessions[i];
      s.(sessions := s.sessions[i := at.(queue := at.queue[1..], writing := Some(at.queue[0]))])
    case Finish(i, outcome) =>
      var at := s.sessions[i];
      s.(sessions := s.sessions[i := Finished(at, outcome)], available := s.available + Cost(at.writing.value))
    case End(i) => s.(sessions := s.sessions[i := s.sessions[i].(ended := true)])
    case Supersede(i) => s.(sessions := s.sessions[i := s.sessions[i].(superseded := true, cancelled := true)])
    case Turn(i) =>
      s.(sessions := s.sessions[i := s.sessions[i].(parting := if s.sessions[i].superseded then Explaining else Leaving(false))])
    case Explain(i, taken) =>
      s.(sessions := s.sessions[i := Offers(s.sessions[i], taken, Notice).(parting := Leaving(taken))])
    case Leave(i, taken) =>
      s.(sessions := s.sessions[i := Offers(s.sessions[i], taken, Goodbye).(parting := Gone(s.sessions[i].parting.notice, taken))])
    case Discard(i) =>
      var at := s.sessions[i];
      s.(sessions := s.sessions[i := at.(queue := [], dropped := true, available := at.available + Total(at.queue))],
         available := s.available + Total(at.queue))
  }

  // ---------------------------------------------------------------------------------------------
  // Where the bytes are.

  function PaidToSession(c: Call): nat {
    if c.rest == [] || c.stage == Ready then 0 else Cost(c.rest[0])
  }

  function PaidToServer(c: Call): nat {
    if c.rest == [] || c.stage != PaidBoth then 0 else Cost(c.rest[0])
  }

  function Total(frames: seq<Frame>): nat {
    if frames == [] then 0 else Cost(frames[0]) + Total(frames[1..])
  }

  /** The bytes of the frames that wait in a session or are being written. */
  function Load(at: Session): nat {
    Total(at.queue) + if at.writing.Some? then Cost(at.writing.value) else 0
  }

  function SessionShare(c: Call, i: nat): nat {
    if c.session == i then PaidToSession(c) else 0
  }

  function PaidTo(calls: seq<Call>, i: nat): nat {
    if calls == [] then 0 else PaidTo(calls[..|calls| - 1], i) + SessionShare(calls[|calls| - 1], i)
  }

  function AllPaid(calls: seq<Call>): nat {
    if calls == [] then 0 else AllPaid(calls[..|calls| - 1]) + PaidToServer(calls[|calls| - 1])
  }

  function AllLoad(sessions: seq<Session>): nat {
    if sessions == [] then 0 else AllLoad(sessions[..|sessions| - 1]) + Load(sessions[|sessions| - 1])
  }

  lemma {:induction false} TotalMore(frames: seq<Frame>, f: Frame)
    ensures Total(frames + [f]) == Total(frames) + Cost(f)
    decreases |frames|
  {
    if frames == [] {
      assert (frames + [f])[1..] == [];
    } else {
      TotalMore(frames[1..], f);
      assert (frames + [f])[1..] == frames[1..] + [f];
    }
  }

  lemma {:induction false} PaidToUpdates(calls: seq<Call>, k: nat, c: Call, i: nat)
    requires k < |calls|
    ensures PaidTo(calls[k := c], i) == PaidTo(calls, i) - SessionShare(calls[k], i) + SessionShare(c, i)
    decreases |calls|
  {
    var last := |calls| - 1;
    if k == last {
      assert calls[k := c][..last] == calls[..last];
    } else {
      assert calls[k := c][..last] == calls[..last][k := c];
      PaidToUpdates(calls[..last], k, c, i);
    }
  }

  lemma {:induction false} AllPaidUpdates(calls: seq<Call>, k: nat, c: Call)
    requires k < |calls|
    ensures AllPaid(calls[k := c]) == AllPaid(calls) - PaidToServer(calls[k]) + PaidToServer(c)
    decreases |calls|
  {
    var last := |calls| - 1;
    if k == last {
      assert calls[k := c][..last] == calls[..last];
    } else {
      assert calls[k := c][..last] == calls[..last][k := c];
      AllPaidUpdates(calls[..last], k, c);
    }
  }

  lemma {:induction false} AllLoadUpdates(sessions: seq<Session>, i: nat, at: Session)
    requires i < |sessions|
    ensures AllLoad(sessions[i := at]) == AllLoad(sessions) - Load(sessions[i]) + Load(at)
    decreases |sessions|
  {
    var last := |sessions| - 1;
    if i == last {
      assert sessions[i := at][..last] == sessions[..last];
    } else {
      assert sessions[i := at][..last] == sessions[..last][i := at];
      AllLoadUpdates(sessions[..last], i, at);
    }
  }

  lemma CallAdded(calls: seq<Call>, c: Call)
    requires c.stage == Ready
    ensures AllPaid(calls + [c]) == AllPaid(calls)
    ensures forall i: nat :: PaidTo(calls + [c], i) == PaidTo(calls, i)
  {
    assert (calls + [c])[..|calls|] == calls;
  }

  lemma {:induction false} NothingPaid(calls: seq<Call>, i: nat)
    requires forall c <- calls :: c.session != i
    ensures PaidTo(calls, i) == 0
    decreases |calls|
  {
    if calls != [] {
      NothingPaid(calls[..|calls| - 1], i);
    }
  }

  // ---------------------------------------------------------------------------------------------
  // The invariant.

  /** Each byte of a session's budget is free, paid for a frame, or held by one. */
  predicate SessionBalances(s: State, i: nat)
    requires i < |s.sessions|
  {
    s.sessions[i].available + PaidTo(s.calls, i) + Load(s.sessions[i]) == SESSION_BYTES
  }

  ghost predicate Balances(s: State) {
    && (forall i {:trigger SessionBalances(s, i)} :: 0 <= i < |s.sessions| ==> SessionBalances(s, i))
    && s.available + AllPaid(s.calls) + AllLoad(s.sessions) == SERVER_BYTES
  }

  function InHand(at: Session): seq<Frame> {
    if at.writing.Some? then [at.writing.value] else []
  }

  /** The writer writes what was pushed, in order, until it stops; a close frame is the last it writes. */
  predicate InOrder(at: Session) {
    && (at.dropped ==> at.ended && at.queue == []) && (at.ended ==> at.cancelled && at.writing.None?)
    && |at.queue| <= MAX_QUEUED
    && at.written <= at.pushed
    && (!at.ended ==> at.written + InHand(at) + at.queue == at.pushed)
    && (Close in at.written ==> at.ended && Close !in at.written[..|at.written| - 1])
    && (Close in at.pushed ==> at.closing)
  }

  function Offered(frames: seq<Frame>): (offers: seq<Offer>)
    ensures |offers| == |frames| && forall i :: 0 <= i < |frames| ==> offers[i] == Queued(frames[i])
  {
    seq(|frames|, i requires 0 <= i < |frames| => Queued(frames[i]))
  }

  function Told(parting: Parting): bool {
    (parting.Leaving? || parting.Gone?) && parting.notice
  }

  /** What a writer that has stopped has added. */
  function Tail(parting: Parting): seq<Offer> {
    (if Told(parting) then [Notice] else []) + (if parting.Gone? && parting.goodbye then [Goodbye] else [])
  }

  /** How many of the frames ever pushed the websocket has taken. */
  function Taken(at: Session): nat {
    |at.written| + if at.cut then 1 else 0
  }

  /** The websocket was offered what was pushed, in order, and then what the writer adds. */
  predicate OffersInOrder(at: Session) {
    && Taken(at) <= |at.pushed|
    && at.offered == Offered(at.pushed[..Taken(at)]) + Tail(at.parting)
    && (at.cut || at.parting != Serving ==> at.ended) && (at.cut ==> Close !in at.written)
    && (at.parting == Explaining || Told(at.parting) ==> at.superseded)
  }

  /** Only a call of a session that is closing has a close frame to send, and only what fits is paid for. */
  ghost predicate Inv(s: State) {
    && Balances(s)
    && (forall i {:trigger s.sessions[i]} :: 0 <= i < |s.sessions| ==> InOrder(s.sessions[i]) && OffersInOrder(s.sessions[i]))
    && (forall k {:trigger s.calls[k]} :: 0 <= k < |s.calls| ==>
          && s.calls[k].session < |s.sessions|
          && (Close in s.calls[k].rest ==> s.sessions[s.calls[k].session].closing)
          && (s.calls[k].rest != [] && s.calls[k].stage != Ready ==> Admissible(s.calls[k].rest[0])))
  }

  /** One call moves on and one session with it; the bytes add up for that session and for the server. */
  lemma MovesBalance(s: State, next: State, k: nat, c: Call, i: nat, at: Session)
    requires Balances(s) && k < |s.calls| && i < |s.sessions| && s.calls[k].session == i == c.session
    requires next == State(s.sessions[i := at], s.calls[k := c], next.available)
    requires at.available + PaidToSession(c) + Load(at) == s.sessions[i].available + PaidToSession(s.calls[k]) + Load(s.sessions[i])
    requires next.available + PaidToServer(c) + Load(at) == s.available + PaidToServer(s.calls[k]) + Load(s.sessions[i])
    ensures Balances(next)
  {
    hide PaidTo, AllPaid, AllLoad, Load, PaidToSession, PaidToServer;
    AllPaidUpdates(s.calls, k, c);
    AllLoadUpdates(s.sessions, i, at);
    forall j {:trigger SessionBalances(next, j)} | 0 <= j < |next.sessions|
      ensures SessionBalances(next, j)
    {
      assert SessionBalances(s, j);
      PaidToUpdates(s.calls, k, c, j);
    }
  }

  /** One session changes by itself. */
  lemma ChangeBalances(s: State, next: State, i: nat, at: Session)
    requires Balances(s) && i < |s.sessions|
    requires next == s.(sessions := s.sessions[i := at], available := next.available)
    requires at.available + Load(at) == s.sessions[i].available + Load(s.sessions[i])
    requires next.available + Load(at) == s.available + Load(s.sessions[i])
    ensures Balances(next)
  {
    hide PaidTo, AllPaid, AllLoad, Load;
    AllLoadUpdates(s.sessions, i, at);
    forall j {:trigger SessionBalances(next, j)} | 0 <= j < |next.sessions|
      ensures SessionBalances(next, j)
    {
      assert SessionBalances(s, j);
    }
  }

  lemma ConnectBalances(s: State)
    requires Inv(s)
    ensures Balances(Apply(s, Connect))
  {
    hide PaidTo, AllPaid, InOrder;
    var next := Apply(s, Connect);
    assert next.sessions[..|s.sessions|] == s.sessions;
    NothingPaid(s.calls, |s.sessions|);
    forall j {:trigger SessionBalances(next, j)} | 0 <= j < |next.sessions|
      ensures SessionBalances(next, j)
    {
      if j < |s.sessions| {
        assert SessionBalances(s, j);
      }
    }
  }

  lemma CallBalances(s: State, next: State, c: Call)
    requires Balances(s) && c.stage == Ready && next == s.(calls := s.calls + [c])
    ensures Balances(next)
  {
    hide PaidTo, AllPaid, AllLoad, Load;
    CallAdded(s.calls, c);
    forall j {:trigger SessionBalances(next, j)} | 0 <= j < |next.sessions|
      ensures SessionBalances(next, j)
    {
      assert SessionBalances(s, j);
    }
  }

  /** Bytes only move between the budgets, the calls and the frames. */
  lemma StepBalances(s: State, step: Step)
    requires Inv(s) && Enabled(s, step)
    ensures Balances(Apply(s, step))
  {
    hide PaidTo, AllPaid, AllLoad, Balances, InOrder;
    var next := Apply(s, step);
    match step
    case Connect => ConnectBalances(s);
    case Emit(i, id, size) => CallBalances(s, next, Call(i, [Text(id, size)], Ready));
    case CloseAfter(i, messages) =>
      var closed := s.(sessions := s.sessions[i := s.sessions[i].(closing := true)]);
      ChangeBalances(s, closed, i, s.sessions[i].(closing := true));
      CallBalances(closed, next, Call(i, messages + [Close], Ready));
    case PaySession(_) => CallStepBalances(s, step, step.call);
    case PayServer(_) => CallStepBalances(s, step, step.call);
    case Push(_) => CallStepBalances(s, step, step.call);
    case Fail(_) => CallStepBalances(s, step, step.call);
    case _ => WriterBalances(s, step, step.session);
  }

  lemma CallStepBalances(s: State, step: Step, k: nat)
    requires Inv(s) && Enabled(s, step) && (step.PaySession? || step.PayServer? || step.Push? || step.Fail?) && step.call == k
    ensures Balances(Apply(s, step))
  {
    hide PaidTo, AllPaid, AllLoad, Balances, InOrder, Total;
    var next := Apply(s, step);
    var i := s.calls[k].session;
    assert next.sessions == s.sessions[i := next.sessions[i]];
    TotalMore(s.sessions[i].queue, s.calls[k].rest[0]);
    MovesBalance(s, next, k, next.calls[k], i, next.sessions[i]);
  }

  lemma WriterBalances(s: State, step: Step, i: nat)
    requires Inv(s) && Enabled(s, step) && Serves(step) && step.session == i
    ensures Balances(Apply(s, step))
  {
    hide PaidTo, AllPaid, AllLoad, Balances, InOrder;
    ChangeBalances(s, Apply(s, step), i, Apply(s, step).sessions[i]);
  }

  lemma PushInOrder(at: Session, f: Frame)
    requires InOrder(at) && |at.queue| < MAX_QUEUED && !at.dropped && (f == Close ==> at.closing)
    ensures InOrder(at.(queue := at.queue + [f], pushed := at.pushed + [f]))
  {
    assert at.written <= at.pushed + [f];
    assert at.written + InHand(at) + (at.queue + [f]) == at.written + InHand(at) + at.queue + [f];
  }

  lemma NextInOrder(at: Session)
    requires InOrder(at) && !at.ended && at.writing.None? && at.queue != []
    ensures InOrder(at.(queue := at.queue[1..], writing := Some(at.queue[0])))
  {
    assert at.written + [] + at.queue == at.written + [at.queue[0]] + at.queue[1..];
  }

  lemma FinishInOrder(at: Session, outcome: Outcome)
    requires InOrder(at) && at.writing.Some?
    ensures InOrder(Finished(at, outcome))
  {
    var f := at.writing.value;
    assert at.written + [f] + at.queue == at.pushed;
    assert at.written + [f] <= at.pushed;
    assert (at.written + [f])[..|at.written|] == at.written;
    assert at.written + [f] + [] + at.queue == at.pushed;
  }

  lemma OffersOnly(at: Session, taken: bool, o: Offer)
    ensures Offers(at, taken, o) == at.(offered := Offers(at, taken, o).offered)
  {}

  predicate Serves(step: Step) {
    step.Cancel? || step.Next? || step.Finish? || step.End? || step.Discard? || step.Supersede? || step.Turn? || step.Explain? || step.Leave?
  }

  lemma WriterInOrder(s: State, step: Step)
    requires Inv(s) && Enabled(s, step) && Serves(step)
    ensures InOrder(Apply(s, step).sessions[step.session])
  {
    hide Balances, InOrder, Total, Finished, Offers, Cost, Tail, Taken, Offered;
    var at, next := s.sessions[step.session], Apply(s, step).sessions[step.session];
    match step
    case Next(_) => NextInOrder(at);
    case Finish(_, outcome) => FinishInOrder(at, outcome);
    case Explain(_, taken) =>
      OffersOnly(at, taken, Notice);
      QuietInOrder(at, next);
    case Leave(_, taken) =>
      OffersOnly(at, taken, Goodbye);
      QuietInOrder(at, next);
    case _ => QuietInOrder(at, next);
  }

  lemma CallInOrder(s: State, step: Step, i: nat)
    requires Inv(s) && Enabled(s, step) && !Serves(step) && i < |s.sessions|
    ensures InOrder(Apply(s, step).sessions[i])
  {
    hide Balances, InOrder, OffersInOrder, Total, Admissible, Cost;
    var next := Apply(s, step);
    if step.Push? && s.calls[step.call].session == i {
      var f := s.calls[step.call].rest[0];
      assert f in s.calls[step.call].rest;
      PushInOrder(s.sessions[i], f);
    } else {
      QuietInOrder(s.sessions[i], next.sessions[i]);
    }
  }

  lemma StepInOrder(s: State, step: Step, i: nat)
    requires Inv(s) && Enabled(s, step) && i < |Apply(s, step).sessions|
    ensures InOrder(Apply(s, step).sessions[i])
  {
    hide Balances, InOrder, OffersInOrder, Total, Finished, Offers;
    if Serves(step) {
      WriterInOrder(s, step);
    } else if step.Connect? && i == |s.sessions| {
      ConnectedInOrder();
    } else {
      CallInOrder(s, step, i);
    }
  }

  lemma ConnectedInOrder()
    ensures InOrder(CONNECTED)
  {}

  /** What a session's frames do not depend on. */
  lemma QuietInOrder(at: Session, next: Session)
    requires InOrder(at)
    requires next == at.(cancelled := next.cancelled, closing := next.closing, ended := next.ended, dropped := next.dropped,
                         available := next.available, queue := next.queue, superseded := next.superseded,
                         parting := next.parting, offered := next.offered)
    requires (at.cancelled ==> next.cancelled) && (at.closing ==> next.closing) && (at.ended ==> next.ended)
    requires next.ended && !at.ended ==> next.cancelled && at.writing.None?
    requires (next.dropped && next.ended && next.queue == []) || (next.dropped == at.dropped && next.queue == at.queue)
    ensures InOrder(next)
  {}

  lemma FinishOffers(at: Session, outcome: Outcome)
    requires InOrder(at) && OffersInOrder(at) && at.writing.Some?
    ensures OffersInOrder(Finished(at, outcome))
  {
    hide Cost;
    var f, next := at.writing.value, Finished(at, outcome);
    assert !at.ended && at.parting == Serving && !at.cut && Tail(at.parting) == [];
    assert at.pushed == at.written + [f] + at.queue;
    assert at.pushed[..|at.written| + 1] == at.written + [f];
    assert at.pushed[..|at.written|] == at.written;
    assert Offered(at.written + [f]) == Offered(at.written) + [Queued(f)];
    assert next.offered == Offered(next.pushed[..Taken(next)]) + [];
  }

  lemma Explained(at: Session, taken: bool)
    requires OffersInOrder(at) && at.parting == Explaining
    ensures OffersInOrder(Offers(at, taken, Notice).(parting := Leaving(taken)))
  {
    assert Tail(at.parting) == [];
    assert at.offered + [Notice] == Offered(at.pushed[..Taken(at)]) + ([Notice] + []);
  }

  lemma Left(at: Session, taken: bool)
    requires OffersInOrder(at) && at.parting.Leaving?
    ensures OffersInOrder(Offers(at, taken, Goodbye).(parting := Gone(at.parting.notice, taken)))
  {
    hide Offered;
    assert at.offered + [Goodbye] == Offered(at.pushed[..Taken(at)]) + (Tail(at.parting) + [Goodbye]);
  }

  lemma PushOffers(at: Session, f: Frame)
    requires OffersInOrder(at)
    ensures OffersInOrder(at.(queue := at.queue + [f], pushed := at.pushed + [f]))
  {
    assert (at.pushed + [f])[..Taken(at)] == at.pushed[..Taken(at)];
  }

  /** What the offers of a session do not depend on. */
  lemma QuietOffers(at: Session, next: Session)
    requires OffersInOrder(at) && (at.ended ==> next.ended) && (at.superseded ==> next.superseded)
    requires next.written == at.written && next.cut == at.cut && next.pushed == at.pushed && next.offered == at.offered
    requires next.parting == at.parting
             || (at.parting == Serving && next.ended && next.parting == (if at.superseded then Explaining else Leaving(false)))
    ensures OffersInOrder(next)
  {}

  lemma StepOffers(s: State, step: Step, i: nat)
    requires Inv(s) && Enabled(s, step) && i < |Apply(s, step).sessions|
    ensures OffersInOrder(Apply(s, step).sessions[i])
  {
    hide Balances, InOrder, OffersInOrder, Total, Finished, Offers, Cost, Admissible;
    var next := Apply(s, step);
    if step.Connect? && i == |s.sessions| {
      ConnectedOffers();
    } else {
      var at := s.sessions[i];
      assert InOrder(at) && OffersInOrder(at);
      match step
      case Push(k) =>
        if s.calls[k].session == i {
          PushOffers(at, s.calls[k].rest[0]);
          QuietOffers(at.(queue := at.queue + [s.calls[k].rest[0]], pushed := at.pushed + [s.calls[k].rest[0]]), next.sessions[i]);
        }
      case Finish(j, outcome) =>
        if j == i {
          FinishOffers(at, outcome);
        }
      case Explain(j, taken) =>
        if j == i {
          Explained(at, taken);
        }
      case Leave(j, taken) =>
        if j == i {
          Left(at, taken);
        }
      case _ => QuietOffers(at, next.sessions[i]);
    }
  }

  lemma ConnectedOffers()
    ensures OffersInOrder(CONNECTED)
  {}

  lemma StepKeepsInv(s: State, step: Step)
    requires Inv(s) && Enabled(s, step)
    ensures Inv(Apply(s, step))
  {
    hide Balances, InOrder, OffersInOrder;
    StepBalances(s, step);
    var next := Apply(s, step);
    forall i {:trigger next.sessions[i]} | 0 <= i < |next.sessions|
      ensures InOrder(next.sessions[i]) && OffersInOrder(next.sessions[i])
    {
      StepInOrder(s, step, i);
      StepOffers(s, step, i);
    }
  }

  // ---------------------------------------------------------------------------------------------
  // Runs.

  ghost predicate IsRun(states: seq<State>, steps: seq<Step>) {
    && |states| == |steps| + 1 && states[0] == INITIAL
    && (forall i {:trigger states[i]} :: 0 <= i < |steps| ==> Moves(states[i], steps[i], states[i + 1]))
  }

  predicate Moves(s: State, step: Step, next: State) {
    Enabled(s, step) && next == Apply(s, step)
  }

  lemma {:induction false} RunKeepsInv(states: seq<State>, steps: seq<Step>, i: nat)
    requires IsRun(states, steps) && i < |states|
    ensures Inv(states[i])
  {
    hide Inv, Apply, Enabled;
    if i == 0 {
      InitialFits();
    } else {
      RunKeepsInv(states, steps, i - 1);
      assert Moves(states[i - 1], steps[i - 1], states[i - 1 + 1]);
      StepKeepsInv(states[i - 1], steps[i - 1]);
    }
  }

  lemma InitialFits()
    ensures Inv(INITIAL)
  {}

  /** In every run each byte of both budgets is free, paid for a frame, or held by a frame on its way. */
  lemma EveryByteIsSomewhere(states: seq<State>, steps: seq<Step>, i: nat, j: nat)
    requires IsRun(states, steps) && i < |states| && j < |states[i].sessions|
    ensures states[i].sessions[j].available + PaidTo(states[i].calls, j) + Load(states[i].sessions[j]) == SESSION_BYTES
    ensures states[i].available + AllPaid(states[i].calls) + AllLoad(states[i].sessions) == SERVER_BYTES
  {
    hide IsRun, PaidTo, AllPaid, AllLoad, Load, InOrder;
    RunKeepsInv(states, steps, i);
    assert SessionBalances(states[i], j);
  }

  /** Whatever was cancelled or refused on the way, a session at rest has its whole budget again. */
  lemma RestingSessionIsWhole(states: seq<State>, steps: seq<Step>, i: nat, j: nat)
    requires IsRun(states, steps) && i < |states| && j < |states[i].sessions|
    requires states[i].sessions[j].queue == [] && states[i].sessions[j].writing.None?
    requires forall c <- states[i].calls :: c.session == j ==> c.rest == []
    ensures states[i].sessions[j].available == SESSION_BYTES
  {
    hide IsRun;
    EveryByteIsSomewhere(states, steps, i, j);
    NothingHeld(states[i].calls, j);
  }

  lemma {:induction false} NothingHeld(calls: seq<Call>, i: nat)
    requires forall c <- calls :: c.session == i ==> c.rest == []
    ensures PaidTo(calls, i) == 0
    decreases |calls|
  {
    if calls != [] {
      NothingHeld(calls[..|calls| - 1], i);
    }
  }

  /**
   In every run the websocket is offered a prefix of what was sent, all of it written but for at most
   the last frame, at which the writer stopped; and then at most the explanation, only for a session
   that was replaced, and at most one final close. A close frame of the queue is the last of the frames.
   */
  lemma OfferedInOrder(states: seq<State>, steps: seq<Step>, i: nat, j: nat)
    requires IsRun(states, steps) && i < |states| && j < |states[i].sessions|
    ensures var at := states[i].sessions[j];
            var n := Taken(at);
            && |at.written| <= n <= |at.written| + 1 && n <= |at.pushed| && at.written <= at.pushed[..n]
            && (n > |at.written| || at.parting != Serving ==> at.ended && at.cancelled)
            && at.offered == Offered(at.pushed[..n]) + Tail(at.parting)
            && (Told(at.parting) ==> at.superseded)
            && (Close in at.pushed[..n] ==> Close !in at.pushed[..n - 1])
  {
    hide IsRun, Balances, Offered, Tail;
    RunKeepsInv(states, steps, i);
    var at := states[i].sessions[j];
    var front := at.pushed[..Taken(at)];
    assert InOrder(at) && OffersInOrder(at);
    assert at.written == at.pushed[..|at.written|];
    if Close in front {
      assert at.cut ==> front[..|front| - 1] == at.written;
      assert !at.cut ==> front == at.written;
    }
  }

  predicate Closing(o: Offer) {
    o == Goodbye || o == Queued(Close)
  }

  /** What goes over the wire of all that is offered, if the websocket library sends nothing after a close. */
  function Received(offers: seq<Offer>): seq<Offer> {
    if offers == [] then []
    else if Closing(offers[0]) then [offers[0]]
    else [offers[0]] + Received(offers[1..])
  }

  lemma {:induction false} ReceivedFront(front: seq<Offer>, rest: seq<Offer>)
    requires forall o <- front :: !Closing(o)
    ensures Received(front + rest) == front + Received(rest)
    decreases |front|
  {
    if front == [] {
      assert front + rest == rest;
    } else {
      ReceivedFront(front[1..], rest);
      assert (front + rest)[1..] == front[1..] + rest;
    }
  }

  /**
   What a browser can see: frames that were sent, in order; after a close frame of the queue nothing,
   although the writer still tries to explain and to close; otherwise what the writer adds.
   */
  lemma BrowserSees(states: seq<State>, steps: seq<Step>, i: nat, j: nat)
    requires IsRun(states, steps) && i < |states| && j < |states[i].sessions|
    ensures Taken(states[i].sessions[j]) <= |states[i].sessions[j].pushed|
    ensures var at := states[i].sessions[j];
            var front := at.pushed[..Taken(at)];
            Received(at.offered) == Offered(front) + if Close in front then [] else Tail(at.parting)
  {
    hide IsRun, Received, Taken;
    OfferedInOrder(states, steps, i, j);
    var at := states[i].sessions[j];
    var front := at.pushed[..Taken(at)];
    if Close in front {
      var before := front[..|front| - 1];
      CloseIsLast(front);
      assert Offered(front) == Offered(before) + [Queued(Close)];
      assert at.offered == Offered(before) + ([Queued(Close)] + Tail(at.parting));
      ReceivedFront(Offered(before), [Queued(Close)] + Tail(at.parting));
      ReceivesClose(Tail(at.parting));
    } else {
      ReceivedFront(Offered(front), Tail(at.parting));
      ReceivesTail(at.parting);
    }
  }

  lemma CloseIsLast(frames: seq<Frame>)
    requires Close in frames && Close !in frames[..|frames| - 1]
    ensures frames == frames[..|frames| - 1] + [Close]
  {
    var m :| 0 <= m < |frames| && frames[m] == Close;
    InFront(frames, m);
  }

  lemma ReceivesClose(rest: seq<Offer>)
    ensures Received([Queued(Close)] + rest) == [Queued(Close)]
  {}

  lemma ReceivesTail(parting: Parting)
    ensures Received(Tail(parting)) == Tail(parting)
  {
    if Told(parting) {
      assert Tail(parting)[1..] == if parting.Gone? && parting.goodbye then [Goodbye] else [];
    }
  }

  lemma InFront(frames: seq<Frame>, m: nat)
    ensures m < |frames| - 1 ==> frames[m] in frames[..|frames| - 1]
  {
    if m < |frames| - 1 {
      assert frames[..|frames| - 1][m] == frames[m];
    }
  }

  // ---------------------------------------------------------------------------------------------
  // One task at a time.

  /** The sending side of one session, and the server's budget as it finds it. */
  class Outlet {
    var cancelled: bool
    var closing: bool
    var available: nat
    var serverAvailable: nat
    var outbound: seq<Frame>

    constructor (server: nat)
      ensures !cancelled && !closing && available == SESSION_BYTES && serverAvailable == server && outbound == []
    {
      cancelled, closing, available, serverAvailable, outbound := false, false, SESSION_BYTES, server, [];
    }

    /** Pays for one frame and queues it, or gives up the session and keeps nothing. */
    method Send(f: Frame) returns (sent: bool)
      modifies this
      ensures sent <==> Admissible(f) && Cost(f) <= old(available) && Cost(f) <= old(serverAvailable) && |old(outbound)| < MAX_QUEUED
      ensures sent ==> outbound == old(outbound) + [f] && cancelled == old(cancelled)
      ensures sent ==> available == old(available) - Cost(f) && serverAvailable == old(serverAvailable) - Cost(f)
      ensures !sent ==> cancelled && outbound == old(outbound) && available == old(available) && serverAvailable == old(serverAvailable)
      ensures closing == old(closing)
    {
      if !Admissible(f) || Cost(f) > available {
        cancelled := true;
        return false;
      }
      available := available - Cost(f);
      if Cost(f) > serverAvailable {
        cancelled, available := true, available + Cost(f);
        return false;
      }
      serverAvailable := serverAvailable - Cost(f);
      if |outbound| >= MAX_QUEUED {
        cancelled, available, serverAvailable := true, available + Cost(f), serverAvailable + Cost(f);
        return false;
      }
      outbound := outbound + [f];
      sent := true;
    }

    /** Sends one text; whoever is gone or being closed gets nothing, and whoever is too slow is given up. */
    method EmitText(id: int, size: nat, healthy: bool)
      modifies this
      ensures old(cancelled) || !healthy ==> cancelled
      ensures (old(cancelled) || !healthy || old(closing)) ==> outbound == old(outbound) && available == old(available)
      ensures closing == old(closing)
      ensures !cancelled && !old(closing) ==> outbound == old(outbound) + [Text(id, size)]
      ensures !old(cancelled) && healthy && !old(closing) ==>
                (cancelled <==> size > MAX_MESSAGE_BYTES || size > old(available) || size > old(serverAvailable) || |old(outbound)| >= MAX_QUEUED)
      ensures cancelled ==> outbound == old(outbound)
    {
      if cancelled || !healthy {
        cancelled := true;
        return;
      }
      if closing {
        return;
      }
      var _ := Send(Text(id, size));
    }

    /** Says goodbye: all of the messages and the close frame, or the session is given up. */
    method SayGoodbye(messages: seq<Frame>, healthy: bool) returns (receipt: bool)
      modifies this
      ensures receipt <==>
                && !old(cancelled) && healthy && !old(closing)
                && (forall m <- messages :: Admissible(m))
                && |old(outbound)| + |messages| < MAX_QUEUED
                && Total(messages) < old(available) && Total(messages) < old(serverAvailable)
      ensures receipt ==>
                && closing && !cancelled && outbound == old(outbound) + messages + [Close]
                && available == old(available) - Total(messages) - 1
                && serverAvailable == old(serverAvailable) - Total(messages) - 1
      ensures !receipt && !old(closing) ==> cancelled
      ensures old(outbound) <= outbound <= old(outbound) + messages + [Close]
    {
      if cancelled || !healthy {
        cancelled := true;
        return false;
      }
      if closing {
        return false;
      }
      closing := true;
      var i := 0;
      while i < |messages|
        invariant i <= |messages| && closing && !cancelled
        invariant outbound == old(outbound) + messages[..i] && |outbound| <= |old(outbound)| + i
        invariant i > 0 ==> |outbound| <= MAX_QUEUED
        invariant available == old(available) - Total(messages[..i])
        invariant serverAvailable == old(serverAvailable) - Total(messages[..i])
        invariant forall k :: 0 <= k < i ==> Admissible(messages[k])
      {
        assert messages[..i + 1] == messages[..i] + [messages[i]];
        TotalMore(messages[..i], messages[i]);
        TotalGrows(messages, i + 1);
        var sent := Send(messages[i]);
        if !sent {
          return false;
        }
        i := i + 1;
      }
      assert messages[..i] == messages;
      receipt := Send(Close);
    }
  }

  lemma {:induction false} TotalGrows(frames: seq<Frame>, k: nat)
    requires k <= |frames|
    ensures Total(frames[..k]) <= Total(frames)
    decreases |frames|
  {
    if k > 0 {
      assert frames[..k][1..] == frames[1..][..k - 1];
      TotalGrows(frames[1..], k - 1);
    }
  }
}
