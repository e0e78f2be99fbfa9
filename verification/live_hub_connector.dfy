/** `HtLiveHubUpstreamConnector`: one upstream socket per room, with reconnects, as a machine over its callbacks. */
module LiveHubConnector {
  import opened Wrappers

  type Socket = nat

  /** What `handleFrame` distinguishes in a frame. `untyped`: it has an event object without a `notify_type`. */
  datatype Frame = HeartbeatSec(sec: int) | HeartbeatResponse | Other(hasMsgId: bool, untyped: bool)

  datatype Session = Session(heartbeatSec: int, connected: bool)

  /** `HeartbeatPump`: whether a periodic heartbeat is scheduled, and whether the scheduler was shut down. */
  datatype Pump = Idle | Running | Shut

  /**
   * What the runtime still owes the connector: the first connect attempt, retry attempts, retry timers, and the
   * sockets whose closing callback is to come. `lost`: the first attempt failed or a socket ended in an error,
   * and nothing is left that would reconnect.
   */
  datatype Runtime = Runtime(
    connects: nat, firstAttempt: bool, retries: nat, timers: nat,
    unclosed: set<Socket>, nextSocket: Socket, lost: bool)

  /**
   * What the connector did: the sockets sends were queued on and close frames sent on, the events "connected" and
   * "error" given out, the calls of the disconnect listener, the resets of the sender, and for each retry the
   * backoff attempt its delay was drawn for.
   */
  datatype Outputs = Outputs(
    sent: seq<Socket>, closing: seq<Socket>,
    announcements: nat, errors: nat, disconnects: nat, senderResets: nat, delays: seq<nat>)

  datatype State = State(
    session: Option<Session>,
    intentionalClose: bool,
    lifecycleClosed: bool,
    announcedConnected: bool,
    ws: Option<Socket>,
    pump: Pump,
    attempt: nat,
    runtime: Runtime,
    outputs: Outputs)

  const INITIAL: State :=
    State(None, false, false, false, None, Idle, 0, Runtime(0, false, 0, 0, {}, 0, false), Outputs([], [], 0, 0, 0, 0, []))

  datatype Step =
    | Connect
    | AttemptSucceeds
    | AttemptFails
    | TimerFires
    | HeartbeatTicks
    | SocketCloses(socket: Socket)
    | SocketErrs(socket: Socket)
    | FrameArrives(socket: Socket, frame: Frame)
    | Close

  predicate AttemptPending(r: Runtime) { r.firstAttempt || r.retries > 0 }

  /** Which callbacks the runtime can make; `Connect` is called once, as `RoomEventSource` does. */
  predicate Enabled(s: State, step: Step) {
    match step
    case Connect => s.runtime.connects == 0
    case AttemptSucceeds => AttemptPending(s.runtime)
    case AttemptFails => AttemptPending(s.runtime)
    case TimerFires => s.runtime.timers > 0
    case HeartbeatTicks => s.pump.Running?
    case SocketCloses(x) => x in s.runtime.unclosed
    case SocketErrs(x) => x in s.runtime.unclosed
    case FrameArrives(x, _) => x in s.runtime.unclosed
    case Close => true
  }

  // ---- The callbacks as functions of the state

  predicate Connected(session: Option<Session>) { session.Some? && session.value.connected }

  function WithConnected(session: Option<Session>, connected: bool): Option<Session> {
    if session.None? then None else Some(session.value.(connected := connected))
  }

  function AttemptTaken(r: Runtime): Runtime
    requires AttemptPending(r)
  {
    if r.firstAttempt then r.(firstAttempt := false) else r.(retries := r.retries - 1)
  }

  function SocketOpened(r: Runtime): Runtime {
    r.(unclosed := r.unclosed + {r.nextSocket}, nextSocket := r.nextSocket + 1)
  }

  function AfterSend(s: State): State {
    if s.ws.None? || !Connected(s.session) then s
    else s.(outputs := s.outputs.(sent := s.outputs.sent + [s.ws.value]))
  }

  /** `reconnectInBackground`: a delay is drawn for the next backoff attempt, unless the connector was closed. */
  function AfterRetry(s: State): State {
    if s.intentionalClose then s
    else s.(attempt := s.attempt + 1,
            runtime := s.runtime.(timers := s.runtime.timers + 1),
            outputs := s.outputs.(delays := s.outputs.delays + [s.attempt]))
  }

  function AfterConnect(s: State): State {
    s.(session := Some(Session(60, false)), intentionalClose := false, announcedConnected := false,
       lifecycleClosed := false, attempt := 0,
       runtime := s.runtime.(firstAttempt := true, connects := s.runtime.connects + 1))
  }

  /** A socket that opens after `close` is closed at once and never recorded. */
  function AfterAttemptSuccess(s: State): State
    requires AttemptPending(s.runtime)
  {
    var sock := s.runtime.nextSocket;
    var t := s.(runtime := SocketOpened(AttemptTaken(s.runtime)));
    if s.intentionalClose then t.(pump := Shut, outputs := s.outputs.(closing := s.outputs.closing + [sock]))
    else AfterSend(t.(ws := Some(sock), session := WithConnected(s.session, true), attempt := 0))
  }

  /** Only a retry schedules another one; the first failure is the caller's. */
  function AfterAttemptFailure(s: State): State
    requires AttemptPending(s.runtime)
  {
    var r := AttemptTaken(s.runtime);
    if s.runtime.firstAttempt then s.(runtime := r.(lost := true)) else AfterRetry(s.(runtime := r))
  }

  function AfterTimer(s: State): State
    requires s.runtime.timers > 0
  {
    var r := s.runtime.(timers := s.runtime.timers - 1);
    s.(runtime := if s.intentionalClose then r else r.(retries := r.retries + 1))
  }

  function AfterSocketClose(s: State, x: Socket): State {
    var t := s.(session := WithConnected(s.session, false), pump := if s.pump.Shut? then Shut else Idle,
                runtime := s.runtime.(unclosed := s.runtime.unclosed - {x}));
    if s.intentionalClose then t.(outputs := s.outputs.(disconnects := s.outputs.disconnects + 1)) else AfterRetry(t)
  }

  /** An error is a socket's last callback, and the connector only reports it. */
  function AfterSocketError(s: State, x: Socket): State {
    s.(runtime := s.runtime.(unclosed := s.runtime.unclosed - {x}, lost := true),
       outputs := s.outputs.(errors := s.outputs.errors + 1))
  }

  /** Scheduling the heartbeat on a pump that was shut down throws before anything is announced. */
  function AfterFrame(s: State, f: Frame): State {
    match f
    case HeartbeatSec(sec) =>
      var t := AfterSend(if s.session.None? then s else s.(session := Some(s.session.value.(heartbeatSec := sec))));
      if s.pump.Shut? then t
      else if s.announcedConnected then t.(pump := Running)
      else t.(pump := Running, announcedConnected := true,
              outputs := t.outputs.(announcements := t.outputs.announcements + 1))
    case HeartbeatResponse => s
    case Other(hasMsgId, _) => if hasMsgId then AfterSend(s) else s
  }

  /** The pump refuses a schedule once shut down; the room mapper dereferences the missing type, after any acknowledgement. */
  predicate Throws(s: State, f: Frame) {
    (f.HeartbeatSec? && s.pump.Shut?) || (f.Other? && f.untyped)
  }

  function AfterClose(s: State): State {
    var t := s.(intentionalClose := true, lifecycleClosed := true);
    if s.session.None? then t
    else t.(session := WithConnected(s.session, false), pump := Shut,
            outputs := s.outputs.(senderResets := s.outputs.senderResets + 1,
                                  closing := s.outputs.closing + if s.ws.Some? then [s.ws.value] else []))
  }

  function Next(s: State, step: Step): State
    requires Enabled(s, step)
  {
    match step
    case Connect => AfterConnect(s)
    case AttemptSucceeds => AfterAttemptSuccess(s)
    case AttemptFails => AfterAttemptFailure(s)
    case TimerFires => AfterTimer(s)
    case HeartbeatTicks => AfterSend(s)
    case SocketCloses(x) => AfterSocketClose(s, x)
    case SocketErrs(x) => AfterSocketError(s, x)
    case FrameArrives(_, f) => AfterFrame(s, f)
    case Close => AfterClose(s)
  }

  // ---- The invariant

  /** The things of which at most one may exist: a retry timer, a connect attempt, an unclosed socket. */
  function Tokens(r: Runtime): nat {
    r.timers + (if r.firstAttempt then 1 else 0) + r.retries + |r.unclosed|
  }

  predicate Closed(s: State) { s.runtime.connects > 0 && s.intentionalClose }

  /** Each delay is drawn for the attempt after the previous one's, or for the first one after a reset. */
  predicate Climbs(delays: seq<nat>, next: nat) {
    && (forall i :: 0 <= i < |delays| ==> delays[i] == 0 || (i > 0 && delays[i] == delays[i - 1] + 1))
    && (next == 0 || (delays != [] && next == delays[|delays| - 1] + 1))
  }

  /** Which of timer, attempt and socket there is, and what the session makes of it. */
  ghost predicate TokensMatch(s: State) {
    var r := s.runtime;
    && r.connects <= 1
    && (s.session.Some? <==> r.connects == 1)
    && s.intentionalClose == s.lifecycleClosed
    && Tokens(r) <= 1
    && (r.connects == 0 ==> Tokens(r) == 0 && !r.lost)
    && (r.connects == 1 && !s.intentionalClose ==> (Tokens(r) == 1 <==> !r.lost))
    && (Connected(s.session) ==> !s.intentionalClose && s.ws.Some? && !AttemptPending(r) && r.timers == 0)
    && (!s.intentionalClose && r.unclosed != {} ==> Connected(s.session) && r.unclosed == {s.ws.value})
  }

  ghost predicate Inv(s: State) {
    && TokensMatch(s)
    && (s.pump.Shut? <==> Closed(s))
    && (s.pump.Running? ==> Connected(s.session))
    && s.outputs.announcements == (if s.announcedConnected then 1 else 0)
    && (s.runtime.connects == 0 ==> !s.announcedConnected)
    && (s.outputs.disconnects > 0 ==> Closed(s))
    && (Closed(s) ==> forall x :: x in s.runtime.unclosed ==> x in s.outputs.closing)
    && Climbs(s.outputs.delays, s.attempt)
  }

  lemma OneElement(a: set<Socket>, x: Socket)
    requires x in a && |a| <= 1
    ensures a == {x} && a - {x} == {}
  {
    var rest := a - {x};
    assert |rest| == |a| - 1;
    assert a == rest + {x};
  }

  lemma SuccessKeepsInv(s: State)
    requires Inv(s) && AttemptPending(s.runtime)
    ensures Inv(AfterAttemptSuccess(s))
  {
    assert s.runtime.unclosed == {};
    assert AfterAttemptSuccess(s).runtime.unclosed == {s.runtime.nextSocket};
  }

  lemma SocketEndKeepsInv(s: State, x: Socket)
    requires Inv(s) && x in s.runtime.unclosed
    ensures Inv(AfterSocketClose(s, x)) && Inv(AfterSocketError(s, x))
  {
    OneElement(s.runtime.unclosed, x);
  }

  lemma StepKeepsInv(s: State, step: Step)
    requires Inv(s) && Enabled(s, step)
    ensures Inv(Next(s, step))
  {
    match step {
      case AttemptSucceeds =>
        SuccessKeepsInv(s);
      case SocketCloses(x) =>
        SocketEndKeepsInv(s, x);
      case SocketErrs(x) =>
        SocketEndKeepsInv(s, x);
      case _ =>
    }
  }

  // ---- Runs

  ghost predicate IsRun(s: State, steps: seq<Step>, t: State)
    decreases steps
  {
    if steps == [] then s == t
    else Enabled(s, steps[0]) && IsRun(Next(s, steps[0]), steps[1..], t)
  }

  lemma {:induction false} RunKeepsInv(s: State, steps: seq<Step>, t: State)
    requires Inv(s) && IsRun(s, steps, t)
    ensures Inv(t)
    decreases steps
  {
    if steps != [] {
      StepKeepsInv(s, steps[0]);
      RunKeepsInv(Next(s, steps[0]), steps[1..], t);
    }
  }

  /**
   * In every state reached from one `connect`: never two of {timer, attempt, socket}; while the connector is
   * open, exactly one unless the first attempt failed or a socket erred; both close flags agree; the session counts
   * as connected only on a live socket; and retries are delayed by the backoff's bounds in turn, from the first one
   * again after each socket that opened.
   */
  lemma ConnectorIsSingle(steps: seq<Step>, t: State)
    requires IsRun(INITIAL, steps, t)
    ensures Tokens(t.runtime) <= 1
    ensures t.runtime.connects == 1 && !t.intentionalClose ==> (Tokens(t.runtime) == 1 <==> !t.runtime.lost)
    ensures t.intentionalClose == t.lifecycleClosed
    ensures Connected(t.session) ==> !t.intentionalClose && t.ws.Some?
    ensures Connected(t.session) && !t.runtime.lost ==> t.runtime.unclosed == {t.ws.value}
    ensures Climbs(t.outputs.delays, t.attempt)
  {
    RunKeepsInv(INITIAL, steps, t);
    if Connected(t.session) && !t.runtime.lost {
      assert t.runtime.unclosed != {};
    }
  }

  /** Every heartbeat tick queues one send on the current socket: the pump never runs without a connected session. */
  lemma EveryTickSends(steps: seq<Step>, t: State)
    requires IsRun(INITIAL, steps, t) && Enabled(t, HeartbeatTicks)
    ensures t.ws.Some? && Next(t, HeartbeatTicks).outputs.sent == t.outputs.sent + [t.ws.value]
  {
    RunKeepsInv(INITIAL, steps, t);
  }

  /**
   * In every run an exception leaves the handling of a frame exactly when it is a heartbeat interval that arrives after
   * `close`, or it has an event object without a type, at any time.
   */
  lemma FrameThrows(steps: seq<Step>, t: State, f: Frame)
    requires IsRun(INITIAL, steps, t)
    ensures Throws(t, f) <==> (f.HeartbeatSec? && Closed(t)) || (f.Other? && f.untyped)
  {
    RunKeepsInv(INITIAL, steps, t);
  }

  /** The disconnect listener is called only once the connector has been closed. */
  lemma DisconnectsFollowClose(steps: seq<Step>, t: State)
    requires IsRun(INITIAL, steps, t) && t.outputs.disconnects > 0
    ensures Closed(t)
  {
    RunKeepsInv(INITIAL, steps, t);
  }

  /** No socket is leaked: after `close` every one still to end has been sent a close frame, late ones included. */
  lemma EverySocketIsClosed(steps: seq<Step>, t: State, x: Socket)
    requires IsRun(INITIAL, steps, t) && Closed(t) && x in t.runtime.unclosed
    ensures x in t.outputs.closing
  {
    RunKeepsInv(INITIAL, steps, t);
  }

  /** After `close` nothing comes back: no connected session, no new timer or attempt, no send, no announcement. */
  lemma {:induction false} ClosedForGood(s: State, steps: seq<Step>, t: State)
    requires Inv(s) && Closed(s) && IsRun(s, steps, t)
    ensures Closed(t) && !Connected(t.session)
    ensures t.runtime.timers <= s.runtime.timers && t.runtime.retries <= s.runtime.retries
    ensures t.outputs.sent == s.outputs.sent && t.outputs.announcements == s.outputs.announcements
    decreases steps
  {
    if steps != [] {
      StepKeepsInv(s, steps[0]);
      ClosedForGood(Next(s, steps[0]), steps[1..], t);
    }
  }

  /** What is left after `close` drains: every runtime callback brings the end strictly nearer. */
  function Remaining(r: Runtime): nat {
    (if r.firstAttempt then 2 else 0) + 2 * r.retries + r.timers + |r.unclosed|
  }

  lemma ClosedDrains(s: State, step: Step)
    requires Inv(s) && Closed(s) && Enabled(s, step)
    requires step.AttemptSucceeds? || step.AttemptFails? || step.TimerFires? || step.SocketCloses? || step.SocketErrs?
    ensures Remaining(Next(s, step).runtime) < Remaining(s.runtime)
  {
    match step {
      case SocketCloses(x) =>
        OneElement(s.runtime.unclosed, x);
      case SocketErrs(x) =>
        OneElement(s.runtime.unclosed, x);
      case AttemptSucceeds =>
        assert s.runtime.unclosed == {};
        assert Next(s, step).runtime.unclosed == {s.runtime.nextSocket};
      case _ =>
    }
  }

  /** A socket error strands the connector: it still counts as connected, with nothing left that would reconnect. */
  lemma ErrorStrands(s: State, x: Socket)
    requires Inv(s) && Connected(s.session) && x in s.runtime.unclosed
    ensures var t := Next(s, SocketErrs(x)); Connected(t.session) && Tokens(t.runtime) == 0 && t.pump == s.pump
  {
    OneElement(s.runtime.unclosed, x);
  }

  lemma {:induction false} StrandedForGood(s: State, steps: seq<Step>, t: State)
    requires Inv(s) && s.runtime.connects == 1 && Tokens(s.runtime) == 0 && IsRun(s, steps, t)
    ensures Tokens(t.runtime) == 0 && t.runtime.nextSocket == s.runtime.nextSocket
    decreases steps
  {
    if steps != [] {
      assert s.runtime.unclosed == {};
      StepKeepsInv(s, steps[0]);
      StrandedForGood(Next(s, steps[0]), steps[1..], t);
    }
  }

  /**
   * In every run, one frame with an untyped event strands an open connector: the listener that threw gets the socket's
   * error, after which the session counts as connected and no run from there opens another socket.
   */
  lemma UntypedFrameStrands(steps: seq<Step>, t: State, x: Socket, hasMsgId: bool, later: seq<Step>, u: State)
    requires IsRun(INITIAL, steps, t) && !Closed(t) && x in t.runtime.unclosed
    requires IsRun(Next(Next(t, FrameArrives(x, Other(hasMsgId, true))), SocketErrs(x)), later, u)
    ensures Throws(t, Other(hasMsgId, true))
    ensures Connected(Next(Next(t, FrameArrives(x, Other(hasMsgId, true))), SocketErrs(x)).session)
    ensures Tokens(u.runtime) == 0 && u.runtime.nextSocket == t.runtime.nextSocket
  {
    var f := FrameArrives(x, Other(hasMsgId, true));
    RunKeepsInv(INITIAL, steps, t);
    StepKeepsInv(t, f);
    ErrorStrands(Next(t, f), x);
    StepKeepsInv(Next(t, f), SocketErrs(x));
    StrandedForGood(Next(Next(t, f), SocketErrs(x)), later, u);
  }

  // ---- When "connected" is announced

  predicate IsInterval(step: Step) { step.FrameArrives? && step.frame.HeartbeatSec? }

  /** Whether a heartbeat interval arrived, on whichever socket. */
  ghost predicate HeardInterval(steps: seq<Step>) {
    exists k :: 0 <= k < |steps| && IsInterval(steps[k])
  }

  lemma HeardIntervalSplits(steps: seq<Step>)
    requires steps != []
    ensures HeardInterval(steps) <==> IsInterval(steps[0]) || HeardInterval(steps[1..])
  {
    if k :| 0 <= k < |steps| && IsInterval(steps[k]) && k > 0 {
      assert steps[1..][k - 1] == steps[k];
    }
    if k :| 0 <= k < |steps[1..]| && IsInterval(steps[1..][k]) {
      assert steps[k + 1] == steps[1..][k];
    }
  }

  lemma {:induction false} AnnouncedWhenHeard(s: State, steps: seq<Step>, t: State)
    requires Inv(s) && IsRun(s, steps, t) && !Closed(t)
    ensures t.announcedConnected <==> s.announcedConnected || HeardInterval(steps)
    decreases steps
  {
    if steps != [] {
      if Closed(s) {
        ClosedForGood(s, steps, t);
      }
      StepKeepsInv(s, steps[0]);
      AnnouncedWhenHeard(Next(s, steps[0]), steps[1..], t);
      HeardIntervalSplits(steps);
    }
  }

  /**
   * In every run from one `connect`, a heartbeat interval is announced as "connected" exactly when the connector is
   * not closed and no interval arrived before, on this socket or an earlier one.
   */
  lemma FirstIntervalIsAnnounced(steps: seq<Step>, t: State, x: Socket, sec: int)
    requires IsRun(INITIAL, steps, t) && x in t.runtime.unclosed
    ensures Next(t, FrameArrives(x, HeartbeatSec(sec))).outputs.announcements
         == t.outputs.announcements + if !Closed(t) && !HeardInterval(steps) then 1 else 0
  {
    RunKeepsInv(INITIAL, steps, t);
    if !Closed(t) {
      AnnouncedWhenHeard(INITIAL, steps, t);
    }
  }

  lemma FirstStep(s: State, step: Step, steps: seq<Step>, t: State)
    requires Enabled(s, step) && IsRun(Next(s, step), steps, t)
    ensures IsRun(s, [step] + steps, t)
  {
    assert ([step] + steps)[1..] == steps;
  }

  lemma OneMoreStep(s: State, steps: seq<Step>, t: State, step: Step)
    requires IsRun(s, steps, t) && Enabled(t, step)
    ensures IsRun(s, steps + [step], Next(t, step))
    decreases steps
  {
    if steps == [] {
      assert IsRun(Next(s, step), [], Next(t, step));
      FirstStep(s, step, [], Next(t, step));
      assert steps + [step] == [step] + [];
    } else {
      OneMoreStep(Next(s, steps[0]), steps[1..], t, step);
      FirstStep(s, steps[0], steps[1..] + [step], Next(t, step));
      assert steps + [step] == [steps[0]] + (steps[1..] + [step]);
    }
  }

  const RETRY: seq<Step> := [SocketCloses(0), TimerFires, AttemptSucceeds]

  /** A first socket that closed before any interval: the interval on the retry's socket is announced. */
  lemma RetryIsAnnounced() returns (t: State)
    ensures IsRun(INITIAL, [Connect, AttemptSucceeds] + RETRY + [FrameArrives(1, HeartbeatSec(60))], t)
    ensures t.runtime.unclosed == {1} && t.outputs.announcements == 1
  {
    var s0 := Next(Next(INITIAL, Connect), AttemptSucceeds);
    t := Retried(s0);
    var run := [Connect] + ([AttemptSucceeds] + RETRY);
    FirstStep(Next(INITIAL, Connect), AttemptSucceeds, RETRY, t);
    FirstStep(INITIAL, Connect, [AttemptSucceeds] + RETRY, t);
    OneMoreStep(INITIAL, run, t, FrameArrives(1, HeartbeatSec(60)));
    assert run + [FrameArrives(1, HeartbeatSec(60))] == [Connect, AttemptSucceeds] + RETRY + [FrameArrives(1, HeartbeatSec(60))];
    t := Next(t, FrameArrives(1, HeartbeatSec(60)));
  }

  /** A first socket that was announced: its announcement stays the only one when the retry's socket gets an interval. */
  lemma RetryIsNotAnnounced() returns (t: State)
    ensures IsRun(INITIAL, [Connect, AttemptSucceeds, FrameArrives(0, HeartbeatSec(60))] + RETRY
                           + [FrameArrives(1, HeartbeatSec(60))], t)
    ensures t.runtime.unclosed == {1} && Connected(t.session) && t.outputs.announcements == 1
  {
    var first := FrameArrives(0, HeartbeatSec(60));
    var s0 := Next(Next(INITIAL, Connect), AttemptSucceeds);
    t := Retried(Next(s0, first));
    var run := [Connect] + ([AttemptSucceeds] + ([first] + RETRY));
    FirstStep(s0, first, RETRY, t);
    FirstStep(Next(INITIAL, Connect), AttemptSucceeds, [first] + RETRY, t);
    FirstStep(INITIAL, Connect, [AttemptSucceeds] + ([first] + RETRY), t);
    OneMoreStep(INITIAL, run, t, FrameArrives(1, HeartbeatSec(60)));
    assert run + [FrameArrives(1, HeartbeatSec(60))]
        == [Connect, AttemptSucceeds, first] + RETRY + [FrameArrives(1, HeartbeatSec(60))];
    t := Next(t, FrameArrives(1, HeartbeatSec(60)));
  }

  /** Socket 0 closes and the retry opens socket 1. */
  lemma Retried(s: State) returns (t: State)
    requires !s.intentionalClose && s.session.Some? && !s.runtime.firstAttempt
    requires s.runtime.retries == s.runtime.timers == 0 && s.runtime.unclosed == {0} && s.runtime.nextSocket == 1
    ensures IsRun(s, RETRY, t)
    ensures t.runtime.unclosed == {1} && Connected(t.session) && !t.intentionalClose && t.pump == (if s.pump.Shut? then Shut else Idle)
    ensures t.announcedConnected == s.announcedConnected && t.outputs.announcements == s.outputs.announcements
  {
    var s1 := Next(s, SocketCloses(0));
    var s2 := Next(s1, TimerFires);
    t := Next(s2, AttemptSucceeds);
    assert IsRun(t, [], t);
    FirstStep(s2, AttemptSucceeds, [], t);
    FirstStep(s1, TimerFires, [AttemptSucceeds], t);
    FirstStep(s, SocketCloses(0), [TimerFires, AttemptSucceeds], t);
  }

  // ---- The class

  class Connector {
    var session: Option<Session>
    var intentionalClose: bool
    var lifecycleClosed: bool
    var announcedConnected: bool
    var ws: Option<Socket>
    var pump: Pump
    var attempt: nat
    var runtime: Runtime
    var outputs: Outputs

    function View(): State
      reads this
    {
      State(session, intentionalClose, lifecycleClosed, announcedConnected, ws, pump, attempt, runtime, outputs)
    }

    constructor ()
      ensures View() == INITIAL && Inv(View())
    {
      session, intentionalClose, lifecycleClosed, announcedConnected := None, false, false, false;
      ws, pump, attempt := None, Idle, 0;
      runtime := Runtime(0, false, 0, 0, {}, 0, false);
      outputs := Outputs([], [], 0, 0, 0, 0, []);
    }

    method Connect()
      requires Enabled(View(), Step.Connect)
      modifies this
      ensures View() == AfterConnect(old(View()))
    {
      session := Some(Session(60, false));
      intentionalClose := false;
      announcedConnected := false;
      lifecycleClosed := false;
      attempt := 0;
      runtime := runtime.(firstAttempt := true, connects := runtime.connects + 1);
    }

    method Send()
      modifies this`outputs
      ensures View() == AfterSend(old(View()))
    {
      if ws.None? || !Connected(session) {
        return;
      }
      outputs := outputs.(sent := outputs.sent + [ws.value]);
    }

    method ReconnectInBackground()
      modifies this`runtime, this`attempt, this`outputs
      ensures View() == AfterRetry(old(View()))
    {
      if intentionalClose {
        return;
      }
      outputs := outputs.(delays := outputs.delays + [attempt]);
      attempt := attempt + 1;
      runtime := runtime.(timers := runtime.timers + 1);
    }

    method OnAttemptSuccess()
      requires Enabled(View(), AttemptSucceeds)
      modifies this
      ensures View() == AfterAttemptSuccess(old(View()))
    {
      var sock := runtime.nextSocket;
      runtime := SocketOpened(AttemptTaken(runtime));
      if intentionalClose {
        outputs := outputs.(closing := outputs.closing + [sock]);
        pump := Shut;
        return;
      }
      ws := Some(sock);
      session := WithConnected(session, true);
      attempt := 0;
      Send();
    }

    method OnAttemptFailure()
      requires Enabled(View(), AttemptFails)
      modifies this
      ensures View() == AfterAttemptFailure(old(View()))
    {
      var first := runtime.firstAttempt;
      runtime := AttemptTaken(runtime);
      if first {
        runtime := runtime.(lost := true);
      } else {
        ReconnectInBackground();
      }
    }

    method OnTimer()
      requires Enabled(View(), TimerFires)
      modifies this
      ensures View() == AfterTimer(old(View()))
    {
      runtime := runtime.(timers := runtime.timers - 1);
      if intentionalClose {
        return;
      }
      runtime := runtime.(retries := runtime.retries + 1);
    }

    /** The periodic ping of the heartbeat pump. */
    method SendHeartbeat()
      modifies this`outputs
      ensures View() == AfterSend(old(View()))
    {
      if Connected(session) {
        Send();
      }
    }

    /** `HeartbeatPump.stop`: a scheduler that was shut down stays so. */
    method StopPump()
      modifies this`pump
      ensures pump == if old(pump).Shut? then Shut else Idle
    {
      if pump.Running? {
        pump := Idle;
      }
    }

    method OnClose(x: Socket)
      requires Enabled(View(), SocketCloses(x))
      modifies this
      ensures View() == AfterSocketClose(old(View()), x)
    {
      runtime := runtime.(unclosed := runtime.unclosed - {x});
      session := WithConnected(session, false);
      StopPump();
      if intentionalClose {
        outputs := outputs.(disconnects := outputs.disconnects + 1);
      } else {
        ReconnectInBackground();
      }
    }

    method OnError(x: Socket)
      requires Enabled(View(), SocketErrs(x))
      modifies this
      ensures View() == AfterSocketError(old(View()), x)
    {
      runtime := runtime.(unclosed := runtime.unclosed - {x}, lost := true);
      outputs := outputs.(errors := outputs.errors + 1);
    }

    method HandleFrame(x: Socket, f: Frame) returns (threw: bool)
      requires Enabled(View(), FrameArrives(x, f))
      modifies this
      ensures View() == AfterFrame(old(View()), f)
      ensures threw == Throws(old(View()), f)
    {
      match f {
        case HeartbeatSec(sec) =>
          if session.Some? {
            session := Some(session.value.(heartbeatSec := sec));
          }
          SendHeartbeat();
          if pump.Shut? {
            return true;
          }
          pump := Running;
          if !announcedConnected {
            announcedConnected := true;
            outputs := outputs.(announcements := outputs.announcements + 1);
          }
        case HeartbeatResponse =>
        case Other(hasMsgId, untyped) =>
          if hasMsgId {
            Send();
          }
          if untyped {
            return true;
          }
      }
      threw := false;
    }

    method Close()
      modifies this
      ensures View() == AfterClose(old(View()))
    {
      intentionalClose := true;
      lifecycleClosed := true;
      if session.None? {
        return;
      }
      session := WithConnected(session, false);
      pump := Shut;
      outputs := outputs.(senderResets := outputs.senderResets + 1);
      if ws.Some? {
        outputs := outputs.(closing := outputs.closing + [ws.value]);
      }
    }
  }
}
