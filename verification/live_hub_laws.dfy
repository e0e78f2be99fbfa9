/** What the LiveHub connector does at each step of a run: its sends, its retries and its heartbeat. */
module LiveHubLaws {
  import opened Wrappers
  import opened LiveHubConnector

  // ---- Retries

  /** The steps after which an open connector has to try again. */
  predicate LosesUpstream(s: State, step: Step) {
    !s.intentionalClose && (step.SocketCloses? || (step.AttemptFails? && !s.runtime.firstAttempt))
  }

  /** The steps that start the backoff over. */
  predicate StartsOver(s: State, step: Step) {
    step.Connect? || (step.AttemptSucceeds? && !s.intentionalClose)
  }

  /** How often the upstream was lost since the backoff last started over, `n` times before the steps. */
  ghost function Losses(s: State, steps: seq<Step>, n: nat): nat
    decreases steps
  {
    if steps == [] || !Enabled(s, steps[0]) then n
    else
      Losses(Next(s, steps[0]), steps[1..],
             if StartsOver(s, steps[0]) then 0 else if LosesUpstream(s, steps[0]) then n + 1 else n)
  }

  lemma {:induction false} AttemptIsLosses(s: State, steps: seq<Step>, t: State)
    requires IsRun(s, steps, t)
    ensures t.attempt == Losses(s, steps, s.attempt)
    decreases steps
  {
    if steps != [] {
      AttemptIsLosses(Next(s, steps[0]), steps[1..], t);
    }
  }

  /**
   * In every run a retry is scheduled exactly when an open connector loses its upstream, once, and its delay is drawn
   * for the number of losses since `connect` or the last socket that opened.
   */
  lemma DelaysCountLosses(steps: seq<Step>, t: State, step: Step)
    requires IsRun(INITIAL, steps, t) && Enabled(t, step)
    ensures
      var u := Next(t, step);
      var lost := LosesUpstream(t, step);
      && u.outputs.delays == t.outputs.delays + (if lost then [Losses(INITIAL, steps, 0)] else [])
      && u.runtime.timers == t.runtime.timers + (if lost then 1 else 0) - (if step.TimerFires? then 1 else 0)
  {
    AttemptIsLosses(INITIAL, steps, t);
    assert t.outputs.delays + [] == t.outputs.delays;
  }

  /** An open connector whose first socket was greeted and closed, `delays` having been drawn since. */
  function Lost(delays: seq<nat>, retries: nat, timers: nat): State {
    State(Some(Session(60, false)), false, false, false, Some(0), Idle, |delays|,
          Runtime(1, false, retries, timers, {}, 1, false), Outputs([0], [], 0, 0, 0, 0, delays))
  }

  lemma SecondLossIsCounted()
    ensures IsRun(Lost([0], 0, 1), [TimerFires, AttemptFails], Lost([0, 1], 0, 1))
  {
    var s := Next(Lost([0], 0, 1), TimerFires);
    assert Next(s, AttemptFails) == Lost([0, 1], 0, 1);
    hide Next;
    FirstStep(s, AttemptFails, [], Lost([0, 1], 0, 1));
    FirstStep(Lost([0], 0, 1), TimerFires, [AttemptFails], Lost([0, 1], 0, 1));
  }

  /** Two losses in a row: the first delay is drawn for attempt 0, the second for attempt 1. */
  lemma SecondDelayGrows()
    ensures IsRun(INITIAL, [Connect, AttemptSucceeds, SocketCloses(0), TimerFires, AttemptFails], Lost([0, 1], 0, 1))
    ensures Lost([0, 1], 0, 1).outputs.delays == [0, 1]
  {
    var s1 := Next(INITIAL, Connect);
    var s2 := Next(s1, AttemptSucceeds);
    var t := Lost([0, 1], 0, 1);
    assert s2.runtime.unclosed == {0};
    assert Next(s2, SocketCloses(0)) == Lost([0], 0, 1);
    hide Next;
    SecondLossIsCounted();
    FirstStep(s2, SocketCloses(0), [TimerFires, AttemptFails], t);
    FirstStep(s1, AttemptSucceeds, [SocketCloses(0), TimerFires, AttemptFails], t);
    FirstStep(INITIAL, Connect, [AttemptSucceeds, SocketCloses(0), TimerFires, AttemptFails], t);
  }

  // ---- Sends and the heartbeat

  /** In every run a socket that opens on an open connector becomes the current one and is sent the first frame. */
  lemma SocketIsGreeted(steps: seq<Step>, t: State)
    requires IsRun(INITIAL, steps, t) && Enabled(t, AttemptSucceeds) && !t.intentionalClose
    ensures
      var u, x := Next(t, AttemptSucceeds), t.runtime.nextSocket;
      && u.ws == Some(x) && x in u.runtime.unclosed && Connected(u.session)
      && u.outputs.sent == t.outputs.sent + [x]
  {
    RunKeepsInv(INITIAL, steps, t);
  }

  /**
   * In every run an open connector answers on the socket a frame came from: a heartbeat interval with a heartbeat, from
   * then on periodic and at that interval, and a message id with an acknowledgement. Nothing else is sent for a frame.
   */
  lemma FrameIsAnswered(steps: seq<Step>, t: State, x: Socket, f: Frame)
    requires IsRun(INITIAL, steps, t) && !Closed(t) && x in t.runtime.unclosed
    ensures
      var u := Next(t, FrameArrives(x, f));
      && u.outputs.sent == t.outputs.sent + (if f.HeartbeatSec? || (f.Other? && f.hasMsgId) then [x] else [])
      && (if f.HeartbeatSec? then u.pump == Running && u.session.Some? && u.session.value.heartbeatSec == f.sec
          else u.pump == t.pump && u.session == t.session)
  {
    RunKeepsInv(INITIAL, steps, t);
    assert t.runtime.unclosed == {t.ws.value};
    assert t.outputs.sent + [] == t.outputs.sent;
  }

  /** In every run, losing the socket ends the session and the heartbeat, and only an error is reported as one. */
  lemma LossEndsSession(steps: seq<Step>, t: State, x: Socket)
    requires IsRun(INITIAL, steps, t) && x in t.runtime.unclosed
    ensures var u := Next(t, SocketCloses(x)); !Connected(u.session) && !u.pump.Running? && u.outputs.errors == t.outputs.errors
    ensures Next(t, SocketCloses(x)).outputs.disconnects == t.outputs.disconnects + if Closed(t) then 1 else 0
    ensures Next(t, SocketErrs(x)).outputs.errors == t.outputs.errors + 1
  {
    RunKeepsInv(INITIAL, steps, t);
  }

  /** In every run, closing a connected connector resets the sender and sends the close frame on the current socket. */
  lemma CloseIsComplete(steps: seq<Step>, t: State)
    requires IsRun(INITIAL, steps, t) && Connected(t.session)
    ensures
      var u := Next(t, Step.Close);
      && Closed(u) && u.lifecycleClosed && u.pump.Shut? && !Connected(u.session)
      && u.outputs.senderResets == t.outputs.senderResets + 1
      && t.ws.Some? && u.outputs.closing == t.outputs.closing + [t.ws.value]
  {
    RunKeepsInv(INITIAL, steps, t);
  }
}
