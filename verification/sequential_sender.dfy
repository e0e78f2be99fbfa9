/** `SequentialSender`: sends serialised by a chain of futures. */
module SequentialSender {
  import opened Wrappers

  /** What `sendOp.get()` answers: a future still running, or one already finished (a throw is a failure). */
  datatype Begin = Running | Finished(ok: bool)

  datatype Op = Op(id: nat, begin: Begin)

  datatype Status = Waiting | InFlight | Done(ok: bool)

  /** One link of the chain. `prev` is the future it was chained to, `None` for an already completed one. */
  datatype Stage = Stage(prev: Option<nat>, op: Op, status: Status, epoch: nat)

  /** `Failed` is one call of that send's `onError`. */
  datatype Event = Started(stage: nat) | Failed(stage: nat)

  /** `epoch` counts the resets so far; stages of earlier epochs may still be running. */
  datatype State = State(stages: seq<Stage>, chain: Option<nat>, log: seq<Event>, epoch: nat)

  const INITIAL: State := State([], None, [], 0)

  // ---- The chain

  predicate LinkedAt(stages: seq<Stage>, i: nat)
    requires i < |stages|
  {
    && stages[i].prev == (if i > 0 && stages[i - 1].epoch == stages[i].epoch then Some(i - 1) else None)
    && (i > 0 ==> stages[i - 1].epoch <= stages[i].epoch)
  }

  /** Chaining only ever to the newest future makes each epoch a contiguous list. */
  predicate Linked(s: State) {
    && (forall i :: 0 <= i < |s.stages| ==> LinkedAt(s.stages, i))
    && (s.stages != [] ==> s.stages[|s.stages| - 1].epoch <= s.epoch)
    && s.chain == (if s.stages != [] && s.stages[|s.stages| - 1].epoch == s.epoch then Some(|s.stages| - 1) else None)
  }

  /** The stage whose start waits for stage `i`. */
  function Dependent(s: State, i: nat): (r: Option<nat>)
    ensures r.Some? ==> i < r.value < |s.stages| && s.stages[r.value].prev == Some(i)
  {
    if i + 1 < |s.stages| && s.stages[i + 1].prev == Some(i) then Some(i + 1) else None
  }

  /** No other stage names `i` as its predecessor. */
  lemma DependentIsTheOnly(s: State, i: nat, j: nat)
    requires Linked(s) && j < |s.stages| && s.stages[j].prev == Some(i)
    ensures Dependent(s, i) == Some(j)
  {
    assert LinkedAt(s.stages, j);
  }

  function Mark(s: State, i: nat, status: Status): (r: State)
    requires i < |s.stages|
    ensures Linked(s) ==> Linked(r)
    ensures |r.stages| == |s.stages|
  {
    var r := s.(stages := s.stages[i := s.stages[i].(status := status)]);
    assert forall k :: 0 <= k < |s.stages| && LinkedAt(s.stages, k) ==> LinkedAt(r.stages, k);
    r
  }

  function Log(s: State, e: Event): State { s.(log := s.log + [e]) }

  /** Stage `j`'s predecessor has completed: `handle` and `thenCompose` call its send. */
  function AfterStart(s: State, j: nat): (r: State)
    requires Linked(s) && j < |s.stages|
    ensures Linked(r) && |r.stages| == |s.stages|
    decreases |s.stages| - j, 1
  {
    var s1 := Mark(Log(s, Started(j)), j, InFlight);
    match s.stages[j].op.begin
    case Running => s1
    case Finished(ok) => AfterComplete(s1, j, ok)
  }

  /** Stage `i`'s send has finished: `exceptionally` reports a failure, then the dependent stage starts. */
  function AfterComplete(s: State, i: nat, ok: bool): (r: State)
    requires Linked(s) && i < |s.stages|
    ensures Linked(r) && |r.stages| == |s.stages|
    decreases |s.stages| - i, 0
  {
    var s1 := Mark(if ok then s else Log(s, Failed(i)), i, Done(ok));
    match Dependent(s1, i)
    case None => s1
    case Some(j) => AfterStart(s1, j)
  }

  function Append(s: State, op: Op): (r: State)
    requires Linked(s)
    ensures Linked(r)
  {
    var stages := s.stages + [Stage(s.chain, op, Waiting, s.epoch)];
    assert forall k :: 0 <= k < |s.stages| && LinkedAt(s.stages, k) ==> LinkedAt(stages, k);
    State(stages, Some(|s.stages|), s.log, s.epoch)
  }

  /** A stage chained to a completed future starts at once. */
  function AfterEnqueue(s: State, op: Op): (r: State)
    requires Linked(s)
    ensures Linked(r)
  {
    if s.chain.None? || s.stages[s.chain.value].status.Done? then AfterStart(Append(s, op), |s.stages|)
    else Append(s, op)
  }

  function AfterReset(s: State): State {
    s.(chain := None, epoch := s.epoch + 1)
  }

  /** What the start of stage `i` does by itself: the send begins, and may finish at once. */
  function Begun(s: State, i: nat): (r: State)
    requires Linked(s) && i < |s.stages|
    ensures Linked(r) && |r.stages| == |s.stages|
  {
    var s1 := Mark(Log(s, Started(i)), i, InFlight);
    match s.stages[i].op.begin
    case Running => s1
    case Finished(ok) => Mark(if ok then s1 else Log(s1, Failed(i)), i, Done(ok))
  }

  function Following(s: State, i: nat): (r: Option<nat>)
    requires Linked(s) && i < |s.stages|
    ensures r.Some? ==> i < r.value < |s.stages|
  {
    if s.stages[i].op.begin.Running? then None else Dependent(Begun(s, i), i)
  }

  lemma StartUnrolls(s: State, i: nat)
    requires Linked(s) && i < |s.stages|
    ensures AfterStart(s, i) ==
      var next := Following(s, i);
      if next.Some? then AfterStart(Begun(s, i), next.value) else Begun(s, i)
  {
  }

  // ---- The methods

  class Sender {
    var stages: seq<Stage>
    var chain: Option<nat>
    var log: seq<Event>
    var epoch: nat

    function View(): State
      reads this
    {
      State(stages, chain, log, epoch)
    }

    constructor ()
      ensures View() == INITIAL
    {
      stages, chain, log, epoch := [], None, [], 0;
    }

    method Enqueue(op: Op)
      requires Linked(View())
      modifies this
      ensures View() == AfterEnqueue(old(View()), op)
    {
      var startNow := chain.None? || stages[chain.value].status.Done?;
      stages := stages + [Stage(chain, op, Waiting, epoch)];
      chain := Some(|stages| - 1);
      assert View() == Append(old(View()), op);
      if startNow {
        Fire(|stages| - 1);
      }
    }

    method Reset()
      modifies this
      ensures View() == AfterReset(old(View()))
    {
      chain := None;
      epoch := epoch + 1;
    }

    /** The socket completes the send of a stage that is in flight. */
    method OnCompletion(i: nat, ok: bool)
      requires Linked(View()) && i < |stages|
      modifies this
      ensures View() == AfterComplete(old(View()), i, ok)
    {
      if !ok {
        log := log + [Failed(i)];
      }
      stages := stages[i := stages[i].(status := Done(ok))];
      assert View() == Mark(if ok then old(View()) else Log(old(View()), Failed(i)), i, Done(ok));
      var next := Dependent(View(), i);
      if next.Some? {
        Fire(next.value);
      }
    }

    /** Starts stage `j`; sends that finish at once let the stages behind them start in the same call. */
    method Fire(j: nat)
      requires Linked(View()) && j < |stages|
      modifies this
      ensures View() == AfterStart(old(View()), j)
    {
      hide AfterStart, Linked;
      var current := Some(j);
      while current.Some?
        invariant Linked(View())
        invariant current.Some? ==> 0 <= current.value < |stages|
        invariant AfterStart(old(View()), j) == if current.Some? then AfterStart(View(), current.value) else View()
        decreases if current.Some? then |stages| - current.value else -1
      {
        var i := current.value;
        ghost var before := View();
        StartUnrolls(before, i);
        log := log + [Started(i)];
        stages := stages[i := stages[i].(status := InFlight)];
        current := None;
        if stages[i].op.begin.Finished? {
          var ok := stages[i].op.begin.ok;
          if !ok {
            log := log + [Failed(i)];
          }
          stages := stages[i := stages[i].(status := Done(ok))];
          assert View() == Begun(before, i);
          current := Dependent(View(), i);
        }
        assert View() == Begun(before, i) && current == Following(before, i);
      }
    }
  }

  // ---- What every step keeps

  /** A stage waits exactly while the stage before it in its epoch is not done. */
  predicate FlowsAt(s: State, i: nat)
    requires i < |s.stages|
  {
    s.stages[i].status.Waiting? <==>
    i > 0 && s.stages[i - 1].epoch == s.stages[i].epoch && !s.stages[i - 1].status.Done?
  }

  predicate Flows(s: State) {
    forall i :: 0 <= i < |s.stages| ==> FlowsAt(s, i)
  }

  /** The events of one stage, in the order they happened. */
  function StageLog(s: State, i: nat): seq<Event>
    requires i < |s.stages|
  {
    match s.stages[i].status
    case Waiting => []
    case InFlight => [Started(i)]
    case Done(ok) => if ok then [Started(i)] else [Started(i), Failed(i)]
  }

  /** The log the first `n` stages of an epoch should have produced: stage by stage, in enqueue order. */
  function ExpectedLog(s: State, epoch: nat, n: nat): seq<Event>
    requires n <= |s.stages|
  {
    if n == 0 then []
    else ExpectedLog(s, epoch, n - 1) + if s.stages[n - 1].epoch == epoch then StageLog(s, n - 1) else []
  }

  function InEpoch(stages: seq<Stage>, log: seq<Event>, epoch: nat): seq<Event> {
    if log == [] then []
    else
      var last := log[|log| - 1];
      InEpoch(stages, log[..|log| - 1], epoch)
      + if last.stage < |stages| && stages[last.stage].epoch == epoch then [last] else []
  }

  /** In every epoch, what happened is exactly what the stages' states say should have. */
  ghost predicate Logged(s: State) {
    && (forall k :: 0 <= k < |s.log| ==> s.log[k].stage < |s.stages|)
    && (forall epoch: nat :: InEpoch(s.stages, s.log, epoch) == ExpectedLog(s, epoch, |s.stages|))
  }

  ghost predicate Inv(s: State) {
    Linked(s) && Flows(s) && Logged(s)
  }

  lemma {:induction false} EpochsUnchanged(a: seq<Stage>, b: seq<Stage>, log: seq<Event>, epoch: nat)
    requires |a| <= |b| && forall i :: 0 <= i < |a| ==> a[i].epoch == b[i].epoch
    requires forall k :: 0 <= k < |log| ==> log[k].stage < |a|
    ensures InEpoch(a, log, epoch) == InEpoch(b, log, epoch)
  {
    if log != [] {
      EpochsUnchanged(a, b, log[..|log| - 1], epoch);
    }
  }

  lemma {:induction false} LaterStagesWait(s: State, j: nat, m: nat)
    requires Linked(s) && j < m < |s.stages| && s.stages[j].epoch == s.stages[m].epoch
    requires !s.stages[j].status.Done?
    requires forall i :: j < i < |s.stages| ==> FlowsAt(s, i)
    ensures s.stages[m].status.Waiting?
  {
    assert FlowsAt(s, m);
    if m > j + 1 {
      EpochsAreSorted(s, j, m - 1);
      EpochsAreSorted(s, m - 1, m);
      LaterStagesWait(s, j, m - 1);
    }
  }

  lemma {:induction false} EpochsAreSorted(s: State, i: nat, j: nat)
    requires Linked(s) && i <= j < |s.stages|
    ensures s.stages[i].epoch <= s.stages[j].epoch
  {
    if i < j {
      EpochsAreSorted(s, i, j - 1);
      assert LinkedAt(s.stages, j);
    }
  }

  /** One more event of stage `j` lands at the end of its epoch's expected log. */
  lemma {:induction false} ExpectedLogGrows(s: State, t: State, j: nat, e: Event, epoch: nat, n: nat)
    requires j < |s.stages| && n <= |s.stages|
    requires |t.stages| == |s.stages|
    requires t.stages == s.stages[j := s.stages[j].(status := t.stages[j].status)]
    requires StageLog(t, j) == StageLog(s, j) + [e]
    requires forall m :: j < m < |s.stages| && s.stages[m].epoch == s.stages[j].epoch ==> s.stages[m].status.Waiting?
    ensures ExpectedLog(t, epoch, n) ==
            ExpectedLog(s, epoch, n) + if j < n && s.stages[j].epoch == epoch then [e] else []
  {
    if n > 0 {
      ExpectedLogGrows(s, t, j, e, epoch, n - 1);
      if n - 1 != j {
        assert StageLog(t, n - 1) == StageLog(s, n - 1);
      }
    }
  }

  lemma LogKept(s: State, t: State, j: nat, status: Status, e: Event)
    requires Linked(s) && Logged(s) && j < |s.stages| && e.stage == j
    requires t == Mark(Log(s, e), j, status)
    requires StageLog(t, j) == StageLog(s, j) + [e]
    requires !s.stages[j].status.Done?
    requires forall i :: j < i < |s.stages| ==> FlowsAt(s, i)
    ensures Logged(t)
  {
    forall m | j < m < |s.stages| && s.stages[m].epoch == s.stages[j].epoch
      ensures s.stages[m].status.Waiting?
    {
      LaterStagesWait(s, j, m);
    }
    forall epoch: nat
      ensures InEpoch(t.stages, t.log, epoch) == ExpectedLog(t, epoch, |t.stages|)
    {
      ExpectedLogGrows(s, t, j, e, epoch, |s.stages|);
      EpochsUnchanged(s.stages, t.stages, s.log, epoch);
      assert t.log[..|t.log| - 1] == s.log;
    }
  }

  /** Marking a send that succeeded changes no stage's log. */
  lemma {:induction false} ExpectedLogSame(s: State, t: State, epoch: nat, n: nat)
    requires n <= |s.stages| <= |t.stages|
    requires forall i :: 0 <= i < n ==> s.stages[i].epoch == t.stages[i].epoch && StageLog(s, i) == StageLog(t, i)
    ensures ExpectedLog(s, epoch, n) == ExpectedLog(t, epoch, n)
  {
    if n > 0 {
      ExpectedLogSame(s, t, epoch, n - 1);
    }
  }

  lemma {:induction false} StartKeeps(s: State, j: nat)
    requires Linked(s) && Logged(s) && j < |s.stages|
    requires s.stages[j].status.Waiting?
    requires j > 0 && s.stages[j - 1].epoch == s.stages[j].epoch ==> s.stages[j - 1].status.Done?
    requires forall i :: 0 <= i < |s.stages| && i != j ==> FlowsAt(s, i)
    ensures Inv(AfterStart(s, j))
    decreases |s.stages| - j, 1
  {
    var s1 := Mark(Log(s, Started(j)), j, InFlight);
    assert StageLog(s1, j) == StageLog(s, j) + [Started(j)];
    LogKept(s, s1, j, InFlight, Started(j));
    forall i | 0 <= i < |s1.stages|
      ensures FlowsAt(s1, i)
    {
      assert i != j ==> FlowsAt(s, i);
    }
    if s.stages[j].op.begin.Finished? {
      CompleteKeeps(s1, j, s.stages[j].op.begin.ok);
    }
  }

  lemma {:induction false} CompleteKeeps(s: State, i: nat, ok: bool)
    requires Inv(s) && i < |s.stages| && s.stages[i].status.InFlight?
    ensures Inv(AfterComplete(s, i, ok))
    decreases |s.stages| - i, 0
  {
    var s1 := Mark(if ok then s else Log(s, Failed(i)), i, Done(ok));
    if ok {
      forall epoch: nat
        ensures InEpoch(s1.stages, s1.log, epoch) == ExpectedLog(s1, epoch, |s1.stages|)
      {
        ExpectedLogSame(s, s1, epoch, |s.stages|);
        EpochsUnchanged(s.stages, s1.stages, s.log, epoch);
      }
    } else {
      assert StageLog(s1, i) == StageLog(s, i) + [Failed(i)];
      LogKept(s, s1, i, Done(ok), Failed(i));
    }
    forall k | 0 <= k < |s1.stages| && (k != i + 1 || Dependent(s1, i).None?)
      ensures FlowsAt(s1, k)
    {
      assert FlowsAt(s, k) && LinkedAt(s1.stages, k);
    }
    if Dependent(s1, i).Some? {
      assert FlowsAt(s, i + 1) && LinkedAt(s1.stages, i + 1);
      StartKeeps(s1, i + 1);
    }
  }

  lemma EnqueueKeeps(s: State, op: Op)
    requires Inv(s)
    ensures Inv(AfterEnqueue(s, op))
  {
    var n := |s.stages|;
    var s1 := Append(s, op);
    forall epoch: nat
      ensures InEpoch(s1.stages, s1.log, epoch) == ExpectedLog(s1, epoch, n + 1)
    {
      ExpectedLogSame(s, s1, epoch, n);
      EpochsUnchanged(s.stages, s1.stages, s.log, epoch);
    }
    forall k | 0 <= k < n
      ensures FlowsAt(s1, k)
    {
      assert FlowsAt(s, k);
    }
    if s.chain.None? || s.stages[s.chain.value].status.Done? {
      StartKeeps(s1, n);
    }
  }

  // ---- Runs

  datatype Step = Enqueued(op: Op) | Completed(stage: nat, ok: bool) | WasReset

  /** A completion reaches only a stage whose send is in flight. */
  function Next(s: State, step: Step): (r: State)
    requires Linked(s)
    ensures Linked(r)
  {
    match step
    case Enqueued(op) => AfterEnqueue(s, op)
    case Completed(i, ok) => if i < |s.stages| && s.stages[i].status.InFlight? then AfterComplete(s, i, ok) else s
    case WasReset => AfterReset(s)
  }

  function Run(steps: seq<Step>): (r: State)
    ensures Linked(r)
  {
    if steps == [] then INITIAL else Next(Run(steps[..|steps| - 1]), steps[|steps| - 1])
  }

  lemma {:induction false} RunKeepsInv(steps: seq<Step>)
    ensures Inv(Run(steps))
  {
    if steps != [] {
      var s, step := Run(steps[..|steps| - 1]), steps[|steps| - 1];
      RunKeepsInv(steps[..|steps| - 1]);
      match step {
        case Enqueued(op) => EnqueueKeeps(s, op);
        case Completed(i, ok) =>
          if i < |s.stages| && s.stages[i].status.InFlight? {
            CompleteKeeps(s, i, ok);
          }
        case WasReset =>
          var t := AfterReset(s);
          forall epoch: nat
            ensures InEpoch(t.stages, t.log, epoch) == ExpectedLog(t, epoch, |t.stages|)
          {
            ExpectedLogSame(s, t, epoch, |s.stages|);
          }
          assert forall i :: 0 <= i < |t.stages| ==> FlowsAt(s, i) ==> FlowsAt(t, i);
      }
    }
  }

  /** `a` happens before `b` when its send was queued earlier, or it is the start of the send that `b` reports. */
  predicate Before(a: Event, b: Event) {
    a.stage < b.stage || (a.stage == b.stage && a.Started? && b.Failed?)
  }

  predicate Ordered(log: seq<Event>) {
    forall i, j :: 0 <= i < j < |log| ==> Before(log[i], log[j])
  }

  predicate StagesBelow(log: seq<Event>, n: nat) {
    forall e :: e in log ==> e.stage < n
  }

  lemma OrderedConcat(a: seq<Event>, b: seq<Event>, n: nat)
    requires Ordered(a) && StagesBelow(a, n)
    requires Ordered(b) && forall e :: e in b ==> e.stage == n
    ensures Ordered(a + b) && StagesBelow(a + b, n + 1)
  {
    forall i, j | 0 <= i < j < |a + b|
      ensures Before((a + b)[i], (a + b)[j])
    {
      if j >= |a| {
        assert (a + b)[j] == b[j - |a|] && b[j - |a|] in b;
        if i < |a| {
          assert (a + b)[i] == a[i] && a[i] in a;
        } else {
          assert (a + b)[i] == b[i - |a|];
        }
      }
    }
  }

  lemma {:induction false} ExpectedLogIsOrdered(s: State, epoch: nat, n: nat)
    requires n <= |s.stages|
    ensures Ordered(ExpectedLog(s, epoch, n)) && StagesBelow(ExpectedLog(s, epoch, n), n)
  {
    if n > 0 {
      ExpectedLogIsOrdered(s, epoch, n - 1);
      OrderedConcat(ExpectedLog(s, epoch, n - 1),
                    if s.stages[n - 1].epoch == epoch then StageLog(s, n - 1) else [], n - 1);
    }
  }

  lemma {:induction false} ExpectedLogHasEvent(s: State, e: Event, n: nat)
    requires e.stage < n <= |s.stages|
    ensures e in ExpectedLog(s, s.stages[e.stage].epoch, n) <==> e in StageLog(s, e.stage)
  {
    var epoch := s.stages[e.stage].epoch;
    var tail := if s.stages[n - 1].epoch == epoch then StageLog(s, n - 1) else [];
    assert ExpectedLog(s, epoch, n) == ExpectedLog(s, epoch, n - 1) + tail;
    assert e in ExpectedLog(s, epoch, n) <==> e in ExpectedLog(s, epoch, n - 1) || e in tail;
    if e.stage < n - 1 {
      ExpectedLogHasEvent(s, e, n - 1);
    } else {
      ExpectedLogIsOrdered(s, epoch, n - 1);
    }
  }

  lemma ExpectedLogHas(s: State, i: nat, n: nat)
    requires i < n <= |s.stages|
    ensures Started(i) in ExpectedLog(s, s.stages[i].epoch, n) <==> !s.stages[i].status.Waiting?
    ensures Failed(i) in ExpectedLog(s, s.stages[i].epoch, n) <==> s.stages[i].status == Done(false)
  {
    hide ExpectedLog;
    ExpectedLogHasEvent(s, Started(i), n);
    ExpectedLogHasEvent(s, Failed(i), n);
  }

  /**
   * In every run, within every epoch: sends start in the order they were queued, none starts before every
   * earlier one has started, finished and, if it failed, been reported; nothing happens twice; and a send has
   * started or been reported exactly when its state says so.
   */
  lemma SendsAreSequential(steps: seq<Step>, epoch: nat)
    ensures var s := Run(steps);
            var l := InEpoch(s.stages, s.log, epoch);
            && Ordered(l)
            && (forall i :: 0 <= i < |s.stages| && s.stages[i].epoch == epoch ==>
                  && (Started(i) in l <==> !s.stages[i].status.Waiting?)
                  && (Failed(i) in l <==> s.stages[i].status == Done(false)))
            && (forall i, j | 0 <= i < j < |s.stages| && s.stages[i].epoch == s.stages[j].epoch == epoch && Started(j) in l
                  :: s.stages[i].status.Done?)
  {
    RunKeepsInv(steps);
    var s := Run(steps);
    ExpectedLogIsOrdered(s, epoch, |s.stages|);
    forall i | 0 <= i < |s.stages| && s.stages[i].epoch == epoch
      ensures Started(i) in ExpectedLog(s, epoch, |s.stages|) <==> !s.stages[i].status.Waiting?
      ensures Failed(i) in ExpectedLog(s, epoch, |s.stages|) <==> s.stages[i].status == Done(false)
    {
      ExpectedLogHas(s, i, |s.stages|);
    }
    forall i, j | 0 <= i < j < |s.stages| && s.stages[i].epoch == s.stages[j].epoch == epoch && !s.stages[j].status.Waiting?
      ensures s.stages[i].status.Done?
    {
      if !s.stages[i].status.Done? {
        LaterStagesWait(s, i, j);
      }
    }
  }

  /** In every run, no send waits without another of its epoch, queued before it, in flight. */
  lemma WaitingIsBehindOne(steps: seq<Step>, j: nat)
    requires var s := Run(steps); j < |s.stages| && s.stages[j].status.Waiting?
    ensures var s := Run(steps);
            exists k :: 0 <= k < j && s.stages[k].epoch == s.stages[j].epoch && s.stages[k].status.InFlight?
  {
    RunKeepsInv(steps);
    var k := SendAhead(Run(steps), j);
  }

  /** In every run, an epoch has at most one send in flight. */
  lemma OneInFlight(steps: seq<Step>, i: nat, j: nat)
    requires var s := Run(steps); i < j < |s.stages| && s.stages[i].epoch == s.stages[j].epoch
    ensures var s := Run(steps);
            && !(s.stages[i].status.InFlight? && s.stages[j].status.InFlight?)
            && (s.stages[j].status.Waiting? ==>
                  exists k :: 0 <= k < j && s.stages[k].epoch == s.stages[j].epoch && s.stages[k].status.InFlight?)
  {
    RunKeepsInv(steps);
    var s := Run(steps);
    if s.stages[i].status.InFlight? {
      LaterStagesWait(s, i, j);
    }
    if s.stages[j].status.Waiting? {
      WaitingIsBehindOne(steps, j);
    }
  }

  lemma {:induction false} SendAhead(s: State, j: nat) returns (k: nat)
    requires Inv(s) && j < |s.stages| && s.stages[j].status.Waiting?
    ensures k < j && s.stages[k].epoch == s.stages[j].epoch && s.stages[k].status.InFlight?
  {
    assert FlowsAt(s, j);
    if s.stages[j - 1].status.InFlight? {
      k := j - 1;
    } else {
      k := SendAhead(s, j - 1);
    }
  }

  /** The guarantee is per epoch: after a reset a new send starts beside one still in flight. */
  lemma ResetLetsSendsOverlap()
    ensures var s := Run([Enqueued(Op(0, Running)), WasReset, Enqueued(Op(1, Running))]);
            |s.stages| == 2 && s.stages[0].status == InFlight && s.stages[1].status == InFlight
  {
    var steps := [Enqueued(Op(0, Running)), WasReset, Enqueued(Op(1, Running))];
    assert steps[..2] == [Enqueued(Op(0, Running)), WasReset];
    assert steps[..2][..1] == [Enqueued(Op(0, Running))];
    assert Run(steps[..2][..1][..0]) == INITIAL;
  }
}
