/** What becomes of each send: its outcome, and the report of its failure. */
module SenderOutcomes {
  import opened Wrappers
  import opened SequentialSender

  /** Stage `m` is as it was, or was waiting and has begun: it is in flight, or has finished at once as its send did. */
  predicate Moves(s: State, t: State, m: nat)
    requires m < |s.stages| <= |t.stages|
  {
    var a, b := s.stages[m], t.stages[m];
    && b == a.(status := b.status)
    && (a.status == b.status
        || (a.status.Waiting? && if b.op.begin.Running? then b.status == InFlight else b.status == Done(b.op.begin.ok)))
  }

  lemma {:induction false} StartMoves(s: State, j: nat, m: nat)
    requires Linked(s) && Logged(s) && j < |s.stages| && m < |s.stages|
    requires s.stages[j].status.Waiting?
    requires j > 0 && s.stages[j - 1].epoch == s.stages[j].epoch ==> s.stages[j - 1].status.Done?
    requires forall i :: 0 <= i < |s.stages| && i != j ==> FlowsAt(s, i)
    ensures Moves(s, AfterStart(s, j), m)
    ensures m == j ==> !AfterStart(s, j).stages[j].status.Waiting?
    decreases |s.stages| - j, 1
  {
    if s.stages[j].op.begin.Finished? {
      var s1 := Mark(Log(s, Started(j)), j, InFlight);
      BegunKeepsInv(s, j);
      CompleteMoves(s1, j, s.stages[j].op.begin.ok, m);
    }
  }

  /** The invariant holds between the start of a send and its end. */
  lemma BegunKeepsInv(s: State, j: nat)
    requires Linked(s) && Logged(s) && j < |s.stages|
    requires s.stages[j].status.Waiting?
    requires j > 0 && s.stages[j - 1].epoch == s.stages[j].epoch ==> s.stages[j - 1].status.Done?
    requires forall i :: 0 <= i < |s.stages| && i != j ==> FlowsAt(s, i)
    ensures Inv(Mark(Log(s, Started(j)), j, InFlight))
  {
    var s1 := Mark(Log(s, Started(j)), j, InFlight);
    assert StageLog(s1, j) == StageLog(s, j) + [Started(j)];
    LogKept(s, s1, j, InFlight, Started(j));
    forall i | 0 <= i < |s1.stages|
      ensures FlowsAt(s1, i)
    {
      assert i != j ==> FlowsAt(s, i);
    }
  }

  lemma {:induction false} CompleteMoves(s: State, i: nat, ok: bool, m: nat)
    requires Inv(s) && i < |s.stages| && m < |s.stages| && s.stages[i].status.InFlight?
    ensures var t := AfterComplete(s, i, ok);
            if m == i then t.stages[i] == s.stages[i].(status := Done(ok)) else Moves(s, t, m)
    decreases |s.stages| - i, 0
  {
    var s1 := Mark(if ok then s else Log(s, Failed(i)), i, Done(ok));
    if Dependent(s1, i).Some? {
      MarkedKeepsLogged(s, i, ok);
      assert LinkedAt(s1.stages, i + 1) && FlowsAt(s, i + 1);
      forall k | 0 <= k < |s1.stages| && k != i + 1
        ensures FlowsAt(s1, k)
      {
        assert FlowsAt(s, k) && LinkedAt(s1.stages, k);
      }
      StartMoves(s1, i + 1, m);
    }
  }

  lemma MarkedKeepsLogged(s: State, i: nat, ok: bool)
    requires Inv(s) && i < |s.stages| && s.stages[i].status.InFlight?
    ensures Logged(Mark(if ok then s else Log(s, Failed(i)), i, Done(ok)))
  {
    var s1 := Mark(if ok then s else Log(s, Failed(i)), i, Done(ok));
    if ok {
      forall epoch: nat
        ensures InEpoch(s1.stages, s1.log, epoch) == ExpectedLog(s1, epoch, |s1.stages|)
      {
        ExpectedLogSame(s, s1, epoch, |s.stages|);
        EpochsUnchanged(s.stages, s1.stages, s.log, epoch);
      }
    } else {
      assert StageLog(s1, i) == StageLog(s, i) + [Failed(i)];
      LogKept(s, s1, i, Done(ok), Failed(i));
    }
  }

  // ---- The log and the states

  lemma {:induction false} InEpochHas(stages: seq<Stage>, log: seq<Event>, e: Event)
    requires e.stage < |stages|
    ensures e in InEpoch(stages, log, stages[e.stage].epoch) <==> e in log
  {
    if log != [] {
      var n := |log| - 1;
      InEpochHas(stages, log[..n], e);
      assert log == log[..n] + [log[n]];
    }
  }

  lemma ReportedIffFailed(s: State, i: nat)
    requires Inv(s) && i < |s.stages|
    ensures Failed(i) in s.log <==> s.stages[i].status == Done(false)
    ensures Started(i) in s.log <==> !s.stages[i].status.Waiting?
  {
    InEpochHas(s.stages, s.log, Failed(i));
    InEpochHas(s.stages, s.log, Started(i));
    ExpectedLogHas(s, i, |s.stages|);
    assert InEpoch(s.stages, s.log, s.stages[i].epoch) == ExpectedLog(s, s.stages[i].epoch, |s.stages|);
  }

  /** A completion settles its own send with its own outcome, and reports it exactly when it is a failure. */
  lemma CompletionIsReported(s: State, i: nat, ok: bool)
    requires Inv(s) && i < |s.stages| && s.stages[i].status.InFlight?
    ensures var t := Next(s, Completed(i, ok));
            && t.stages[i].status == Done(ok)
            && (Failed(i) in t.log <==> !ok)
  {
    CompleteMoves(s, i, ok, i);
    CompleteKeeps(s, i, ok);
    ReportedIffFailed(Next(s, Completed(i, ok)), i);
  }

  /** A queued send is the one handed in, and comes last. */
  lemma EnqueueMoves(s: State, op: Op, m: nat)
    requires Inv(s) && m <= |s.stages|
    ensures var t := AfterEnqueue(s, op);
            && |t.stages| == |s.stages| + 1 && t.stages[|s.stages|].op == op && t.stages[|s.stages|].epoch == s.epoch
            && (m < |s.stages| ==> t.stages[m] == s.stages[m])
            && (var b := t.stages[|s.stages|];
                b.status.Waiting? || if op.begin.Running? then b.status == InFlight else b.status == Done(op.begin.ok))
  {
    var n := |s.stages|;
    var s1 := Append(s, op);
    if s.chain.None? || s.stages[s.chain.value].status.Done? {
      forall epoch: nat
        ensures InEpoch(s1.stages, s1.log, epoch) == ExpectedLog(s1, epoch, n + 1)
      {
        ExpectedLogSame(s, s1, epoch, n);
        EpochsUnchanged(s.stages, s1.stages, s.log, epoch);
      }
      forall k | 0 <= k < n
        ensures FlowsAt(s1, k)
      {
        assert FlowsAt(s, k);
      }
      StartMoves(s1, n, n);
      if m < n {
        StartMoves(s1, n, m);
        StartLeavesEarlier(s1, n, m);
      }
    }
  }

  lemma {:induction false} StartLeavesEarlier(s: State, j: nat, m: nat)
    requires Linked(s) && m < j < |s.stages|
    ensures AfterStart(s, j).stages[m] == s.stages[m]
    decreases |s.stages| - j, 1
  {
    if s.stages[j].op.begin.Finished? {
      CompleteLeavesEarlier(Mark(Log(s, Started(j)), j, InFlight), j, s.stages[j].op.begin.ok, m);
    }
  }

  lemma {:induction false} CompleteLeavesEarlier(s: State, i: nat, ok: bool, m: nat)
    requires Linked(s) && m < i < |s.stages|
    ensures AfterComplete(s, i, ok).stages[m] == s.stages[m]
    decreases |s.stages| - i, 0
  {
    var s1 := Mark(if ok then s else Log(s, Failed(i)), i, Done(ok));
    if Dependent(s1, i).Some? {
      StartLeavesEarlier(s1, i + 1, m);
    }
  }

  // ---- Over runs

  /** Step `k` of the run is the completion of stage `i`, with that outcome, while it was in flight. */
  predicate SettledAt(steps: seq<Step>, k: nat, i: nat, ok: bool)
    requires k < |steps|
  {
    && steps[k] == Completed(i, ok)
    && i < |Run(steps[..k]).stages| && Run(steps[..k]).stages[i].status.InFlight?
  }

  ghost predicate IsSettled(steps: seq<Step>, i: nat, ok: bool) {
    exists k :: 0 <= k < |steps| && SettledAt(steps, k, i, ok)
  }

  /** The outcome of stage `i` is that of its completion, or, when it finishes at once, that of its own send. */
  ghost predicate OutcomeIs(steps: seq<Step>, i: nat, ok: bool)
    requires i < |Run(steps).stages|
  {
    var stage := Run(steps).stages[i];
    if stage.op.begin.Finished? then stage.op.begin.ok == ok && !stage.status.Waiting?
    else IsSettled(steps, i, ok)
  }

  lemma SettledBefore(steps: seq<Step>, i: nat, ok: bool)
    requires steps != []
    ensures IsSettled(steps, i, ok)
       <==> SettledAt(steps, |steps| - 1, i, ok) || IsSettled(steps[..|steps| - 1], i, ok)
  {
    var before := steps[..|steps| - 1];
    forall k | 0 <= k < |before|
      ensures SettledAt(before, k, i, ok) <==> SettledAt(steps, k, i, ok)
    {
      assert before[..k] == steps[..k];
    }
  }

  lemma {:induction false} StatusFollows(steps: seq<Step>, i: nat, ok: bool)
    requires i < |Run(steps).stages|
    ensures Run(steps).stages[i].status == Done(ok) <==> OutcomeIs(steps, i, ok)
  {
    if steps != [] {
      var n := |steps| - 1;
      var s, step := Run(steps[..n]), steps[n];
      RunKeepsInv(steps[..n]);
      SettledBefore(steps, i, ok);
      if i < |s.stages| {
        StatusFollows(steps[..n], i, ok);
        StatusFollows(steps[..n], i, !ok);
      }
      hide Inv;
      match step {
        case Enqueued(op) =>
          EnqueueMoves(s, op, i);
          if i == |s.stages| {
            NotYetSettled(steps[..n], i, ok);
          }
        case Completed(j, ok') =>
          if j < |s.stages| && s.stages[j].status.InFlight? {
            CompleteMoves(s, j, ok', i);
          }
        case WasReset =>
      }
    }
  }

  lemma {:induction false} StagesGrow(steps: seq<Step>, k: nat)
    requires k <= |steps|
    ensures |Run(steps[..k]).stages| <= |Run(steps).stages|
  {
    if k < |steps| {
      var n := |steps| - 1;
      assert steps[..n][..k] == steps[..k];
      StagesGrow(steps[..n], k);
      hide Linked, Run;
      LastStepGrows(steps);
    } else {
      assert steps[..k] == steps;
    }
  }

  lemma LastStepGrows(steps: seq<Step>)
    requires steps != []
    ensures |Run(steps[..|steps| - 1]).stages| <= |Run(steps).stages|
  {
  }

  lemma NotYetSettled(steps: seq<Step>, i: nat, ok: bool)
    requires i == |Run(steps).stages|
    ensures !IsSettled(steps, i, ok)
  {
    forall k | 0 <= k < |steps|
      ensures !SettledAt(steps, k, i, ok)
    {
      StagesGrow(steps, k);
    }
  }

  /** In every run, `onError` is called for exactly the sends that failed, by their completion or at once. */
  lemma FailuresAreReported(steps: seq<Step>, i: nat)
    requires i < |Run(steps).stages|
    ensures Failed(i) in Run(steps).log <==> OutcomeIs(steps, i, false)
  {
    RunKeepsInv(steps);
    ReportedIffFailed(Run(steps), i);
    StatusFollows(steps, i, false);
  }
}
