/** Why a run's context ends: nothing cancels or shuts down a run but what was asked of it, or its log. */
module RunnerCauses {
  import opened Common
  import opened Workflows
  import opened RunStates
  import opened RunProtocol
  import opened RunInvariant
  import opened RunEffects
  import opened Runners

  /** The causes that someone decides on. */
  predicate Decided(c: Cause) {
    c == CancelledRun || c == ShutDown
  }

  /** The run's cause stays, or the run itself ends its context, or it was resumed with a cancelled step. */
  predicate Unprompted(r: Run, r': Run) {
    || r'.cause == r.cause || !Decided(r'.cause)
    || (r'.cause == CancelledRun && r.loop == Taken && SomeStep(r.state.steps, Status.Cancelled))
  }

  // ---- The moves of one run ------------------------------------------------------------------

  lemma LogsCause(a: Local, e: Event, out: Append, b: Local, ok: bool)
    requires Logs(a, e, out, b, ok)
    ensures b.r.cause == a.r.cause || b.r.cause == LogFailed
  {
    hide Applied;
  }

  lemma LogsThenCause(a: Local, s: string, e: Event, done: PC, failed: PC, b: Local)
    requires LogsThen(a, s, e, done, failed, b)
    ensures b.r.cause == a.r.cause || b.r.cause == LogFailed
  {
    hide Logs;
    var out, c, ok :| Logs(a, e, out, c, ok) && b == Goto(c, s, if ok then done else failed);
    LogsCause(a, e, out, c, ok);
  }

  lemma StepCause(limited: bool, a: Local, s: string, b: Local)
    requires s in a.r.gos && StepMoves(limited, a, s, b)
    ensures b.r.cause == a.r.cause || b.r.cause == LogFailed
  {
    if a.r.gos[s] != Closing {
      StepCases(limited, a, s, b);
      hide StepMoves, LogsThen;
      if SomeLogs(a, s, b) {
        var e, done, failed :| LogsNext(a, s, e, done, failed) && LogsThen(a, s, e, done, failed, b);
        LogsThenCause(a, s, e, done, failed, b);
      }
    }
  }

  lemma LoopLogsCause(a: Local, e: Event, next: Loop, b: Local)
    requires LoopLogs(a, e, next, b)
    ensures b.r.cause == a.r.cause || b.r.cause == LogFailed
  {
    hide Logs;
    var out, c, ok :| Logs(a, e, out, c, ok) && b == AtLoop(c, next);
    LogsCause(a, e, out, c, ok);
  }

  lemma LoopCause(a: Local, b: Local)
    requires LoopMoves(a, b)
    ensures Unprompted(a.r, b.r)
  {
    hide Logs, TopMoves, LoopLogs, FirstFailure, SomeStep;
    match a.r.loop {
      case Fresh(_) =>
        var out, c :| Logs(a, StartEvent(a.r.loop.w), out, c, true) && b == AtLoop(c, Top);
        LogsCause(a, StartEvent(a.r.loop.w), out, c, true);
      case Settled =>
        if a.r.state.status != Paused {
          var out, c :| Logs(a, BLANK.(kind := RunResumed), out, c, true) && b == AtLoop(c, Top);
          LogsCause(a, BLANK.(kind := RunResumed), out, c, true);
        }
      case Top => TopCause(a, b);
      case LoggingResumed => LoopLogsCause(a, BLANK.(kind := RunResumed), Top, b);
      case LoggingDone => LoopLogsCause(a, BLANK.(kind := RunEnded, status := Done), Finishing, b);
      case LoggingEnd(status) =>
        LoopLogsCause(a, BLANK.(kind := RunEnded, status := status, err := if a.r.failure.Some? then a.r.failure.value else ""), Finishing, b);
      case _ =>
    }
  }

  lemma TopCause(a: Local, b: Local)
    requires TopMoves(a, b)
    ensures b.r.cause == a.r.cause
  {
    hide Plan;
    match Decide(a.r) {
      case Wait =>
      case Stuck =>
      case Launch(_) =>
      case _ =>
    }
  }

  // ---- The moves of the world ----------------------------------------------------------------

  /** What a move of the world does to the cause of run object i, which begins live. */
  predicate CauseKept(w: World, w': World, i: nat) {
    i in w'.runs ==> if i in w.runs then Unprompted(w.runs[i], w'.runs[i]) else w'.runs[i].cause == Live
  }

  lemma LaunchCause(w: World, i: nat, w': World, j: nat)
    requires LaunchMove(w, i, w')
    ensures CauseKept(w, w', j)
  {
    hide Full, SomeStep;
  }

  lemma LockCause(w: World, i: nat, s: string, w': World, j: nat)
    requires LockMove(w, i, s, w')
    ensures CauseKept(w, w', j)
  {
    hide Registered, SomeStep;
  }

  lemma SignalCause(w: World, i: nat, s: string, k: nat, w': World, j: nat)
    requires SignalMove(w, i, s, k, w')
    ensures CauseKept(w, w', j)
  {
    hide SomeStep;
  }

  lemma NotifyCause(w: World, i: nat, w': World, j: nat)
    requires NotifyMove(w, i, w')
    ensures CauseKept(w, w', j)
  {
    hide SomeStep;
  }

  lemma StartCause(w: World, i: nat, p: nat, id: string, wf: Workflow, w': World, j: nat)
    requires StartMove(w, i, p, id, wf, w')
    ensures CauseKept(w, w', j)
  {
    hide Valid, SomeStep;
  }

  lemma ResumeCause(w: World, i: nat, p: nat, id: string, k: nat, w': World, j: nat)
    requires ResumeMove(w, i, p, id, k, w')
    ensures CauseKept(w, w', j)
  {
    hide At, SomeStep;
  }

  lemma DropCause(w: World, i: nat, w': World, j: nat)
    requires DropMove(w, i, w')
    ensures CauseKept(w, w', j)
  {
    hide Drops, SomeStep;
  }

  lemma ContextCause(w: World, i: nat, cause: Cause, w': World, j: nat)
    requires ContextMove(w, i, cause, w')
    ensures CauseKept(w, w', j) || (j == i && j in w'.runs && w'.runs[j].cause == cause)
  {
    hide SomeStep;
  }

  lemma OfflineCause(w: World, id: string, k: nat, w': World, j: nat)
    requires OfflineMove(w, id, k, w')
    ensures CauseKept(w, w', j)
  {
    hide At, SomeStep;
  }

  lemma CrashCause(w: World, p: nat, w': World, j: nat)
    requires CrashMove(w, p, w')
    ensures CauseKept(w, w', j)
  {
    hide SomeStep;
  }

  lemma ExchangeCause(w: World, x: ExchangeID, res: HarnessResult, err: Option<StepError>, record: Option<Record>, w': World, j: nat)
    requires ExchangeMove(w, x, res, err, record, w')
    ensures CauseKept(w, w', j)
  {
    hide SomeStep;
  }

  lemma StepMoveCause(w: World, i: nat, s: string, w': World, j: nat)
    requires StepMove(w, i, s, w')
    ensures CauseKept(w, w', j)
  {
    hide StepMoves, SomeStep;
    var b :| StepMoves(w.limit > 0, LocalOf(w, i), s, b) && w' == AfterStep(w, i, s, b);
    StepCause(w.limit > 0, LocalOf(w, i), s, b);
  }

  lemma LoopMoveCause(w: World, i: nat, w': World, j: nat)
    requires LoopMove(w, i, w')
    ensures CauseKept(w, w', j)
  {
    hide LoopMoves, SomeStep;
    var b :| LoopMoves(LocalOf(w, i), b) && w' == Merge(w, i, b);
    LoopCause(LocalOf(w, i), b);
  }

  lemma NextCause(w: World, w': World, j: nat)
    requires Next(w, w')
    ensures CauseKept(w, w', j) || (j in w'.runs && ContextMove(w, j, w'.runs[j].cause, w'))
  {
    hide StepMove, LoopMove, LaunchMove, LockMove, SignalMove, NotifyMove, StartMove, ResumeMove,
         DropMove, ContextMove, OfflineMove, CrashMove, ExchangeMove, CauseKept;
    if i, s :| StepMove(w, i, s, w') { StepMoveCause(w, i, s, w', j); }
    else if i :| LoopMove(w, i, w') { LoopMoveCause(w, i, w', j); }
    else if i :| LaunchMove(w, i, w') { LaunchCause(w, i, w', j); }
    else if i, s :| LockMove(w, i, s, w') { LockCause(w, i, s, w', j); }
    else if i, s, k :| SignalMove(w, i, s, k, w') { SignalCause(w, i, s, k, w', j); }
    else if i :| NotifyMove(w, i, w') { NotifyCause(w, i, w', j); }
    else if i, p, id, wf :| StartMove(w, i, p, id, wf, w') { StartCause(w, i, p, id, wf, w', j); }
    else if i, p, id, k :| ResumeMove(w, i, p, id, k, w') { ResumeCause(w, i, p, id, k, w', j); }
    else if i :| DropMove(w, i, w') { DropCause(w, i, w', j); }
    else if i, cause :| ContextMove(w, i, cause, w') { ContextCause(w, i, cause, w', j); }
    else if id, k :| OfflineMove(w, id, k, w') { OfflineCause(w, id, k, w', j); }
    else if p :| CrashMove(w, p, w') { CrashCause(w, p, w', j); }
    else {
      var x, res, err, record :| ExchangeMove(w, x, res, err, record, w');
      ExchangeCause(w, x, res, err, record, w', j);
    }
  }

  // ---- Over histories --------------------------------------------------------------------------

  /** Run object i has been there since the n-th world. */
  predicate Since(ws: seq<World>, n: nat, i: nat) {
    forall m :: n <= m < |ws| ==> i in ws[m].runs
  }

  /** Cancel or Shutdown was called for this run object. */
  ghost predicate Asked(ws: seq<World>, i: nat, cause: Cause) {
    exists n: nat :: n + 1 < |ws| && ContextMove(ws[n], i, cause, ws[n + 1]) && Since(ws, n, i)
  }

  /** It was resumed from a log with a cancelled step. */
  ghost predicate TookUpCancelled(ws: seq<World>, i: nat) {
    exists n: nat :: n < |ws| && Since(ws, n, i) && ws[n].runs[i].loop == Taken && SomeStep(ws[n].runs[i].state.steps, Status.Cancelled)
  }

  lemma AskedOn(ws: seq<World>, w: World, i: nat, cause: Cause)
    requires i in w.runs
    ensures Asked(ws, i, cause) ==> Asked(ws + [w], i, cause)
    ensures TookUpCancelled(ws, i) ==> TookUpCancelled(ws + [w], i)
  {
    hide ContextMove, SomeStep;
    var all := ws + [w];
    if n: nat :| n + 1 < |ws| && ContextMove(ws[n], i, cause, ws[n + 1]) && Since(ws, n, i) {
      assert all[n] == ws[n] && all[n + 1] == ws[n + 1] && Since(all, n, i);
    }
    if n: nat :| n < |ws| && Since(ws, n, i) && ws[n].runs[i].loop == Taken && SomeStep(ws[n].runs[i].state.steps, Status.Cancelled) {
      assert all[n] == ws[n] && Since(all, n, i);
    }
  }

  /** A run is cancelled only because Cancel was called for it or its log has a cancelled step, and shut
      down only because Shutdown was called. */
  lemma {:induction false} CancelledForCause(ws: seq<World>, i: nat)
    requires History(ws) && i in Last(ws).runs
    ensures Last(ws).runs[i].cause == CancelledRun ==> Asked(ws, i, CancelledRun) || TookUpCancelled(ws, i)
    ensures Last(ws).runs[i].cause == ShutDown ==> Asked(ws, i, ShutDown)
  {
    hide Next, ContextMove, SomeStep, Asked, TookUpCancelled;
    if |ws| > 1 {
      var front, w, w' := ws[..|ws| - 1], ws[|ws| - 2], Last(ws);
      assert forall n :: 0 <= n < |front| ==> front[n] == ws[n];
      assert Next(ws[|ws| - 2], ws[|ws| - 2 + 1]) && ws == front + [w'] && Last(front) == w;
      var cause := w'.runs[i].cause;
      NextCause(w, w', i);
      AskedOn(front, w', i, cause);
      if Decided(cause) {
        if i in w.runs && w.runs[i].cause == cause {
          CancelledForCause(front, i);
        } else {
          Begins(ws, i);
        }
      }
    }
  }

  /** The move that gives a run such a cause. */
  lemma Begins(ws: seq<World>, i: nat)
    requires |ws| > 1 && i in Last(ws).runs && Decided(Last(ws).runs[i].cause)
    requires var (w, w') := (ws[|ws| - 2], Last(ws));
      && !(i in w.runs && w.runs[i].cause == w'.runs[i].cause)
      && (CauseKept(w, w', i) || ContextMove(w, i, w'.runs[i].cause, w'))
    ensures Asked(ws, i, Last(ws).runs[i].cause) || (Last(ws).runs[i].cause == CancelledRun && TookUpCancelled(ws, i))
  {
    hide SomeStep;
    var n: nat := |ws| - 2;
    var w, w' := ws[n], Last(ws);
    assert w' == ws[n + 1];
    if ContextMove(w, i, w'.runs[i].cause, w') {
      assert Since(ws, n, i);
    } else {
      assert Since(ws, n, i);
    }
  }
}
