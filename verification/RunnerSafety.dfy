/** In every reachable world, every log is sound and every run agrees with its log. */
module RunnerSafety {
  import opened Common
  import opened Workflows
  import opened RunStates
  import opened RunProtocol
  import opened RunInvariant
  import opened RunSteps
  import opened RunLoops
  import opened Runners

  ghost predicate LogsOK(disk: map<string, seq<Event>>, xs: Exchanges, refused: set<ExchangeID>) {
    forall id :: id in disk ==> LogOK(disk[id], id, xs, refused)
  }

  ghost predicate Safe(w: World) {
    && RecordsAgree(w.xs)
    && LogsOK(w.disk, w.xs, w.refused)
    && w.home.Keys == w.runs.Keys
    && forall i :: i in w.runs ==> Has(w, i) && Holds(LocalOf(w, i))
  }

  /** Growth of the shared state harms no run and no log. */
  lemma OthersKeep(w: World, id: string, log: seq<Event>, xs: Exchanges, refused: set<ExchangeID>)
    requires Safe(w) && RecordsAgree(xs) && XsGrow(w.xs, xs) && w.refused <= refused
    requires LogOK(log, id, xs, refused) && (id in w.disk ==> w.disk[id] <= log)
    ensures Safe(w.(disk := w.disk[id := log], xs := xs, refused := refused))
  {
    hide Holds, LogOK;
    var w' := w.(disk := w.disk[id := log], xs := xs, refused := refused);
    forall n | n in w'.disk
      ensures LogOK(w'.disk[n], n, xs, refused)
    {
      if n != id {
        LogOKGrows(w.disk[n], n, w.xs, w.refused, xs, refused);
      }
    }
    forall i | i in w'.runs
      ensures Has(w', i) && Holds(LocalOf(w', i))
    {
      assert Has(w, i);
      var n := w.runs[i].id;
      assert w.disk[n] <= w'.disk[n];
      GrowKeeps(LocalOf(w, i), w'.disk[n], xs, refused);
    }
  }

  /** A run's own move keeps the world safe. */
  lemma MergeKeeps(w: World, i: nat, b: Local)
    requires Safe(w) && Has(w, i) && Holds(b) && Grows(LocalOf(w, i), b)
    ensures Safe(Merge(w, i, b))
  {
    hide Holds, LogOK;
    LogOf(b);
    OthersKeep(w, b.r.id, b.log, b.xs, b.refused);
    var w1 := w.(disk := w.disk[b.r.id := b.log], xs := b.xs, refused := b.refused);
    var w' := Merge(w, i, b);
    forall j | j in w'.runs
      ensures Has(w', j) && Holds(LocalOf(w', j))
    {
      if j != i {
        assert LocalOf(w', j) == LocalOf(w1, j);
      } else {
        assert LocalOf(w', i) == b;
      }
    }
  }

  /** A change of one run object alone. */
  lemma PutKeeps(w: World, i: nat, r: Run)
    requires Safe(w) && Has(w, i) && r.id == w.runs[i].id && Holds(LocalOf(w, i).(r := r))
    ensures Safe(Put(w, i, r))
  {
    hide Holds, LogOK;
    var w' := Put(w, i, r);
    forall j | j in w'.runs
      ensures Has(w', j) && Holds(LocalOf(w', j))
    {
      if j != i {
        assert LocalOf(w', j) == LocalOf(w, j);
      } else {
        assert LocalOf(w', i) == LocalOf(w, i).(r := r);
      }
    }
  }

  lemma SlotsKeep(w: World, p: nat, n: int)
    requires Safe(w)
    ensures Safe(WithSlots(w, p, n))
  {
    hide Holds, LogOK;
    var w' := WithSlots(w, p, n);
    forall j | j in w'.runs
      ensures Has(w', j) && Holds(LocalOf(w', j))
    {
      assert LocalOf(w', j) == LocalOf(w, j);
    }
  }

  /** wake and notifying are no one's business but the loop's. */
  lemma SignalHolds(a: Local, r: Run)
    requires Holds(a) && r == a.r.(wake := r.wake, notifying := r.notifying) && r.notifying <= a.r.notifying
    ensures Holds(a.(r := r))
  {
    hide LogSide, Bookkeeping, Goroutines, Outcomes, Plan, Valid;
    assert ContextOf(r) == ContextOf(a.r);
  }

  lemma StepSafe(w: World, i: nat, s: string, w': World)
    requires Safe(w) && StepMove(w, i, s, w')
    ensures Safe(w')
  {
    hide Holds, StepMoves, LogsOK;
    var b :| StepMoves(w.limit > 0, LocalOf(w, i), s, b) && w' == AfterStep(w, i, s, b);
    StepKeeps(w.limit > 0, LocalOf(w, i), s, b);
    MergeKeeps(w, i, b);
    SlotsKeep(Merge(w, i, b), w.home[i], SlotsOf(w, w.home[i]) - 1);
  }

  lemma LoopSafe(w: World, i: nat, w': World)
    requires Safe(w) && LoopMove(w, i, w')
    ensures Safe(w')
  {
    hide Holds, LoopMoves, LogsOK;
    var b :| LoopMoves(LocalOf(w, i), b) && w' == Merge(w, i, b);
    LoopKeeps(LocalOf(w, i), b);
    MergeKeeps(w, i, b);
  }

  lemma LaunchSafe(w: World, i: nat, w': World)
    requires Safe(w) && LaunchMove(w, i, w')
    ensures Safe(w')
  {
    hide Holds, LogsOK, Launches;
    if Full(w, w.home[i]) {
      ParkHolds(LocalOf(w, i));
      PutKeeps(w, i, w.runs[i].(loop := Parked(true, false)));
    } else {
      LaunchKeeps(LocalOf(w, i));
      MergeKeeps(w, i, Launches(LocalOf(w, i)));
      SlotsKeep(Merge(w, i, Launches(LocalOf(w, i))), w.home[i], SlotsOf(w, w.home[i]) + 1);
    }
  }

  lemma ParkHolds(a: Local)
    requires Holds(a) && a.r.loop.Launching?
    ensures Holds(a.(r := a.r.(loop := Parked(true, false))))
  {
    hide Holds, Sound, Outcomes, Plan;
    LoopOf(a);
    AtLoopHolds(a, Parked(true, false));
  }

  lemma LockSafe(w: World, i: nat, s: string, w': World)
    requires Safe(w) && LockMove(w, i, s, w')
    ensures Safe(w')
  {
    hide Holds, LogsOK, Sound, Registered;
    var pc := Waking(Some(Registered(w, w.home[i])));
    GotoHolds(LocalOf(w, i), s, pc);
    PutKeeps(w, i, w.runs[i].(gos := w.runs[i].gos[s := pc]));
  }

  lemma SignalSafe(w: World, i: nat, s: string, k: nat, w': World)
    requires Safe(w) && SignalMove(w, i, s, k, w')
    ensures Safe(w')
  {
    hide Holds, LogsOK, Sound;
    var pc := Waking(Some(w.runs[i].gos[s].pending.value - {k}));
    GotoHolds(LocalOf(w, i), s, pc);
    PutKeeps(w, i, w.runs[i].(gos := w.runs[i].gos[s := pc]));
    var w1 := Put(w, i, w.runs[i].(gos := w.runs[i].gos[s := pc]));
    if k in w1.runs {
      SignalHolds(LocalOf(w1, k), w1.runs[k].(wake := true));
      PutKeeps(w1, k, w1.runs[k].(wake := true));
    }
  }

  lemma NotifySafe(w: World, i: nat, w': World)
    requires Safe(w) && NotifyMove(w, i, w')
    ensures Safe(w')
  {
    hide Holds, LogsOK;
    var r := w.runs[i].(notifying := w.runs[i].notifying - 1, wake := true);
    SignalHolds(LocalOf(w, i), r);
    PutKeeps(w, i, r);
  }

  lemma FreshHolds(id: string, wf: Workflow, xs: Exchanges, refused: set<ExchangeID>)
    requires Valid(wf) && RecordsAgree(xs)
    ensures Holds(Local(NewRun(id, EMPTY, Fresh(wf), false), [], xs, refused))
    ensures LogOK([], id, xs, refused)
  {
    hide Valid, Sound;
  }

  lemma StartSafe(w: World, i: nat, p: nat, id: string, wf: Workflow, w': World)
    requires Safe(w) && StartMove(w, i, p, id, wf, w')
    ensures Safe(w')
  {
    hide Holds, LogOK, Valid, Logs;
    FreshHolds(id, wf, w.xs, w.refused);
    StartedOthers(w, id);
    var r, w1 := NewRun(id, EMPTY, Fresh(wf), false), w.(disk := w.disk[id := []]);
    hide LogsOK, NewRun;
    forall j | j in w'.runs
      ensures Has(w', j) && Holds(LocalOf(w', j))
    {
      if j != i {
        assert Has(w1, j) && LocalOf(w', j) == LocalOf(w1, j);
      } else {
        assert Has(w', i) && LocalOf(w', i) == Local(r, [], w.xs, w.refused);
      }
    }
  }

  lemma StartedOthers(w: World, id: string)
    requires Safe(w) && id !in w.disk && LogOK([], id, w.xs, w.refused)
    ensures Safe(w.(disk := w.disk[id := []]))
  {
    hide Holds, LogOK;
    OthersKeep(w, id, [], w.xs, w.refused);
    assert w.(disk := w.disk[id := []]) == w.(disk := w.disk[id := []], xs := w.xs, refused := w.refused);
  }

  lemma ResumedHolds(id: string, log: seq<Event>, k: nat, xs: Exchanges, refused: set<ExchangeID>)
    requires LogOK(log, id, xs, refused) && 0 < k <= |log| && RecordsAgree(xs)
    requires !At(log, k).status.Ended()
    ensures var s := At(log, k);
            Holds(Local(NewRun(id, s, Taken, SomeStep(s.steps, Status.Failed) || SomeStep(s.steps, Status.Cancelled)), log, xs, refused))
  {
    SoundAt(log, id, xs, refused, k);
    hide LogOK, Sound, At, Valid;
    var s := At(log, k);
    ResumedSide(id, s, xs, refused);
    hide RunSide, NewRun;
  }

  lemma ResumedSide(id: string, s: RunState, xs: Exchanges, refused: set<ExchangeID>)
    requires !s.status.Ended()
    ensures var r := NewRun(id, s, Taken, SomeStep(s.steps, Status.Failed) || SomeStep(s.steps, Status.Cancelled));
            RunSide(r, xs, refused, {}) && r.id == id && r.state == s && !r.loop.Fresh?
  {
    hide GoOK, Blamed, Plan, Valid;
  }

  lemma ResumeSafe(w: World, i: nat, p: nat, id: string, k: nat, w': World)
    requires Safe(w) && ResumeMove(w, i, p, id, k, w')
    ensures Safe(w')
  {
    hide Holds, LogOK, At, SomeStep;
    ResumedHolds(id, w.disk[id], k, w.xs, w.refused);
    forall j | j in w'.runs
      ensures Has(w', j) && Holds(LocalOf(w', j))
    {
      if j != i {
        assert LocalOf(w', j) == LocalOf(w, j);
      }
    }
  }

  lemma DropSafe(w: World, i: nat, w': World)
    requires Safe(w) && DropMove(w, i, w')
    ensures Safe(w')
  {
    hide Holds, LogOK, Drops;
    var log :| Drops(LocalOf(w, i), log)
      && w' == w.(runs := w.runs - {i}, home := w.home - {i}, disk := w.disk[w.runs[i].id := log]);
    DropKeeps(LocalOf(w, i), log);
    OthersKeep(w, w.runs[i].id, log, w.xs, w.refused);
    var w1 := w.(disk := w.disk[w.runs[i].id := log], xs := w.xs, refused := w.refused);
    forall j | j in w'.runs
      ensures Has(w', j) && Holds(LocalOf(w', j))
    {
      assert LocalOf(w', j) == LocalOf(w1, j);
    }
  }

  lemma ContextSafe(w: World, i: nat, cause: Cause, w': World)
    requires Safe(w) && ContextMove(w, i, cause, w')
    ensures Safe(w')
  {
    CauseHolds(LocalOf(w, i), cause);
    hide Holds, LogsOK;
    PutKeeps(w, i, WithCause(w.runs[i], cause));
  }

  lemma CauseHolds(a: Local, cause: Cause)
    requires Holds(a) && cause != Live
    ensures Holds(a.(r := WithCause(a.r, cause)))
  {
    hide LogSide, RunSide;
    CauseKeeps(a.r, cause, a.xs, a.refused);
  }

  lemma OfflineSafe(w: World, id: string, k: nat, w': World)
    requires Safe(w) && OfflineMove(w, id, k, w')
    ensures Safe(w')
  {
    hide Holds, LogOK, At;
    if w' != w {
      var log, e := w.disk[id], OfflineEnd(id, k);
      OfflineAppends(log, id, w.xs, w.refused);
      OthersKeep(w, id, log + [e], w.xs, w.refused);
    }
  }

  lemma OfflineAppends(log: seq<Event>, id: string, xs: Exchanges, refused: set<ExchangeID>)
    requires LogOK(log, id, xs, refused) && log != [] && !At(log, |log|).status.Ended()
    ensures LogOK(log + [OfflineEnd(id, |log|)], id, xs, refused)
  {
    SoundAt(log, id, xs, refused, |log|);
    assert log[..|log|] == log;
    hide LogOK, Sound;
    LogOKSnoc(log, id, xs, refused, OfflineEnd(id, |log|));
  }

  lemma CrashSafe(w: World, p: nat, w': World)
    requires Safe(w) && CrashMove(w, p, w')
    ensures Safe(w')
  {
    hide Holds, LogOK;
    forall j | j in w'.runs
      ensures Has(w', j) && Holds(LocalOf(w', j))
    {
      assert Has(w, j);
      assert LocalOf(w', j) == LocalOf(w, j);
    }
  }

  lemma ExchangeGrows(w: World, x: ExchangeID, res: HarnessResult, err: Option<StepError>, record: Option<Record>, w': World)
    requires RecordsAgree(w.xs) && ExchangeMove(w, x, res, err, record, w')
    ensures XsGrow(w.xs, w'.xs) && RecordsAgree(w'.xs) && w' == w.(xs := w'.xs)
  {
  }

  lemma ExchangeSafe(w: World, x: ExchangeID, res: HarnessResult, err: Option<StepError>, record: Option<Record>, w': World)
    requires Safe(w) && ExchangeMove(w, x, res, err, record, w')
    ensures Safe(w')
  {
    hide Holds, LogOK, RecordsAgree, XsGrow;
    ExchangeGrows(w, x, res, err, record, w');
    hide ExchangeMove;
    forall id | id in w'.disk
      ensures LogOK(w'.disk[id], id, w'.xs, w'.refused)
    {
      LogOKGrows(w.disk[id], id, w.xs, w.refused, w'.xs, w'.refused);
    }
    forall j | j in w'.runs
      ensures Has(w', j) && Holds(LocalOf(w', j))
    {
      assert Has(w, j);
      GrowKeeps(LocalOf(w, j), w.disk[w.runs[j].id], w'.xs, w.refused);
    }
  }

  lemma NextSafe(w: World, w': World)
    requires Safe(w) && Next(w, w')
    ensures Safe(w')
  {
    hide Safe, StepMove, LoopMove, LaunchMove, LockMove, SignalMove, NotifyMove, StartMove, ResumeMove,
         DropMove, ContextMove, OfflineMove, CrashMove, ExchangeMove;
    if i, s :| StepMove(w, i, s, w') { StepSafe(w, i, s, w'); }
    else if i :| LoopMove(w, i, w') { LoopSafe(w, i, w'); }
    else if i :| LaunchMove(w, i, w') { LaunchSafe(w, i, w'); }
    else if i, s :| LockMove(w, i, s, w') { LockSafe(w, i, s, w'); }
    else if i, s, k :| SignalMove(w, i, s, k, w') { SignalSafe(w, i, s, k, w'); }
    else if i :| NotifyMove(w, i, w') { NotifySafe(w, i, w'); }
    else if i, p, id, wf :| StartMove(w, i, p, id, wf, w') { StartSafe(w, i, p, id, wf, w'); }
    else if i, p, id, k :| ResumeMove(w, i, p, id, k, w') { ResumeSafe(w, i, p, id, k, w'); }
    else if i :| DropMove(w, i, w') { DropSafe(w, i, w'); }
    else if i, cause :| ContextMove(w, i, cause, w') { ContextSafe(w, i, cause, w'); }
    else if id, k :| OfflineMove(w, id, k, w') { OfflineSafe(w, id, k, w'); }
    else if p :| CrashMove(w, p, w') { CrashSafe(w, p, w'); }
    else {
      var x, res, err, record :| ExchangeMove(w, x, res, err, record, w');
      ExchangeSafe(w, x, res, err, record, w');
    }
  }

  /** Safety over whole histories. */
  lemma {:induction false} AlwaysSafe(ws: seq<World>)
    requires History(ws)
    ensures Safe(Last(ws))
  {
    hide Safe, Next;
    if |ws| == 1 {
      InitSafe(ws[0]);
    } else {
      var front := ws[..|ws| - 1];
      assert forall n :: 0 <= n < |front| ==> front[n] == ws[n];
      AlwaysSafe(front);
      assert Next(ws[|ws| - 2], ws[|ws| - 2 + 1]);
      NextSafe(Last(front), Last(ws));
    }
  }

  lemma InitSafe(w: World)
    requires Init(w)
    ensures Safe(w)
  {
  }
}
