/**
 * No lost wake-up: a loop that sleeps with nothing yet to signal it is one whose next decision
 * would be to sleep again.
 */
module RunnerWakes {
  import opened Common
  import opened Workflows
  import opened RunStates
  import opened RunProtocol
  import opened RunInvariant
  import opened RunSteps
  import opened RunLoops
  import opened RunEffects
  import opened Runners
  import opened RunnerSafety
  import opened RunnerSlots

  /** The loop is in select with an empty wake channel, and its context doesn't end the wait. */
  predicate Asleep(r: Run) {
    r.loop.Parked? && !r.wake && !(r.loop.done && r.cause != Live)
  }

  /** One of the run's own goroutines has logged all it will, and has yet to signal. */
  predicate Winding(r: Run) {
    r.notifying > 0 || exists s :: s in r.gos && !Early(r.gos[s])
  }

  predicate SignalsTo(pc: PC, i: nat) {
    pc.Waking? && (pc.pending.None? || i in pc.pending.value)
  }

  /** A goroutine of run r has freed its slot and has yet to signal run i. */
  predicate WakingFor(r: Run, i: nat) {
    exists s :: s in r.gos && SignalsTo(r.gos[s], i)
  }

  predicate Neighbours(w: World, i: nat, j: nat) {
    j in w.runs && i in w.home && j in w.home && w.home[i] == w.home[j]
  }

  /** A signal to run i's loop is on its way. */
  predicate Owed(w: World, i: nat)
    requires i in w.runs
  {
    Winding(w.runs[i]) || exists j :: j in w.runs && Neighbours(w, i, j) && WakingFor(w.runs[j], i)
  }

  /** Deciding again would park the loop the same way. */
  predicate ParksAs(stopping: bool, s: RunState, inflight: set<string>, busy: set<string>, full: bool, done: bool, timer: bool) {
    match Plan(stopping, s, inflight, busy)
    case Drain => !done && !timer
    case Wait => done && timer
    case Launch(ready) => done && !timer && (ready == [] || full)
    case _ => false
  }

  predicate ParkedWell(r: Run, full: bool)
    requires r.loop.Parked?
  {
    ParksAs(Stopping(r), r.state, r.inflight, r.busy, full, r.loop.done, r.loop.timer)
  }

  ghost predicate Rested(w: World, i: nat)
    requires i in w.runs && i in w.home
  {
    Asleep(w.runs[i]) && !Owed(w, i) ==> ParkedWell(w.runs[i], Full(w, w.home[i]))
  }

  ghost predicate Listening(w: World) {
    forall i :: i in w.runs && i in w.home ==> Rested(w, i)
  }

  // ---- Runs a move leaves alone -------------------------------------------------------------

  /** Run k rests as before: it is the same run, every signal owed it still is, and a slot freed
      for it owes it one. */
  lemma OtherRests(w: World, w': World, k: nat)
    requires k in w.runs && k in w.home && Rested(w, k)
    requires k in w'.runs && w'.runs[k] == w.runs[k] && k in w'.home && w'.home[k] == w.home[k]
    requires Asleep(w.runs[k]) && Owed(w, k) ==> Owed(w', k)
    requires Asleep(w.runs[k]) && Full(w, w.home[k]) && !Full(w', w'.home[k]) ==> Owed(w', k)
    ensures Rested(w', k)
  {
    hide Plan, Owed, Full, Stopping;
  }

  /** Signals owed to k survive when every goroutine that owes one to k still does. */
  lemma StillOwed(w: World, w': World, k: nat)
    requires k in w.runs && k in w'.runs && Owed(w, k)
    requires Winding(w.runs[k]) ==> Winding(w'.runs[k])
    requires forall j :: j in w.runs && WakingFor(w.runs[j], k) && Neighbours(w, k, j) ==> Neighbours(w', k, j) && WakingFor(w'.runs[j], k)
    ensures Owed(w', k)
  {
    hide Winding, WakingFor;
  }

  // ---- A goroutine's move --------------------------------------------------------------------

  lemma WindingStays(r: Run, s: string, r': Run)
    requires s in r.gos && Winding(r)
    requires StaysIn(r, s, r') || r'.notifying == r.notifying + 1
    ensures Winding(r')
  {
    if r.notifying == 0 && StaysIn(r, s, r') {
      var t :| t in r.gos && !Early(r.gos[t]);
      assert t in r'.gos && !Early(r'.gos[t]);
    }
  }

  lemma WakingStays(r: Run, s: string, r': Run, k: nat)
    requires s in r.gos && WakingFor(r, k) && OnlyGo(r, s, r') && !SignalsTo(r.gos[s], k)
    ensures WakingFor(r', k)
  {
    var t :| t in r.gos && SignalsTo(r.gos[t], k);
    assert t in r'.gos && SignalsTo(r'.gos[t], k);
  }

  lemma StepOwed(w: World, i: nat, s: string, b: Local, w': World, k: nat)
    requires Has(w, i) && s in w.runs[i].gos && StepMoves(w.limit > 0, LocalOf(w, i), s, b) && w' == AfterStep(w, i, s, b)
    requires k in w.runs && Owed(w, k)
    ensures Owed(w', k)
  {
    hide StepMoves, Winding, WakingFor, StaysIn, SignalsTo;
    StepEffect(w.limit > 0, LocalOf(w, i), s, b);
    if Winding(w.runs[k]) && k == i {
      WindingStays(w.runs[i], s, b.r);
    }
    forall j | j in w.runs && WakingFor(w.runs[j], k) && Neighbours(w, k, j)
      ensures Neighbours(w', k, j) && WakingFor(w'.runs[j], k)
    {
      if j == i {
        StepOnlyGo(w.runs[i], s, b.r);
        SignalsDone(w.runs[i].gos[s], k);
        WakingStays(w.runs[i], s, b.r, k);
      }
    }
    hide AfterStep, Owed, Neighbours;
    StillOwed(w, w', k);
  }

  lemma SignalsDone(pc: PC, k: nat)
    requires pc.Waking? ==> pc == Waking(Some({}))
    ensures !SignalsTo(pc, k)
  {
  }

  lemma StepOnlyGo(r: Run, s: string, r': Run)
    requires s in r.gos
    requires StaysIn(r, s, r') || r'.gos == r.gos - {s}
    ensures OnlyGo(r, s, r')
  {
  }

  /** A goroutine about to free its slot owes every run of its process a signal once it has. */
  lemma FreedOwes(w: World, i: nat, s: string, b: Local, w': World, k: nat)
    requires Has(w, i) && s in w.runs[i].gos && StepMoves(w.limit > 0, LocalOf(w, i), s, b) && w' == AfterStep(w, i, s, b)
    requires k in w.runs && k in w.home && Full(w, w.home[k]) && !Full(w', w.home[k])
    ensures Owed(w', k)
  {
    hide StepMoves, Winding;
    StepEffect(w.limit > 0, LocalOf(w, i), s, b);
    assert w.runs[i].gos[s].Freeing? && w.home[k] == w.home[i];
    assert s in w'.runs[i].gos && SignalsTo(w'.runs[i].gos[s], k);
    assert Neighbours(w', k, i) && WakingFor(w'.runs[i], k);
  }

  lemma StepListens(w: World, i: nat, s: string, w': World)
    requires Listening(w) && Safe(w) && StepMove(w, i, s, w')
    ensures Listening(w')
  {
    hide Holds, StepMoves, LogsOK, Rested, Full, SlotsOf;
    var b :| StepMoves(w.limit > 0, LocalOf(w, i), s, b) && w' == AfterStep(w, i, s, b);
    forall k | k in w'.runs && k in w'.home
      ensures Rested(w', k)
    {
      assert Rested(w, k);
      if Owed(w, k) {
        StepOwed(w, i, s, b, w', k);
      }
      if Full(w, w.home[k]) && !Full(w', w'.home[k]) {
        FreedOwes(w, i, s, b, w', k);
      }
      if k == i {
        OwnStepRests(w, i, s, b, w');
      } else {
        OtherRests(w, w', k);
      }
    }
  }

  lemma OwnStepRests(w: World, i: nat, s: string, b: Local, w': World)
    requires Has(w, i) && Holds(LocalOf(w, i)) && Rested(w, i)
    requires s in w.runs[i].gos && StepMoves(w.limit > 0, LocalOf(w, i), s, b) && w' == AfterStep(w, i, s, b)
    requires Owed(w, i) ==> Owed(w', i)
    requires Full(w, w.home[i]) && !Full(w', w'.home[i]) ==> Owed(w', i)
    ensures Rested(w', i)
  {
    hide Holds, StepMoves, WakingFor, Neighbours, Plan, Stopping;
    if Asleep(b.r) && !Owed(w', i) {
      StepEffect(w.limit > 0, LocalOf(w, i), s, b);
      OwnStepEarly(w.runs[i], s, b.r);
      hide Owed, Full, Rested, ParkedWell, Winding, StaysIn, SameShell;
      EarlyUnmoved(w.limit > 0, LocalOf(w, i), s, b);
      InGosInflight(LocalOf(w, i), s);
      EarlyRests(w, i, s, b, w');
    }
  }

  lemma OwnStepEarly(r: Run, s: string, r': Run)
    requires s in r.gos && !Winding(r) && !Winding(r')
    requires if r.gos[s] == Closing then r'.notifying == r.notifying + 1 else StaysIn(r, s, r')
    ensures Early(r.gos[s]) && s in r'.gos && Early(r'.gos[s]) && StaysIn(r, s, r')
  {
  }

  lemma InGosInflight(a: Local, s: string)
    requires Holds(a) && s in a.r.gos
    ensures s in a.r.inflight
  {
    LoopOf(a);
  }

  lemma EarlyRests(w: World, i: nat, s: string, b: Local, w': World)
    requires Has(w, i) && Rested(w, i) && s in w.runs[i].gos && w' == AfterStep(w, i, s, b)
    requires Asleep(b.r) && !Owed(w, i) && SameShell(w.runs[i], b.r) && StaysIn(w.runs[i], s, b.r)
    requires Early(w.runs[i].gos[s]) && Unmoved(w.runs[i].state, b.r.state, s) && s in w.runs[i].inflight
    requires Full(w, w.home[i]) ==> Full(w', w'.home[i])
    ensures Rested(w', i)
  {
    hide Plan, Owed, Full, Unmoved;
    PlanSame(w.runs[i].state, b.r.state, s, Stopping(w.runs[i]), w.runs[i].inflight, w.runs[i].busy);
    assert Asleep(w.runs[i]);
    PlanStopping(b.r.state, b.r.inflight, b.r.busy);
    assert Stopping(b.r) == Stopping(w.runs[i]);
  }

  lemma PlanStopping(s: RunState, inflight: set<string>, busy: set<string>)
    ensures Plan(false, s, inflight, busy) != Drain
  {
    hide ReadyFrom, AllDone;
  }

  // ---- The loop's moves ------------------------------------------------------------------------

  lemma LoopListens(w: World, i: nat, w': World)
    requires Listening(w) && Safe(w) && LoopMove(w, i, w')
    ensures Listening(w')
  {
    hide Holds, LoopMoves, LogsOK, Rested, Full, SlotsOf, Winding, WakingFor;
    var b :| LoopMoves(LocalOf(w, i), b) && w' == Merge(w, i, b);
    LoopEffect(LocalOf(w, i), b);
    forall k | k in w'.runs && k in w'.home
      ensures Rested(w', k)
    {
      assert Rested(w, k);
      if k == i {
        OwnLoopRests(w, i, b);
      } else {
        LoopOthers(w, i, b, k);
      }
    }
  }

  lemma LoopOthers(w: World, i: nat, b: Local, k: nat)
    requires Has(w, i) && SameGoroutines(w.runs[i], b.r)
    requires k in w.runs && k in w.home && Rested(w, k) && k != i
    ensures Rested(Merge(w, i, b), k)
  {
    hide Rested, Winding;
    var w' := Merge(w, i, b);
    assert WakingFor(w.runs[i], k) ==> WakingFor(w'.runs[i], k);
    assert Full(w', w'.home[k]) == Full(w, w.home[k]);
    if Owed(w, k) {
      StillOwed(w, w', k);
    }
    hide WakingFor, Full;
    OtherRests(w, w', k);
  }

  lemma OwnLoopRests(w: World, i: nat, b: Local)
    requires Has(w, i) && Holds(LocalOf(w, i)) && LoopMoves(LocalOf(w, i), b)
    ensures Rested(Merge(w, i, b), i)
  {
    assert Full(Merge(w, i, b), w.home[i]) == Full(w, w.home[i]);
    hide Holds, Plan, Owed, Full, TopMoves, Logs, LoopLogs, Settles;
    LoopEffect(LocalOf(w, i), b);
    if b.r.loop.Parked? {
      NeverStuck(LocalOf(w, i));
      ParkedByTop(LocalOf(w, i), b, Full(w, w.home[i]));
    }
  }

  lemma ParkedByTop(a: Local, b: Local, full: bool)
    requires TopMoves(a, b) && a.r.loop == Top && b.r.loop.Parked? && Decide(a.r) != Stuck
    ensures ParkedWell(b.r, full)
  {
    hide Plan;
  }

  // ---- Launching -------------------------------------------------------------------------------

  lemma LaunchListens(w: World, i: nat, w': World)
    requires Listening(w) && Safe(w) && LaunchMove(w, i, w')
    ensures Listening(w')
  {
    hide Holds, LogsOK, Rested, Winding, WakingFor, Launches;
    LaunchIsNew(LocalOf(w, i));
    forall k | k in w'.runs && k in w'.home
      ensures Rested(w', k)
    {
      assert Rested(w, k);
      if k == i {
        OwnLaunchRests(w, i, w');
      } else {
        LaunchOthers(w, i, w', k);
      }
    }
  }

  /** A launch leaves the other runs, and its own run's goroutines, as they were, and frees no slot. */
  lemma LaunchFrame(w: World, i: nat, w': World, p: nat)
    requires LaunchMove(w, i, w') && w.runs[i].loop.rest[0].id !in w.runs[i].gos
    ensures i in w.runs && i in w'.runs && w'.home == w.home && w'.runs == w.runs[i := w'.runs[i]]
    ensures w'.runs[i].registered == w.runs[i].registered
    ensures forall t :: t in w.runs[i].gos ==> t in w'.runs[i].gos && w'.runs[i].gos[t] == w.runs[i].gos[t]
    ensures Full(w, p) ==> Full(w', p)
  {
  }

  lemma LaunchOthers(w: World, i: nat, w': World, k: nat)
    requires LaunchMove(w, i, w') && k in w.runs && k in w.home && Rested(w, k) && k != i
    requires w.runs[i].loop.rest[0].id !in w.runs[i].gos
    ensures Rested(w', k)
  {
    hide Rested, Winding, Full, LaunchMove;
    LaunchFrame(w, i, w', w.home[k]);
    if WakingFor(w.runs[i], k) {
      var t :| t in w.runs[i].gos && SignalsTo(w.runs[i].gos[t], k);
      assert t in w'.runs[i].gos && SignalsTo(w'.runs[i].gos[t], k);
    }
    hide WakingFor;
    if Owed(w, k) {
      StillOwed(w, w', k);
    }
    OtherRests(w, w', k);
  }

  lemma OwnLaunchRests(w: World, i: nat, w': World)
    requires Has(w, i) && Holds(LocalOf(w, i)) && LaunchMove(w, i, w')
    ensures Rested(w', i)
  {
    hide Holds, Owed, Plan, ReadyFrom;
    if Full(w, w.home[i]) {
      LoopOf(LocalOf(w, i));
    } else if w.runs[i].loop.rest[1..] == [] {
      LastLaunch(LocalOf(w, i));
    }
  }

  lemma LastLaunch(a: Local)
    requires Holds(a) && a.r.loop.Launching? && |a.r.loop.rest| == 1
    ensures var r := Launches(a).r; Plan(false, r.state, r.inflight, r.busy) == Launch([])
    ensures a.r.failure.None?
  {
    hide LogOK, Bookkeeping, Goroutines, Outcomes, Valid, Startable, SoundSteps, Acyclic;
    LaunchedStep(a);
    DistinctIds(a.r.state.workflow);
    var s := a.r.state;
    LaunchLeavesTheRest(s.steps, s.workflow.steps, a.r.inflight, a.r.busy);
  }

  // ---- Signals -----------------------------------------------------------------------------------

  lemma LockListens(w: World, i: nat, s: string, w': World)
    requires Listening(w) && Safe(w) && LockMove(w, i, s, w')
    ensures Listening(w')
  {
    hide Holds, LogsOK, Rested;
    forall k | k in w'.runs && k in w'.home
      ensures Rested(w', k)
    {
      assert Rested(w, k);
      assert Full(w', w'.home[k]) == Full(w, w.home[k]);
      if Asleep(w.runs[k]) {
        LoopOf(LocalOf(w, k));
        LockOwes(w, i, s, w', k);
      }
      hide Full, Owed, LockMove;
      if k == i {
        OwnSame(w, w', i);
      } else {
        OtherRests(w, w', k);
      }
    }
  }

  lemma LockOwes(w: World, i: nat, s: string, w': World, k: nat)
    requires LockMove(w, i, s, w') && k in w.runs && k in w.home && w.runs[k].registered
    ensures Owed(w, k) ==> Owed(w', k)
  {
    if Owed(w, k) {
      if Winding(w.runs[k]) && k == i {
        assert s in w'.runs[i].gos && !Early(w'.runs[i].gos[s]);
      }
      forall j | j in w.runs && WakingFor(w.runs[j], k) && Neighbours(w, k, j)
        ensures Neighbours(w', k, j) && WakingFor(w'.runs[j], k)
      {
        if j == i {
          assert k in Registered(w, w.home[i]);
          var t :| t in w.runs[i].gos && SignalsTo(w.runs[i].gos[t], k);
          assert t in w'.runs[i].gos && SignalsTo(w'.runs[i].gos[t], k);
        }
      }
      hide Winding, WakingFor, Owed, Neighbours, LockMove;
      StillOwed(w, w', k);
    }
  }

  /** A run whose loop would decide the same, with no fewer signals owed. */
  lemma OwnSame(w: World, w': World, i: nat)
    requires i in w.runs && i in w.home && Rested(w, i) && i in w'.runs && i in w'.home
    requires Asleep(w'.runs[i]) ==> Asleep(w.runs[i]) && (Owed(w, i) ==> Owed(w', i))
    requires w'.runs[i] == w.runs[i].(gos := w'.runs[i].gos, cause := w'.runs[i].cause, wake := w'.runs[i].wake, notifying := w'.runs[i].notifying)
    requires Asleep(w'.runs[i]) && w'.runs[i].cause != w.runs[i].cause ==> w.runs[i].failure.Some? || w.runs[i].cause != Live || !w.runs[i].loop.done
    requires w.runs[i].cause != Live ==> w'.runs[i].cause != Live
    requires Full(w, w.home[i]) ==> Full(w', w'.home[i])
    ensures Rested(w', i)
  {
    hide Plan, Owed, Full;
    PlanStopping(w.runs[i].state, w.runs[i].inflight, w.runs[i].busy);
  }

  lemma SignalListens(w: World, i: nat, s: string, k0: nat, w': World)
    requires Listening(w) && Safe(w) && SignalMove(w, i, s, k0, w')
    ensures Listening(w')
  {
    hide Holds, LogsOK, Rested;
    forall k | k in w'.runs && k in w'.home
      ensures Rested(w', k)
    {
      assert Rested(w, k);
      assert Full(w', w'.home[k]) == Full(w, w.home[k]);
      if k == k0 {
        Woken(w', k);
      } else {
        SignalOwes(w, i, s, k0, w', k);
        hide Full, Owed, SignalMove;
        if k == i {
          OwnSame(w, w', i);
        } else {
          OtherRests(w, w', k);
        }
      }
    }
  }

  lemma Woken(w: World, k: nat)
    requires k in w.runs && k in w.home && w.runs[k].wake
    ensures Rested(w, k)
  {
  }

  lemma SignalOwes(w: World, i: nat, s: string, k0: nat, w': World, k: nat)
    requires SignalMove(w, i, s, k0, w') && k in w.runs && k in w.home && k != k0
    ensures Owed(w, k) ==> Owed(w', k)
    ensures k != i ==> w'.runs[k] == w.runs[k]
    ensures k == i ==> w'.runs[i] == w.runs[i].(gos := w'.runs[i].gos)
  {
    if Owed(w, k) {
      if Winding(w.runs[k]) && k == i {
        assert s in w'.runs[i].gos && !Early(w'.runs[i].gos[s]);
      }
      forall j | j in w.runs && WakingFor(w.runs[j], k) && Neighbours(w, k, j)
        ensures Neighbours(w', k, j) && WakingFor(w'.runs[j], k)
      {
        var t :| t in w.runs[j].gos && SignalsTo(w.runs[j].gos[t], k);
        assert t in w'.runs[j].gos && SignalsTo(w'.runs[j].gos[t], k);
      }
      hide Winding, WakingFor, Owed, Neighbours, SignalMove;
      StillOwed(w, w', k);
    }
  }

  lemma NotifyListens(w: World, i: nat, w': World)
    requires Listening(w) && NotifyMove(w, i, w')
    ensures Listening(w')
  {
    hide Rested, Winding;
    forall k | k in w'.runs && k in w'.home
      ensures Rested(w', k)
    {
      assert Rested(w, k);
      if k == i {
        Woken(w', i);
      } else {
        assert WakingFor(w.runs[i], k) ==> WakingFor(w'.runs[i], k);
        assert Full(w', w'.home[k]) == Full(w, w.home[k]);
        if Owed(w, k) {
          StillOwed(w, w', k);
        }
        OtherRests(w, w', k);
      }
    }
  }

  lemma ContextListens(w: World, i: nat, cause: Cause, w': World)
    requires Listening(w) && ContextMove(w, i, cause, w')
    ensures Listening(w')
  {
    hide Rested;
    forall k | k in w'.runs && k in w'.home
      ensures Rested(w', k)
    {
      assert Rested(w, k);
      assert forall j :: j in w.runs ==> w'.runs[j].gos == w.runs[j].gos;
      assert Full(w', w'.home[k]) == Full(w, w.home[k]);
      assert Owed(w, k) ==> Owed(w', k);
      hide Owed, Full;
      if k == i {
        OwnSame(w, w', i);
      } else {
        OtherRests(w, w', k);
      }
    }
  }

  // ---- Moves that add or remove runs, or touch none ------------------------------------------------

  /** Runs stay as they were, but for one that may appear or go away with no goroutine. */
  lemma BystandersRest(w: World, w': World, i: nat)
    requires Listening(w) && w'.limit == w.limit && w'.slots == w.slots
    requires forall k :: k in w.runs && k != i ==> k in w'.runs && w'.runs[k] == w.runs[k]
    requires forall k :: k in w.home && k != i ==> k in w'.home && w'.home[k] == w.home[k]
    requires forall k :: k in w'.runs && k != i ==> k in w.runs
    requires forall k :: k in w'.home && k != i ==> k in w.home
    requires i in w.runs ==> w.runs[i].gos == map[] || (i in w'.runs && w'.runs[i] == w.runs[i] && i in w.home && i in w'.home && w'.home[i] == w.home[i])
    requires i in w'.runs ==> !Asleep(w'.runs[i]) || (i in w.runs && w'.runs[i] == w.runs[i] && i in w.home && i in w'.home && w'.home[i] == w.home[i])
    ensures Listening(w')
  {
    hide Rested, Winding;
    forall k | k in w'.runs && k in w'.home
      ensures Rested(w', k)
    {
      if Asleep(w'.runs[k]) {
        assert Rested(w, k);
        assert Full(w', w'.home[k]) == Full(w, w.home[k]);
        assert i in w.runs && WakingFor(w.runs[i], k) ==> w.runs[i].gos != map[];
        if Owed(w, k) {
          StillOwed(w, w', k);
        }
        OtherRests(w, w', k);
      } else {
        Awake(w', k);
      }
    }
  }

  lemma Awake(w: World, k: nat)
    requires k in w.runs && k in w.home && !Asleep(w.runs[k])
    ensures Rested(w, k)
  {
  }

  lemma CrashListens(w: World, p: nat, w': World)
    requires Listening(w) && w.home.Keys == w.runs.Keys && CrashMove(w, p, w')
    ensures Listening(w')
  {
    hide Rested, Winding;
    forall k | k in w'.runs && k in w'.home
      ensures Rested(w', k)
    {
      assert Rested(w, k);
      assert Full(w', w'.home[k]) == Full(w, w.home[k]);
      if Owed(w, k) {
        StillOwed(w, w', k);
      }
      OtherRests(w, w', k);
    }
  }

  lemma StartListens(w: World, i: nat, p: nat, id: string, wf: Workflow, w': World)
    requires Listening(w) && StartMove(w, i, p, id, wf, w')
    ensures Listening(w')
  {
    hide Listening, Valid;
    BystandersRest(w, w', i);
  }

  lemma ResumeListens(w: World, i: nat, p: nat, id: string, k: nat, w': World)
    requires Listening(w) && ResumeMove(w, i, p, id, k, w')
    ensures Listening(w')
  {
    hide Listening, At, SomeStep;
    BystandersRest(w, w', i);
  }

  lemma DropListens(w: World, i: nat, w': World)
    requires Listening(w) && Safe(w) && DropMove(w, i, w')
    ensures Listening(w')
  {
    hide Listening, Drops, Holds, LogsOK;
    DroppedHasNone(LocalOf(w, i), w'.disk[w.runs[i].id]);
    BystandersRest(w, w', i);
  }

  lemma IdleListens(w: World, w': World)
    requires Listening(w) && Safe(w) && w'.runs == w.runs && w'.home == w.home && w'.slots == w.slots && w'.limit == w.limit
    ensures Listening(w')
  {
    hide Listening, Holds, LogsOK;
    BystandersRest(w, w', 0);
  }

  // ---- Over histories --------------------------------------------------------------------------------

  lemma NextListens(w: World, w': World)
    requires Listening(w) && Safe(w) && Next(w, w')
    ensures Listening(w')
  {
    hide Safe, Listening, StepMove, LoopMove, LaunchMove, LockMove, SignalMove, NotifyMove, StartMove, ResumeMove,
         DropMove, ContextMove, CrashMove, At;
    if i, s :| StepMove(w, i, s, w') { StepListens(w, i, s, w'); }
    else if i :| LoopMove(w, i, w') { LoopListens(w, i, w'); }
    else if i :| LaunchMove(w, i, w') { LaunchListens(w, i, w'); }
    else { AroundListens(w, w'); }
  }

  /** The moves that are no goroutine's own. */
  lemma AroundListens(w: World, w': World)
    requires Listening(w) && Safe(w) && Next(w, w')
    requires !(exists i, s :: StepMove(w, i, s, w')) && !(exists i :: LoopMove(w, i, w')) && !(exists i :: LaunchMove(w, i, w'))
    ensures Listening(w')
  {
    hide Safe, Listening, StepMove, LoopMove, LaunchMove, LockMove, SignalMove, NotifyMove, StartMove, ResumeMove,
         DropMove, ContextMove, CrashMove, At;
    if i, s :| LockMove(w, i, s, w') { LockListens(w, i, s, w'); }
    else if i, s, k :| SignalMove(w, i, s, k, w') { SignalListens(w, i, s, k, w'); }
    else if i :| NotifyMove(w, i, w') { NotifyListens(w, i, w'); }
    else { ComingListens(w, w'); }
  }

  /** The moves of runs that come, go, or stop. */
  lemma ComingListens(w: World, w': World)
    requires Listening(w) && Safe(w) && Next(w, w')
    requires !(exists i, s :: StepMove(w, i, s, w')) && !(exists i :: LoopMove(w, i, w')) && !(exists i :: LaunchMove(w, i, w'))
    requires !(exists i, s :: LockMove(w, i, s, w')) && !(exists i, s, k :: SignalMove(w, i, s, k, w'))
    requires !(exists i :: NotifyMove(w, i, w'))
    ensures Listening(w')
  {
    hide Safe, Listening, StepMove, LoopMove, LaunchMove, LockMove, SignalMove, NotifyMove, StartMove, ResumeMove,
         DropMove, ContextMove, CrashMove, At;
    if i, p, id, wf :| StartMove(w, i, p, id, wf, w') { StartListens(w, i, p, id, wf, w'); }
    else if i, p, id, k :| ResumeMove(w, i, p, id, k, w') { ResumeListens(w, i, p, id, k, w'); }
    else if i :| DropMove(w, i, w') { DropListens(w, i, w'); }
    else if i, cause :| ContextMove(w, i, cause, w') { ContextListens(w, i, cause, w'); }
    else if p :| CrashMove(w, p, w') { HomesAreRuns(w); CrashListens(w, p, w'); }
    else { IdleListens(w, w'); }
  }

  lemma HomesAreRuns(w: World)
    requires Safe(w)
    ensures w.home.Keys == w.runs.Keys
  {
  }

  lemma {:induction false} AlwaysListening(ws: seq<World>)
    requires History(ws)
    ensures Listening(Last(ws))
  {
    hide Safe, Next, Listening;
    if |ws| == 1 {
      InitListens(ws[0]);
    } else {
      var front := ws[..|ws| - 1];
      assert forall n :: 0 <= n < |front| ==> front[n] == ws[n];
      AlwaysListening(front);
      AlwaysSafe(front);
      assert Next(ws[|ws| - 2], ws[|ws| - 2 + 1]);
      NextListens(Last(front), Last(ws));
    }
  }

  lemma InitListens(w: World)
    requires Init(w)
    ensures Listening(w)
  {
  }
}
