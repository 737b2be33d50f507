/** The scheduler: what ready yields, why the loop is never stuck, and that its moves keep the invariant. */
module RunLoops {
  import opened Common
  import opened Workflows
  import opened RunStates
  import opened RunProtocol
  import opened RunInvariant
  import opened RunSteps

  // ---- ready -------------------------------------------------------------------------------

  /** The source's loop over the declared steps, with its own copy of busy. */
  method ReadySteps(r: Run) returns (ready: seq<Step>)
    ensures ready == Ready(r)
  {
    var steps := r.state.workflow.steps;
    var busy := r.busy;
    ready := [];
    assert steps[0..] == steps;
    for k := 0 to |steps|
      invariant Ready(r) == ready + ReadyFrom(r.state.steps, steps[k..], r.inflight, busy)
    {
      var st := steps[k];
      assert steps[k..][0] == st && steps[k..][1..] == steps[k + 1..];
      if Startable(r.state.steps, st, r.inflight, busy) {
        assert ready + ([st] + ReadyFrom(r.state.steps, steps[k + 1..], r.inflight, busy + {st.session}))
            == ready + [st] + ReadyFrom(r.state.steps, steps[k + 1..], r.inflight, busy + {st.session});
        busy := busy + {st.session};
        ready := ready + [st];
      }
    }
    assert steps[|steps|..] == [];
  }

  lemma {:induction false} ReadyIsStartable(states: map<string, StepState>, steps: seq<Step>, inflight: set<string>, busy: set<string>)
    ensures forall st :: st in ReadyFrom(states, steps, inflight, busy) ==> st in steps && Startable(states, st, inflight, busy)
  {
    if steps != [] {
      var busy' := if Startable(states, steps[0], inflight, busy) then busy + {steps[0].session} else busy;
      ReadyIsStartable(states, steps[1..], inflight, busy');
    }
  }

  lemma {:induction false} StartableIsReady(states: map<string, StepState>, steps: seq<Step>, inflight: set<string>, busy: set<string>, st: Step)
    requires st in steps && Startable(states, st, inflight, busy)
    ensures ReadyFrom(states, steps, inflight, busy) != []
  {
    if !Startable(states, steps[0], inflight, busy) {
      StartableIsReady(states, steps[1..], inflight, busy, st);
    }
  }

  /** Launching the first ready step leaves exactly the others ready: steps launch in declaration
      order, as a prefix of what ready returned. */
  lemma {:induction false} LaunchLeavesTheRest(states: map<string, StepState>, steps: seq<Step>, inflight: set<string>, busy: set<string>)
    requires forall i, j :: 0 <= i < j < |steps| ==> steps[i].id != steps[j].id
    requires ReadyFrom(states, steps, inflight, busy) != []
    ensures var ready := ReadyFrom(states, steps, inflight, busy);
            ReadyFrom(states, steps, inflight + {ready[0].id}, busy + {ready[0].session}) == ready[1..]
  {
    var ready := ReadyFrom(states, steps, inflight, busy);
    if Startable(states, steps[0], inflight, busy) {
      assert ready[1..] == ReadyFrom(states, steps[1..], inflight, busy + {steps[0].session});
      ForeignInflight(states, steps[1..], inflight, busy + {steps[0].session}, steps[0].id);
    } else {
      LaunchLeavesTheRest(states, steps[1..], inflight, busy);
    }
  }

  /** A step not on the list being in flight makes no difference to it. */
  lemma {:induction false} ForeignInflight(states: map<string, StepState>, steps: seq<Step>, inflight: set<string>, busy: set<string>, id: string)
    requires forall st :: st in steps ==> st.id != id
    ensures ReadyFrom(states, steps, inflight + {id}, busy) == ReadyFrom(states, steps, inflight, busy)
  {
    if steps != [] {
      assert steps[0] in steps;
      var busy' := if Startable(states, steps[0], inflight, busy) then busy + {steps[0].session} else busy;
      ForeignInflight(states, steps[1..], inflight, busy', id);
    }
  }

  // ---- The loop is never stuck -------------------------------------------------------------

  /** With no failed or cancelled step, no step in flight, and some step not done, one is ready. */
  lemma SomeStepIsReady(s: RunState, xs: Exchanges)
    requires Sound(s, xs) && !AllDone(s.steps)
    requires !SomeStep(s.steps, Status.Failed) && !SomeStep(s.steps, Status.Cancelled)
    ensures ReadyFrom(s.steps, s.workflow.steps, {}, {}) != []
  {
    hide Acyclic, Declared, Deps;
    var w := s.workflow;
    var rest := set id | id in s.steps && s.steps[id].status != Done;
    var left :| left in s.steps && s.steps[left].status != Done;
    assert left in rest;
    var id := SomeStepFirst(w, rest);
    var st :| st in w.steps && st.id == id;
    DeclaredStep(w, st);
    forall d | d in st.after
      ensures d in s.steps && s.steps[d].status == Done
    {
      assert d in Deps(w, id) && !HasDepIn(w, id, rest);
    }
    assert SoundStep(s.steps, id, Deps(w, id), xs);
    StartableIsReady(s.steps, w.steps, {}, {}, st);
  }

  /** The branch "no step can start" is unreachable. */
  lemma NeverStuck(a: Local)
    requires Holds(a) && !a.r.loop.Fresh? && !a.r.loop.Taken?
    ensures Decide(a.r) != Stuck
  {
    hide LogOK, Goroutines, LoopOK, Valid;
    if a.r.inflight == {} && !Stopping(a.r) && !AllDone(a.r.state.steps) {
      assert a.r.gos == map[];
      assert a.r.busy == {};
      hide Sound;
      SomeStepIsReady(a.r.state, a.xs);
    }
  }

  // ---- The loop's moves --------------------------------------------------------------------

  lemma LoopSide(r: Run, r': Run, xs: Exchanges, refused: set<ExchangeID>)
    requires RunSide(r, xs, refused, {}) && LoopOK(r')
    requires r' == r.(loop := r'.loop, wake := r'.wake, registered := r'.registered)
    requires r.loop != Taken
    ensures RunSide(r', xs, refused, {})
  {
    hide Bookkeeping, Goroutines, LoopOK;
  }

  /** A move that changes the loop's control point alone. */
  lemma AtLoopHolds(a: Local, loop: Loop)
    requires Holds(a) && a.r.loop != Taken && !a.r.loop.Fresh? && !loop.Fresh? && LoopOK(a.r.(loop := loop))
    ensures Holds(AtLoop(a, loop)) && Grows(a, AtLoop(a, loop))
  {
    hide LogSide, RunSide, LoopOK;
    LoopSide(a.r, a.r.(loop := loop), a.xs, a.refused);
  }

  lemma LoopOf(a: Local)
    requires Holds(a)
    ensures LoopOK(a.r) && a.r.gos.Keys == a.r.inflight && (a.r.inflight == {} ==> a.r.busy == {})
    ensures Outcomes(a.r.state.steps, ContextOf(a.r), a.r.gos, a.r.loop == Taken, {})
    ensures !a.r.loop.Fresh? ==> a.r.state.num > 0 && a.r.state.runID == a.r.id && Sound(a.r.state, a.xs)
  {
    hide LogOK, Goroutines, LoopOK, Sound, Outcomes;
  }

  lemma TopLoops(r: Run, next: Loop)
    requires LoopOK(r) && r.loop == Top && Decide(r) != Stuck
    requires match Decide(r)
             case Break => next == Stopped
             case Drain => next == Parked(false, false)
             case Finish => next == LoggingDone
             case Wait => next == LoggingResumed || next == Parked(true, true)
             case Launch(steps) => next == if steps == [] then Parked(true, false) else Launching(steps)
    ensures LoopOK(r.(loop := next))
  {
    hide ReadyFrom;
  }

  lemma TopKeeps(a: Local, b: Local)
    requires Holds(a) && a.r.loop == Top && TopMoves(a, b)
    ensures Holds(b) && Grows(a, b)
  {
    hide Holds, Grows, LoopOK, AtLoop, Plan;
    LoopOf(a);
    NeverStuck(a);
    var next := match Decide(a.r)
                case Break => Stopped
                case Drain => Parked(false, false)
                case Finish => LoggingDone
                case Wait => if b == AtLoop(a, LoggingResumed) then LoggingResumed else Parked(true, true)
                case Launch(steps) => if steps == [] then Parked(true, false) else Launching(steps)
                case Stuck => Top;
    TopLoops(a.r, next);
    AtLoopHolds(a, next);
  }

  /** Launching the next ready step. */
  lemma LaunchKeeps(a: Local)
    requires Holds(a) && a.r.loop.Launching? && a.r.loop.rest != []
    ensures Holds(Launches(a)) && Grows(a, Launches(a))
  {
    hide LogSide, Bookkeeping, Goroutines, Outcomes, LoopOK, Valid;
    var b, st, s := Launches(a), a.r.loop.rest[0], a.r.state;
    LaunchedStep(a);
    LaunchBooks(s.workflow, a.r.inflight, a.r.busy, st);
    LaunchedGos(s, ContextOf(a.r), a.r.gos, st.id, a.xs, a.refused);
    LaunchedOutcomes(s.steps, ContextOf(a.r), a.r.gos, false, st.id);
    LaunchedLoop(a);
    assert b.r.gos.Keys == b.r.inflight;
  }

  lemma LaunchedGos(s: RunState, c: Context, gos: map<string, PC>, id: string, xs: Exchanges, refused: set<ExchangeID>)
    requires Goroutines(s, c, gos, xs, refused, {}) && GoOK(s, c, id, Launched, xs, refused)
    ensures Goroutines(s, c, gos[id := Launched], xs, refused, {})
  {
    hide GoOK;
  }

  lemma LaunchedOutcomes(steps: map<string, StepState>, c: Context, gos: map<string, PC>, taken: bool, id: string)
    requires Outcomes(steps, c, gos, taken, {}) && id !in gos
    ensures Outcomes(steps, c, gos[id := Launched], taken, {})
  {
  }

  lemma LaunchedLoop(a: Local)
    requires Holds(a) && a.r.loop.Launching? && a.r.loop.rest != []
    ensures LoopOK(Launches(a).r)
  {
    hide LogOK, Bookkeeping, Goroutines, Outcomes, Valid, Startable, SoundSteps, Acyclic;
    LaunchedStep(a);
    DistinctIds(a.r.state.workflow);
    var s := a.r.state;
    LaunchLeavesTheRest(s.steps, s.workflow.steps, a.r.inflight, a.r.busy);
  }

  lemma DistinctIds(w: Workflow)
    requires Valid(w)
    ensures forall i, j :: 0 <= i < j < |w.steps| ==> w.steps[i].id != w.steps[j].id
  {
  }

  lemma LaunchedStep(a: Local)
    requires Holds(a) && a.r.loop.Launching? && a.r.loop.rest != []
    ensures var (st, s) := (a.r.loop.rest[0], a.r.state);
      && st in s.workflow.steps && Startable(s.steps, st, a.r.inflight, a.r.busy)
      && Valid(s.workflow) && s.steps.Keys == StepIds(s.workflow)
      && GoOK(s, ContextOf(a.r), st.id, Launched, a.xs, a.refused)
  {
    hide LogOK, Goroutines, Outcomes, Bookkeeping, Valid, Startable;
    var (st, s) := (a.r.loop.rest[0], a.r.state);
    ReadyIsStartable(s.steps, s.workflow.steps, a.r.inflight, a.r.busy);
    DeclaredStep(s.workflow, st);
    LaunchedIsFree(s, st, a.r.inflight, a.r.busy);
  }

  lemma LaunchedIsFree(s: RunState, st: Step, inflight: set<string>, busy: set<string>)
    requires Startable(s.steps, st, inflight, busy) && Deps(s.workflow, st.id) == st.after
    ensures MayStart(s, st.id)
  {
  }

  lemma LaunchBooks(w: Workflow, inflight: set<string>, busy: set<string>, st: Step)
    requires Bookkeeping(w, inflight, busy) && Valid(w) && st in w.steps
    requires st.id !in inflight && st.session !in busy
    ensures Bookkeeping(w, inflight + {st.id}, busy + {st.session})
  {
    DeclaredStep(w, st);
    hide Valid, SessionOf;
    var inflight', busy' := inflight + {st.id}, busy + {st.session};
    forall n
      ensures n in busy' <==> exists s :: s in inflight' && SessionOf(w, s) == n
    {
      if n == st.session {
        assert st.id in inflight';
      }
      if n in busy {
        var s :| s in inflight && SessionOf(w, s) == n;
        assert s in inflight';
      }
    }
  }

  // ---- The loop's own events ---------------------------------------------------------------

  /** The events the loop and Resume log, none of which touches a step. */
  predicate LoopEvent(e: Event) {
    e.kind == RunResumed || (e.kind == RunEnded && e.status.Ended())
  }

  lemma LoopEventApplies(s: RunState, e: Event)
    requires LoopEvent(e) && !s.status.Ended() && e.num == s.num + 1 && s.num > 0 && e.runID == s.runID
    ensures Applied(s, e).Ok?
    ensures var s' := Applied(s, e).value;
      && s'.steps == s.steps && s'.workflow == s.workflow
      && s'.status == if e.kind == RunResumed then Running else e.status
  {
  }

  ghost predicate NoneEarly(gos: map<string, PC>) {
    forall t :: t in gos ==> !Early(gos[t])
  }

  lemma LoopLogged(s: RunState, s': RunState, c: Context, gos: map<string, PC>, xs: Exchanges, refused: set<ExchangeID>)
    requires Goroutines(s, c, gos, xs, refused, {})
    requires s'.steps == s.steps && s'.workflow == s.workflow
    requires s'.status.Ended() ==> NoneEarly(gos)
    ensures Goroutines(s', c, gos, xs, refused, {})
  {
    hide DepsDone, Deps, LacksResult;
    forall t | t in gos
      ensures GoOK(s', c, t, gos[t], xs, refused)
    {
      assert GoOK(s, c, t, gos[t], xs, refused);
    }
  }

  lemma LoopLogOk(a: Local, e: Event, out: Append, c: Local, next: Loop)
    requires Holds(a) && a.r.loop != Taken && !a.r.loop.Fresh? && !a.r.state.status.Ended() && !next.Fresh? && next != Taken
    requires Logs(a, e, out, c, true) && LoopEvent(e) && Allowed(a.r.state, Stamped(a.r, e), a.xs, a.refused)
    requires e.kind == RunEnded ==> NoneEarly(a.r.gos)
    requires LoopOK(a.r.(state := Applied(a.r.state, Stamped(a.r, e)).value, loop := next))
    ensures Holds(AtLoop(c, next)) && Grows(a, AtLoop(c, next))
  {
    hide LogSide, Bookkeeping, Goroutines, Outcomes, LoopOK, Applied, Logs, Allowed;
    LoopOf(a);
    LoopEventApplies(a.r.state, Stamped(a.r, e));
    LogsKeepLog(a, e, out, c, true);
    LoopLogged(a.r.state, c.r.state, ContextOf(a.r), a.r.gos, a.xs, a.refused);
  }

  lemma FailedCause(r: Run, r': Run)
    requires (r' == r || r' == WithCause(r, LogFailed)) && r'.cause != Live
    ensures r' == WithCause(r, LogFailed) && r' == r.(cause := r'.cause)
  {
  }

  lemma LoopLogFails(a: Local, e: Event, out: Append, c: Local, next: Loop)
    requires Holds(a) && a.r.loop != Taken && !a.r.loop.Fresh? && !a.r.state.status.Ended() && !next.Fresh?
    requires Logs(a, e, out, c, false) && LoopEvent(e) && Allowed(a.r.state, Stamped(a.r, e), a.xs, a.refused)
    requires LoopOK(WithCause(a.r, LogFailed).(loop := next))
    ensures Holds(AtLoop(c, next)) && Grows(a, AtLoop(c, next))
  {
    hide LogSide, RunSide, LoopOK, Applied, Logs, Allowed, Sound, Outcomes, ContextOf, XsGrow, RecordsAgree;
    LoopOf(a);
    LoopEventApplies(a.r.state, Stamped(a.r, e));
    LogsKeepLog(a, e, out, c, false);
    FailedCause(a.r, c.r);
    hide WithCause;
    CauseKeeps(a.r, LogFailed, a.xs, a.refused);
    LoopSide(c.r, c.r.(loop := next), c.xs, c.refused);
  }

  lemma NoneEarlyWhenDone(a: Local)
    requires Holds(a) && AllDone(a.r.state.steps)
    ensures NoneEarly(a.r.gos)
  {
    hide LogSide, Bookkeeping, Outcomes, LoopOK, LacksResult, DepsDone;
    forall t | t in a.r.gos
      ensures !Early(a.r.gos[t])
    {
      assert GoOK(a.r.state, ContextOf(a.r), t, a.r.gos[t], a.xs, a.refused);
    }
  }

  lemma LoopLogsKeep(a: Local, e: Event, next: Loop, b: Local)
    requires Holds(a) && LoopLogs(a, e, next, b)
    requires match a.r.loop
      case LoggingResumed => e == BLANK.(kind := RunResumed) && next == Top
      case LoggingDone => e == BLANK.(kind := RunEnded, status := Done) && next == Finishing
      case LoggingEnd(status) =>
        e == BLANK.(kind := RunEnded, status := status, err := if a.r.failure.Some? then a.r.failure.value else "") && next == Finishing
      case _ => false
    ensures Holds(b) && Grows(a, b)
  {
    hide Holds, Grows, Applied, Logs, Sound, Outcomes, LoopOK, AllDone;
    LoopLogging(a, e, next);
    var out, c, ok :| Logs(a, e, out, c, ok) && b == AtLoop(c, next);
    if ok {
      LoopLogOk(a, e, out, c, next);
    } else {
      LoopLogFails(a, e, out, c, next);
    }
  }

  /** The loop is about to log an event its state allows, and can go on whatever comes of it. */
  lemma LoopLogging(a: Local, e: Event, next: Loop)
    requires Holds(a)
    requires match a.r.loop
      case LoggingResumed => e == BLANK.(kind := RunResumed) && next == Top
      case LoggingDone => e == BLANK.(kind := RunEnded, status := Done) && next == Finishing
      case LoggingEnd(status) =>
        e == BLANK.(kind := RunEnded, status := status, err := if a.r.failure.Some? then a.r.failure.value else "") && next == Finishing
      case _ => false
    ensures !a.r.state.status.Ended() && LoopEvent(e)
    ensures Allowed(a.r.state, Stamped(a.r, e), a.xs, a.refused)
    ensures e.kind == RunEnded ==> NoneEarly(a.r.gos)
    ensures Applied(a.r.state, Stamped(a.r, e)).Ok?
    ensures LoopOK(a.r.(state := Applied(a.r.state, Stamped(a.r, e)).value, loop := next))
    ensures LoopOK(WithCause(a.r, LogFailed).(loop := next))
  {
    hide Holds, Applied, Sound, Outcomes, Plan;
    LoopOf(a);
    LoopEventApplies(a.r.state, Stamped(a.r, e));
    FailedShows(a);
    if a.r.loop.LoggingDone? {
      NoneEarlyWhenDone(a);
    }
  }

  lemma FailedShows(a: Local)
    requires Holds(a)
    ensures a.r.failure.Some? ==> Blamed(a.r.state.steps, a.r.failure.value)
    ensures a.r.inflight == {} ==> NoneEarly(a.r.gos)
  {
    hide LogSide, Bookkeeping, Goroutines, LoopOK;
  }

  // ---- Start and Resume --------------------------------------------------------------------

  lemma StartKeeps(a: Local, out: Append, c: Local)
    requires Holds(a) && a.r.loop.Fresh? && Logs(a, StartEvent(a.r.loop.w), out, c, true)
    ensures Holds(AtLoop(c, Top)) && Grows(a, AtLoop(c, Top))
  {
    hide LogOK, Sound, Valid, Logs, Plan;
    LogsKeepLog(a, StartEvent(a.r.loop.w), out, c, true);
    assert a.log[..0] == [];
    assert a.r.gos == map[] && a.r.busy == {};
  }

  lemma SettleKeeps(a: Local, b: Local)
    requires Holds(a) && a.r.loop == Taken && Settles(a, b)
    ensures Holds(b) && Grows(a, b)
  {
    SettleGos(a, b);
    SettleOutcomes(a, b);
    SettleFinds(a);
    hide LogSide, Bookkeeping, Goroutines, Outcomes, LoopOK, Plan, FirstFailure, SomeStep, Blamed;
  }

  lemma {:induction false} FirstFailureIs(steps: seq<Step>, states: map<string, StepState>)
    ensures match FirstFailure(steps, states)
      case Some(text) => Blamed(states, text)
      case None => forall st :: st in steps && st.id in states ==> states[st.id].status != Status.Failed
  {
    hide StepFailure;
    if steps != [] {
      FirstFailureIs(steps[1..], states);
    }
  }

  /** What settle finds is a failed step, if there is one. */
  lemma SettleFinds(a: Local)
    requires Holds(a) && a.r.loop == Taken
    ensures var failure := FirstFailure(a.r.state.workflow.steps, a.r.state.steps);
      && (failure.Some? ==> Blamed(a.r.state.steps, failure.value))
      && (failure.Some? <==> SomeStep(a.r.state.steps, Status.Failed))
  {
    hide LogSide, RunSide, Plan, Valid, StepFailure;
    FirstFailureIs(a.r.state.workflow.steps, a.r.state.steps);
    LoopOf(a);
    hide Holds;
  }

  lemma SettleGos(a: Local, b: Local)
    requires Holds(a) && a.r.loop == Taken && Settles(a, b)
    ensures Goroutines(b.r.state, ContextOf(b.r), b.r.gos, b.xs, b.refused, {})
    ensures b == a.(r := a.r.(loop := Settled, failure := b.r.failure, stopped := b.r.stopped, cause := b.r.cause))
  {
    hide LogSide, Bookkeeping, Goroutines, Outcomes, Plan, GoOK;
    assert a.r.gos == map[];
    NoGoroutines(b.r.state, ContextOf(b.r), b.xs, b.refused);
  }

  lemma NoGoroutines(s: RunState, c: Context, xs: Exchanges, refused: set<ExchangeID>)
    ensures Goroutines(s, c, map[], xs, refused, {})
  {
  }

  lemma SettleOutcomes(a: Local, b: Local)
    requires Holds(a) && a.r.loop == Taken && Settles(a, b)
    ensures Outcomes(b.r.state.steps, ContextOf(b.r), b.r.gos, false, {}) && LoopOK(b.r)
  {
    hide Holds, Outcomes, LoopOK;
    LoopOf(a);
    SettleFinds(a);
    hide SomeStep, FirstFailure, Blamed;
    SettledOutcomes(a.r.state.steps, ContextOf(a.r), ContextOf(b.r), a.r.gos);
    SettledLoop(a.r, b.r);
  }

  lemma SettledOutcomes(steps: map<string, StepState>, c: Context, c': Context, gos: map<string, PC>)
    requires Outcomes(steps, c, gos, true, {})
    requires c'.cause == if SomeStep(steps, Status.Cancelled) && c.cause == Live then CancelledRun else c.cause
    requires c'.failed <==> SomeStep(steps, Status.Failed) || c.failed
    requires c'.stopped == (c'.failed || c.stopped)
    ensures Outcomes(steps, c', gos, false, {})
  {
  }

  lemma SettledLoop(r: Run, r': Run)
    requires LoopOK(r) && r.loop == Taken
    requires r' == r.(loop := Settled, failure := r'.failure, stopped := r'.stopped, cause := r'.cause)
    requires r'.cause == if SomeStep(r.state.steps, Status.Cancelled) && r.cause == Live then CancelledRun else r.cause
    requires SomeStep(r.state.steps, Status.Failed) ==> r'.failure.Some?
    ensures LoopOK(r')
  {
    hide Plan;
  }

  lemma SettledKeeps(a: Local, b: Local)
    requires Holds(a) && a.r.loop == Settled && LoopMoves(a, b)
    ensures Holds(b) && Grows(a, b)
  {
    hide Holds, Grows, Applied, Logs, Sound, Outcomes;
    LoopOf(a);
    FailedShows(a);
    if a.r.state.status == Paused {
      AtLoopHolds(a, Top);
    } else {
      var out, c :| Logs(a, BLANK.(kind := RunResumed), out, c, true) && b == AtLoop(c, Top);
      LoopEventApplies(a.r.state, Stamped(a.r, BLANK.(kind := RunResumed)));
      LoopLogOk(a, BLANK.(kind := RunResumed), out, c, Top);
    }
  }

  lemma WakeKeeps(a: Local)
    requires Holds(a) && a.r.loop.Parked?
    ensures var b := a.(r := a.r.(wake := false, loop := Top)); Holds(b) && Grows(a, b)
  {
    hide LogSide, Bookkeeping, Goroutines, Outcomes, Plan;
  }

  lemma FinishKeeps(a: Local)
    requires Holds(a) && a.r.loop == Finishing
    ensures var b := a.(r := WithCause(a.r.(stopped := true, registered := false, loop := Exited), RunOver));
            Holds(b) && Grows(a, b)
  {
    hide LogSide, Bookkeeping, Goroutines, Plan;
    var r := WithCause(a.r.(stopped := true, registered := false, loop := Exited), RunOver);
    GoroutinesFrame(a.r.state, r.state, ContextOf(a.r), ContextOf(r), a.r.gos, a.xs, a.refused, {});
  }

  /** Every move of the loop, of Start, and of Resume keeps the run's invariant. */
  lemma LoopKeeps(a: Local, b: Local)
    requires Holds(a) && LoopMoves(a, b)
    ensures Holds(b) && Grows(a, b)
  {
    hide Holds, Grows, LoopLogs, TopMoves, Settles, Logs;
    match a.r.loop {
      case Fresh(_) =>
        var out, c :| Logs(a, StartEvent(a.r.loop.w), out, c, true) && b == AtLoop(c, Top);
        StartKeeps(a, out, c);
      case Taken => SettleKeeps(a, b);
      case Settled => SettledKeeps(a, b);
      case Top => TopKeeps(a, b);
      case Parked(_, _) => ParkedKeeps(a, b);
      case LoggingResumed => LoopLogsKeep(a, BLANK.(kind := RunResumed), Top, b);
      case LoggingDone => LoopLogsKeep(a, BLANK.(kind := RunEnded, status := Done), Finishing, b);
      case Stopped => StoppedKeeps(a);
      case LoggingEnd(status) =>
        LoopLogsKeep(a, BLANK.(kind := RunEnded, status := status, err := if a.r.failure.Some? then a.r.failure.value else ""), Finishing, b);
      case Finishing => FinishKeeps(a);
    }
  }

  lemma ParkedKeeps(a: Local, b: Local)
    requires Holds(a) && a.r.loop.Parked? && LoopMoves(a, b)
    ensures Holds(b) && Grows(a, b)
  {
    hide Holds, Grows, Outcomes, Sound;
    if a.r.wake && b == a.(r := a.r.(wake := false, loop := Top)) {
      WakeKeeps(a);
    } else {
      LoopOf(a);
      AtLoopHolds(a, Top);
    }
  }

  lemma StoppedKeeps(a: Local)
    requires Holds(a) && a.r.loop == Stopped
    ensures Holds(AtLoop(a, EndStatus(a.r))) && Grows(a, AtLoop(a, EndStatus(a.r)))
  {
    hide Holds, Grows, Outcomes, Sound;
    LoopOf(a);
    AtLoopHolds(a, EndStatus(a.r));
  }

  /** A run dropped because its first event couldn't be logged leaves a sound log behind. */
  lemma DropKeeps(a: Local, log: seq<Event>)
    requires Holds(a) && Drops(a, log)
    ensures LogOK(log, a.r.id, a.xs, a.refused) && a.log <= log
  {
    hide LogOK, RunSide, Sound, Logs, Applied;
    DropAllowed(a);
    var e := if a.r.loop.Fresh? then StartEvent(a.r.loop.w) else BLANK.(kind := RunResumed);
    var out, c: Local :| c.log == log && Logs(a, e, out, c, false);
    LogsKeepLog(a, e, out, c, false);
  }

  lemma DropAllowed(a: Local)
    requires Holds(a)
    ensures a.r.loop.Fresh? ==> Valid(a.r.loop.w)
  {
    hide LogSide, Bookkeeping, Goroutines, Outcomes, Valid, Plan;
  }
}
