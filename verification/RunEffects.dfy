/** What a move of a run leaves alone, and what it does to slots, signals, and the next decision. */
module RunEffects {
  import opened Common
  import opened Workflows
  import opened RunStates
  import opened RunProtocol
  import opened RunInvariant
  import opened RunSteps
  import opened RunLoops

  /** Step s's goroutine holds a slot. */
  predicate Holding(r: Run, s: string) {
    s in r.gos && !Freed(r.gos[s])
  }

  /** The fields of a run a step's goroutine never writes. */
  predicate SameShell(r: Run, r': Run) {
    r'.id == r.id && r'.loop == r.loop && r'.wake == r.wake && r'.registered == r.registered && r'.decided == r.decided
  }

  lemma LogsEffect(a: Local, e: Event, out: Append, b: Local, ok: bool)
    requires Logs(a, e, out, b, ok)
    ensures b.r == a.r.(state := b.r.state, cause := b.r.cause)
    ensures b.r.cause == a.r.cause || (a.r.cause == Live && !ok)
    ensures if ok then Applied(a.r.state, Stamped(a.r, e)) == Ok(b.r.state) && b.r.cause == a.r.cause else b.r.state == a.r.state
  {
    hide Applied;
  }

  /** A goroutine's move touches no other goroutine's control point. */
  ghost predicate OnlyGo(r: Run, s: string, r': Run) {
    forall t :: t != s ==> ((t in r'.gos <==> t in r.gos) && (t in r.gos ==> r'.gos[t] == r.gos[t]))
  }

  /** s's move, but for leaving the run. */
  ghost predicate StaysIn(r: Run, s: string, r': Run)
    requires s in r.gos
  {
    && s in r'.gos && OnlyGo(r, s, r')
    && r'.inflight == r.inflight && r'.busy == r.busy && r'.notifying == r.notifying
    && (r.cause != Live ==> r'.cause == r.cause)
    && (!r.gos[s].Failing? ==> r'.failure == r.failure)
    && (Early(r'.gos[s]) ==> Early(r.gos[s]))
    && (Freed(r'.gos[s]) <==> Freed(r.gos[s]) || r.gos[s].Freeing?)
  }

  lemma LogsThenEffect(a: Local, s: string, e: Event, done: PC, failed: PC, b: Local)
    requires s in a.r.gos && LogsThen(a, s, e, done, failed, b)
    ensures b.r == a.r.(state := b.r.state, cause := b.r.cause, gos := a.r.gos[s := b.r.gos[s]])
    ensures a.r.cause != Live ==> b.r.cause == a.r.cause
    ensures || (b.r.gos[s] == done && Applied(a.r.state, Stamped(a.r, e)) == Ok(b.r.state))
            || (b.r.gos[s] == failed && b.r.state == a.r.state)
  {
    hide Applied, Logs;
    var out, c, ok :| Logs(a, e, out, c, ok) && b == Goto(c, s, if ok then done else failed);
    LogsEffect(a, e, out, c, ok);
  }

  /** What a move that writes s's control point, and little else, leaves alone. */
  lemma GoEffect(r: Run, s: string, r': Run, pc: PC)
    requires s in r.gos && r' == r.(state := r'.state, cause := r'.cause, failure := r'.failure, stopped := r'.stopped, gos := r.gos[s := pc])
    requires r.cause != Live ==> r'.cause == r.cause
    requires !r.gos[s].Failing? ==> r'.failure == r.failure
    requires Early(pc) ==> Early(r.gos[s])
    requires Freed(pc) <==> Freed(r.gos[s]) || r.gos[s].Freeing?
    ensures SameShell(r, r') && StaysIn(r, s, r')
  {
  }

  /** The event a goroutine is about to log, and where it goes from there. */
  ghost predicate LogsNext(a: Local, s: string, e: Event, done: PC, failed: PC)
    requires s in a.r.gos
  {
    && Early(a.r.gos[s]) && !Freed(done) && !Freed(failed)
    && match a.r.gos[s]
       case Binding(id) => e == BLANK.(kind := SessionOpened, session := SessionOf(a.r.state.workflow, s), sessionID := id)
       case Sent(x, prompt) => e == StartedEvent(a.r.state.workflow, s, x, prompt)
       case Adopting(x, _) => done == Freeing
       case Logging(_) => !Early(done) && !Early(failed)
       case LoggingPause(_, _) => !Early(done) && !Early(failed)
       case _ => false
  }

  ghost predicate SomeLogs(a: Local, s: string, b: Local)
    requires s in a.r.gos
  {
    exists e, done, failed :: LogsNext(a, s, e, done, failed) && LogsThen(a, s, e, done, failed, b)
  }

  /** A move that changes the control point and no state. */
  predicate Plain(r: Run, s: string, r': Run)
    requires s in r.gos
  {
    && s in r'.gos && r' == r.(failure := r'.failure, stopped := r'.stopped, gos := r.gos[s := r'.gos[s]])
    && (!r.gos[s].Failing? ==> r'.failure == r.failure)
    && (Early(r'.gos[s]) ==> Early(r.gos[s]))
    && (Freed(r'.gos[s]) <==> Freed(r.gos[s]) || r.gos[s].Freeing?)
  }

  lemma GotoPlain(a: Local, s: string, pc: PC)
    requires s in a.r.gos
    requires !Early(a.r.gos[s]) ==> !Early(pc)
    requires Freed(pc) <==> Freed(a.r.gos[s]) || a.r.gos[s].Freeing?
    ensures Plain(a.r, s, Goto(a, s, pc).r)
  {
  }

  lemma OpenPlain(a: Local, s: string, b: Local)
    requires s in a.r.gos && a.r.gos[s] == Launched && OpenStep(a, s, b)
    ensures Plain(a.r, s, b.r)
  {
    hide Plain, Goto;
    if b == Goto(a, s, Opened) {
      GotoPlain(a, s, Opened);
    } else if id :| b == Goto(a, s, Binding(id)) {
      GotoPlain(a, s, Binding(id));
    } else {
      var e: StepError :| b == Goto(a, s, Ending(NIL, None, Some(e)));
      GotoPlain(a, s, Ending(NIL, None, Some(e)));
    }
  }

  lemma SendPlain(a: Local, s: string, results: Results, b: Local)
    requires s in a.r.gos && a.r.gos[s] == Prompting(results) && SendStep(a, s, results, b)
    ensures Plain(a.r, s, b.r)
  {
    hide Plain, LacksResult, Goto;
    if e: StepError :| b == Goto(a, s, Ending(NIL, None, Some(e))) {
      GotoPlain(a, s, Ending(NIL, None, Some(e)));
    } else {
      var x: ExchangeID, prompt :| x != NIL && x !in a.xs && b == Goto(a.(xs := a.xs[x := InFlight(prompt)]), s, Sent(x, prompt));
      GotoPlain(a.(xs := a.xs[x := InFlight(prompt)]), s, Sent(x, prompt));
    }
  }

  lemma JudgePlain(a: Local, s: string, b: Local)
    requires s in a.r.gos && a.r.gos[s].Judging? && JudgeStep(a, s, a.r.gos[s], b)
    ensures Plain(a.r, s, b.r)
  {
    hide Plain, Goto;
    var pc := a.r.gos[s];
    if StepsEnded(a.r) {
      GotoPlain(a, s, Logging(EndedEvent(a.r.state.workflow, s, pc.x, Status.Cancelled, pc.res, false)));
    } else {
      match pc.err {
        case Some(Limit(resetsAt, text)) =>
          var until :| (resetsAt != 0 ==> until == resetsAt) && b == Goto(a, s, Pausing(until, text));
          GotoPlain(a, s, Pausing(until, text));
        case Some(Other(text)) =>
          GotoPlain(a, s, Logging(EndedEvent(a.r.state.workflow, s, pc.x, Failed, pc.res, false).(err := text)));
        case None =>
          GotoPlain(a, s, Logging(EndedEvent(a.r.state.workflow, s, pc.x, Done, pc.res, false)));
      }
    }
  }

  lemma BindLogs(a: Local, s: string, id: string, b: Local)
    requires s in a.r.gos && a.r.gos[s] == Binding(id) && BindStep(a, s, id, b)
    ensures SomeLogs(a, s, b)
  {
    hide LogsThen;
    var event := BLANK.(kind := SessionOpened, session := SessionOf(a.r.state.workflow, s), sessionID := id);
    var e: StepError :| LogsThen(a, s, event, Opened, Ending(NIL, None, Some(e)), b);
    assert LogsNext(a, s, event, Opened, Ending(NIL, None, Some(e)));
  }

  lemma AdoptLogs(a: Local, s: string, x: ExchangeID, results: Results, b: Local)
    requires s in a.r.gos && a.r.gos[s] == Adopting(x, results) && AdoptStep(a, s, x, results, b)
    ensures SomeLogs(a, s, b) || Plain(a.r, s, b.r)
  {
    hide LogsThen;
    if e: StepError :| b == Goto(a, s, Ending(x, None, Some(e))) {
    } else if x in a.xs && Acceptable(a.xs[x]) {
      var event := EndedEvent(a.r.state.workflow, s, x, Done, Some(a.xs[x].record.value.result), true);
      var e: StepError :| LogsThen(a, s, event, Freeing, Ending(x, None, Some(e)), b);
      assert LogsNext(a, s, event, Freeing, Ending(x, None, Some(e)));
    }
  }

  lemma LogsSome(a: Local, s: string, e: Event, done: PC, failed: PC, b: Local)
    requires s in a.r.gos && LogsNext(a, s, e, done, failed) && LogsThen(a, s, e, done, failed, b)
    ensures SomeLogs(a, s, b)
  {
    hide LogsNext, LogsThen;
  }

  lemma FailPlain(a: Local, s: string, text: string)
    requires s in a.r.gos && a.r.gos[s].Failing?
    ensures Plain(a.r, s, Goto(WithFailure(a, StepFailure(s, text)), s, Halting).r)
  {
  }

  lemma HaltPlain(a: Local, s: string)
    requires s in a.r.gos && a.r.gos[s].Halting?
    ensures Plain(a.r, s, Goto(a.(r := a.r.(stopped := true)), s, Freeing).r)
  {
  }

  /** A move either logs, or changes the control point and no state. */
  lemma StepCases(limited: bool, a: Local, s: string, b: Local)
    requires s in a.r.gos && StepMoves(limited, a, s, b) && !a.r.gos[s].Closing?
    ensures SomeLogs(a, s, b) || Plain(a.r, s, b.r)
  {
    hide LogsThen, OpenStep, BindStep, AdoptStep, SendStep, JudgeStep, ResultsOf, Plain, SomeLogs, Goto;
    match a.r.gos[s] {
      case Launched => OpenPlain(a, s, b);
      case Binding(id) => BindLogs(a, s, id, b);
      case Adopting(x, results) => AdoptLogs(a, s, x, results, b);
      case Prompting(results) => SendPlain(a, s, results, b);
      case Sent(x, prompt) =>
        LogsSome(a, s, StartedEvent(a.r.state.workflow, s, x, prompt), Following(x), Following(x), b);
      case Judging(_, _, _) => JudgePlain(a, s, b);
      case Logging(e) =>
        LogsSome(a, s, e, if e.status == Status.Failed then Failing(e.err) else Freeing, Freeing, b);
      case LoggingPause(until, text) =>
        LogsSome(a, s, BLANK.(kind := RunPaused, step := s, until := until, err := text), Freeing, Freeing, b);
      case Opened =>
        var (prior, results) := (a.r.state.steps[s], ResultsOf(a.r.state));
        GotoPlain(a, s, if prior.status == Running && prior.exchange != NIL then Adopting(prior.exchange, results) else Prompting(results));
      case Following(x) => GotoPlain(a, s, Ending(x, Some(a.xs[x].result), a.xs[x].err));
      case Ending(x, res, err) => GotoPlain(a, s, if Interrupted(a.r) then Freeing else Judging(x, res, err));
      case Pausing(until, text) =>
        var later := a.r.state.status != Paused || until > a.r.state.until;
        GotoPlain(a, s, if later then LoggingPause(until, text) else Freeing);
      case Failing(text) => FailPlain(a, s, text);
      case Halting => HaltPlain(a, s);
      case Freeing => GotoPlain(a, s, if limited then Waking(None) else Closing);
      case Waking(_) => GotoPlain(a, s, Closing);
    }
  }

  /** The effect of a goroutine's move. Closing leaves; no other move does, and freeing is the one
      move that gives a slot back. */
  lemma StepEffect(limited: bool, a: Local, s: string, b: Local)
    requires s in a.r.gos && StepMoves(limited, a, s, b)
    ensures SameShell(a.r, b.r)
    ensures if a.r.gos[s] == Closing then b == Left(a, s) else StaysIn(a.r, s, b.r)
    ensures limited && a.r.gos[s].Freeing? ==> b.r.gos[s] == Waking(None)
    ensures a.r.gos[s].Waking? ==> a.r.gos[s] == Waking(Some({}))
  {
    if a.r.gos[s] != Closing {
      StepCases(limited, a, s, b);
      hide StepMoves, LogsThen, StaysIn, SameShell;
      if SomeLogs(a, s, b) {
        var e, done, failed :| LogsNext(a, s, e, done, failed) && LogsThen(a, s, e, done, failed, b);
        LogsThenEffect(a, s, e, done, failed, b);
      }
      GoEffect(a.r, s, b.r, b.r.gos[s]);
    }
  }

  predicate SameGoroutines(r: Run, r': Run) {
    r'.id == r.id && r'.gos == r.gos && r'.notifying == r.notifying && (r'.loop.Parked? ==> r.loop == Top)
  }

  lemma LoopEffect(a: Local, b: Local)
    requires LoopMoves(a, b)
    ensures SameGoroutines(a.r, b.r)
  {
    hide Logs, TopMoves, LoopLogs, SameGoroutines, Settles, AtLoop;
    match a.r.loop {
      case Fresh(_) =>
        var out, c :| Logs(a, StartEvent(a.r.loop.w), out, c, true) && b == AtLoop(c, Top);
        LogsEffect(a, StartEvent(a.r.loop.w), out, c, true);
        AtLoopSame(a, c, Top);
      case Taken => SettlesEffect(a, b);
      case Settled =>
        if a.r.state.status != Paused {
          var out, c :| Logs(a, BLANK.(kind := RunResumed), out, c, true) && b == AtLoop(c, Top);
          LogsEffect(a, BLANK.(kind := RunResumed), out, c, true);
          AtLoopSame(a, c, Top);
        } else {
          AtLoopSame(a, a, Top);
        }
      case Top => TopEffect(a, b);
      case LoggingResumed => LoopLogsEffect(a, BLANK.(kind := RunResumed), Top, b);
      case LoggingDone => LoopLogsEffect(a, BLANK.(kind := RunEnded, status := Done), Finishing, b);
      case LoggingEnd(status) =>
        LoopLogsEffect(a, BLANK.(kind := RunEnded, status := status, err := if a.r.failure.Some? then a.r.failure.value else ""), Finishing, b);
      case Parked(_, _) =>
        if b == AtLoop(a, Top) {
          AtLoopSame(a, a, Top);
        } else {
          ShellSame(a.r, b.r);
        }
      case Stopped => AtLoopSame(a, a, EndStatus(a.r));
      case Finishing => ShellSame(a.r, b.r);
    }
  }

  lemma AtLoopSame(a: Local, c: Local, loop: Loop)
    requires c.r.id == a.r.id && c.r.gos == a.r.gos && c.r.notifying == a.r.notifying
    requires loop.Parked? ==> a.r.loop == Top
    ensures SameGoroutines(a.r, AtLoop(c, loop).r)
  {
  }

  lemma ShellSame(r: Run, r': Run)
    requires r'.id == r.id && r'.gos == r.gos && r'.notifying == r.notifying && (r'.loop.Parked? ==> r.loop == Top)
    ensures SameGoroutines(r, r')
  {
  }

  lemma SettlesEffect(a: Local, b: Local)
    requires Settles(a, b)
    ensures SameGoroutines(a.r, b.r)
  {
  }

  lemma TopEffect(a: Local, b: Local)
    requires TopMoves(a, b) && a.r.loop == Top
    ensures SameGoroutines(a.r, b.r)
  {
    hide Plan, SameGoroutines;
    match Decide(a.r) {
      case Wait => ShellSame(a.r, b.r);
      case Stuck => ShellSame(a.r, b.r);
      case Launch(_) => ShellSame(a.r, b.r);
      case _ => ShellSame(a.r, b.r);
    }
  }

  lemma LoopLogsEffect(a: Local, e: Event, next: Loop, b: Local)
    requires LoopLogs(a, e, next, b)
    requires !next.Parked?
    ensures SameGoroutines(a.r, b.r)
  {
    hide Logs, Applied;
    var out, c, ok :| Logs(a, e, out, c, ok) && b == AtLoop(c, next);
    LogsEffect(a, e, out, c, ok);
  }

  // ---- Early moves don't change what the loop would decide -----------------------------------

  /** s' differs from s only in the step id, unfinished in both. */
  predicate Unmoved(s: RunState, s': RunState, id: string) {
    && s'.workflow == s.workflow && s'.status == s.status && s'.steps.Keys == s.steps.Keys && id in s.steps
    && (forall t :: t in s.steps && t != id ==> s'.steps[t] == s.steps[t])
    && Unfinished(s.steps[id].status) && Unfinished(s'.steps[id].status)
  }

  lemma {:induction false} ReadySame(s: RunState, s': RunState, id: string, steps: seq<Step>, inflight: set<string>, busy: set<string>)
    requires Unmoved(s, s', id) && id in inflight
    ensures ReadyFrom(s'.steps, steps, inflight, busy) == ReadyFrom(s.steps, steps, inflight, busy)
  {
    if steps != [] {
      var st := steps[0];
      assert DepsDone(s'.steps, st.after) <==> DepsDone(s.steps, st.after);
      ReadySame(s, s', id, steps[1..], inflight, if Startable(s.steps, st, inflight, busy) then busy + {st.session} else busy);
    }
  }

  lemma PlanSame(s: RunState, s': RunState, id: string, stopping: bool, inflight: set<string>, busy: set<string>)
    requires Unmoved(s, s', id) && id in inflight
    ensures Plan(stopping, s', inflight, busy) == Plan(stopping, s, inflight, busy)
  {
    ReadySame(s, s', id, s.workflow.steps, inflight, busy);
  }

  lemma StartedUnmoved(s: RunState, e: Event, s': RunState, id: string)
    requires MayStart(s, id) && Applied(s, e) == Ok(s') && s.num > 0
    requires e.kind == SessionOpened || (e.kind == StepStarted && e.step == id)
    ensures Unmoved(s, s', id)
  {
  }

  /** A goroutine that has yet to log its step's end leaves the loop's decision as it was. */
  lemma EarlyUnmoved(limited: bool, a: Local, s: string, b: Local)
    requires Holds(a) && s in a.r.gos && StepMoves(limited, a, s, b)
    requires Early(a.r.gos[s]) && s in b.r.gos && Early(b.r.gos[s])
    ensures Unmoved(a.r.state, b.r.state, s)
  {
    hide Holds, StepMoves, LogsThen, MayStart, Unmoved, Applied;
    StepCases(limited, a, s, b);
    EarlyMayStart(a, s);
    MayStartUnmoved(a.r.state, s);
    if SomeLogs(a, s, b) {
      var e, done, failed :| LogsNext(a, s, e, done, failed) && LogsThen(a, s, e, done, failed, b);
      LogsThenEffect(a, s, e, done, failed, b);
      if b.r.state != a.r.state {
        StartedUnmoved(a.r.state, Stamped(a.r, e), b.r.state, s);
      }
    }
  }

  lemma EarlyMayStart(a: Local, s: string)
    requires Holds(a) && s in a.r.gos && Early(a.r.gos[s])
    ensures MayStart(a.r.state, s) && a.r.state.num > 0
  {
    GoOf(a, s);
  }

  lemma MayStartUnmoved(s: RunState, id: string)
    requires MayStart(s, id)
    ensures Unmoved(s, s, id)
  {
  }
}
