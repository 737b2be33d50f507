/** Every move of a step's goroutine keeps the run's invariant. */
module RunSteps {
  import opened Common
  import opened Workflows
  import opened RunStates
  import opened RunProtocol
  import opened RunInvariant

  // ---- Facts about a valid workflow and a sound state ---------------------------------------

  lemma DeclaredStep(w: Workflow, st: Step)
    requires Valid(w) && st in w.steps
    ensures Lookup(w.steps, st.id) == Some(st) && Deps(w, st.id) == st.after && SessionOf(w, st.id) == st.session
    ensures st.id in StepIds(w) && st.session in SessionNames(w)
    ensures forall d :: d in st.after ==> d in StepIds(w)
  {
    LookupIs(w.steps, st.id);
    assert GoodStep(w, st);
  }

  lemma SessionDeclared(w: Workflow, id: string)
    requires Valid(w) && id in StepIds(w)
    ensures SessionOf(w, id) in SessionNames(w)
  {
    var st :| st in w.steps && st.id == id;
    DeclaredStep(w, st);
  }

  /** Once everything a step comes after is done, every ancestor has a result. */
  lemma AncestorsHaveResults(s: RunState, id: string, xs: Exchanges)
    requires Sound(s, xs) && DepsDone(s.steps, Deps(s.workflow, id))
    ensures !LacksResult(s.workflow, id, ResultsOf(s)) && HasResults(s, id, ResultsOf(s))
  {
    hide Valid;
    var done := DoneSteps(s);
    forall n, d | n in done && d in Deps(s.workflow, n)
      ensures d in done
    {
      assert SoundStep(s.steps, n, Deps(s.workflow, n), xs);
    }
    forall d | Reaches(s.workflow, id, d)
      ensures d in ResultsOf(s)
    {
      ClosedHoldsReachable(s.workflow, done, id, d);
      assert SoundStep(s.steps, d, Deps(s.workflow, d), xs);
    }
  }

  // ---- Carrying the invariant -----------------------------------------------------------------

  lemma GoOf(a: Local, s: string)
    requires Holds(a) && s in a.r.gos
    ensures GoOK(a.r.state, ContextOf(a.r), s, a.r.gos[s], a.xs, a.refused)
    ensures a.r.state.num > 0 && a.r.state.runID == a.r.id && s in a.r.state.steps && !a.r.loop.Fresh?
    ensures Sound(a.r.state, a.xs)
  {
    hide GoOK, LogOK, Outcomes, Valid, Plan;
    assert s in a.r.inflight;
  }

  lemma GotoHolds(a: Local, s: string, pc: PC)
    requires Holds(a) && s in a.r.gos
    requires GoOK(a.r.state, ContextOf(a.r), s, pc, a.xs, a.refused)
    requires a.r.gos[s].Failing? ==> a.r.failure.Some?
    ensures Holds(Goto(a, s, pc)) && Grows(a, Goto(a, s, pc))
  {
    hide LogSide, GoOK, Bookkeeping, LoopOK;
    GotoKeeps(a.r, a.xs, a.refused, s, pc);
  }

  /** More exchanges, more ended ones, and more refusals take nothing away. */
  lemma GrowKeeps(a: Local, log: seq<Event>, xs: Exchanges, refused: set<ExchangeID>)
    requires Holds(a) && RecordsAgree(xs) && LogOK(log, a.r.id, xs, refused)
    requires a.log <= log && XsGrow(a.xs, xs) && a.refused <= refused
    ensures Holds(a.(log := log, xs := xs, refused := refused))
  {
    hide LogOK, Bookkeeping, Outcomes, LoopOK, GoOK, Sound;
    var r := a.r;
    assert log[..r.state.num] == a.log[..r.state.num];
    forall t | t in r.gos
      ensures GoOK(r.state, ContextOf(r), t, r.gos[t], xs, refused)
    {
      GoGrows(r.state, ContextOf(r), t, r.gos[t], a.xs, a.refused, xs, refused);
    }
    if !r.loop.Fresh? {
      SoundGrows(r.state, a.xs, xs);
    }
  }

  lemma GoGrows(s: RunState, c: Context, id: string, pc: PC, xs: Exchanges, refused: set<ExchangeID>, xs': Exchanges, refused': set<ExchangeID>)
    requires GoOK(s, c, id, pc, xs, refused) && XsGrow(xs, xs') && refused <= refused'
    ensures GoOK(s, c, id, pc, xs', refused')
  {
    hide LacksResult, HasResults, DepsDone, MayStart;
  }

  lemma SoundGrows(s: RunState, xs: Exchanges, xs': Exchanges)
    requires Sound(s, xs) && XsGrow(xs, xs')
    ensures Sound(s, xs')
  {
    hide Valid, DepsDone;
    forall id | id in s.steps
      ensures SoundStep(s.steps, id, Deps(s.workflow, id), xs')
    {
      assert SoundStep(s.steps, id, Deps(s.workflow, id), xs);
    }
  }

  lemma LogOf(a: Local)
    requires Holds(a)
    ensures LogOK(a.log, a.r.id, a.xs, a.refused) && RecordsAgree(a.xs)
  {
    hide RunSide, LogOK, RecordsAgree;
  }

  lemma RefuseHolds(a: Local, x: ExchangeID)
    requires Holds(a)
    ensures Holds(a.(refused := a.refused + {x}))
  {
    hide Holds, LogOK, RecordsAgree;
    LogOf(a);
    LogOKGrows(a.log, a.r.id, a.xs, a.refused, a.xs, a.refused + {x});
    GrowKeeps(a, a.log, a.xs, a.refused + {x});
  }

  lemma PromptHolds(a: Local, x: ExchangeID, prompt: string)
    requires Holds(a) && x !in a.xs
    ensures Holds(a.(xs := a.xs[x := InFlight(prompt)]))
  {
    hide Holds, LogOK;
    LogOf(a);
    LogOKGrows(a.log, a.r.id, a.xs, a.refused, a.xs[x := InFlight(prompt)], a.refused);
    GrowKeeps(a, a.log, a.xs[x := InFlight(prompt)], a.refused);
  }

  lemma LogsOkHolds(a: Local, s: string, e: Event, out: Append, c: Local, done: PC)
    requires Holds(a) && s in a.r.gos && MayStart(a.r.state, s) && !a.r.state.status.Ended() && Unlocked(a.r)
    requires Logs(a, e, out, c, true)
    requires StepEvent(a.r.state, ContextOf(a.r), s, Stamped(a.r, e))
    requires Allowed(a.r.state, Stamped(a.r, e), a.xs, a.refused)
    requires Applied(a.r.state, Stamped(a.r, e)).Ok?
    requires GoOK(Applied(a.r.state, Stamped(a.r, e)).value, ContextOf(a.r), s, done, a.xs, a.refused)
    requires e.kind == StepEnded && e.status == Status.Failed ==> done.Failing?
    ensures Holds(Goto(c, s, done)) && Grows(a, Goto(c, s, done))
  {
    hide LogSide, RunSide, GoOK, Allowed, MayStart, Applied, Logs, LogOK;
    GoOf(a, s);
    LogsKeepLog(a, e, out, c, true);
    StepEventApplies(a.r.state, ContextOf(a.r), s, Stamped(a.r, e));
    LoggedRun(a.r, a.xs, a.refused, s, Stamped(a.r, e), c.r.state);
    FailedOnlyByEnd(a, s, e, c.r.state);
    GotoKeeps(c.r, c.xs, c.refused, s, done);
  }

  lemma FailedOnlyByEnd(a: Local, s: string, e: Event, s': RunState)
    requires MayStart(a.r.state, s) && Applied(a.r.state, Stamped(a.r, e)) == Ok(s')
    requires e.kind != StepEnded || e.step == s
    requires e.kind != RunStarted
    ensures s in s'.steps && s'.steps[s].status == Status.Failed ==> e.kind == StepEnded && e.status == Status.Failed
  {
  }

  lemma LogsFailHolds(a: Local, s: string, e: Event, out: Append, c: Local, failed: PC)
    requires Holds(a) && s in a.r.gos && MayStart(a.r.state, s)
    requires Logs(a, e, out, c, false)
    requires Allowed(a.r.state, Stamped(a.r, e), a.xs, a.refused)
    requires Applied(a.r.state, Stamped(a.r, e)).Ok?
    requires GoOK(a.r.state, ContextOf(WithCause(a.r, LogFailed)), s, failed, a.xs, a.refused)
    ensures Holds(Goto(c, s, failed)) && Grows(a, Goto(c, s, failed))
  {
    hide LogSide, RunSide, GoOK, Allowed, Applied, Logs, LogOK, MayStart, Sound, RecordsAgree, ContextOf;
    FailedLog(a, s, e, out, c);
    hide WithCause;
    CauseGoto(a, s, failed);
    assert Goto(c, s, failed).r == WithCause(a.r, LogFailed).(gos := a.r.gos[s := failed]);
  }

  /** An append that fails leaves the run its log failed, and a log still sound. */
  lemma FailedLog(a: Local, s: string, e: Event, out: Append, c: Local)
    requires Holds(a) && s in a.r.gos && Logs(a, e, out, c, false)
    requires Allowed(a.r.state, Stamped(a.r, e), a.xs, a.refused) && Applied(a.r.state, Stamped(a.r, e)).Ok?
    ensures LogSide(c.log, a.r.id, a.r.state, a.r.loop.Fresh?, a.xs, a.refused) && a.log <= c.log
    ensures c == a.(r := WithCause(a.r, LogFailed), log := c.log)
    ensures WithCause(a.r, LogFailed) == a.r.(cause := WithCause(a.r, LogFailed).cause)
    ensures !a.r.loop.Fresh?
  {
    hide RunSide, LogSide, GoOK, Allowed, Applied, Logs, RecordsAgree;
    LogsKeepLog(a, e, out, c, false);
    hide Holds;
    GoOf(a, s);
  }

  /** A goroutine goes on in a run whose log failed. */
  lemma CauseGoto(a: Local, s: string, pc: PC)
    requires RunSide(a.r, a.xs, a.refused, {}) && s in a.r.gos && MayStart(a.r.state, s)
    requires GoOK(a.r.state, ContextOf(WithCause(a.r, LogFailed)), s, pc, a.xs, a.refused)
    ensures RunSide(WithCause(a.r, LogFailed).(gos := a.r.gos[s := pc]), a.xs, a.refused, {})
  {
    hide RunSide, GoOK;
    CauseKeeps(a.r, LogFailed, a.xs, a.refused);
    RunSideWeaker(WithCause(a.r, LogFailed), a.xs, a.refused, s);
    GotoKeeps(WithCause(a.r, LogFailed), a.xs, a.refused, s, pc);
  }

  lemma RunSideWeaker(r: Run, xs: Exchanges, refused: set<ExchangeID>, s: string)
    requires RunSide(r, xs, refused, {})
    ensures RunSide(r, xs, refused, {s})
  {
    hide GoOK, Bookkeeping, LoopOK;
  }

  /** A goroutine that logs e and goes on by the outcome. */
  lemma LogsThenHolds(a: Local, s: string, e: Event, done: PC, failed: PC, b: Local)
    requires Holds(a) && s in a.r.gos && MayStart(a.r.state, s) && !a.r.state.status.Ended() && Unlocked(a.r)
    requires LogsThen(a, s, e, done, failed, b)
    requires StepEvent(a.r.state, ContextOf(a.r), s, Stamped(a.r, e))
    requires Allowed(a.r.state, Stamped(a.r, e), a.xs, a.refused)
    requires Applied(a.r.state, Stamped(a.r, e)).Ok?
    requires GoOK(Applied(a.r.state, Stamped(a.r, e)).value, ContextOf(a.r), s, done, a.xs, a.refused)
    requires e.kind == StepEnded && e.status == Status.Failed ==> done.Failing?
    requires forall k: Context :: k.cause != Live ==> GoOK(a.r.state, k, s, failed, a.xs, a.refused)
    ensures Holds(b) && Grows(a, b)
  {
    hide Holds, Grows, GoOK, Allowed, MayStart, Applied, Logs, StepEvent;
    var out, c, ok :| Logs(a, e, out, c, ok) && b == Goto(c, s, if ok then done else failed);
    if ok {
      LogsOkHolds(a, s, e, out, c, done);
    } else {
      LogsFailHolds(a, s, e, out, c, failed);
    }
  }

  // ---- The moves ---------------------------------------------------------------------------

  lemma OpenKeeps(a: Local, s: string, b: Local)
    requires Holds(a) && s in a.r.gos && a.r.gos[s] == Launched && OpenStep(a, s, b)
    ensures Holds(b) && Grows(a, b)
  {
    hide Holds, Grows, MayStart, LacksResult, HasResults, Sound, Goto;
    GoOf(a, s);
    if b == Goto(a, s, Opened) {
      GotoHolds(a, s, Opened);
    } else if id :| b == Goto(a, s, Binding(id)) {
      GotoHolds(a, s, Binding(id));
    } else {
      var e: StepError :| b == Goto(a, s, Ending(NIL, None, Some(e)));
      GotoHolds(a, s, Ending(NIL, None, Some(e)));
    }
  }

  lemma BindKeeps(a: Local, s: string, id: string, b: Local)
    requires Holds(a) && s in a.r.gos && a.r.gos[s] == Binding(id) && Unlocked(a.r) && BindStep(a, s, id, b)
    ensures Holds(b) && Grows(a, b)
  {
    hide Holds, Grows, LacksResult, HasResults, DepsDone, Valid, LogsThen, Applied;
    GoOf(a, s);
    SessionDeclared(a.r.state.workflow, s);
    var event := BLANK.(kind := SessionOpened, session := SessionOf(a.r.state.workflow, s), sessionID := id);
    var e: StepError :| LogsThen(a, s, event, Opened, Ending(NIL, None, Some(e)), b);
    StepEventApplies(a.r.state, ContextOf(a.r), s, Stamped(a.r, event));
    LogsThenHolds(a, s, event, Opened, Ending(NIL, None, Some(e)), b);
  }

  lemma ReadKeeps(a: Local, s: string, b: Local)
    requires Holds(a) && s in a.r.gos && a.r.gos[s] == Opened && ReadStep(a, s, b)
    ensures Holds(b) && Grows(a, b)
  {
    hide Holds, Grows, LacksResult, HasResults, DepsDone, Valid, ResultsOf;
    GoOf(a, s);
    AncestorsHaveResults(a.r.state, s, a.xs);
    assert SoundStep(a.r.state.steps, s, Deps(a.r.state.workflow, s), a.xs);
    GotoHolds(a, s, b.r.gos[s]);
  }

  lemma AdoptedKeeps(a: Local, s: string, x: ExchangeID, results: Results, e: StepError, b: Local)
    requires Holds(a) && s in a.r.gos && a.r.gos[s] == Adopting(x, results) && Unlocked(a.r)
    requires x in a.xs && Acceptable(a.xs[x])
    requires LogsThen(a, s, EndedEvent(a.r.state.workflow, s, x, Done, Some(a.xs[x].record.value.result), true), Freeing, Ending(x, None, Some(e)), b)
    ensures Holds(b) && Grows(a, b)
  {
    hide Holds, Grows, LacksResult, HasResults, DepsDone, Sound, LogsThen, Applied, LogOK;
    GoOf(a, s);
    LogOf(a);
    var event := EndedEvent(a.r.state.workflow, s, x, Done, Some(a.xs[x].record.value.result), true);
    StepEventApplies(a.r.state, ContextOf(a.r), s, Stamped(a.r, event));
    LogsThenHolds(a, s, event, Freeing, Ending(x, None, Some(e)), b);
  }

  lemma AdoptKeeps(a: Local, s: string, x: ExchangeID, results: Results, b: Local)
    requires Holds(a) && s in a.r.gos && a.r.gos[s] == Adopting(x, results) && Unlocked(a.r) && AdoptStep(a, s, x, results, b)
    ensures Holds(b) && Grows(a, b)
  {
    hide Holds, LacksResult, HasResults, MayStart, Sound, LogsThen, Goto;
    GoOf(a, s);
    if e: StepError :| b == Goto(a, s, Ending(x, None, Some(e))) {
      GotoHolds(a, s, Ending(x, None, Some(e)));
    } else if x in a.xs && Acceptable(a.xs[x]) {
      var e: StepError :|
        LogsThen(a, s, EndedEvent(a.r.state.workflow, s, x, Done, Some(a.xs[x].record.value.result), true), Freeing, Ending(x, None, Some(e)), b);
      AdoptedKeeps(a, s, x, results, e, b);
    } else {
      RefuseHolds(a, x);
      GotoHolds(a.(refused := a.refused + {x}), s, Prompting(results));
    }
  }

  lemma SendKeeps(a: Local, s: string, results: Results, b: Local)
    requires Holds(a) && s in a.r.gos && a.r.gos[s] == Prompting(results) && SendStep(a, s, results, b)
    ensures Holds(b) && Grows(a, b)
  {
    hide Holds, LacksResult, HasResults, MayStart, Sound, Goto;
    GoOf(a, s);
    if e: StepError :| b == Goto(a, s, Ending(NIL, None, Some(e))) {
      GotoHolds(a, s, Ending(NIL, None, Some(e)));
    } else {
      var x: ExchangeID, prompt :| x != NIL && x !in a.xs && b == Goto(a.(xs := a.xs[x := InFlight(prompt)]), s, Sent(x, prompt));
      PromptHolds(a, x, prompt);
      GotoHolds(a.(xs := a.xs[x := InFlight(prompt)]), s, Sent(x, prompt));
    }
  }

  lemma StartedKeeps(a: Local, s: string, x: ExchangeID, prompt: string, b: Local)
    requires Holds(a) && s in a.r.gos && a.r.gos[s] == Sent(x, prompt) && Unlocked(a.r) && StartedStep(a, s, x, prompt, b)
    ensures Holds(b) && Grows(a, b)
  {
    hide Holds, Grows, LacksResult, HasResults, DepsDone, Sound, LogsThen, Applied;
    GoOf(a, s);
    var event := StartedEvent(a.r.state.workflow, s, x, prompt);
    StepEventApplies(a.r.state, ContextOf(a.r), s, Stamped(a.r, event));
    StartedLeavesDeps(a.r.state, s, Stamped(a.r, event));
    LogsThenHolds(a, s, event, Following(x), Following(x), b);
  }

  lemma StartedLeavesDeps(s: RunState, id: string, e: Event)
    requires MayStart(s, id) && e.kind == StepStarted && e.step == id && Applied(s, e).Ok?
    ensures MayStart(Applied(s, e).value, id)
  {
    assert forall d :: d in s.steps && s.steps[d].status == Done ==> d != id;
  }

  lemma FollowKeeps(a: Local, s: string, x: ExchangeID, b: Local)
    requires Holds(a) && s in a.r.gos && a.r.gos[s] == Following(x) && FollowStep(a, s, x, b)
    ensures Holds(b) && Grows(a, b)
  {
    hide Holds, Grows, LacksResult, HasResults, MayStart, Sound;
    GoOf(a, s);
    GotoHolds(a, s, b.r.gos[s]);
  }

  lemma TestKeeps(a: Local, s: string)
    requires Holds(a) && s in a.r.gos && a.r.gos[s].Ending?
    ensures var pc := a.r.gos[s];
            var b := Goto(a, s, if Interrupted(a.r) then Freeing else Judging(pc.x, pc.res, pc.err));
            Holds(b) && Grows(a, b)
  {
    hide Holds, Grows, LacksResult, HasResults, MayStart, Sound;
    GoOf(a, s);
    var pc := a.r.gos[s];
    GotoHolds(a, s, if Interrupted(a.r) then Freeing else Judging(pc.x, pc.res, pc.err));
  }

  lemma JudgeKeeps(a: Local, s: string, b: Local)
    requires Holds(a) && s in a.r.gos && a.r.gos[s].Judging? && JudgeStep(a, s, a.r.gos[s], b)
    ensures Holds(b) && Grows(a, b)
  {
    hide Holds, Grows, LacksResult, HasResults, MayStart, Sound, Goto;
    GoOf(a, s);
    var pc := a.r.gos[s];
    if StepsEnded(a.r) {
      GotoHolds(a, s, Logging(EndedEvent(a.r.state.workflow, s, pc.x, Status.Cancelled, pc.res, false)));
    } else {
      match pc.err {
        case Some(Limit(resetsAt, text)) =>
          var until :| (resetsAt != 0 ==> until == resetsAt) && b == Goto(a, s, Pausing(until, text));
          GotoHolds(a, s, Pausing(until, text));
        case Some(Other(text)) =>
          GotoHolds(a, s, Logging(EndedEvent(a.r.state.workflow, s, pc.x, Failed, pc.res, false).(err := text)));
        case None =>
          GotoHolds(a, s, Logging(EndedEvent(a.r.state.workflow, s, pc.x, Done, pc.res, false)));
      }
    }
  }

  lemma EndedKeeps(a: Local, s: string, e: Event, b: Local)
    requires Holds(a) && s in a.r.gos && a.r.gos[s] == Logging(e) && Unlocked(a.r)
    requires LogsThen(a, s, e, if e.status == Status.Failed then Failing(e.err) else Freeing, Freeing, b)
    ensures Holds(b) && Grows(a, b)
  {
    hide Holds, Grows, LacksResult, HasResults, DepsDone, Sound, LogsThen, Applied;
    GoOf(a, s);
    StepEventApplies(a.r.state, ContextOf(a.r), s, Stamped(a.r, e));
    LogsThenHolds(a, s, e, if e.status == Status.Failed then Failing(e.err) else Freeing, Freeing, b);
  }

  lemma PauseKeeps(a: Local, s: string, until: int, text: string, b: Local)
    requires Holds(a) && s in a.r.gos && a.r.gos[s] == Pausing(until, text) && PauseStep(a, s, until, text, b)
    ensures Holds(b) && Grows(a, b)
  {
    hide Holds, Grows, LacksResult, HasResults, MayStart, Sound;
    GoOf(a, s);
    GotoHolds(a, s, b.r.gos[s]);
  }

  lemma PausedKeeps(a: Local, s: string, until: int, text: string, b: Local)
    requires Holds(a) && s in a.r.gos && Unlocked(a.r) && a.r.gos[s] == LoggingPause(until, text)
    requires LogsThen(a, s, BLANK.(kind := RunPaused, step := s, until := until, err := text), Freeing, Freeing, b)
    ensures Holds(b) && Grows(a, b)
  {
    hide Holds, Grows, LacksResult, HasResults, DepsDone, Sound, LogsThen, Applied;
    GoOf(a, s);
    var event := BLANK.(kind := RunPaused, step := s, until := until, err := text);
    StepEventApplies(a.r.state, ContextOf(a.r), s, Stamped(a.r, event));
    LogsThenHolds(a, s, event, Freeing, Freeing, b);
  }

  /** A change of the run's failure or of its steps' context, made by goroutine s. */
  lemma ContextHolds(a: Local, r: Run, s: string, pc: PC)
    requires Holds(a) && s in a.r.gos && (Unlocked(a.r) || r.failure == a.r.failure)
    requires r == a.r.(failure := r.failure, stopped := r.stopped)
    requires (a.r.failure.Some? ==> r.failure.Some?) && (a.r.stopped ==> r.stopped)
    requires r.failure.Some? ==> Blamed(r.state.steps, r.failure.value)
    requires r.stopped && !a.r.stopped ==> r.failure.Some?
    requires GoOK(r.state, ContextOf(r), s, pc, a.xs, a.refused)
    requires a.r.gos[s].Failing? ==> r.failure.Some?
    ensures Holds(Goto(a.(r := r), s, pc)) && Grows(a, Goto(a.(r := r), s, pc))
  {
    hide LogSide, Bookkeeping, Goroutines, GoOK, Plan;
    assert a.r.inflight != {};
    GoroutinesFrame(a.r.state, r.state, ContextOf(a.r), ContextOf(r), a.r.gos, a.xs, a.refused, {s});
    GotoKeeps(r, a.xs, a.refused, s, pc);
  }

  lemma FailKeeps(a: Local, s: string, text: string)
    requires Holds(a) && s in a.r.gos && a.r.gos[s] == Failing(text) && Unlocked(a.r)
    ensures var b := Goto(WithFailure(a, StepFailure(s, text)), s, Halting); Holds(b) && Grows(a, b)
  {
    hide Holds, Grows, Sound, StepFailure;
    GoOf(a, s);
    FailureIsAStep(a);
    ContextHolds(a, WithFailure(a, StepFailure(s, text)).r, s, Halting);
  }

  lemma FailureIsAStep(a: Local)
    requires Holds(a)
    ensures a.r.failure.Some? ==> Blamed(a.r.state.steps, a.r.failure.value)
  {
    hide LogSide, Bookkeeping, Goroutines, LoopOK;
  }

  lemma HaltKeeps(a: Local, s: string)
    requires Holds(a) && s in a.r.gos && a.r.gos[s] == Halting
    ensures var b := Goto(a.(r := a.r.(stopped := true)), s, Freeing); Holds(b) && Grows(a, b)
  {
    hide Holds, Grows, Sound;
    GoOf(a, s);
    FailureIsAStep(a);
    ContextHolds(a, a.r.(stopped := true), s, Freeing);
  }

  lemma LeaveKeeps(a: Local, s: string)
    requires Holds(a) && s in a.r.gos && a.r.gos[s] == Closing && Unlocked(a.r)
    ensures Holds(Left(a, s)) && Grows(a, Left(a, s))
  {
    hide LogSide, GoOK, Plan, Bookkeeping, SessionOf;
    var b := Left(a, s);
    assert a.r.inflight != {};
    LeaveBooks(a.r.state.workflow, a.r.inflight, a.r.busy, s);
  }

  lemma LeaveBooks(w: Workflow, inflight: set<string>, busy: set<string>, s: string)
    requires Bookkeeping(w, inflight, busy) && s in inflight
    ensures Bookkeeping(w, inflight - {s}, busy - {SessionOf(w, s)})
  {
    hide SessionOf;
  }

  /** Every move of a step's goroutine keeps the run's invariant. */
  lemma StepKeeps(limited: bool, a: Local, s: string, b: Local)
    requires Holds(a) && s in a.r.gos && StepMoves(limited, a, s, b)
    ensures Holds(b) && Grows(a, b)
  {
    hide Holds, Grows;
    match a.r.gos[s] {
      case Launched => OpenKeeps(a, s, b);
      case Binding(id) => BindKeeps(a, s, id, b);
      case Opened => ReadKeeps(a, s, b);
      case Adopting(x, results) => AdoptKeeps(a, s, x, results, b);
      case Prompting(results) => SendKeeps(a, s, results, b);
      case Sent(x, prompt) => StartedKeeps(a, s, x, prompt, b);
      case Following(x) => FollowKeeps(a, s, x, b);
      case Ending(_, _, _) => TestKeeps(a, s);
      case Judging(_, _, _) => JudgeKeeps(a, s, b);
      case Logging(e) => EndedKeeps(a, s, e, b);
      case Pausing(until, text) => PauseKeeps(a, s, until, text, b);
      case LoggingPause(until, text) => PausedKeeps(a, s, until, text, b);
      case Failing(text) => FailKeeps(a, s, text);
      case Halting => HaltKeeps(a, s);
      case Freeing => GotoHolds(a, s, if limited then Waking(None) else Closing);
      case Waking(_) => GotoHolds(a, s, Closing);
      case Closing => LeaveKeeps(a, s);
    }
  }
}
