/** A step's goroutine goes on: it always has a move, unless it waits for its exchange, and it ends. */
module RunnerProgress {
  import opened Common
  import opened Workflows
  import opened RunStates
  import opened RunProtocol
  import opened RunInvariant
  import opened RunSteps
  import opened Runners
  import opened RunnerTheorems

  /** How far a goroutine is from its end, signals aside. */
  function Rank(pc: PC): nat {
    match pc
    case Launched => 16
    case Binding(_) => 15
    case Opened => 14
    case Adopting(_, _) => 13
    case Prompting(_) => 12
    case Sent(_, _) => 11
    case Following(_) => 10
    case Ending(_, _, _) => 9
    case Judging(_, _, _) => 8
    case Logging(_) => 7
    case Pausing(_, _) => 6
    case LoggingPause(_, _) => 5
    case Failing(_) => 4
    case Halting => 3
    case Freeing => 2
    case Waking(_) => 1
    case Closing => 0
  }

  // ---- Each move is nearer the end -----------------------------------------------------------------

  lemma LogsThenGoes(a: Local, s: string, e: Event, done: PC, failed: PC, b: Local)
    requires LogsThen(a, s, e, done, failed, b)
    ensures s in b.r.gos && (b.r.gos[s] == done || b.r.gos[s] == failed)
  {
    hide Logs;
    var out, c, ok :| Logs(a, e, out, c, ok) && b == Goto(c, s, if ok then done else failed);
  }

  lemma BindGoes(a: Local, s: string, id: string, b: Local)
    requires s in a.r.gos && a.r.gos[s] == Binding(id) && BindStep(a, s, id, b)
    ensures s in b.r.gos && Rank(b.r.gos[s]) < Rank(a.r.gos[s])
  {
    hide LogsThen;
    var event := BLANK.(kind := SessionOpened, session := SessionOf(a.r.state.workflow, s), sessionID := id);
    var e: StepError :| LogsThen(a, s, event, Opened, Ending(NIL, None, Some(e)), b);
    LogsThenGoes(a, s, event, Opened, Ending(NIL, None, Some(e)), b);
  }

  lemma AdoptGoes(a: Local, s: string, x: ExchangeID, results: Results, b: Local)
    requires s in a.r.gos && a.r.gos[s] == Adopting(x, results) && AdoptStep(a, s, x, results, b)
    ensures s in b.r.gos && Rank(b.r.gos[s]) < Rank(a.r.gos[s])
  {
    hide LogsThen, EndedEvent;
    if e: StepError :| b == Goto(a, s, Ending(x, None, Some(e))) {
    } else if x in a.xs && Acceptable(a.xs[x]) {
      var event := EndedEvent(a.r.state.workflow, s, x, Done, Some(a.xs[x].record.value.result), true);
      var e: StepError :| LogsThen(a, s, event, Freeing, Ending(x, None, Some(e)), b);
      LogsThenGoes(a, s, event, Freeing, Ending(x, None, Some(e)), b);
    }
  }

  lemma GotoGoes(a: Local, s: string, pc: PC)
    ensures s in Goto(a, s, pc).r.gos && Goto(a, s, pc).r.gos[s] == pc
  {
  }

  lemma OpenGoes(a: Local, s: string, b: Local)
    requires s in a.r.gos && a.r.gos[s] == Launched && OpenStep(a, s, b)
    ensures s in b.r.gos && Rank(b.r.gos[s]) < Rank(a.r.gos[s])
  {
    hide Goto;
    if b == Goto(a, s, Opened) {
      GotoGoes(a, s, Opened);
    } else if id :| b == Goto(a, s, Binding(id)) {
      GotoGoes(a, s, Binding(id));
    } else {
      var e: StepError :| b == Goto(a, s, Ending(NIL, None, Some(e)));
      GotoGoes(a, s, Ending(NIL, None, Some(e)));
    }
  }

  lemma SendGoes(a: Local, s: string, results: Results, b: Local)
    requires s in a.r.gos && a.r.gos[s] == Prompting(results) && SendStep(a, s, results, b)
    ensures s in b.r.gos && Rank(b.r.gos[s]) < Rank(a.r.gos[s])
  {
    hide LacksResult, Goto;
    if e: StepError :| b == Goto(a, s, Ending(NIL, None, Some(e))) {
      GotoGoes(a, s, Ending(NIL, None, Some(e)));
    } else {
      var x: ExchangeID, prompt :| b == Goto(a.(xs := a.xs[x := InFlight(prompt)]), s, Sent(x, prompt));
      GotoGoes(a.(xs := a.xs[x := InFlight(prompt)]), s, Sent(x, prompt));
    }
  }

  lemma JudgedGoes(a: Local, s: string, b: Local)
    requires s in a.r.gos && a.r.gos[s].Judging? && JudgeStep(a, s, a.r.gos[s], b)
    ensures s in b.r.gos && Rank(b.r.gos[s]) < Rank(a.r.gos[s])
  {
    hide EndedEvent, Goto;
    var (pc, w) := (a.r.gos[s], a.r.state.workflow);
    if StepsEnded(a.r) {
      GotoGoes(a, s, Logging(EndedEvent(w, s, pc.x, Status.Cancelled, pc.res, false)));
    } else {
      match pc.err {
        case Some(Limit(resetsAt, text)) =>
          var until :| b == Goto(a, s, Pausing(until, text));
          GotoGoes(a, s, Pausing(until, text));
        case Some(Other(text)) => GotoGoes(a, s, Logging(EndedEvent(w, s, pc.x, Status.Failed, pc.res, false).(err := text)));
        case None => GotoGoes(a, s, Logging(EndedEvent(w, s, pc.x, Done, pc.res, false)));
      }
    }
  }

  lemma StepGoes(limited: bool, a: Local, s: string, b: Local)
    requires s in a.r.gos && StepMoves(limited, a, s, b)
    ensures s in b.r.gos ==> Rank(b.r.gos[s]) < Rank(a.r.gos[s])
  {
    hide LogsThen, OpenStep, BindStep, AdoptStep, SendStep, JudgeStep, ResultsOf, StartedEvent, WithFailure, StepFailure;
    match a.r.gos[s] {
      case Launched => OpenGoes(a, s, b);
      case Binding(id) => BindGoes(a, s, id, b);
      case Adopting(x, results) => AdoptGoes(a, s, x, results, b);
      case Prompting(results) => SendGoes(a, s, results, b);
      case Sent(x, prompt) => LogsThenGoes(a, s, StartedEvent(a.r.state.workflow, s, x, prompt), Following(x), Following(x), b);
      case Judging(_, _, _) => JudgedGoes(a, s, b);
      case Logging(e) => LogsThenGoes(a, s, e, if e.status == Status.Failed then Failing(e.err) else Freeing, Freeing, b);
      case LoggingPause(until, text) =>
        LogsThenGoes(a, s, BLANK.(kind := RunPaused, step := s, until := until, err := text), Freeing, Freeing, b);
      case _ => PlainGoes(limited, a, s, b);
    }
  }

  lemma PlainGoes(limited: bool, a: Local, s: string, b: Local)
    requires s in a.r.gos && StepMoves(limited, a, s, b)
    requires var pc := a.r.gos[s];
      pc.Opened? || pc.Following? || pc.Ending? || pc.Pausing? || pc.Failing? || pc.Halting? || pc.Freeing? || pc.Waking? || pc.Closing?
    ensures s in b.r.gos ==> Rank(b.r.gos[s]) < Rank(a.r.gos[s])
  {
    hide OpenStep, BindStep, AdoptStep, SendStep, StartedStep, JudgeStep, LogsThen, ResultsOf, StepFailure;
  }

  // ---- There is always a move ------------------------------------------------------------------------

  /** The goroutine waits: for its exchange to be over, for the loop to let go of the lock, or for its
      signals to the process's runs. */
  predicate Waits(a: Local, s: string)
    requires s in a.r.gos
  {
    || !Unlocked(a.r)
    || (a.r.gos[s].Following? && a.r.gos[s].x in a.xs && !a.xs[a.r.gos[s].x].Over?)
    || (a.r.gos[s].Waking? && a.r.gos[s] != Waking(Some({})))
  }

  /** An append can always fail without a trace. */
  lemma CanLog(a: Local, s: string, e: Event, done: PC, failed: PC)
    ensures exists b :: LogsThen(a, s, e, done, failed, b)
  {
    hide Applied;
    var c := if Applied(a.r.state, Stamped(a.r, e)).Ok? then a.(r := WithCause(a.r, LogFailed)) else a;
    assert Logs(a, e, Lost, c, false);
    assert LogsThen(a, s, e, done, failed, Goto(c, s, failed));
  }

  lemma CanBind(a: Local, s: string, id: string)
    ensures exists b :: BindStep(a, s, id, b)
  {
    hide LogsThen;
    var event := BLANK.(kind := SessionOpened, session := SessionOf(a.r.state.workflow, s), sessionID := id);
    var e := Other("");
    CanLog(a, s, event, Opened, Ending(NIL, None, Some(e)));
    var b :| LogsThen(a, s, event, Opened, Ending(NIL, None, Some(e)), b);
    assert BindStep(a, s, id, b);
  }

  lemma CanStart(a: Local, s: string, x: ExchangeID, prompt: string)
    ensures exists b :: StartedStep(a, s, x, prompt, b)
  {
    hide LogsThen;
    CanLog(a, s, StartedEvent(a.r.state.workflow, s, x, prompt), Following(x), Following(x));
    var b :| LogsThen(a, s, StartedEvent(a.r.state.workflow, s, x, prompt), Following(x), Following(x), b);
    assert StartedStep(a, s, x, prompt, b);
  }

  lemma CanJudge(a: Local, s: string, pc: PC)
    requires pc.Judging?
    ensures exists b :: JudgeStep(a, s, pc, b)
  {
    hide Goto;
    var w := a.r.state.workflow;
    if StepsEnded(a.r) {
      assert JudgeStep(a, s, pc, Goto(a, s, Logging(EndedEvent(w, s, pc.x, Status.Cancelled, pc.res, false))));
    } else {
      match pc.err {
        case Some(Limit(resetsAt, text)) => assert JudgeStep(a, s, pc, Goto(a, s, Pausing(resetsAt, text)));
        case Some(Other(text)) =>
          assert JudgeStep(a, s, pc, Goto(a, s, Logging(EndedEvent(w, s, pc.x, Status.Failed, pc.res, false).(err := text))));
        case None =>
          assert JudgeStep(a, s, pc, Goto(a, s, Logging(EndedEvent(w, s, pc.x, Done, pc.res, false))));
      }
    }
  }

  lemma CanStep(limited: bool, a: Local, s: string)
    requires Holds(a) && s in a.r.gos && !Waits(a, s)
    ensures exists b :: StepMoves(limited, a, s, b)
  {
    GoOf(a, s);
    FollowedIsThere(a, s);
    hide Holds, GoOK, Sound, StepMoves;
    if Rank(a.r.gos[s]) >= 12 {
      CanBegin(limited, a, s);
    } else if Rank(a.r.gos[s]) >= 8 {
      CanFollow(limited, a, s);
    } else {
      CanEnd(limited, a, s);
    }
  }

  lemma FollowedIsThere(a: Local, s: string)
    requires s in a.r.gos && GoOK(a.r.state, ContextOf(a.r), s, a.r.gos[s], a.xs, a.refused)
    ensures a.r.gos[s].Following? ==> a.r.gos[s].x in a.xs
  {
    hide HasResults, LacksResult, DepsDone, Truthful;
  }

  lemma CanBegin(limited: bool, a: Local, s: string)
    requires s in a.r.gos && !Waits(a, s) && Rank(a.r.gos[s]) >= 12 && s in a.r.state.steps
    ensures exists b :: StepMoves(limited, a, s, b)
  {
    hide Goto, LogsThen, BindStep, ResultsOf;
    var pc := a.r.gos[s];
    match pc {
      case Launched => assert StepMoves(limited, a, s, Goto(a, s, Opened));
      case Binding(id) =>
        CanBind(a, s, id);
        var b :| BindStep(a, s, id, b);
        assert StepMoves(limited, a, s, b);
      case Opened =>
        var (prior, results) := (a.r.state.steps[s], ResultsOf(a.r.state));
        var next := if prior.status == Running && prior.exchange != NIL then Adopting(prior.exchange, results) else Prompting(results);
        assert StepMoves(limited, a, s, Goto(a, s, next));
      case Adopting(x, results) =>
        assert AdoptStep(a, s, x, results, Goto(a, s, Ending(x, None, Some(Other("")))));
        assert StepMoves(limited, a, s, Goto(a, s, Ending(x, None, Some(Other("")))));
      case Prompting(results) =>
        assert SendStep(a, s, results, Goto(a, s, Ending(NIL, None, Some(Other("")))));
        assert StepMoves(limited, a, s, Goto(a, s, Ending(NIL, None, Some(Other("")))));
    }
  }

  lemma CanFollow(limited: bool, a: Local, s: string)
    requires s in a.r.gos && !Waits(a, s) && 8 <= Rank(a.r.gos[s]) < 12 && (a.r.gos[s].Following? ==> a.r.gos[s].x in a.xs)
    ensures exists b :: StepMoves(limited, a, s, b)
  {
    hide Goto, LogsThen, StartedStep, JudgeStep;
    var pc := a.r.gos[s];
    match pc {
      case Sent(x, prompt) =>
        CanStart(a, s, x, prompt);
        var b :| StartedStep(a, s, x, prompt, b);
        assert StepMoves(limited, a, s, b);
      case Following(x) => assert StepMoves(limited, a, s, Goto(a, s, Ending(x, Some(a.xs[x].result), a.xs[x].err)));
      case Ending(x, res, err) =>
        assert StepMoves(limited, a, s, Goto(a, s, if Interrupted(a.r) then Freeing else Judging(x, res, err)));
      case Judging(_, _, _) =>
        CanJudge(a, s, pc);
        var b :| JudgeStep(a, s, pc, b);
        assert StepMoves(limited, a, s, b);
    }
  }

  lemma CanEnd(limited: bool, a: Local, s: string)
    requires s in a.r.gos && !Waits(a, s) && Rank(a.r.gos[s]) < 8
    ensures exists b :: StepMoves(limited, a, s, b)
  {
    hide LogsThen;
    match a.r.gos[s] {
      case Logging(e) =>
        var next := if e.status == Status.Failed then Failing(e.err) else Freeing;
        CanLog(a, s, e, next, Freeing);
        var b :| LogsThen(a, s, e, next, Freeing, b);
        assert StepMoves(limited, a, s, b);
      case Pausing(until, text) =>
        var later := a.r.state.status != Paused || until > a.r.state.until;
        assert StepMoves(limited, a, s, Goto(a, s, if later then LoggingPause(until, text) else Freeing));
      case LoggingPause(until, text) =>
        var e := BLANK.(kind := RunPaused, step := s, until := until, err := text);
        CanLog(a, s, e, Freeing, Freeing);
        var b :| LogsThen(a, s, e, Freeing, Freeing, b);
        assert StepMoves(limited, a, s, b);
      case Failing(text) => assert StepMoves(limited, a, s, Goto(WithFailure(a, StepFailure(s, text)), s, Halting));
      case Halting => assert StepMoves(limited, a, s, Goto(a.(r := a.r.(stopped := true)), s, Freeing));
      case Freeing => assert StepMoves(limited, a, s, Goto(a, s, if limited then Waking(None) else Closing));
      case Waking(_) => assert StepMoves(limited, a, s, Goto(a, s, Closing));
      case Closing => assert StepMoves(limited, a, s, Left(a, s));
    }
  }

  /** A step's goroutine always has a move of its own, or signals to give, unless the loop holds the lock
      or its exchange has yet to end; and its moves are few: each brings it nearer its end. */
  lemma StepsGoOn(w: World, i: nat, s: string)
    requires Reachable(w) && i in w.runs && s in w.runs[i].gos
    ensures || (exists w' :: StepMove(w, i, s, w')) || (exists w' :: LockMove(w, i, s, w'))
            || (exists k, w' :: SignalMove(w, i, s, k, w'))
            || w.runs[i].loop.Launching?
            || (w.runs[i].gos[s].Following? && w.runs[i].gos[s].x in w.xs && !w.xs[w.runs[i].gos[s].x].Over?)
    ensures forall b :: Has(w, i) && StepMoves(w.limit > 0, LocalOf(w, i), s, b) && s in b.r.gos ==>
      Rank(b.r.gos[s]) < Rank(w.runs[i].gos[s])
  {
    hide Reachable, Holds, StepMoves, Rank;
    RunIn(w, i);
    var a := LocalOf(w, i);
    forall b | StepMoves(w.limit > 0, a, s, b) && s in b.r.gos
      ensures Rank(b.r.gos[s]) < Rank(a.r.gos[s])
    {
      StepGoes(w.limit > 0, a, s, b);
    }
    if !Waits(a, s) {
      CanStep(w.limit > 0, a, s);
      var b :| StepMoves(w.limit > 0, a, s, b);
      assert StepMove(w, i, s, AfterStep(w, i, s, b));
    } else if a.r.gos[s].Waking? && a.r.gos[s] != Waking(Some({})) {
      CanSignal(w, i, s);
    }
  }

  lemma CanSignal(w: World, i: nat, s: string)
    requires Has(w, i) && s in w.runs[i].gos && w.runs[i].gos[s].Waking? && w.runs[i].gos[s] != Waking(Some({}))
    ensures (exists w' :: LockMove(w, i, s, w')) || (exists k, w' :: SignalMove(w, i, s, k, w'))
  {
    hide Registered;
    var pc := w.runs[i].gos[s];
    if pc.pending.None? {
      var w' := Put(w, i, w.runs[i].(gos := w.runs[i].gos[s := Waking(Some(Registered(w, w.home[i])))]));
      assert LockMove(w, i, s, w');
    } else {
      assert pc == Waking(Some(pc.pending.value)) && pc.pending.value != {};
      var k :| k in pc.pending.value;
      var w' := Signalled(Put(w, i, w.runs[i].(gos := w.runs[i].gos[s := Waking(Some(pc.pending.value - {k}))])), k);
      assert SignalMove(w, i, s, k, w');
    }
  }
}
