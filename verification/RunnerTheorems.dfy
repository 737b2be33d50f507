/** What the invariants say of any history: the log, the prompts, the outcomes, and the scheduler. */
module RunnerTheorems {
  import opened Common
  import opened Workflows
  import opened RunStates
  import opened RunProtocol
  import opened RunInvariant
  import opened RunSteps
  import opened RunLoops
  import opened RunEffects
  import opened Runners
  import opened RunnerSafety
  import opened RunnerSlots
  import opened RunnerWakes

  // ---- Logs --------------------------------------------------------------------------------

  lemma SafeIn(w: World)
    requires Reachable(w)
    ensures Safe(w)
  {
    hide Safe, History;
    var ws :| ws != [] && History(ws) && Last(ws) == w;
    AlwaysSafe(ws);
  }

  lemma SlotsIn(w: World)
    requires Reachable(w)
    ensures Slotted(w)
  {
    hide Slotted, History;
    var ws :| ws != [] && History(ws) && Last(ws) == w;
    AlwaysSlotted(ws);
  }

  lemma ListensIn(w: World)
    requires Reachable(w)
    ensures Listening(w)
  {
    hide Listening, History;
    var ws :| ws != [] && History(ws) && Last(ws) == w;
    AlwaysListening(ws);
  }

  lemma LogIn(w: World, id: string)
    requires Reachable(w) && id in w.disk
    ensures LogOK(w.disk[id], id, w.xs, w.refused)
  {
    hide Reachable, LogOK;
    SafeIn(w);
  }

  lemma RunIn(w: World, i: nat)
    requires Reachable(w) && i in w.runs
    ensures Has(w, i) && Holds(LocalOf(w, i))
  {
    hide Reachable, Holds;
    SafeIn(w);
  }

  /** Over a Store that takes appends whole, every log anyone ever leaves, whatever crashed, resumed,
      cancelled, or wrote without knowing it had, is one that folds: one run's, numbered 1..n, started
      once and ended at most once. */
  lemma EveryLogFolds(w: World, id: string)
    requires Reachable(w) && id in w.disk
    ensures var log := w.disk[id];
      && Fold(log).Ok?
      && (forall k :: 0 <= k < |log| ==> log[k].num == k + 1 && log[k].runID == id)
      && (forall k :: 0 <= k < |log| ==> (log[k].kind == RunStarted <==> k == 0))
      && (forall k :: 0 <= k < |log| - 1 ==> log[k].kind != RunEnded)
  {
    hide Reachable, Allowed;
    LogIn(w, id);
    var log := w.disk[id];
    if log != [] {
      AcceptedShape(log);
    }
  }

  /** A running run's state is what its log said at some point. */
  lemma StateIsAPrefixFold(w: World, i: nat)
    requires Reachable(w) && i in w.runs && w.runs[i].id in w.disk
    ensures var (r, log) := (w.runs[i], w.disk[w.runs[i].id]);
      0 <= r.state.num <= |log| && Fold(log[..r.state.num]) == Ok(r.state)
  {
    hide Reachable, RunSide, LogOK;
    RunIn(w, i);
  }

  // ---- What comes before a step -------------------------------------------------------------

  lemma {:induction false} LastAboutIsThere(log: seq<Event>, id: string) returns (j: nat)
    requires LastAbout(log, id).Some?
    ensures j < |log| && log[j] == LastAbout(log, id).value && About(log[j], id)
    ensures forall k :: j < k < |log| ==> !About(log[k], id)
  {
    if About(Last(log), id) {
      j := |log| - 1;
    } else {
      j := LastAboutIsThere(log[..|log| - 1], id);
    }
  }

  /** A done step was ended done, with a result, by an event of the log. */
  lemma DoneWasLogged(log: seq<Event>, k: nat, d: string) returns (j: nat)
    requires Fold(log).Ok? && k <= |log|
    requires d in At(log, k).steps && At(log, k).steps[d].status == Done
    ensures j < k && log[j].kind == StepEnded && log[j].step == d && log[j].status == Done
    ensures log[j].result == At(log, k).steps[d].result
  {
    FoldPrefix(log, k);
    StepMeaning(log[..k], d);
    assert LastAbout(log[..k], d).Some?;
    j := LastAboutIsThere(log[..k], d);
  }

  /** Whenever a step's start is logged, every step it comes after, directly or not, had been logged
      done with a result. */
  lemma StartsAfterItsAncestors(w: World, id: string, k: nat, d: string) returns (j: nat)
    requires Reachable(w) && id in w.disk && k < |w.disk[id]|
    requires w.disk[id][k].kind == StepStarted
    requires Reaches(At(w.disk[id], k).workflow, w.disk[id][k].step, d)
    ensures var log := w.disk[id];
      j < k && log[j].kind == StepEnded && log[j].step == d && log[j].status == Done && log[j].result.Some?
  {
    hide Reachable, Valid, DepsDone;
    LogIn(w, id);
    var log := w.disk[id];
    StartIsAllowed(log, id, k, w.xs, w.refused);
    var s := At(log, k);
    AncestorsHaveResults(s, log[k].step, w.xs);
    assert d in ResultsOf(s);
    j := DoneWasLogged(log, k, d);
  }

  lemma StartIsAllowed(log: seq<Event>, id: string, k: nat, xs: Exchanges, refused: set<ExchangeID>)
    requires LogOK(log, id, xs, refused) && k < |log| && (log[k].kind == StepStarted || log[k].kind == StepEnded)
    ensures k > 0 && Sound(At(log, k), xs) && MayStart(At(log, k), log[k].step)
    ensures Allowed(At(log, k), log[k], xs, refused)
  {
    assert Allowed(At(log, k), log[k], xs, refused);
    AcceptedShape(log);
    SoundAt(log, id, xs, refused, k);
  }

  /** The results a goroutine is about to render its prompt over hold every ancestor's, as the log has it:
      Prompt's complaint that a step has no result can't be reached. */
  lemma PromptHasItsResults(w: World, i: nat, s: string, results: Results, d: string) returns (j: nat)
    requires Reachable(w) && i in w.runs && s in w.runs[i].gos && w.runs[i].id in w.disk
    requires w.runs[i].gos[s] == Prompting(results) && Reaches(w.runs[i].state.workflow, s, d)
    ensures d in results
    ensures var log := w.disk[w.runs[i].id];
      j < |log| && log[j].kind == StepEnded && log[j].step == d && log[j].status == Done && log[j].result == Some(results[d])
  {
    hide Reachable, Holds, Reaches, LogOK, Sound;
    RunIn(w, i);
    ResultsAreDone(LocalOf(w, i), s, results, d);
    StateIsAPrefixFold(w, i);
    var (r, log) := (w.runs[i], w.disk[w.runs[i].id]);
    LogIn(w, r.id);
    LogFolds(log, r.id, w.xs, w.refused);
    j := DoneWasLogged(log, r.state.num, d);
  }

  lemma ResultsAreDone(a: Local, s: string, results: Results, d: string)
    requires Holds(a) && s in a.r.gos && a.r.gos[s] == Prompting(results) && Reaches(a.r.state.workflow, s, d)
    ensures d in results && d in a.r.state.steps && a.r.state.steps[d].status == Done
    ensures a.r.state.steps[d].result == Some(results[d])
  {
    hide Holds, Reaches, Sound;
    GoOf(a, s);
  }

  // ---- Done is for good -----------------------------------------------------------------------

  lemma {:induction false} DoneStays(log: seq<Event>, id: string, xs: Exchanges, refused: set<ExchangeID>, j: nat, k: nat, s: string)
    requires LogOK(log, id, xs, refused) && 0 < j <= k <= |log|
    requires s in At(log, j).steps && At(log, j).steps[s].status == Done
    ensures s in At(log, k).steps && At(log, k).steps[s] == At(log, j).steps[s]
    ensures forall n :: j <= n < k ==> !About(log[n], s)
  {
    hide LogOK, At, Allowed;
    if j < k {
      DoneStays(log, id, xs, refused, j, k - 1, s);
      DoneStep(log, id, xs, refused, k - 1, s);
    }
  }

  lemma DoneStep(log: seq<Event>, id: string, xs: Exchanges, refused: set<ExchangeID>, k: nat, s: string)
    requires LogOK(log, id, xs, refused) && 0 < k < |log|
    requires s in At(log, k).steps && At(log, k).steps[s].status == Done
    ensures s in At(log, k + 1).steps && At(log, k + 1).steps[s] == At(log, k).steps[s] && !About(log[k], s)
  {
    hide LogOK, At, Applied, Fold, Sound, Allowed;
    LogFolds(log, id, xs, refused);
    AtNext(log, k);
    if About(log[k], s) {
      StartIsAllowed(log, id, k, xs, refused);
    }
    AcceptedShape(log);
    OtherStepStays(At(log, k), log[k], s);
  }

  lemma OtherStepStays(st: RunState, e: Event, s: string)
    requires Applied(st, e).Ok? && s in st.steps && !About(e, s) && e.kind != RunStarted
    ensures s in Applied(st, e).value.steps && Applied(st, e).value.steps[s] == st.steps[s]
  {
  }

  /** Over any number of crashes, shutdowns, and resumes, nothing about a step is logged once it is
      done: it neither starts again nor ends another way. */
  lemma DoneIsForGood(w: World, id: string, j: nat, k: nat)
    requires Reachable(w) && id in w.disk && j < k < |w.disk[id]|
    requires w.disk[id][j].kind == StepEnded && w.disk[id][j].status == Done
    ensures !About(w.disk[id][k], w.disk[id][j].step)
  {
    hide Reachable, LogOK, Allowed;
    LogIn(w, id);
    var log := w.disk[id];
    LogFolds(log, id, w.xs, w.refused);
    AtNext(log, j);
    hide At;
    DoneStays(log, id, w.xs, w.refused, j + 1, k + 1, log[j].step);
  }

  lemma LogFolds(log: seq<Event>, id: string, xs: Exchanges, refused: set<ExchangeID>)
    requires LogOK(log, id, xs, refused)
    ensures Fold(log).Ok?
  {
  }

  /** The result a log gives a done step is the one its exchange's Wait returns, adopted or not, and
      the exchange is the one the step was last started with. */
  lemma DoneResultIsWaits(w: World, id: string, k: nat) returns (j: nat)
    requires Reachable(w) && id in w.disk && k < |w.disk[id]|
    requires w.disk[id][k].kind == StepEnded && w.disk[id][k].status == Done
    ensures var (e, xs) := (w.disk[id][k], w.xs);
      e.exchange in xs && !xs[e.exchange].InFlight? && e.result == Some(xs[e.exchange].result)
    ensures var log := w.disk[id];
      j < k && log[j].kind == StepStarted && log[j].step == log[k].step && log[j].exchange == log[k].exchange
    ensures forall n :: j < n < k ==> !About(w.disk[id][n], w.disk[id][k].step)
  {
    hide Reachable;
    LogIn(w, id);
    var log := w.disk[id];
    StartIsAllowed(log, id, k, w.xs, w.refused);
    AtNext(log, k);
    j := RunningWasLogged(log, k, log[k].step);
  }

  lemma RunningWasLogged(log: seq<Event>, k: nat, s: string) returns (j: nat)
    requires Fold(log).Ok? && k <= |log|
    requires s in At(log, k).steps && At(log, k).steps[s].status == Running
    ensures j < k && log[j].kind == StepStarted && log[j].step == s && log[j].exchange == At(log, k).steps[s].exchange
    ensures forall n :: j < n < k ==> !About(log[n], s)
  {
    FoldPrefix(log, k);
    StepMeaning(log[..k], s);
    assert LastAbout(log[..k], s).Some?;
    j := LastAboutIsThere(log[..k], s);
  }

  /** A logged start names an exchange that was sent the prompt it gives, and its step's session. */
  lemma StartsAreTheirExchanges(w: World, id: string, k: nat)
    requires Reachable(w) && id in w.disk && k < |w.disk[id]| && w.disk[id][k].kind == StepStarted
    ensures var e := w.disk[id][k];
      && e.exchange != NIL && e.exchange in w.xs && w.xs[e.exchange].prompt == e.prompt
      && e.session == SessionOf(At(w.disk[id], k).workflow, e.step)
  {
    hide Reachable, LogOK, MayStart, Sound, At;
    LogIn(w, id);
    StartIsAllowed(w.disk[id], id, k, w.xs, w.refused);
  }

  // ---- How a step ends ---------------------------------------------------------------------------

  /** Its record says that it ended of itself, with a reason other than a cancellation's, and in no error. */
  predicate EndedWell(x: Exchange) {
    && !x.InFlight? && x.record.Some?
    && x.record.value.err == "" && x.record.value.result.stopReason !in {"", "aborted"}
  }

  /** What a log says of a step's end is what became of the exchange: a result is the one Wait returned,
      for an exchange that is over, unless it was adopted from a record that it ended well. Such an end is done
      only without an error, failed only with the error logged, and never that of a usage limit. */
  lemma EndsAreTheirExchanges(w: World, id: string, k: nat)
    requires Reachable(w) && id in w.disk && k < |w.disk[id]| && w.disk[id][k].kind == StepEnded
    ensures var e := w.disk[id][k]; e.status.Ended() && e.session == SessionOf(At(w.disk[id], k).workflow, e.step)
    ensures var (e, xs) := (w.disk[id][k], w.xs);
      && (e.result.Some? ==> e.exchange in xs && !xs[e.exchange].InFlight? && e.result == Some(xs[e.exchange].result))
      && (e.result.Some? && !e.adopted ==> xs[e.exchange].Over?)
      && (e.result.None? ==> e.status != Done)
      && (e.result.Some? && !e.adopted && e.status != Status.Cancelled ==>
            match xs[e.exchange].err
            case None => e.status == Done && e.err == ""
            case Some(Other(text)) => e.status == Status.Failed && e.err == text
            case Some(Limit(_, _)) => false)
      && (e.adopted ==> e.status == Done && EndedWell(xs[e.exchange]))
  {
    hide Reachable, LogOK, Allowed, Sound, MayStart, At, Applied;
    LogIn(w, id);
    var log := w.disk[id];
    LogFolds(log, id, w.xs, w.refused);
    StartIsAllowed(log, id, k, w.xs, w.refused);
    AtNext(log, k);
    EndIsTruthful(At(log, k), log[k], w.xs, w.refused);
    hide Truthful, EndedWell;
  }

  lemma EndIsTruthful(s: RunState, e: Event, xs: Exchanges, refused: set<ExchangeID>)
    requires Allowed(s, e, xs, refused) && e.kind == StepEnded && Applied(s, e).Ok?
    ensures Truthful(e, xs) && e.status.Ended() && e.session == SessionOf(s.workflow, e.step)
    ensures e.result.Some? ==> e.exchange in xs && !xs[e.exchange].InFlight? && e.result == Some(xs[e.exchange].result)
    ensures e.result.None? ==> e.status != Done
    ensures e.result.Some? && !e.adopted ==> xs[e.exchange].Over?
    ensures e.result.Some? && !e.adopted && e.status != Status.Cancelled ==>
      match xs[e.exchange].err
      case None => e.status == Done && e.err == ""
      case Some(Other(text)) => e.status == Status.Failed && e.err == text
      case Some(Limit(_, _)) => false
    ensures e.adopted ==> e.status == Done && EndedWell(xs[e.exchange])
  {
  }

  /** Where a step that has the result and error of its exchange's Wait goes: it logs the step done with
      the result, failed with the error, or the run paused until the limit resets. */
  ghost predicate EndsAs(pc: PC, step: string, session: string, x: ExchangeID, res: HarnessResult, err: Option<StepError>) {
    match err
    case None =>
      pc == Logging(BLANK.(kind := StepEnded, step := step, session := session, exchange := x, result := Some(res), status := Done))
    case Some(Other(text)) =>
      pc == Logging(BLANK.(kind := StepEnded, step := step, session := session, exchange := x, result := Some(res),
                           status := Status.Failed, err := text))
    case Some(Limit(resetsAt, text)) =>
      pc.Pausing? && pc.text == text && (resetsAt != 0 ==> pc.until == resetsAt)
  }

  /** A goroutine that follows an exchange to its end, in a run that nothing stops, ends the step as the
      exchange did. Between its moves anyone else may move. */
  lemma FollowedEndsAsItsExchange(limited: bool, a: Local, a': Local, b: Local, b': Local, c: Local, c': Local, s: string, x: ExchangeID)
    requires s in a.r.gos && a.r.gos[s] == Following(x) && StepMoves(limited, a, s, a')
    requires s in b.r.gos && b.r.gos[s] == a'.r.gos[s] && StepMoves(limited, b, s, b') && b.r.cause == Live
    requires s in c.r.gos && c.r.gos[s] == b'.r.gos[s] && StepMoves(limited, c, s, c') && c.r.cause == Live && !c.r.stopped
    ensures x in a.xs && a.xs[x].Over? && s in c'.r.gos
    ensures EndsAs(c'.r.gos[s], s, SessionOf(c.r.state.workflow, s), x, a.xs[x].result, a.xs[x].err)
  {
    hide EndsAs, SessionOf;
    FollowGoes(limited, a, s, a');
    TestGoes(limited, b, s, b');
    JudgeGoes(limited, c, s, c');
    hide StepMoves;
  }

  lemma FollowGoes(limited: bool, a: Local, s: string, b: Local)
    requires s in a.r.gos && a.r.gos[s].Following? && StepMoves(limited, a, s, b)
    ensures var x := a.r.gos[s].x;
      x in a.xs && a.xs[x].Over? && s in b.r.gos && b.r.gos[s] == Ending(x, Some(a.xs[x].result), a.xs[x].err)
  {
    hide JudgeStep, OpenStep, BindStep, ReadStep, AdoptStep, SendStep, StartedStep, PauseStep, LogsThen, Left, WithFailure;
  }

  lemma TestGoes(limited: bool, a: Local, s: string, b: Local)
    requires s in a.r.gos && StepMoves(limited, a, s, b)
    ensures a.r.gos[s].Ending? && a.r.cause == Live ==> s in b.r.gos && b.r.gos[s] == Judging(a.r.gos[s].x, a.r.gos[s].res, a.r.gos[s].err)
  {
    hide JudgeStep, OpenStep, BindStep, ReadStep, AdoptStep, SendStep, StartedStep, FollowStep, PauseStep, LogsThen, Left, WithFailure;
  }

  lemma JudgeGoes(limited: bool, a: Local, s: string, b: Local)
    requires s in a.r.gos && StepMoves(limited, a, s, b) && a.r.cause == Live && !a.r.stopped
    ensures var pc := a.r.gos[s]; pc.Judging? && pc.res.Some? ==>
      s in b.r.gos && EndsAs(b.r.gos[s], s, SessionOf(a.r.state.workflow, s), pc.x, pc.res.value, pc.err)
  {
    hide OpenStep, BindStep, ReadStep, AdoptStep, SendStep, StartedStep, FollowStep, PauseStep, LogsThen, Left, WithFailure, SessionOf;
  }

  /** And one whose run was cancelled, or stopped for another step's failure, logs it cancelled; one whose
      run shut down, whose log failed, or that is over, logs nothing. */
  lemma StoppedStepsEndCancelled(limited: bool, b: Local, b': Local, c: Local, c': Local, s: string)
    requires s in b.r.gos && b.r.gos[s].Ending? && StepMoves(limited, b, s, b')
    requires s in c.r.gos && c.r.gos[s] == b'.r.gos[s] && StepMoves(limited, c, s, c')
    ensures (b.r.cause == ShutDown || b.r.cause == LogFailed || b.r.cause == RunOver) ==> b'.r.gos[s] == Freeing && b'.log == b.log
    ensures (b.r.cause == Live || b.r.cause == CancelledRun) && (c.r.cause != Live || c.r.stopped) ==>
      && s in c'.r.gos && c'.r.gos[s].Logging?
      && c'.r.gos[s].e.kind == StepEnded && c'.r.gos[s].e.step == s && c'.r.gos[s].e.status == Status.Cancelled
      && c'.r.gos[s].e.exchange == b.r.gos[s].x && c'.r.gos[s].e.result == b.r.gos[s].res
  {
  }

  // ---- Pauses ------------------------------------------------------------------------------------

  /** A goroutine that waits out a limit leaves the run paused at least that long, and no less long than
      it was, if nothing paused or resumed the run between its look at the pause and its append. */
  lemma PausesAreTheLatest(limited: bool, a: Local, a': Local, b: Local, b': Local, s: string, until: int, text: string)
    requires s in a.r.gos && a.r.gos[s] == Pausing(until, text) && StepMoves(limited, a, s, a')
    ensures a'.r.gos[s] == Freeing ==> a.r.state.status == Paused && a.r.state.until >= until
    ensures && a'.r.gos[s] != Freeing && s in b.r.gos && b.r.gos[s] == a'.r.gos[s] && StepMoves(limited, b, s, b')
            && b.r.state.status == a.r.state.status && b.r.state.until == a.r.state.until && b'.r.state != b.r.state ==>
      && b'.r.state.status == Paused && b'.r.state.until == until
      && (b.r.state.status == Paused ==> b.r.state.until < until)
  {
    hide Applied;
    if a'.r.gos[s] != Freeing && s in b.r.gos && b.r.gos[s] == a'.r.gos[s] && StepMoves(limited, b, s, b') && b'.r.state != b.r.state {
      PauseApplies(b, s, until, text, b');
    }
  }

  lemma PauseApplies(b: Local, s: string, until: int, text: string, b': Local)
    requires LogsThen(b, s, BLANK.(kind := RunPaused, step := s, until := until, err := text), Freeing, Freeing, b') && b'.r.state != b.r.state
    ensures b'.r.state.status == Paused && b'.r.state.until == until
  {
    hide Applied, Logs;
    var e := BLANK.(kind := RunPaused, step := s, until := until, err := text);
    var out, c, ok :| Logs(b, e, out, c, ok) && b' == Goto(c, s, Freeing);
    LogsEffect(b, e, out, c, ok);
    PauseMeans(b.r.state, Stamped(b.r, e));
  }

  lemma PauseMeans(s: RunState, e: Event)
    requires e.kind == RunPaused && Applied(s, e).Ok?
    ensures Applied(s, e).value.status == Paused && Applied(s, e).value.until == e.until
  {
  }

  /** Two that look before either logs can shorten a pause: from any state of a running run with two
      goroutines at their limits, some interleaving leaves it paused until the sooner. */
  lemma PauseCanShorten(limited: bool, a: Local, s: string, t: string, soon: int, late: int, text: string)
      returns (b: Local, c: Local, d: Local, e: Local)
    requires s in a.r.gos && t in a.r.gos && s != t && soon < late && Unlocked(a.r)
    requires a.r.state.status == Running && a.r.state.num == |a.log| > 0 && a.r.state.runID == a.r.id
    requires a.r.gos[s] == Pausing(soon, text) && a.r.gos[t] == Pausing(late, text)
    ensures s in b.r.gos && t in b.r.gos && t in c.r.gos && s in d.r.gos
    ensures StepMoves(limited, a, s, b) && StepMoves(limited, b, t, c) && StepMoves(limited, c, t, d) && StepMoves(limited, d, s, e)
    ensures d.r.state.status == e.r.state.status == Paused && d.r.state.until == late && e.r.state.until == soon
  {
    b := Goto(a, s, LoggingPause(soon, text));
    c := Goto(b, t, LoggingPause(late, text));
    d := PauseLogs(c, t, late, text);
    e := PauseLogs(d, s, soon, text);
  }

  /** An append of a pause that nothing stops. */
  lemma PauseLogs(a: Local, s: string, until: int, text: string) returns (b: Local)
    requires s in a.r.gos && !a.r.state.status.Ended() && a.r.state.num == |a.log| > 0 && a.r.state.runID == a.r.id
    ensures LogsThen(a, s, BLANK.(kind := RunPaused, step := s, until := until, err := text), Freeing, Freeing, b)
    ensures b.r.state.status == Paused && b.r.state.until == until && b.r.state.num == |b.log| > 0 && b.r.state.runID == b.r.id
    ensures b.r.gos == a.r.gos[s := Freeing] && b.r.loop == a.r.loop && b.r.id == a.r.id
  {
    var e := BLANK.(kind := RunPaused, step := s, until := until, err := text);
    var c := a.(r := a.r.(state := Applied(a.r.state, Stamped(a.r, e)).value), log := a.log + [Stamped(a.r, e)]);
    assert Logs(a, e, Written, c, true);
    b := Goto(c, s, Freeing);
  }

  // ---- Adopted, not prompted again -------------------------------------------------------------

  /** x left a record that it ended well, and no adopt had turned it down before that. */
  predicate Adoptable(w: World, x: ExchangeID) {
    x in w.xs && EndedWell(w.xs[x]) && x !in w.refused
  }

  lemma LogsShare(a: Local, e: Event, out: Append, b: Local, ok: bool)
    requires Logs(a, e, out, b, ok)
    ensures b.xs == a.xs && b.refused == a.refused
  {
  }

  lemma LogsThenShare(a: Local, s: string, e: Event, done: PC, failed: PC, b: Local)
    requires LogsThen(a, s, e, done, failed, b)
    ensures b.xs == a.xs && b.refused == a.refused
  {
    hide Logs;
    var out, c, ok :| Logs(a, e, out, c, ok) && b == Goto(c, s, if ok then done else failed);
    LogsShare(a, e, out, c, ok);
  }

  /** A goroutine ends no exchange, and turns down none that left such a record. */
  predicate KeepsAdoptable(a: Local, b: Local) {
    && (forall x :: x in a.xs ==> x in b.xs && b.xs[x] == a.xs[x])
    && (forall x :: x in b.refused && x !in a.refused ==> !(x in a.xs && EndedWell(a.xs[x])))
  }

  lemma SameShare(a: Local, b: Local)
    requires b.xs == a.xs && b.refused == a.refused
    ensures KeepsAdoptable(a, b)
  {
  }

  lemma AdoptShares(a: Local, s: string, x: ExchangeID, results: Results, b: Local)
    requires s in a.r.gos && AdoptStep(a, s, x, results, b)
    ensures KeepsAdoptable(a, b)
  {
    hide LogsThen;
    if e: StepError :| b == Goto(a, s, Ending(x, None, Some(e))) {
    } else if x in a.xs && EndedWell(a.xs[x]) {
      var event := EndedEvent(a.r.state.workflow, s, x, Done, Some(a.xs[x].record.value.result), true);
      var e: StepError :| LogsThen(a, s, event, Freeing, Ending(x, None, Some(e)), b);
      LogsThenShare(a, s, event, Freeing, Ending(x, None, Some(e)), b);
    }
  }

  lemma BindShares(a: Local, s: string, id: string, b: Local)
    requires s in a.r.gos && BindStep(a, s, id, b)
    ensures KeepsAdoptable(a, b)
  {
    hide LogsThen;
    var event := BLANK.(kind := SessionOpened, session := SessionOf(a.r.state.workflow, s), sessionID := id);
    var e: StepError :| LogsThen(a, s, event, Opened, Ending(NIL, None, Some(e)), b);
    LogsThenShare(a, s, event, Opened, Ending(NIL, None, Some(e)), b);
  }

  lemma StepShares(limited: bool, a: Local, s: string, b: Local)
    requires s in a.r.gos && StepMoves(limited, a, s, b)
    ensures KeepsAdoptable(a, b)
  {
    hide LogsThen, AdoptStep, BindStep, KeepsAdoptable, ResultsOf, SendStep, OpenStep, JudgeStep;
    match a.r.gos[s] {
      case Launched => OpenShares(a, s, b);
      case Binding(id) => BindShares(a, s, id, b);
      case Adopting(x, results) => AdoptShares(a, s, x, results, b);
      case Prompting(results) => SendShares(a, s, results, b);
      case Sent(x, prompt) =>
        LogsThenShare(a, s, StartedEvent(a.r.state.workflow, s, x, prompt), Following(x), Following(x), b);
        SameShare(a, b);
      case Judging(_, _, _) => JudgeShares(a, s, b);
      case Logging(e) =>
        LogsThenShare(a, s, e, if e.status == Status.Failed then Failing(e.err) else Freeing, Freeing, b);
        SameShare(a, b);
      case LoggingPause(until, text) =>
        LogsThenShare(a, s, BLANK.(kind := RunPaused, step := s, until := until, err := text), Freeing, Freeing, b);
        SameShare(a, b);
      case _ => SameShare(a, b);
    }
  }

  lemma OpenShares(a: Local, s: string, b: Local)
    requires s in a.r.gos && OpenStep(a, s, b)
    ensures KeepsAdoptable(a, b)
  {
  }

  lemma JudgeShares(a: Local, s: string, b: Local)
    requires s in a.r.gos && a.r.gos[s].Judging? && JudgeStep(a, s, a.r.gos[s], b)
    ensures KeepsAdoptable(a, b)
  {
  }

  lemma SendShares(a: Local, s: string, results: Results, b: Local)
    requires s in a.r.gos && SendStep(a, s, results, b)
    ensures KeepsAdoptable(a, b)
  {
    hide LacksResult;
  }

  lemma LoopShares(a: Local, b: Local)
    requires LoopMoves(a, b)
    ensures KeepsAdoptable(a, b)
  {
    hide Logs, TopMoves, LoopLogs, KeepsAdoptable, Settles;
    match a.r.loop {
      case Fresh(_) =>
        var out, c :| Logs(a, StartEvent(a.r.loop.w), out, c, true) && b == AtLoop(c, Top);
        LogsShare(a, StartEvent(a.r.loop.w), out, c, true);
      case Taken => SettlesShares(a, b);
      case Settled =>
        if a.r.state.status != Paused {
          var out, c :| Logs(a, BLANK.(kind := RunResumed), out, c, true) && b == AtLoop(c, Top);
          LogsShare(a, BLANK.(kind := RunResumed), out, c, true);
        }
      case Top => TopShares(a, b);
      case LoggingResumed => LoopLogsShare(a, BLANK.(kind := RunResumed), Top, b);
      case LoggingDone => LoopLogsShare(a, BLANK.(kind := RunEnded, status := Done), Finishing, b);
      case LoggingEnd(status) =>
        LoopLogsShare(a, BLANK.(kind := RunEnded, status := status, err := if a.r.failure.Some? then a.r.failure.value else ""), Finishing, b);
      case _ =>
    }
    SameShare(a, b);
  }

  lemma SettlesShares(a: Local, b: Local)
    requires Settles(a, b)
    ensures b.xs == a.xs && b.refused == a.refused
  {
  }

  lemma TopShares(a: Local, b: Local)
    requires TopMoves(a, b)
    ensures b.xs == a.xs && b.refused == a.refused
  {
    hide Plan;
  }

  lemma LoopLogsShare(a: Local, e: Event, next: Loop, b: Local)
    requires LoopLogs(a, e, next, b)
    ensures b.xs == a.xs && b.refused == a.refused
  {
    hide Logs;
    var out, c, ok :| Logs(a, e, out, c, ok) && b == AtLoop(c, next);
    LogsShare(a, e, out, c, ok);
  }

  lemma NextKeepsAdoptable(w: World, w': World, x: ExchangeID)
    requires Next(w, w') && Adoptable(w, x)
    ensures Adoptable(w', x)
  {
    hide StepMoves, LoopMoves, Next;
    if i, s :| StepMove(w, i, s, w') {
      var b :| StepMoves(w.limit > 0, LocalOf(w, i), s, b) && w' == AfterStep(w, i, s, b);
      StepShares(w.limit > 0, LocalOf(w, i), s, b);
    } else if i :| LoopMove(w, i, w') {
      var b :| LoopMoves(LocalOf(w, i), b) && w' == Merge(w, i, b);
      LoopShares(LocalOf(w, i), b);
    } else {
      OthersShare(w, w');
    }
  }

  predicate KeepsEnded(w: World, w': World) {
    && w'.refused == w.refused
    && forall x :: x in w.xs ==> x in w'.xs && Later(w.xs[x], w'.xs[x])
  }

  lemma OthersShare(w: World, w': World)
    requires Next(w, w') && !(exists i, s :: StepMove(w, i, s, w')) && !(exists i :: LoopMove(w, i, w'))
    ensures KeepsEnded(w, w')
  {
    hide StepMove, LoopMove, LaunchMove, LockMove, SignalMove, NotifyMove, StartMove, ResumeMove,
         DropMove, ContextMove, OfflineMove, CrashMove, ExchangeMove, KeepsEnded;
    if i :| LaunchMove(w, i, w') { LaunchShares(w, i, w'); }
    else if i, s :| LockMove(w, i, s, w') { LockShares(w, i, s, w'); }
    else if i, s, k :| SignalMove(w, i, s, k, w') { SignalShares(w, i, s, k, w'); }
    else if i :| NotifyMove(w, i, w') { NotifyShares(w, i, w'); }
    else if i, p, id, wf :| StartMove(w, i, p, id, wf, w') { StartShares(w, i, p, id, wf, w'); }
    else if i, p, id, k :| ResumeMove(w, i, p, id, k, w') { ResumeShares(w, i, p, id, k, w'); }
    else if i :| DropMove(w, i, w') { DropShares(w, i, w'); }
    else if i, cause :| ContextMove(w, i, cause, w') { ContextShares(w, i, cause, w'); }
    else if id, k :| OfflineMove(w, id, k, w') { OfflineShares(w, id, k, w'); }
    else if p :| CrashMove(w, p, w') { CrashShares(w, p, w'); }
    else {
      var x, res, err, record :| ExchangeMove(w, x, res, err, record, w');
      ExchangeShares(w, x, res, err, record, w');
    }
  }

  lemma LaunchShares(w: World, i: nat, w': World)
    requires LaunchMove(w, i, w')
    ensures KeepsEnded(w, w')
  {
    hide Full;
  }

  lemma LockShares(w: World, i: nat, s: string, w': World)
    requires LockMove(w, i, s, w')
    ensures KeepsEnded(w, w')
  {
    hide Registered;
  }

  lemma SignalShares(w: World, i: nat, s: string, k: nat, w': World)
    requires SignalMove(w, i, s, k, w')
    ensures KeepsEnded(w, w')
  {
  }

  lemma NotifyShares(w: World, i: nat, w': World)
    requires NotifyMove(w, i, w')
    ensures KeepsEnded(w, w')
  {
  }

  lemma StartShares(w: World, i: nat, p: nat, id: string, wf: Workflow, w': World)
    requires StartMove(w, i, p, id, wf, w')
    ensures KeepsEnded(w, w')
  {
    hide Valid;
  }

  lemma ResumeShares(w: World, i: nat, p: nat, id: string, k: nat, w': World)
    requires ResumeMove(w, i, p, id, k, w')
    ensures KeepsEnded(w, w')
  {
    hide At, SomeStep;
  }

  lemma DropShares(w: World, i: nat, w': World)
    requires DropMove(w, i, w')
    ensures KeepsEnded(w, w')
  {
    hide Drops;
  }

  lemma ContextShares(w: World, i: nat, cause: Cause, w': World)
    requires ContextMove(w, i, cause, w')
    ensures KeepsEnded(w, w')
  {
  }

  lemma OfflineShares(w: World, id: string, k: nat, w': World)
    requires OfflineMove(w, id, k, w')
    ensures KeepsEnded(w, w')
  {
    hide At;
  }

  lemma CrashShares(w: World, p: nat, w': World)
    requires CrashMove(w, p, w')
    ensures KeepsEnded(w, w')
  {
  }

  lemma ExchangeShares(w: World, x: ExchangeID, res: HarnessResult, err: Option<StepError>, record: Option<Record>, w': World)
    requires ExchangeMove(w, x, res, err, record, w')
    ensures KeepsEnded(w, w')
  {
  }

  lemma {:induction false} StaysAdoptable(ws: seq<World>, n: nat, x: ExchangeID)
    requires History(ws) && n < |ws| && Adoptable(ws[n], x)
    ensures Adoptable(Last(ws), x)
    decreases |ws|
  {
    hide Next, Adoptable;
    if n < |ws| - 1 {
      var front := ws[..|ws| - 1];
      assert forall m :: 0 <= m < |front| ==> front[m] == ws[m];
      StaysAdoptable(front, n, x);
      assert Next(ws[|ws| - 2], ws[|ws| - 2 + 1]);
      NextKeepsAdoptable(Last(front), Last(ws), x);
    }
  }

  lemma NextKeepsResults(w: World, w': World, x: ExchangeID)
    requires Next(w, w') && x in w.xs
    ensures x in w'.xs && Later(w.xs[x], w'.xs[x])
  {
    hide StepMoves, LoopMoves, Next;
    if i, s :| StepMove(w, i, s, w') {
      var b :| StepMoves(w.limit > 0, LocalOf(w, i), s, b) && w' == AfterStep(w, i, s, b);
      StepShares(w.limit > 0, LocalOf(w, i), s, b);
    } else if i :| LoopMove(w, i, w') {
      var b :| LoopMoves(LocalOf(w, i), b) && w' == Merge(w, i, b);
      LoopShares(LocalOf(w, i), b);
    } else {
      OthersShare(w, w');
    }
  }

  /** An exchange's result, once decided, is the one it has ever after, when Wait returns it. */
  lemma {:induction false} ResultIsForGood(ws: seq<World>, n: nat, x: ExchangeID)
    requires History(ws) && n < |ws| && x in ws[n].xs
    ensures x in Last(ws).xs && Later(ws[n].xs[x], Last(ws).xs[x])
    decreases |ws|
  {
    hide Next;
    if n < |ws| - 1 {
      var front := ws[..|ws| - 1];
      assert forall m :: 0 <= m < |front| ==> front[m] == ws[m];
      ResultIsForGood(front, n, x);
      assert Next(ws[|ws| - 2], ws[|ws| - 2 + 1]);
      NextKeepsResults(Last(front), Last(ws), x);
    }
  }

  /** A step whose logged exchange left a record that it ended well, before any adopt had turned it down is
      never prompted again in its place: no log, ever, starts that step anew. */
  lemma RecordedIsNotPromptedAgain(ws: seq<World>, n: nat, w: World, id: string, j: nat, k: nat)
    requires History(ws) && n < |ws| && w == Last(ws) && id in w.disk && j < k < |w.disk[id]|
    requires var log := w.disk[id];
      && log[j].kind == StepStarted && log[k].kind == StepStarted && log[j].step == log[k].step
      && forall m :: j < m < k ==> !About(log[m], log[j].step)
    ensures !Adoptable(ws[n], w.disk[id][j].exchange)
  {
    hide Adoptable, Next;
    var log := w.disk[id];
    LogIn(w, id);
    StartIsAllowed(log, id, k, w.xs, w.refused);
    StartedIsRunning(log, j, k);
    if Adoptable(ws[n], log[j].exchange) {
      StaysAdoptable(ws, n, log[j].exchange);
      assert log[j].exchange in w.refused;
      RefusedIsNotAdoptable(w, log[j].exchange);
    }
  }

  lemma RefusedIsNotAdoptable(w: World, x: ExchangeID)
    requires x in w.refused
    ensures !Adoptable(w, x)
  {
  }

  lemma {:induction false} LastAboutAt(log: seq<Event>, j: nat, id: string)
    requires j < |log| && About(log[j], id) && forall m :: j < m < |log| ==> !About(log[m], id)
    ensures LastAbout(log, id) == Some(log[j])
  {
    if j < |log| - 1 {
      LastAboutAt(log[..|log| - 1], j, id);
    }
  }

  lemma StartedIsRunning(log: seq<Event>, j: nat, k: nat)
    requires Fold(log).Ok? && j < k <= |log| && log[j].kind == StepStarted
    requires forall m :: j < m < k ==> !About(log[m], log[j].step)
    requires log[j].step in At(log, k).steps
    ensures RunningOn(At(log, k), log[j].step, log[j].exchange)
  {
    FoldPrefix(log, k);
    LastAboutAt(log[..k], j, log[j].step);
    StepMeaning(log[..k], log[j].step);
  }

  // ---- Outcomes --------------------------------------------------------------------------------

  /** A logged outcome is true of the log: done only with every step done, and failed only with one failed,
      which it names with the error it was logged with. */
  lemma OutcomeAgreesWithLog(w: World, id: string, k: nat)
    requires Reachable(w) && id in w.disk && k < |w.disk[id]|
    requires w.disk[id][k].kind == RunEnded
    ensures var (log, s) := (w.disk[id], At(w.disk[id], k));
      && k == |log| - 1 && log[k].status.Ended() && At(log, |log|).status == log[k].status
      && (log[k].status == Done ==> AllDone(s.steps))
      && (log[k].status != Status.Failed ==> log[k].err == "")
      && (log[k].status == Status.Failed ==>
            exists id :: id in s.steps && s.steps[id].status == Status.Failed
              && log[k].err == "step \"" + id + "\": " + s.steps[id].err)
  {
    hide Reachable;
    LogIn(w, id);
    var log := w.disk[id];
    AcceptedShape(log);
    assert Allowed(At(log, k), log[k], w.xs, w.refused);
    AtNext(log, k);
    assert log[..k + 1] == log;
  }

  /** What the loop is about to end a run with: failed exactly when some step failed, and otherwise
      cancelled only when the run was. */
  lemma LoopEndsAsItsStepsDid(w: World, i: nat)
    requires Reachable(w) && i in w.runs && w.runs[i].loop.LoggingEnd?
    ensures var r := w.runs[i];
      && (r.loop.status == Status.Failed <==> SomeStep(r.state.steps, Status.Failed))
      && (r.loop.status == Status.Failed || (r.loop.status == Status.Cancelled && r.cause == CancelledRun))
      && r.inflight == {}
  {
    hide Reachable, Holds;
    RunIn(w, i);
    EndIsExact(LocalOf(w, i));
  }

  lemma EndIsExact(a: Local)
    requires Holds(a) && a.r.loop.LoggingEnd?
    ensures a.r.loop.status == Status.Failed <==> SomeStep(a.r.state.steps, Status.Failed)
    ensures a.r.loop.status == Status.Failed || (a.r.loop.status == Status.Cancelled && a.r.cause == CancelledRun)
    ensures a.r.inflight == {}
  {
    hide LogSide, Bookkeeping, Goroutines;
    if SomeStep(a.r.state.steps, Status.Failed) {
      var id :| id in a.r.state.steps && a.r.state.steps[id].status == Status.Failed;
      assert id !in a.r.gos;
    }
  }

  /** The loop ends a run done only when every step is. */
  lemma LoopEndsDoneWhenAllAre(w: World, i: nat)
    requires Reachable(w) && i in w.runs && w.runs[i].loop.LoggingDone?
    ensures AllDone(w.runs[i].state.steps)
    ensures |DoneSteps(w.runs[i].state)| == |w.runs[i].state.workflow.steps|
  {
    hide Reachable, Holds, AllDone;
    RunIn(w, i);
    LoopOf(LocalOf(w, i));
    CountIsAllDone(w.runs[i].state, w.xs);
  }

  /** Resuming a log with a failed or cancelled step starts nothing, and ends failed if a step
      failed, cancelled otherwise. */
  lemma DecidedRunsOnlyEnd(w: World, i: nat)
    requires Reachable(w) && i in w.runs && w.runs[i].decided
    ensures var r := w.runs[i];
      && r.inflight == {} && r.gos == map[] && !r.loop.Launching? && !r.loop.LoggingDone?
      && (r.loop.LoggingEnd? ==>
            r.loop.status == if SomeStep(r.state.steps, Status.Failed) then Status.Failed else Status.Cancelled)
  {
    hide Reachable, Holds;
    RunIn(w, i);
    LoopOf(LocalOf(w, i));
    if w.runs[i].loop.LoggingEnd? {
      EndIsExact(LocalOf(w, i));
    }
  }

  // ---- What is logged can be --------------------------------------------------------------------

  /** The event step s's goroutine is about to log. */
  ghost predicate StepLogs(a: Local, s: string, e: Event) {
    s in a.r.gos &&
    match a.r.gos[s]
    case Binding(id) => e == BLANK.(kind := SessionOpened, session := SessionOf(a.r.state.workflow, s), sessionID := id)
    case Adopting(x, _) =>
      x in a.xs && Acceptable(a.xs[x])
      && e == EndedEvent(a.r.state.workflow, s, x, Done, Some(a.xs[x].record.value.result), true)
    case Sent(x, prompt) => e == StartedEvent(a.r.state.workflow, s, x, prompt)
    case Logging(ended) => e == ended
    case LoggingPause(until, text) => e == BLANK.(kind := RunPaused, step := s, until := until, err := text)
    case _ => false
  }

  /** The event the loop, or Start or Resume before it, is about to log. */
  ghost predicate LoopLogsNext(r: Run, e: Event) {
    match r.loop
    case Fresh(wf) => e == StartEvent(wf)
    case Settled => r.state.status != Paused && e == BLANK.(kind := RunResumed)
    case LoggingResumed => e == BLANK.(kind := RunResumed)
    case LoggingDone => e == BLANK.(kind := RunEnded, status := Done)
    case LoggingEnd(status) => e == BLANK.(kind := RunEnded, status := status, err := if r.failure.Some? then r.failure.value else "")
    case _ => false
  }

  /** Apply never refuses what a run is about to log: only the Store can. */
  lemma NothingIsRefused(w: World, i: nat, s: string, e: Event)
    requires Reachable(w) && Has(w, i) && (StepLogs(LocalOf(w, i), s, e) || LoopLogsNext(w.runs[i], e))
    ensures Applied(w.runs[i].state, Stamped(w.runs[i], e)).Ok?
  {
    hide Reachable, Holds, Applied;
    RunIn(w, i);
    if LoopLogsNext(w.runs[i], e) {
      LoopApplies(LocalOf(w, i), e);
    } else {
      StepApplies(LocalOf(w, i), s, e);
    }
  }

  lemma StepApplies(a: Local, s: string, e: Event)
    requires Holds(a) && StepLogs(a, s, e)
    ensures Applied(a.r.state, Stamped(a.r, e)).Ok?
  {
    hide Holds, Applied, Sound, HasResults, LacksResult, DepsDone, Valid, Truthful, Acceptable;
    GoOf(a, s);
    if a.r.gos[s].Binding? {
      SessionNamed(a, s);
    }
    StepEventApplies(a.r.state, ContextOf(a.r), s, Stamped(a.r, e));
  }

  lemma SessionNamed(a: Local, s: string)
    requires Sound(a.r.state, a.xs) && s in a.r.state.steps
    ensures SessionOf(a.r.state.workflow, s) in SessionNames(a.r.state.workflow)
  {
    hide Acyclic;
    SessionDeclared(a.r.state.workflow, s);
  }

  lemma LoopApplies(a: Local, e: Event)
    requires Holds(a) && LoopLogsNext(a.r, e)
    ensures Applied(a.r.state, Stamped(a.r, e)).Ok?
  {
    if a.r.loop.Fresh? {
      FreshApplies(a, e);
    } else {
      hide Holds, Applied, Sound, Outcomes, Plan;
      LoopOf(a);
      LoopEventApplies(a.r.state, Stamped(a.r, e));
    }
  }

  lemma FreshApplies(a: Local, e: Event)
    requires Holds(a) && a.r.loop.Fresh? && e == StartEvent(a.r.loop.w)
    ensures Applied(a.r.state, Stamped(a.r, e)).Ok?
  {
    hide LogOK, RunSide, Sound;
  }

  // ---- The scheduler -----------------------------------------------------------------------------

  lemma {:induction false} DistinctSteps(steps: seq<Step>)
    requires forall i, j :: 0 <= i < j < |steps| ==> steps[i].id != steps[j].id
    ensures |IdsOf(steps)| == |steps|
  {
    if steps != [] {
      var front := steps[..|steps| - 1];
      DistinctSteps(front);
      assert IdsOf(steps) == IdsOf(front) + {Last(steps).id};
      assert Last(steps).id !in IdsOf(front);
    }
  }

  /** The source's test, that as many steps are done as there are, means that every step is. */
  lemma CountIsAllDone(s: RunState, xs: Exchanges)
    requires Sound(s, xs)
    ensures |DoneSteps(s)| == |s.workflow.steps| <==> AllDone(s.steps)
  {
    DistinctIds(s.workflow);
    DistinctSteps(s.workflow.steps);
    assert |s.steps.Keys| == |s.workflow.steps|;
    hide Sound;
    if !AllDone(s.steps) {
      var id :| id in s.steps && s.steps[id].status != Done;
      ProperSubsetSize(DoneSteps(s), s.steps.Keys);
    } else {
      assert DoneSteps(s) == s.steps.Keys;
    }
  }

  /** The loop never finds that no step can start. */
  lemma NeverStuckAnywhere(w: World, i: nat)
    requires Reachable(w) && i in w.runs && w.runs[i].loop == Top
    ensures Decide(w.runs[i]) != Stuck
  {
    hide Reachable, Holds;
    RunIn(w, i);
    NeverStuck(LocalOf(w, i));
  }

  /** Steps in flight are the goroutines, busy is their sessions, and no two share one. */
  lemma OneStepASession(w: World, i: nat)
    requires Reachable(w) && i in w.runs
    ensures var r := w.runs[i];
      && r.gos.Keys == r.inflight
      && r.busy == (set s | s in r.inflight :: SessionOf(r.state.workflow, s))
      && (forall s, t :: s in r.inflight && t in r.inflight && s != t ==> SessionOf(r.state.workflow, s) != SessionOf(r.state.workflow, t))
  {
    hide Reachable, Goroutines, Outcomes, LoopOK, LogSide;
    RunIn(w, i);
  }

  /** The tokens in a process's slot channel are its goroutines that have yet to free theirs, and
      those are never more than the limit. */
  lemma SlotsAreHeld(w: World, p: nat)
    requires Reachable(w) && w.limit > 0
    ensures SlotsOf(w, p) == |Holders(w, p)| <= w.limit
  {
    hide Reachable;
    SlotsIn(w);
  }

  /** What would have the loop act: stopping with nothing in flight, every step done, or a step
      ready with a slot for it; or a failure that a loop waiting for more has not seen. */
  predicate CouldAct(r: Run, full: bool) {
    || (Stopping(r) && r.inflight == {})
    || (r.failure.Some? && r.loop.Parked? && r.loop.done)
    || (!Stopping(r) && AllDone(r.state.steps))
    || (!Stopping(r) && r.state.status != Paused && Ready(r) != [] && !full)
  }

  /** No wake-up is lost: a sleeping loop that could act has a signal on its way. */
  lemma NoLostWakeup(w: World, i: nat)
    requires Reachable(w) && i in w.runs && Asleep(w.runs[i])
    requires i in w.home && CouldAct(w.runs[i], Full(w, w.home[i]))
    ensures Owed(w, i)
  {
    hide Reachable, Owed, ReadyFrom, Full;
    ListensIn(w);
    assert Rested(w, i);
  }

  /** A signal wakes the loop once: if it takes one and parks again before anyone else moves, none is left. */
  lemma WakesOnce(a: Local, b: Local, c: Local)
    requires a.r.loop.Parked? && a.r.wake && !a.r.loop.timer && a.r.cause == Live
    requires LoopMoves(a, b) && LoopMoves(b, c) && c.r.loop.Parked?
    ensures b.r.loop == Top && !c.r.wake
  {
    hide Plan, Logs, LoopLogs, Settles;
  }

  /** A loop that sleeps with no signal on its way waits for its pause to be over, for a step of its
      own that has yet to end, or for a slot that one of its process's goroutines holds. */
  lemma SleepersHaveReason(w: World, i: nat)
    requires Reachable(w) && i in w.runs && i in w.home
    requires Asleep(w.runs[i]) && !Owed(w, i)
    ensures var r := w.runs[i];
      || r.loop.timer
      || (exists s :: s in r.gos && Early(r.gos[s]))
      || (w.limit > 0 && |Holders(w, w.home[i])| == w.limit)
  {
    hide Reachable, Holds;
    ListensIn(w);
    SlotsIn(w);
    RunIn(w, i);
    var r := w.runs[i];
    assert Rested(w, i);
    LoopOf(LocalOf(w, i));
    AsleepCases(LocalOf(w, i), Full(w, w.home[i]));
    if r.inflight != {} {
      var s :| s in r.inflight;
      NotWinding(w, i);
      assert s in r.gos && Early(r.gos[s]);
    }
  }

  lemma NotWinding(w: World, i: nat)
    requires i in w.runs && !Owed(w, i)
    ensures forall s :: s in w.runs[i].gos ==> Early(w.runs[i].gos[s])
  {
  }

  lemma AsleepCases(a: Local, full: bool)
    requires Holds(a) && a.r.loop.Parked? && ParkedWell(a.r, full)
    ensures a.r.loop.timer || a.r.inflight != {} || full
  {
    NeverStuck(a);
    hide Holds, ReadyFrom;
  }
}
