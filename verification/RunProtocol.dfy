/**
 * One run of the Runner (workflow/runner.go): the loop and the step goroutines as control points,
 * each move one critical section or one call of the source. Local is all that one run object reads
 * and writes of its surroundings; Runners puts many of them together.
 */
module RunProtocol {
  import opened Common
  import opened Workflows
  import opened RunStates

  // ---- The harness, as the run sees it -----------------------------------------------------

  /** An exchange's error: a usage limit, with its reset time (0 for unknown), or any other. */
  datatype StepError = Limit(resetsAt: int, text: string) | Other(text: string)

  /** What the session's store keeps of an exchange. */
  datatype Record = Record(result: HarnessResult, err: string)

  /** prompt is what Send was given; result and err are what Wait returns once the exchange is over. Its
      record, if one is kept, is put to the Store before its end is pushed. */
  datatype Exchange =
    | InFlight(prompt: string)
    | Stored(prompt: string, result: HarnessResult, record: Option<Record>)
    | Over(prompt: string, result: HarnessResult, err: Option<StepError>, record: Option<Record>)

  type Exchanges = map<ExchangeID, Exchange>

  /** The records adopt takes a result from. */
  predicate Acceptable(x: Exchange) {
    && !x.InFlight? && x.record.Some? && x.record.value.err == ""
    && x.record.value.result.stopReason != "" && x.record.value.result.stopReason != "aborted"
  }

  type Results = map<string, HarnessResult>

  // ---- Control points ----------------------------------------------------------------------

  /** A step's goroutine, named for what it is about to do. */
  datatype PC =
    | Launched                                          // open the session
    | Binding(sessionID: string)                        // log session_opened
    | Opened                                            // read the step's state and the results
    | Adopting(x: ExchangeID, results: Results)         // look x up in the session's records
    | Prompting(results: Results)                       // render the prompt and Send it
    | Sent(x: ExchangeID, prompt: string)               // log step_started
    | Following(x: ExchangeID)                          // wait for the exchange to end
    | Ending(x: ExchangeID, res: Option<HarnessResult>, err: Option<StepError>)   // test interrupted
    | Judging(x: ExchangeID, res: Option<HarnessResult>, err: Option<StepError>)  // test the steps' context
    | Logging(e: Event)                                 // log step_ended
    | Pausing(until: int, text: string)                 // compare with the pause the log has
    | LoggingPause(until: int, text: string)            // log run_paused
    | Failing(text: string)                             // record the run's failure
    | Halting                                           // stop the other steps
    | Freeing                                           // give the slot back
    | Waking(pending: Option<set<nat>>)                 // signal these runs; None before r.mu is held
    | Closing                                           // close an idle session, leave inflight

  /** The goroutine may yet log something about its step. */
  predicate Early(pc: PC) {
    !pc.Failing? && !pc.Halting? && !Freed(pc) && !pc.Freeing?
  }

  /** The goroutine has given its slot back. */
  predicate Freed(pc: PC) {
    pc.Waking? || pc.Closing?
  }

  datatype Loop =
    | Fresh(w: Workflow)                // Start: run_started not logged yet
    | Taken                             // Resume: before settle
    | Settled                           // Resume: before run_resumed
    | Top                               // about to take the lock and decide
    | Launching(rest: seq<Step>)        // holds the lock, launching these in order
    | Parked(done: bool, timer: bool)   // in select: on wake, on ctx.Done, on the timer
    | LoggingResumed | LoggingDone
    | Stopped                           // out of the loop, before the outcome is chosen
    | LoggingEnd(status: Status)
    | Finishing
    | Exited

  /** Why the run's context ended; the first cause stays. */
  datatype Cause = Live | CancelledRun | ShutDown | LogFailed | RunOver

  datatype Run = Run(
    id: string, state: RunState, loop: Loop,
    inflight: set<string>, busy: set<string>, gos: map<string, PC>,
    notifying: nat,                     // goroutines out of inflight that have yet to signal
    failure: Option<string>, cause: Cause, stopped: bool,
    wake: bool, registered: bool,
    decided: bool)                      // resumed from a log that has a failed or cancelled step

  datatype Local = Local(r: Run, log: seq<Event>, xs: Exchanges, refused: set<ExchangeID>)

  // ---- Scheduling --------------------------------------------------------------------------

  predicate Unfinished(s: Status) { s == Pending || s == Running }

  /** Every step id comes after is done. */
  predicate DepsDone(steps: map<string, StepState>, after: seq<string>) {
    forall d :: d in after ==> d in steps && steps[d].status == Done
  }

  predicate Startable(states: map<string, StepState>, st: Step, inflight: set<string>, busy: set<string>) {
    && st.id in states && Unfinished(states[st.id].status)
    && st.id !in inflight && st.session !in busy
    && DepsDone(states, st.after)
  }

  function ReadyFrom(states: map<string, StepState>, steps: seq<Step>, inflight: set<string>, busy: set<string>): seq<Step> {
    if steps == [] then []
    else if Startable(states, steps[0], inflight, busy) then
      [steps[0]] + ReadyFrom(states, steps[1..], inflight, busy + {steps[0].session})
    else ReadyFrom(states, steps[1..], inflight, busy)
  }

  /** The steps that can start now, in declaration order, one a session. */
  function Ready(r: Run): seq<Step> {
    ReadyFrom(r.state.steps, r.state.workflow.steps, r.inflight, r.busy)
  }

  predicate Stopping(r: Run) {
    r.cause != Live || r.failure.Some?
  }

  /** The steps' context has ended. */
  predicate StepsEnded(r: Run) {
    r.cause != Live || r.stopped
  }

  predicate Interrupted(r: Run) {
    r.cause != Live && r.cause != CancelledRun
  }

  datatype Decision = Break | Drain | Finish | Wait | Stuck | Launch(steps: seq<Step>)

  predicate AllDone(steps: map<string, StepState>) {
    forall id :: id in steps ==> steps[id].status == Done
  }

  /** What the loop does at its top. The source counts the done steps, which for a declared
      workflow comes to this (RunnerTheorems.CountIsAllDone). */
  function Plan(stopping: bool, s: RunState, inflight: set<string>, busy: set<string>): Decision {
    if stopping then (if inflight == {} then Break else Drain)
    else if AllDone(s.steps) then Finish
    else if s.status == Paused then Wait
    else
      var ready := ReadyFrom(s.steps, s.workflow.steps, inflight, busy);
      if ready == [] && inflight == {} then Stuck else Launch(ready)
  }

  function Decide(r: Run): Decision {
    Plan(Stopping(r), r.state, r.inflight, r.busy)
  }

  // ---- Logging -----------------------------------------------------------------------------

  /** How an append ends: reported written, not written, or written though it reports failure. */
  datatype Append = Written | Lost | Unreported

  function Stamped(r: Run, e: Event): Event {
    e.(runID := r.id, num := r.state.num + 1)
  }

  function WithCause(r: Run, cause: Cause): Run {
    if r.cause == Live then r.(cause := cause) else r
  }

  /** rn.log: number, fold, append. A refused append changes nothing but the run's cause. */
  ghost predicate Logs(a: Local, e: Event, out: Append, b: Local, ok: bool) {
    var e' := Stamped(a.r, e);
    match Applied(a.r.state, e')
    case Err(_) => b == a && !ok
    case Ok(next) =>
      match out
      case Written =>
        e'.num == |a.log| + 1 && ok && b == a.(r := a.r.(state := next), log := a.log + [e'])
      case Lost =>
        !ok && b == a.(r := WithCause(a.r, LogFailed))
      case Unreported =>
        e'.num == |a.log| + 1 && !ok && b == a.(r := WithCause(a.r, LogFailed), log := a.log + [e'])
  }

  function Goto(a: Local, s: string, pc: PC): Local {
    a.(r := a.r.(gos := a.r.gos[s := pc]))
  }

  /** A goroutine logs e and goes on by whether that succeeded. */
  ghost predicate LogsThen(a: Local, s: string, e: Event, done: PC, failed: PC, b: Local) {
    exists out, c, ok :: Logs(a, e, out, c, ok) && b == Goto(c, s, if ok then done else failed)
  }

  function StartedEvent(w: Workflow, s: string, x: ExchangeID, prompt: string): Event {
    BLANK.(kind := StepStarted, step := s, session := SessionOf(w, s), exchange := x, prompt := prompt)
  }

  function EndedEvent(w: Workflow, s: string, x: ExchangeID, status: Status, res: Option<HarnessResult>, adopted: bool): Event {
    BLANK.(kind := StepEnded, step := s, session := SessionOf(w, s), exchange := x, status := status, result := res, adopted := adopted)
  }

  // ---- The step goroutine ------------------------------------------------------------------

  /** Moves that need rn.mu wait while the loop holds it. */
  predicate Unlocked(r: Run) {
    !r.loop.Launching?
  }

  ghost predicate OpenStep(a: Local, s: string, b: Local) {
    || b == Goto(a, s, Opened)
    || (exists id :: b == Goto(a, s, Binding(id)))
    || (exists e: StepError :: b == Goto(a, s, Ending(NIL, None, Some(e))))
  }

  ghost predicate BindStep(a: Local, s: string, id: string, b: Local) {
    exists e: StepError ::
      LogsThen(a, s, BLANK.(kind := SessionOpened, session := SessionOf(a.r.state.workflow, s), sessionID := id),
               Opened, Ending(NIL, None, Some(e)), b)
  }

  ghost predicate ReadStep(a: Local, s: string, b: Local) {
    && s in a.r.state.steps
    && var (prior, results) := (a.r.state.steps[s], ResultsOf(a.r.state));
       b == Goto(a, s, if prior.status == Running && prior.exchange != NIL then Adopting(prior.exchange, results) else Prompting(results))
  }

  /** adopt: an unreadable store fails the step, an acceptable record becomes its result, and any
      other lets the step run again. */
  ghost predicate AdoptStep(a: Local, s: string, x: ExchangeID, results: Results, b: Local) {
    || (exists e: StepError :: b == Goto(a, s, Ending(x, None, Some(e))))
    || (x in a.xs && Acceptable(a.xs[x]) && exists e: StepError ::
          LogsThen(a, s, EndedEvent(a.r.state.workflow, s, x, Done, Some(a.xs[x].record.value.result), true),
                   Freeing, Ending(x, None, Some(e)), b))
    || (!(x in a.xs && Acceptable(a.xs[x])) &&
          b == Goto(a.(refused := a.refused + {x}), s, Prompting(results)))
  }

  /** Prompt fails for want of a result only when an ancestor has none (Workflows.Prompt). */
  ghost predicate LacksResult(w: Workflow, s: string, results: Results) {
    exists d :: Reaches(w, s, d) && d !in results
  }

  ghost predicate SendStep(a: Local, s: string, results: Results, b: Local) {
    || (exists e: StepError :: b == Goto(a, s, Ending(NIL, None, Some(e))))
    || (exists x: ExchangeID, prompt :: x != NIL && x !in a.xs && !LacksResult(a.r.state.workflow, s, results) &&
          b == Goto(a.(xs := a.xs[x := InFlight(prompt)]), s, Sent(x, prompt)))
  }

  ghost predicate StartedStep(a: Local, s: string, x: ExchangeID, prompt: string, b: Local) {
    LogsThen(a, s, StartedEvent(a.r.state.workflow, s, x, prompt),
             Following(x), Following(x), b)
  }

  ghost predicate FollowStep(a: Local, s: string, x: ExchangeID, b: Local) {
    && x in a.xs && a.xs[x].Over?
    && b == Goto(a, s, Ending(x, Some(a.xs[x].result), a.xs[x].err))
  }

  ghost predicate JudgeStep(a: Local, s: string, pc: PC, b: Local)
    requires pc.Judging?
  {
    if StepsEnded(a.r) then
      b == Goto(a, s, Logging(EndedEvent(a.r.state.workflow, s, pc.x, Status.Cancelled, pc.res, false)))
    else
      match pc.err
      case Some(Limit(resetsAt, text)) =>
        exists until :: (resetsAt != 0 ==> until == resetsAt) && b == Goto(a, s, Pausing(until, text))
      case Some(Other(text)) =>
        b == Goto(a, s, Logging(EndedEvent(a.r.state.workflow, s, pc.x, Failed, pc.res, false).(err := text)))
      case None =>
        b == Goto(a, s, Logging(EndedEvent(a.r.state.workflow, s, pc.x, Done, pc.res, false)))
  }

  ghost predicate PauseStep(a: Local, s: string, until: int, text: string, b: Local) {
    var later := a.r.state.status != Paused || until > a.r.state.until;
    b == Goto(a, s, if later then LoggingPause(until, text) else Freeing)
  }

  /** What the run says of a step's failure. */
  function StepFailure(id: string, err: string): string {
    "step \"" + id + "\": " + err
  }

  function WithFailure(a: Local, text: string): Local {
    a.(r := a.r.(failure := if a.r.failure.None? then Some(text) else a.r.failure))
  }

  function SessionOf(w: Workflow, id: string): string {
    match Lookup(w.steps, id)
    case Some(st) => st.session
    case None => ""
  }

  /** release: the step leaves inflight and its session is free again. */
  function Left(a: Local, s: string): Local {
    a.(r := a.r.(
      inflight := a.r.inflight - {s}, busy := a.r.busy - {SessionOf(a.r.state.workflow, s)},
      gos := a.r.gos - {s}, notifying := a.r.notifying + 1))
  }

  /** One move of step s's goroutine, but for the slot and the signals to other runs. */
  ghost predicate StepMoves(limited: bool, a: Local, s: string, b: Local)
    requires s in a.r.gos
  {
    match a.r.gos[s]
    case Launched => OpenStep(a, s, b)
    case Binding(id) => Unlocked(a.r) && BindStep(a, s, id, b)
    case Opened => Unlocked(a.r) && ReadStep(a, s, b)
    case Adopting(x, results) => Unlocked(a.r) && AdoptStep(a, s, x, results, b)
    case Prompting(results) => SendStep(a, s, results, b)
    case Sent(x, prompt) => Unlocked(a.r) && StartedStep(a, s, x, prompt, b)
    case Following(x) => FollowStep(a, s, x, b)
    case Ending(x, res, err) =>
      b == Goto(a, s, if Interrupted(a.r) then Freeing else Judging(x, res, err))
    case Judging(_, _, _) => JudgeStep(a, s, a.r.gos[s], b)
    case Logging(e) => Unlocked(a.r) && LogsThen(a, s, e, if e.status == Status.Failed then Failing(e.err) else Freeing, Freeing, b)
    case Pausing(until, text) => Unlocked(a.r) && PauseStep(a, s, until, text, b)
    case LoggingPause(until, text) =>
      Unlocked(a.r) && LogsThen(a, s, BLANK.(kind := RunPaused, step := s, until := until, err := text), Freeing, Freeing, b)
    case Failing(text) => Unlocked(a.r) && b == Goto(WithFailure(a, StepFailure(s, text)), s, Halting)
    case Halting => b == Goto(a.(r := a.r.(stopped := true)), s, Freeing)
    case Freeing => b == Goto(a, s, if limited then Waking(None) else Closing)
    case Waking(pending) => pending == Some({}) && b == Goto(a, s, Closing)
    case Closing => Unlocked(a.r) && b == Left(a, s)
  }

  // ---- The loop ----------------------------------------------------------------------------

  predicate SomeStep(steps: map<string, StepState>, status: Status) {
    exists id :: id in steps && steps[id].status == status
  }

  /** The first step declared that failed. */
  function FirstFailure(steps: seq<Step>, states: map<string, StepState>): Option<string> {
    if steps == [] then None
    else if steps[0].id in states && states[steps[0].id].status == Status.Failed then
      Some(StepFailure(steps[0].id, states[steps[0].id].err))
    else FirstFailure(steps[1..], states)
  }

  /** settle: a failed step fails the run and stops its steps, a cancelled one cancels it. */
  predicate Settles(a: Local, b: Local) {
    var s := a.r.state;
    var failure := if a.r.failure.Some? then a.r.failure else FirstFailure(s.workflow.steps, s.steps);
    b == a.(r := a.r.(
      loop := Settled, failure := failure, stopped := a.r.stopped || failure.Some?,
      cause := if SomeStep(s.steps, Status.Cancelled) && a.r.cause == Live then CancelledRun else a.r.cause))
  }

  function AtLoop(a: Local, loop: Loop): Local {
    a.(r := a.r.(loop := loop))
  }

  /** The loop logs e and goes on, whatever came of it. */
  ghost predicate LoopLogs(a: Local, e: Event, next: Loop, b: Local) {
    exists out, c, ok :: Logs(a, e, out, c, ok) && b == AtLoop(c, next)
  }

  /** At the top of the loop, under the lock. */
  ghost predicate TopMoves(a: Local, b: Local) {
    match Decide(a.r)
    case Break => b == AtLoop(a, Stopped)
    case Drain => b == AtLoop(a, Parked(false, false))
    case Finish => b == AtLoop(a, LoggingDone)
    case Wait => b == AtLoop(a, Parked(true, true)) || b == AtLoop(a, LoggingResumed)
    case Stuck => b == a.(r := a.r.(failure := Some("workflow: no step can start")))
    case Launch(steps) => b == AtLoop(a, if steps == [] then Parked(true, false) else Launching(steps))
  }

  /** The loop launches the next ready step; the slot it took is the world's. */
  function Launches(a: Local): Local
    requires a.r.loop.Launching? && a.r.loop.rest != []
  {
    var st, rest := a.r.loop.rest[0], a.r.loop.rest[1..];
    a.(r := a.r.(
      inflight := a.r.inflight + {st.id}, busy := a.r.busy + {st.session},
      gos := a.r.gos[st.id := Launched],
      loop := if rest == [] then Parked(true, false) else Launching(rest)))
  }

  function EndStatus(r: Run): Loop {
    if r.failure.Some? then LoggingEnd(Status.Failed)
    else if Interrupted(r) then Finishing
    else LoggingEnd(Status.Cancelled)
  }

  function StartEvent(w: Workflow): Event {
    BLANK.(kind := RunStarted, workflow := Some(w))
  }

  /** One move of the run's loop, or of Start or Resume before it, but for taking slots. */
  ghost predicate LoopMoves(a: Local, b: Local) {
    match a.r.loop
    case Fresh(_) =>
      exists out, c :: Logs(a, StartEvent(a.r.loop.w), out, c, true) && b == AtLoop(c, Top)
    case Taken => Settles(a, b)
    case Settled =>
      if a.r.state.status == Paused then b == AtLoop(a, Top)
      else exists out, c :: Logs(a, BLANK.(kind := RunResumed), out, c, true) && b == AtLoop(c, Top)
    case Top => TopMoves(a, b)
    case Launching(rest) => false
    case Parked(done, timer) =>
      || (a.r.wake && b == a.(r := a.r.(wake := false, loop := Top)))
      || (((done && a.r.cause != Live) || timer) && b == AtLoop(a, Top))
    case LoggingResumed => LoopLogs(a, BLANK.(kind := RunResumed), Top, b)
    case LoggingDone => LoopLogs(a, BLANK.(kind := RunEnded, status := Done), Finishing, b)
    case Stopped => b == AtLoop(a, EndStatus(a.r))
    case LoggingEnd(status) =>
      LoopLogs(a, BLANK.(kind := RunEnded, status := status, err := if a.r.failure.Some? then a.r.failure.value else ""), Finishing, b)
    case Finishing => b == a.(r := WithCause(a.r.(stopped := true, registered := false, loop := Exited), RunOver))
    case Exited => false
  }

  /** Start or Resume could not log its first event: the run object is dropped. */
  ghost predicate Drops(a: Local, log: seq<Event>) {
    exists out, c: Local ::
      && c.log == log
      && match a.r.loop
         case Fresh(_) => Logs(a, StartEvent(a.r.loop.w), out, c, false)
         case Settled => a.r.state.status != Paused && Logs(a, BLANK.(kind := RunResumed), out, c, false)
         case _ => false
  }
}
