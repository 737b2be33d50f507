/**
 * What every move of a run keeps: the log stays one that folds and whose every event its state
 * allowed, the run's state is the fold of a prefix of it, and the goroutines, the bookkeeping, and
 * the loop agree with that state.
 */
module RunInvariant {
  import opened Common
  import opened Workflows
  import opened RunStates
  import opened RunProtocol

  // ---- The log -----------------------------------------------------------------------------

  /** id is unfinished and everything it comes after is done. */
  predicate MayStart(s: RunState, id: string) {
    id in s.steps && Unfinished(s.steps[id].status) && DepsDone(s.steps, Deps(s.workflow, id))
  }

  /** res is what the exchange's Wait returns, or will. */
  predicate ResultOfExchange(xs: Exchanges, x: ExchangeID, res: Option<HarnessResult>) {
    x in xs && !xs[x].InFlight? && res == Some(xs[x].result)
  }

  /** The exchange is over, and res and err are what its Wait returned. */
  predicate Returned(xs: Exchanges, x: ExchangeID, res: Option<HarnessResult>, err: Option<StepError>) {
    x in xs && xs[x].Over? && res == Some(xs[x].result) && err == xs[x].err
  }

  /** What a logged end of a step says of the exchange it names. */
  predicate Truthful(e: Event, xs: Exchanges) {
    && (e.adopted ==> e.status == Done && e.exchange in xs && Acceptable(xs[e.exchange]))
    && (e.status == Done && !e.adopted ==> Returned(xs, e.exchange, e.result, None))
    && (e.status == Status.Failed && e.result.Some? ==> Returned(xs, e.exchange, e.result, Some(Other(e.err))))
    && (e.status == Status.Cancelled && e.result.Some? ==>
          e.exchange in xs && xs[e.exchange].Over? && e.result == Some(xs[e.exchange].result))
    && (e.status != Status.Failed ==> e.err == "")
  }

  predicate RunningOn(s: RunState, id: string, x: ExchangeID) {
    id in s.steps && s.steps[id].status == Running && s.steps[id].exchange == x
  }

  /** A step with an exchange in the log is prompted again only once that was looked up and refused. */
  predicate Repromptable(s: RunState, id: string, refused: set<ExchangeID>) {
    id in s.steps && (s.steps[id].status == Running ==> s.steps[id].exchange in refused)
  }

  /** The text is of a step that failed, and names it. */
  predicate Blamed(steps: map<string, StepState>, text: string) {
    exists id :: id in steps && steps[id].status == Status.Failed && text == StepFailure(id, steps[id].err)
  }

  /** The runner may log e when its state is s. */
  ghost predicate Allowed(s: RunState, e: Event, xs: Exchanges, refused: set<ExchangeID>) {
    match e.kind
    case RunStarted => e.workflow.Some? && Valid(e.workflow.value)
    case StepStarted =>
      && MayStart(s, e.step) && e.exchange != NIL && e.exchange in xs && Repromptable(s, e.step, refused)
      && e.session == SessionOf(s.workflow, e.step) && e.prompt == xs[e.exchange].prompt
    case StepEnded =>
      && MayStart(s, e.step) && Truthful(e, xs) && e.session == SessionOf(s.workflow, e.step)
      && (e.status == Done ==> RunningOn(s, e.step, e.exchange) && ResultOfExchange(xs, e.exchange, e.result))
    case RunEnded =>
      && (e.status == Done ==> AllDone(s.steps))
      && (e.status == Status.Failed ==> Blamed(s.steps, e.err))
      && (e.status != Status.Failed ==> e.err == "")
    case _ => true
  }

  /** Where a state reached by allowed events stands. */
  ghost predicate Sound(s: RunState, xs: Exchanges) {
    Valid(s.workflow) && SoundSteps(s.workflow, s.steps, xs)
  }

  ghost predicate SoundSteps(w: Workflow, steps: map<string, StepState>, xs: Exchanges) {
    && steps.Keys == StepIds(w)
    && forall id :: id in steps ==> SoundStep(steps, id, Deps(w, id), xs)
  }

  predicate SoundStep(steps: map<string, StepState>, id: string, after: seq<string>, xs: Exchanges)
    requires id in steps
  {
    var st := steps[id];
    && (st.status == Pending || st.status == Running || st.status.Ended())
    && (st.status != Pending ==> DepsDone(steps, after))
    && (st.status == Running ==> st.exchange != NIL && st.exchange in xs)
    && (st.status == Done ==> ResultOfExchange(xs, st.exchange, st.result))
  }

  lemma SoundUpdate(w: Workflow, steps: map<string, StepState>, id: string, st: StepState, xs: Exchanges)
    requires SoundSteps(w, steps, xs) && id in steps && Unfinished(steps[id].status)
    requires DepsDone(steps, Deps(w, id))
    requires SoundStep(map[id := st], id, [], xs)
    ensures SoundSteps(w, steps[id := st], xs)
  {
    var steps' := steps[id := st];
    assert steps'.Keys == steps.Keys;
    forall n | n in steps'
      ensures SoundStep(steps', n, Deps(w, n), xs)
    {
      assert SoundStep(steps, n, Deps(w, n), xs);
      assert DepsDone(steps, Deps(w, n)) ==> DepsDone(steps', Deps(w, n));
    }
  }

  lemma SoundStart(w: Workflow, xs: Exchanges)
    ensures SoundSteps(w, map id | id in StepIds(w) :: PENDING, xs)
  {
  }

  lemma SoundNext(s: RunState, e: Event, s': RunState, xs: Exchanges, refused: set<ExchangeID>)
    requires s.num >= 0 && (s.num > 0 ==> Sound(s, xs))
    requires Allowed(s, e, xs, refused) && Applied(s, e) == Ok(s')
    ensures Sound(s', xs)
  {
    if e.kind == RunStarted {
      SoundStart(e.workflow.value, xs);
    } else if e.kind == StepStarted || e.kind == StepEnded {
      SoundUpdate(s.workflow, s.steps, e.step, s'.steps[e.step], xs);
    }
  }

  /** The state after a log's first k events. */
  function At(log: seq<Event>, k: nat): RunState
    requires k <= |log|
  {
    match Fold(log[..k])
    case Ok(s) => s
    case Err(_) => EMPTY
  }

  /** A log of run id that folds, each event allowed by the state before it. */
  ghost predicate LogOK(log: seq<Event>, id: string, xs: Exchanges, refused: set<ExchangeID>) {
    && Fold(log).Ok?
    && (forall k :: 0 <= k < |log| ==> log[k].runID == id)
    && (forall k :: 0 <= k < |log| ==> Allowed(At(log, k), log[k], xs, refused))
  }

  lemma AtNext(log: seq<Event>, k: nat)
    requires Fold(log).Ok? && k < |log|
    ensures Fold(log[..k]).Ok? && At(log, k).num == k
    ensures Applied(At(log, k), log[k]) == Ok(At(log, k + 1)) && Fold(log[..k + 1]).Ok?
  {
    FoldPrefix(log, k);
    FoldPrefix(log, k + 1);
    assert log[..k + 1][..k] == log[..k] && Last(log[..k + 1]) == log[k];
  }

  lemma {:induction false} SoundAt(log: seq<Event>, id: string, xs: Exchanges, refused: set<ExchangeID>, k: nat)
    requires LogOK(log, id, xs, refused) && 0 < k <= |log|
    ensures Fold(log[..k]) == Ok(At(log, k)) && Sound(At(log, k), xs) && At(log, k).runID == id
  {
    hide Applied, Fold, Sound;
    AtNext(log, k - 1);
    AcceptedShape(log[..k]);
    if k > 1 {
      SoundAt(log, id, xs, refused, k - 1);
    }
    SoundNext(At(log, k - 1), log[k - 1], At(log, k), xs, refused);
  }

  lemma LogOKSnoc(log: seq<Event>, id: string, xs: Exchanges, refused: set<ExchangeID>, e: Event)
    requires LogOK(log, id, xs, refused) && e.runID == id
    requires Applied(Fold(log).value, e).Ok? && Allowed(Fold(log).value, e, xs, refused)
    ensures LogOK(log + [e], id, xs, refused) && Fold(log + [e]) == Applied(Fold(log).value, e)
  {
    FoldSnoc(log, e);
    var log' := log + [e];
    forall k | 0 <= k < |log'|
      ensures Allowed(At(log', k), log'[k], xs, refused)
    {
      assert log'[..k] == log[..k];
      if k == |log| {
        assert log[..k] == log;
      }
    }
  }

  /** What is decided of an exchange stays so. */
  predicate Later(x: Exchange, x': Exchange) {
    && x'.prompt == x.prompt
    && (!x.InFlight? ==> !x'.InFlight? && x'.result == x.result && x'.record == x.record)
    && (x.Over? ==> x' == x)
  }

  ghost predicate XsGrow(xs: Exchanges, xs': Exchanges) {
    forall x :: x in xs ==> x in xs' && Later(xs[x], xs'[x])
  }

  lemma LogOKGrows(log: seq<Event>, id: string, xs: Exchanges, refused: set<ExchangeID>, xs': Exchanges, refused': set<ExchangeID>)
    requires LogOK(log, id, xs, refused) && XsGrow(xs, xs') && refused <= refused'
    ensures LogOK(log, id, xs', refused')
  {
    forall k | 0 <= k < |log|
      ensures Allowed(At(log, k), log[k], xs', refused')
    {
      assert Allowed(At(log, k), log[k], xs, refused);
    }
  }

  // ---- The run -----------------------------------------------------------------------------

  /** The log is sound, and the state is the fold of a prefix of it. */
  ghost predicate LogSide(log: seq<Event>, id: string, s: RunState, unborn: bool, xs: Exchanges, refused: set<ExchangeID>) {
    && LogOK(log, id, xs, refused)
    && 0 <= s.num <= |log| && Fold(log[..s.num]) == Ok(s)
    && (unborn <==> s.num == 0)
    && (!unborn ==> Sound(s, xs) && s.runID == id)
  }

  /** busy is exactly the sessions of the steps in flight, no two of which share one. */
  ghost predicate Bookkeeping(w: Workflow, inflight: set<string>, busy: set<string>) {
    && inflight <= StepIds(w)
    && (forall n :: n in busy <==> exists s :: s in inflight && SessionOf(w, s) == n)
    && (forall s, t :: s in inflight && t in inflight && s != t ==> SessionOf(w, s) != SessionOf(w, t))
  }

  /** Why a step's context may have ended. */
  datatype Context = Context(cause: Cause, stopped: bool, failed: bool)

  function ContextOf(r: Run): Context {
    Context(r.cause, r.stopped, r.failure.Some?)
  }

  /** Every step id comes after, directly or not, is done, with its result among the results. */
  ghost predicate HasResults(s: RunState, id: string, results: Results) {
    forall d :: Reaches(s.workflow, id, d) ==>
      d in results && d in s.steps && s.steps[d].status == Done && s.steps[d].result == Some(results[d])
  }

  /** What a goroutine's control point says of the run's state. */
  ghost predicate GoOK(s: RunState, c: Context, id: string, pc: PC, xs: Exchanges, refused: set<ExchangeID>) {
    && (Early(pc) ==> MayStart(s, id) && !s.status.Ended())
    && match pc
       case Adopting(x, results) =>
         x != NIL && RunningOn(s, id, x) && HasResults(s, id, results)
       case Prompting(results) =>
         Repromptable(s, id, refused) && HasResults(s, id, results)
       case Sent(x, prompt) => x != NIL && x in xs && xs[x].prompt == prompt && Repromptable(s, id, refused)
       case Following(x) => x in xs && (c.cause == Live ==> RunningOn(s, id, x))
       case Ending(x, res, err) => EndOK(s, c, id, x, res, err, xs)
       case Judging(x, res, err) => EndOK(s, c, id, x, res, err, xs)
       case Logging(e) =>
         && e.kind == StepEnded && e.step == id && e.status.Ended()
         && e.session == SessionOf(s.workflow, id) && !e.adopted && Truthful(e, xs)
         && (e.status == Done ==> RunningOn(s, id, e.exchange) && ResultOfExchange(xs, e.exchange, e.result))
         && (e.status == Status.Cancelled ==> c.cause != Live || c.stopped)
       case Failing(text) => id in s.steps && s.steps[id].status == Status.Failed && s.steps[id].err == text
       case Halting => c.failed
       case _ => true
  }

  /** A step ends with what its exchange's Wait returned, or with an error short of that; without an error,
      the log has the exchange. */
  ghost predicate EndOK(s: RunState, c: Context, id: string, x: ExchangeID, res: Option<HarnessResult>, err: Option<StepError>, xs: Exchanges) {
    && (if res.Some? then Returned(xs, x, res, err) else err.Some?)
    && (err.None? && c.cause == Live ==> RunningOn(s, id, x))
  }

  ghost predicate Goroutines(s: RunState, c: Context, gos: map<string, PC>, xs: Exchanges, refused: set<ExchangeID>, skip: set<string>) {
    forall id :: id in gos && id !in skip ==> GoOK(s, c, id, gos[id], xs, refused)
  }

  /** A failed or cancelled step has stopped the run, or its goroutine is about to. */
  ghost predicate Outcomes(steps: map<string, StepState>, c: Context, gos: map<string, PC>, taken: bool, skip: set<string>) {
    && (forall id :: id in steps && id !in skip && steps[id].status == Status.Failed ==>
          c.failed || (id in gos && gos[id].Failing?) || taken)
    && (SomeStep(steps, Status.Cancelled) ==> c.cause != Live || c.failed || taken)
    && (c.failed ==> SomeStep(steps, Status.Failed))
    && (c.stopped ==> c.cause != Live || c.failed)
  }

  ghost predicate LoopOK(r: Run) {
    && (r.loop.Fresh? || r.loop.Taken? || r.loop.Settled? ==> r.inflight == {} && r.notifying == 0)
    && (r.loop.Fresh? ==> Valid(r.loop.w) && r.failure.None? && !r.stopped)
    && (r.loop.Launching? ==> r.loop.rest != [] && r.failure.None? && Plan(false, r.state, r.inflight, r.busy) == Launch(r.loop.rest))
    && (r.loop.LoggingDone? ==> AllDone(r.state.steps))
    && (r.loop.Stopped? || r.loop.LoggingEnd? ==> r.inflight == {} && Stopping(r))
    && (r.loop.LoggingEnd? ==>
          || (r.loop.status == Status.Failed && r.failure.Some?)
          || (r.loop.status == Status.Cancelled && r.failure.None? && r.cause == CancelledRun))
    && (!r.loop.Exited? ==> r.registered)
    && (r.state.status.Ended() ==> r.loop.Finishing? || r.loop.Exited?)
    && (r.decided ==>
          && r.inflight == {} && !r.loop.Launching? && !r.loop.LoggingDone? && !r.loop.LoggingResumed? && !r.loop.Fresh?
          && (if r.loop == Taken then SomeStep(r.state.steps, Status.Failed) || SomeStep(r.state.steps, Status.Cancelled) else Stopping(r)))
  }

  /** The run object agrees with its state, but for what the goroutine of a step in skip is owed. */
  ghost predicate RunSide(r: Run, xs: Exchanges, refused: set<ExchangeID>, skip: set<string>) {
    && r.gos.Keys == r.inflight
    && Bookkeeping(r.state.workflow, r.inflight, r.busy)
    && Goroutines(r.state, ContextOf(r), r.gos, xs, refused, skip)
    && Outcomes(r.state.steps, ContextOf(r), r.gos, r.loop == Taken, skip)
    && (r.failure.Some? ==> Blamed(r.state.steps, r.failure.value))
    && LoopOK(r)
  }

  /** A stored record carries the result Wait returns (SessionTheorems.RecordsAreTrue). */
  ghost predicate RecordsAgree(xs: Exchanges) {
    forall x :: x in xs && !xs[x].InFlight? && xs[x].record.Some? ==> xs[x].record.value.result == xs[x].result
  }

  ghost predicate Holds(a: Local) {
    && RecordsAgree(a.xs)
    && LogSide(a.log, a.r.id, a.r.state, a.r.loop.Fresh?, a.xs, a.refused)
    && RunSide(a.r, a.xs, a.refused, {})
  }

  ghost predicate Grows(a: Local, b: Local) {
    && a.log <= b.log && XsGrow(a.xs, b.xs) && a.refused <= b.refused && a.r.id == b.r.id
  }

  // ---- Moves that change one goroutine's control point --------------------------------------

  lemma GotoKeeps(r: Run, xs: Exchanges, refused: set<ExchangeID>, s: string, pc: PC)
    requires RunSide(r, xs, refused, {s}) && s in r.gos
    requires GoOK(r.state, ContextOf(r), s, pc, xs, refused)
    requires s in r.state.steps && r.state.steps[s].status == Status.Failed ==> r.failure.Some? || pc.Failing? || r.loop == Taken
    ensures RunSide(r.(gos := r.gos[s := pc]), xs, refused, {})
  {
    hide GoOK, Bookkeeping, Plan, Valid;
    var r' := r.(gos := r.gos[s := pc]);
    assert r'.gos.Keys == r.gos.Keys;
  }

  // ---- Moves that log ----------------------------------------------------------------------

  /** A reported append moves log and state together. */
  lemma AppendWritten(log: seq<Event>, id: string, s: RunState, unborn: bool, xs: Exchanges, refused: set<ExchangeID>, e: Event, s': RunState)
    requires LogSide(log, id, s, unborn, xs, refused)
    requires e.runID == id && e.num == |log| + 1
    requires Applied(s, e) == Ok(s') && Allowed(s, e, xs, refused)
    ensures LogSide(log + [e], id, s', false, xs, refused)
  {
    assert log[..s.num] == log;
    LogOKSnoc(log, id, xs, refused, e);
    assert (log + [e])[..s'.num] == log + [e];
    SoundNext(s, e, s', xs, refused);
    AcceptedShape(log + [e]);
  }

  /** An append that only reports failure moves the log alone. */
  lemma AppendUnreported(log: seq<Event>, id: string, s: RunState, unborn: bool, xs: Exchanges, refused: set<ExchangeID>, e: Event)
    requires LogSide(log, id, s, unborn, xs, refused)
    requires e.runID == id && e.num == |log| + 1
    requires Applied(s, e).Ok? && Allowed(s, e, xs, refused)
    ensures LogSide(log + [e], id, s, unborn, xs, refused)
  {
    assert log[..s.num] == log;
    LogOKSnoc(log, id, xs, refused, e);
    assert (log + [e])[..s.num] == log[..s.num];
  }

  /** Logging keeps the log side, whatever comes of the append. */
  lemma LogsKeepLog(a: Local, e: Event, out: Append, b: Local, ok: bool)
    requires LogSide(a.log, a.r.id, a.r.state, a.r.loop.Fresh?, a.xs, a.refused)
    requires Logs(a, e, out, b, ok)
    requires Allowed(a.r.state, Stamped(a.r, e), a.xs, a.refused)
    ensures LogSide(b.log, b.r.id, b.r.state, a.r.loop.Fresh? && !ok, b.xs, b.refused) && Grows(a, b)
    ensures b.xs == a.xs && b.refused == a.refused
    ensures ok ==> Applied(a.r.state, Stamped(a.r, e)) == Ok(b.r.state) && b.r == a.r.(state := b.r.state)
    ensures !ok ==> b.r == a.r || b.r == WithCause(a.r, LogFailed)
    ensures !ok && Applied(a.r.state, Stamped(a.r, e)).Ok? ==> b.r.cause != Live
  {
    hide LogSide, Allowed, Applied;
    var e' := Stamped(a.r, e);
    match Applied(a.r.state, e') {
      case Err(_) =>
      case Ok(next) =>
        if out == Written {
          AppendWritten(a.log, a.r.id, a.r.state, a.r.loop.Fresh?, a.xs, a.refused, e', next);
        } else if out == Unreported {
          AppendUnreported(a.log, a.r.id, a.r.state, a.r.loop.Fresh?, a.xs, a.refused, e');
        }
    }
  }

  /** t's goroutine is as well off in a state that changed only what another step logs. */
  lemma GoFrame(s: RunState, s': RunState, c: Context, c': Context, t: string, pc: PC, xs: Exchanges, refused: set<ExchangeID>)
    requires GoOK(s, c, t, pc, xs, refused)
    requires s'.workflow == s.workflow && (s'.status.Ended() ==> s.status.Ended())
    requires t in s.steps ==> t in s'.steps && s'.steps[t] == s.steps[t]
    requires forall d :: d in s.steps && s.steps[d].status == Done ==> d in s'.steps && s'.steps[d] == s.steps[d]
    requires (c'.cause == Live ==> c.cause == Live) && (c.stopped ==> c'.stopped) && (c.failed ==> c'.failed)
    ensures GoOK(s', c', t, pc, xs, refused)
  {
  }

  /** The same for every goroutine but those in skip. */
  lemma GoroutinesFrame(s: RunState, s': RunState, c: Context, c': Context, gos: map<string, PC>, xs: Exchanges, refused: set<ExchangeID>, skip: set<string>)
    requires Goroutines(s, c, gos, xs, refused, {})
    requires s'.workflow == s.workflow && (s'.status.Ended() ==> s.status.Ended())
    requires forall t :: t in s.steps && t !in skip ==> t in s'.steps && s'.steps[t] == s.steps[t]
    requires forall d :: d in s.steps && s.steps[d].status == Done ==> d in s'.steps && s'.steps[d] == s.steps[d]
    requires (c'.cause == Live ==> c.cause == Live) && (c.stopped ==> c'.stopped) && (c.failed ==> c'.failed)
    ensures Goroutines(s', c', gos, xs, refused, skip)
  {
    hide GoOK;
    forall t | t in gos && t !in skip
      ensures GoOK(s', c', t, gos[t], xs, refused)
    {
      GoFrame(s, s', c, c', t, gos[t], xs, refused);
    }
  }

  /** The events step s's goroutine logs. */
  ghost predicate StepEvent(s: RunState, c: Context, id: string, e: Event) {
    || (e.kind == SessionOpened && e.session in SessionNames(s.workflow))
    || e.kind == RunPaused
    || (e.kind == StepStarted && e.step == id)
    || (e.kind == StepEnded && e.step == id && e.status.Ended()
        && (e.status == Status.Cancelled ==> c.cause != Live || c.stopped))
  }

  lemma StepEventApplies(s: RunState, c: Context, id: string, e: Event)
    requires StepEvent(s, c, id, e) && id in s.steps && !s.status.Ended()
    requires e.num == s.num + 1 && s.num > 0 && e.runID == s.runID
    ensures Applied(s, e).Ok?
    ensures var s' := Applied(s, e).value;
      && s'.workflow == s.workflow && !s'.status.Ended() && s'.steps.Keys == s.steps.Keys
      && (forall t :: t in s.steps && t != id ==> s'.steps[t] == s.steps[t])
      && (e.kind == SessionOpened || e.kind == RunPaused ==> s'.steps == s.steps)
      && (e.kind == StepStarted ==> RunningOn(s', id, e.exchange))
      && (e.kind == StepEnded ==> s'.steps[id].status == e.status && s'.steps[id].err == e.err)
  {
  }

  /** What a run and its other goroutines keep when step id's goroutine logs. */
  lemma LoggedRun(r: Run, xs: Exchanges, refused: set<ExchangeID>, id: string, e: Event, s': RunState)
    requires RunSide(r, xs, refused, {}) && id in r.gos && MayStart(r.state, id) && !r.state.status.Ended()
    requires StepEvent(r.state, ContextOf(r), id, e) && Unlocked(r)
    requires e.num == r.state.num + 1 && r.state.num > 0 && e.runID == r.state.runID
    requires Applied(r.state, e) == Ok(s')
    ensures RunSide(r.(state := s'), xs, refused, {id})
  {
    hide Goroutines, Outcomes, GoOK, Bookkeeping, Applied, Plan;
    StepEventApplies(r.state, ContextOf(r), id, e);
    var s, r' := r.state, r.(state := s');
    GoroutinesFrame(s, s', ContextOf(r), ContextOf(r'), r.gos, xs, refused, {id});
    OutcomesAfter(s.steps, s'.steps, ContextOf(r), r.gos, r.loop == Taken, id);
  }

  lemma OutcomesAfter(steps: map<string, StepState>, steps': map<string, StepState>, c: Context, gos: map<string, PC>, taken: bool, id: string)
    requires Outcomes(steps, c, gos, taken, {}) && steps'.Keys == steps.Keys
    requires id in steps && Unfinished(steps[id].status)
    requires forall t :: t in steps && t != id ==> steps'[t] == steps[t]
    requires steps'[id].status == Status.Cancelled ==> c.cause != Live || c.stopped
    ensures Outcomes(steps', c, gos, taken, {id})
  {
    if c.failed {
      var f :| f in steps && steps[f].status == Status.Failed;
      assert steps'[f] == steps[f];
    }
    if SomeStep(steps', Status.Cancelled) {
      var t :| t in steps' && steps'[t].status == Status.Cancelled;
      assert t != id ==> steps[t].status == Status.Cancelled;
    }
  }

  /** A run whose context ends is as well off. */
  lemma CauseKeeps(r: Run, cause: Cause, xs: Exchanges, refused: set<ExchangeID>)
    requires RunSide(r, xs, refused, {}) && cause != Live
    ensures RunSide(WithCause(r, cause), xs, refused, {})
  {
    hide RunSide;
    if r.cause == Live {
      CauseChanges(r, cause, xs, refused);
    }
  }

  lemma CauseChanges(r: Run, cause: Cause, xs: Exchanges, refused: set<ExchangeID>)
    requires RunSide(r, xs, refused, {}) && r.cause == Live && cause != Live
    ensures RunSide(r.(cause := cause), xs, refused, {})
  {
    hide Goroutines, Outcomes, Blamed, GoOK, Bookkeeping, LoopOK;
    var r' := r.(cause := cause);
    CauseOutcomes(r.state.steps, ContextOf(r), ContextOf(r'), r.gos, r.loop == Taken);
    CauseLoop(r, r');
    GoroutinesFrame(r.state, r'.state, ContextOf(r), ContextOf(r'), r.gos, xs, refused, {});
  }

  lemma CauseLoop(r: Run, r': Run)
    requires LoopOK(r) && r' == r.(cause := r'.cause) && (r.cause != Live ==> r'.cause == r.cause)
    ensures LoopOK(r')
  {
    hide Plan, Valid, SomeStep, AllDone;
  }

  lemma CauseOutcomes(steps: map<string, StepState>, c: Context, c': Context, gos: map<string, PC>, taken: bool)
    requires Outcomes(steps, c, gos, taken, {})
    requires c' == c.(cause := c'.cause) && (c.cause != Live ==> c'.cause != Live)
    ensures Outcomes(steps, c', gos, taken, {})
  {
    hide SomeStep;
  }
}
