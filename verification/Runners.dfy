/**
 * Any number of Runners over one Store (workflow/runner.go): their runs interleaved move by move, the
 * slots each shares among its runs, crashes, shutdowns, resumes, and cancels of runs that none is
 * running. The Store takes each append whole, as one object's mutex has it do. Runners in processes of
 * their own have that of the file store only while no other's change falls within an Append: Writers
 * says exactly when, and Stores that the appends are then these.
 */
module Runners {
  import opened Common
  import opened Workflows
  import opened RunStates
  import opened RunProtocol
  import opened RunInvariant

  /** limit is each process's bound on exchanges in flight, 0 for none; home is the process a run
      object lives in; slots counts the tokens in each process's channel. */
  datatype World = World(
    limit: nat, disk: map<string, seq<Event>>, xs: Exchanges, refused: set<ExchangeID>,
    runs: map<nat, Run>, home: map<nat, nat>, slots: map<nat, nat>)

  function SlotsOf(w: World, p: nat): nat {
    if p in w.slots then w.slots[p] else 0
  }

  /** Every slot of process p is taken. */
  predicate Full(w: World, p: nat) {
    w.limit > 0 && SlotsOf(w, p) >= w.limit
  }

  predicate Has(w: World, i: nat) {
    i in w.runs && i in w.home && w.runs[i].id in w.disk
  }

  function LocalOf(w: World, i: nat): Local
    requires Has(w, i)
  {
    Local(w.runs[i], w.disk[w.runs[i].id], w.xs, w.refused)
  }

  function Merge(w: World, i: nat, b: Local): World {
    w.(runs := w.runs[i := b.r], disk := w.disk[b.r.id := b.log], xs := b.xs, refused := b.refused)
  }

  function WithSlots(w: World, p: nat, n: int): World {
    w.(slots := w.slots[p := if n < 0 then 0 else n])
  }

  function Put(w: World, i: nat, r: Run): World {
    w.(runs := w.runs[i := r])
  }

  // ---- Moves of the runs --------------------------------------------------------------------

  /** A goroutine's move; freeing takes the slot's token out of the channel. */
  ghost predicate StepMove(w: World, i: nat, s: string, w': World) {
    && Has(w, i) && s in w.runs[i].gos
    && exists b :: StepMoves(w.limit > 0, LocalOf(w, i), s, b) && w' == AfterStep(w, i, s, b)
  }

  function AfterStep(w: World, i: nat, s: string, b: Local): World
    requires Has(w, i) && s in w.runs[i].gos
  {
    if w.runs[i].gos[s].Freeing? && w.limit > 0
    then WithSlots(Merge(w, i, b), w.home[i], SlotsOf(w, w.home[i]) - 1)
    else Merge(w, i, b)
  }

  ghost predicate LoopMove(w: World, i: nat, w': World) {
    Has(w, i) && exists b :: LoopMoves(LocalOf(w, i), b) && w' == Merge(w, i, b)
  }

  /** tryAcquire and the launch it allows, or the park when no slot is free. */
  predicate LaunchMove(w: World, i: nat, w': World) {
    && Has(w, i) && w.runs[i].loop.Launching? && w.runs[i].loop.rest != []
    && w' ==
       if Full(w, w.home[i]) then Put(w, i, w.runs[i].(loop := Parked(true, false)))
       else
         var b := Launches(LocalOf(w, i));
         if w.limit > 0 then WithSlots(Merge(w, i, b), w.home[i], SlotsOf(w, w.home[i]) + 1) else Merge(w, i, b)
  }

  /** release holds r.mu: it signals every run then registered with the process. */
  function Registered(w: World, p: nat): set<nat> {
    set k | k in w.runs && k in w.home && w.home[k] == p && w.runs[k].registered
  }

  predicate LockMove(w: World, i: nat, s: string, w': World) {
    && Has(w, i) && s in w.runs[i].gos && w.runs[i].gos[s] == Waking(None)
    && w' == Put(w, i, w.runs[i].(gos := w.runs[i].gos[s := Waking(Some(Registered(w, w.home[i])))]))
  }

  function Signalled(w: World, k: nat): World {
    if k in w.runs then Put(w, k, w.runs[k].(wake := true)) else w
  }

  predicate SignalMove(w: World, i: nat, s: string, k: nat, w': World) {
    && Has(w, i) && s in w.runs[i].gos && w.runs[i].gos[s].Waking? && w.runs[i].gos[s].pending.Some?
    && k in w.runs[i].gos[s].pending.value
    && w' == Signalled(Put(w, i, w.runs[i].(gos := w.runs[i].gos[s := Waking(Some(w.runs[i].gos[s].pending.value - {k}))])), k)
  }

  /** The signal a step's goroutine ends with. */
  predicate NotifyMove(w: World, i: nat, w': World) {
    && Has(w, i) && w.runs[i].notifying > 0
    && w' == Put(w, i, w.runs[i].(notifying := w.runs[i].notifying - 1, wake := true))
  }

  // ---- Moves around them --------------------------------------------------------------------

  function NewRun(id: string, s: RunState, loop: Loop, decided: bool): Run {
    Run(id, s, loop, {}, {}, map[], 0, None, Live, false, false, true, decided)
  }

  /** Start: a validated workflow, under a run ID the Store holds no log of. */
  ghost predicate StartMove(w: World, i: nat, p: nat, id: string, wf: Workflow, w': World) {
    && i !in w.runs && id !in w.disk && Valid(wf)
    && w' == w.(runs := w.runs[i := NewRun(id, EMPTY, Fresh(wf), false)], home := w.home[i := p], disk := w.disk[id := []])
  }

  /** Resume: the fold was read some time before the run was registered, so it may be stale. */
  predicate ResumeMove(w: World, i: nat, p: nat, id: string, k: nat, w': World) {
    && i !in w.runs && id in w.disk && 0 < k <= |w.disk[id]|
    && (forall j :: j in w.runs && j in w.home && w.home[j] == p && w.runs[j].registered ==> w.runs[j].id != id)
    && var s := At(w.disk[id], k);
       && !s.status.Ended()
       && w' == w.(runs := w.runs[i := NewRun(id, s, Taken, SomeStep(s.steps, Status.Failed) || SomeStep(s.steps, Status.Cancelled))],
                   home := w.home[i := p])
  }

  ghost predicate DropMove(w: World, i: nat, w': World) {
    && Has(w, i)
    && exists log :: Drops(LocalOf(w, i), log)
         && w' == w.(runs := w.runs - {i}, home := w.home - {i}, disk := w.disk[w.runs[i].id := log])
  }

  /** Cancel and Shutdown end the run's context. */
  predicate ContextMove(w: World, i: nat, cause: Cause, w': World) {
    && Has(w, i) && (cause == CancelledRun || cause == ShutDown)
    && w' == Put(w, i, WithCause(w.runs[i], cause))
  }

  function OfflineEnd(id: string, k: nat): Event {
    BLANK.(runID := id, num := k + 1, kind := RunEnded, status := Status.Cancelled)
  }

  /** Cancel of a run no process of this Runner runs: a fold, then an append the Store takes only
      if nothing was logged between. */
  predicate OfflineMove(w: World, id: string, k: nat, w': World) {
    && id in w.disk && 0 < k <= |w.disk[id]| && !At(w.disk[id], k).status.Ended()
    && (w' == w || (k == |w.disk[id]| && w' == w.(disk := w.disk[id := w.disk[id] + [OfflineEnd(id, k)]])))
  }

  predicate CrashMove(w: World, p: nat, w': World) {
    w' == w.(
      runs := map i | i in w.runs && !(i in w.home && w.home[i] == p) :: w.runs[i],
      home := map i | i in w.home && w.home[i] != p :: w.home[i],
      slots := w.slots[p := 0])
  }

  /** An exchange's record, which carries its result, is put to the Store, if one is kept; then its end is
      pushed. */
  predicate ExchangeMove(w: World, x: ExchangeID, res: HarnessResult, err: Option<StepError>, record: Option<Record>, w': World) {
    && x in w.xs
    && ((w.xs[x].InFlight? && (record.Some? ==> record.value.result == res) && w' == w.(xs := w.xs[x := Stored(w.xs[x].prompt, res, record)]))
        || (w.xs[x].Stored? && w' == w.(xs := w.xs[x := Over(w.xs[x].prompt, w.xs[x].result, err, w.xs[x].record)])))
  }

  ghost predicate Next(w: World, w': World) {
    || (exists i, s :: StepMove(w, i, s, w'))
    || (exists i :: LoopMove(w, i, w'))
    || (exists i :: LaunchMove(w, i, w'))
    || (exists i, s :: LockMove(w, i, s, w'))
    || (exists i, s, k :: SignalMove(w, i, s, k, w'))
    || (exists i :: NotifyMove(w, i, w'))
    || (exists i, p, id, wf :: StartMove(w, i, p, id, wf, w'))
    || (exists i, p, id, k :: ResumeMove(w, i, p, id, k, w'))
    || (exists i :: DropMove(w, i, w'))
    || (exists i, cause :: ContextMove(w, i, cause, w'))
    || (exists id, k :: OfflineMove(w, id, k, w'))
    || (exists p :: CrashMove(w, p, w'))
    || (exists x, res, err, record :: ExchangeMove(w, x, res, err, record, w'))
  }

  predicate Init(w: World) {
    w.disk == map[] && w.xs == map[] && w.refused == {} && w.runs == map[] && w.home == map[] && w.slots == map[]
  }

  /** A history of the world: any interleaving of everyone's moves. */
  ghost predicate History(ws: seq<World>) {
    && ws != [] && Init(ws[0])
    && forall n :: 0 <= n < |ws| - 1 ==> Next(ws[n], ws[n + 1])
  }

  /** Some history leads to w. */
  ghost predicate Reachable(w: World) {
    exists ws :: ws != [] && History(ws) && Last(ws) == w
  }
}
