/**
 * A run's log and the state it folds to (workflow/event.go, workflow/state.go). Applied is the
 * meaning of one event; RunCell is the source's State, which Apply overwrites in place.
 */
module RunStates {
  import opened Common
  import opened Workflows

  /** Exchange IDs; NIL stands for the nil UUID. */
  type ExchangeID = nat
  const NIL: ExchangeID := 0

  datatype Status = Pending | Running | Paused | Done | Failed | Cancelled | Unset {
    predicate Ended() { Done? || Failed? || Cancelled? }
  }

  datatype Kind =
    RunStarted | RunResumed | SessionOpened | StepStarted | StepEnded | RunPaused | RunEnded
    | ExchangeEvent | UnknownKind

  datatype Event = Event(
    runID: string, num: int, kind: Kind, time: int, workflow: Option<Workflow>,
    session: string, sessionID: string, step: string, exchange: ExchangeID, prompt: string,
    status: Status, result: Option<HarnessResult>, adopted: bool, err: string, until: int)

  const BLANK := Event("", 0, UnknownKind, 0, None, "", "", "", NIL, "", Unset, None, false, "", 0)

  datatype StepState = StepState(
    status: Status, exchange: ExchangeID, result: Option<HarnessResult>, adopted: bool,
    err: string, started: int, ended: int)

  const PENDING := StepState(Pending, NIL, None, false, "", 0, 0)

  datatype RunState = RunState(
    runID: string, workflow: Workflow, status: Status, num: int,
    sessions: map<string, string>, steps: map<string, StepState>,
    started: int, ended: int, until: int, err: string)

  const EMPTY := RunState("", Workflow("", "", [], []), Unset, 0, map[], map[], 0, 0, 0, "")

  datatype LogError =
    NotLogged | OutOfSequence | AlreadyStarted | NoWorkflow | NotStarted | OtherRun | AfterEnd
    | NoSession | NoStep | BadStepStatus | BadRunStatus | BadKind

  // ---- Apply -------------------------------------------------------------------------------

  function StepAfter(st: StepState, e: Event): StepState {
    StepState(e.status, if e.exchange != NIL then e.exchange else st.exchange,
              e.result, e.adopted, e.err, st.started, e.time)
  }

  /** The state e leaves, or why e doesn't follow from s. */
  function Applied(s: RunState, e: Event): Result<RunState, LogError> {
    if e.kind == ExchangeEvent then Err(NotLogged)
    else if e.num != s.num + 1 then Err(OutOfSequence)
    else if e.kind == RunStarted then
      if s.num != 0 then Err(AlreadyStarted)
      else if e.workflow.None? then Err(NoWorkflow)
      else
        Ok(RunState(e.runID, e.workflow.value, Running, e.num, map[],
                    map id | id in StepIds(e.workflow.value) :: PENDING, e.time, 0, 0, ""))
    else if s.num == 0 then Err(NotStarted)
    else if e.runID != s.runID then Err(OtherRun)
    else if s.status.Ended() then Err(AfterEnd)
    else
      match e.kind
      case RunResumed => Ok(s.(status := Running, until := 0, num := e.num))
      case SessionOpened =>
        if e.session !in SessionNames(s.workflow) then Err(NoSession)
        else Ok(s.(sessions := s.sessions[e.session := e.sessionID], num := e.num))
      case StepStarted =>
        if e.step !in s.steps then Err(NoStep)
        else
          var st := StepState(Running, e.exchange, None, false, "", e.time, 0);
          Ok(s.(steps := s.steps[e.step := st], num := e.num))
      case StepEnded =>
        if e.step !in s.steps then Err(NoStep)
        else if !e.status.Ended() then Err(BadStepStatus)
        else Ok(s.(steps := s.steps[e.step := StepAfter(s.steps[e.step], e)], num := e.num))
      case RunPaused => Ok(s.(status := Paused, until := e.until, num := e.num))
      case RunEnded =>
        if !e.status.Ended() then Err(BadRunStatus)
        else Ok(s.(status := e.status, err := e.err, ended := e.time, num := e.num))
      case _ => Err(BadKind)
  }

  function Fold(log: seq<Event>): (r: Result<RunState, LogError>)
    ensures r.Ok? ==> r.value.num == |log|
  {
    if log == [] then Ok(EMPTY)
    else
      match Fold(log[..|log| - 1])
      case Ok(s) => Applied(s, Last(log))
      case Err(e) => Err(e)
  }

  function DoneSteps(s: RunState): set<string> {
    set id | id in s.steps && s.steps[id].status == Done
  }

  function ResultsOf(s: RunState): map<string, HarnessResult> {
    map id | id in s.steps && s.steps[id].status == Done && s.steps[id].result.Some? :: s.steps[id].result.value
  }

  ghost function IdsOf(steps: seq<Step>): set<string> {
    set st | st in steps :: st.id
  }

  /** The source's State, written in place. */
  class RunCell {
    var runID: string
    var workflow: Workflow
    var status: Status
    var num: int
    var sessions: map<string, string>
    var steps: map<string, StepState>
    var started: int
    var ended: int
    var until: int
    var err: string

    function View(): RunState
      reads this
    {
      RunState(runID, workflow, status, num, sessions, steps, started, ended, until, err)
    }

    constructor ()
      ensures View() == EMPTY
    {
      runID, workflow, status, num := "", EMPTY.workflow, Unset, 0;
      sessions, steps, started, ended, until, err := map[], map[], 0, 0, 0, "";
    }

    method Start(e: Event)
      requires e.workflow.Some?
      modifies this
      ensures View() == RunState(e.runID, e.workflow.value, Running, e.num, map[],
                                 map id | id in StepIds(e.workflow.value) :: PENDING, e.time, 0, 0, "")
    {
      runID, workflow, status, num := e.runID, e.workflow.value, Running, e.num;
      sessions, started, ended, until, err := map[], e.time, 0, 0, "";
      var list := workflow.steps;
      steps := map[];
      for k := 0 to |list|
        invariant View() == RunState(e.runID, e.workflow.value, Running, e.num, map[], steps, e.time, 0, 0, "")
        invariant steps == map id | id in IdsOf(list[..k]) :: PENDING
      {
        assert list[..k + 1] == list[..k] + [list[k]];
        steps := steps[list[k].id := PENDING];
      }
      assert list[..|list|] == list;
    }

    method Apply(e: Event) returns (failure: Option<LogError>)
      modifies this
      ensures failure.None? ==> Applied(old(View()), e) == Ok(View())
      ensures failure.Some? ==> Applied(old(View()), e) == Err(failure.value) && View() == old(View())
    {
      if e.kind == ExchangeEvent { return Some(NotLogged); }
      if e.num != num + 1 { return Some(OutOfSequence); }
      if e.kind == RunStarted {
        if num != 0 { return Some(AlreadyStarted); }
        if e.workflow.None? { return Some(NoWorkflow); }
        Start(e);
        return None;
      }
      if num == 0 { return Some(NotStarted); }
      if e.runID != runID { return Some(OtherRun); }
      if status.Ended() { return Some(AfterEnd); }
      match e.kind {
        case RunResumed =>
          status, until := Running, 0;
        case SessionOpened =>
          if e.session !in SessionNames(workflow) { return Some(NoSession); }
          sessions := sessions[e.session := e.sessionID];
        case StepStarted =>
          if e.step !in steps { return Some(NoStep); }
          steps := steps[e.step := StepState(Running, e.exchange, None, false, "", e.time, 0)];
        case StepEnded =>
          if e.step !in steps { return Some(NoStep); }
          if !e.status.Ended() { return Some(BadStepStatus); }
          var st := steps[e.step];
          st := st.(status := e.status, result := e.result, adopted := e.adopted, err := e.err, ended := e.time);
          if e.exchange != NIL {
            st := st.(exchange := e.exchange);
          }
          steps := steps[e.step := st];
        case RunPaused =>
          status, until := Paused, e.until;
        case RunEnded =>
          if !e.status.Ended() { return Some(BadRunStatus); }
          status, err, ended := e.status, e.err, e.time;
        case _ =>
          return Some(BadKind);
      }
      num := e.num;
      return None;
    }

    /** CountDone counts the steps that are done. */
    method CountDone() returns (n: nat)
      ensures n == |DoneSteps(View())|
    {
      n := 0;
      var rest := steps.Keys;
      ghost var counted: set<string> := {};
      while rest != {}
        invariant rest <= steps.Keys
        invariant counted == set id | id in steps && id !in rest && steps[id].status == Done
        invariant n == |counted|
        decreases rest
      {
        var id :| id in rest;
        rest := rest - {id};
        if steps[id].status == Done {
          n := n + 1;
          counted := counted + {id};
        }
      }
      assert counted == DoneSteps(View());
    }

    /** Results returns the results of the steps that are done. */
    method Results() returns (results: map<string, HarnessResult>)
      ensures results == ResultsOf(View())
    {
      results := map[];
      var rest := steps.Keys;
      while rest != {}
        invariant rest <= steps.Keys
        invariant results == map id | id in steps && id !in rest && steps[id].status == Done && steps[id].result.Some? :: steps[id].result.value
        decreases rest
      {
        var id :| id in rest;
        rest := rest - {id};
        if steps[id].status == Done && steps[id].result.Some? {
          results := results[id := steps[id].result.value];
        }
      }
    }
  }

  /** Fold applies a log's events in order and stops at the first that doesn't follow. */
  method FoldEvents(log: seq<Event>) returns (cell: RunCell, failure: Option<LogError>)
    ensures failure.None? ==> Fold(log) == Ok(cell.View())
    ensures failure.Some? ==> Fold(log) == Err(failure.value)
  {
    cell := new RunCell();
    failure := None;
    for k := 0 to |log|
      invariant failure.None? && fresh(cell) && Fold(log[..k]) == Ok(cell.View())
    {
      assert log[..k + 1][..k] == log[..k];
      failure := cell.Apply(log[k]);
      if failure.Some? {
        assert Last(log[..k + 1]) == log[k];
        FoldStops(log, k + 1);
        return;
      }
    }
    assert log[..|log|] == log;
  }

  // ---- What a log that folds says ----------------------------------------------------------

  lemma {:induction false} FoldStops(log: seq<Event>, k: nat)
    requires k <= |log| && Fold(log[..k]).Err?
    ensures Fold(log) == Fold(log[..k])
  {
    if k == |log| {
      assert log[..k] == log;
    } else {
      assert log[..|log| - 1][..k] == log[..k];
      FoldStops(log[..|log| - 1], k);
    }
  }

  lemma FoldPrefix(log: seq<Event>, k: nat)
    requires k <= |log| && Fold(log).Ok?
    ensures Fold(log[..k]).Ok?
  {
    if Fold(log[..k]).Err? {
      FoldStops(log, k);
    }
  }

  lemma FoldSnoc(log: seq<Event>, e: Event)
    ensures Fold(log + [e]) == match Fold(log) case Ok(s) => Applied(s, e) case Err(x) => Err(x)
  {
    assert (log + [e])[..|log|] == log;
  }

  /** An accepted log is numbered 1..n, starts once, belongs to one run, and ends at most once, last. */
  lemma {:induction false} AcceptedShape(log: seq<Event>)
    requires Fold(log).Ok? && log != []
    ensures Fold(log).value.runID == log[0].runID
    ensures log[0].workflow == Some(Fold(log).value.workflow)
    ensures forall i :: 0 <= i < |log| ==> log[i].num == i + 1 && log[i].runID == log[0].runID && log[i].kind != ExchangeEvent
    ensures forall i :: 0 <= i < |log| ==> (log[i].kind == RunStarted <==> i == 0)
    ensures forall i :: 0 <= i < |log| - 1 ==> log[i].kind != RunEnded
    ensures Fold(log).value.status.Ended() <==> Last(log).kind == RunEnded
    ensures Fold(log).value.steps.Keys == StepIds(Fold(log).value.workflow)
  {
    var front := log[..|log| - 1];
    FoldPrefix(log, |log| - 1);
    if front == [] {
      assert log == [Last(log)];
    } else {
      AcceptedShape(front);
      assert forall i :: 0 <= i < |front| ==> front[i] == log[i];
    }
  }

  predicate About(e: Event, id: string) {
    (e.kind == StepStarted || e.kind == StepEnded) && e.step == id
  }

  /** The last event about a step: an independent reading of the log. */
  function LastAbout(log: seq<Event>, id: string): (r: Option<Event>)
    ensures r.None? <==> forall e :: e in log ==> !About(e, id)
  {
    if log == [] then None
    else if About(Last(log), id) then Some(Last(log))
    else LastAbout(log[..|log| - 1], id)
  }

  /** When a step was last started, 0 for never. */
  function LastStarted(log: seq<Event>, id: string): int {
    if log == [] then 0
    else if Last(log).kind == StepStarted && Last(log).step == id then Last(log).time
    else LastStarted(log[..|log| - 1], id)
  }

  /** The exchange a step was last started with, or that an end since then names. */
  function LastExchange(log: seq<Event>, id: string): ExchangeID {
    if log == [] then NIL
    else if About(Last(log), id) && (Last(log).kind == StepStarted || Last(log).exchange != NIL) then Last(log).exchange
    else LastExchange(log[..|log| - 1], id)
  }

  /** The results are those of the steps that the last event about them ended done, and no others. */
  lemma ResultsMeaning(log: seq<Event>, id: string)
    requires Fold(log).Ok? && id in Fold(log).value.steps
    ensures var (s, last) := (Fold(log).value, LastAbout(log, id));
      && (id in DoneSteps(s) <==> last.Some? && last.value.kind == StepEnded && last.value.status == Done)
      && (id in ResultsOf(s) <==> id in DoneSteps(s) && last.value.result.Some?)
      && (id in ResultsOf(s) ==> last.value.result == Some(ResultsOf(s)[id]))
  {
    StepMeaning(log, id);
    LastAboutIs(log, id);
    hide LastAbout, Fold;
  }

  lemma {:induction false} LastAboutIs(log: seq<Event>, id: string)
    ensures LastAbout(log, id).Some? ==> About(LastAbout(log, id).value, id)
  {
    if log != [] {
      LastAboutIs(log[..|log| - 1], id);
    }
  }

  /** A step stands where the last event about it put it. */
  lemma {:induction false} StepMeaning(log: seq<Event>, id: string)
    requires Fold(log).Ok? && id in Fold(log).value.steps
    ensures match LastAbout(log, id)
      case None => Fold(log).value.steps[id] == PENDING
      case Some(e) =>
        && (e.kind == StepStarted ==>
          Fold(log).value.steps[id] == StepState(Running, e.exchange, None, false, "", e.time, 0))
        && (e.kind == StepEnded ==>
          && e.status.Ended()
          && Fold(log).value.steps[id].status == e.status && Fold(log).value.steps[id].result == e.result
          && Fold(log).value.steps[id].adopted == e.adopted && Fold(log).value.steps[id].err == e.err)
  {
    if log != [] {
      FoldPrefix(log, |log| - 1);
      if Last(log).kind != RunStarted {
        StepMeaning(log[..|log| - 1], id);
      } else {
        assert Fold(log[..|log| - 1]).value.num == 0;
        assert |log| == 1;
      }
    }
  }

  /** The last event that says how a run stands, short of its end. */
  function LastStanding(log: seq<Event>): Option<Event> {
    if log == [] then None
    else if Last(log).kind == RunStarted || Last(log).kind == RunResumed || Last(log).kind == RunPaused then Some(Last(log))
    else LastStanding(log[..|log| - 1])
  }

  /** A run stands as it was last started, resumed, or paused, until it ends; it began with the log, and
      only its end gives it an error and an end. */
  lemma {:induction false} RunMeaning(log: seq<Event>)
    requires Fold(log).Ok? && log != []
    ensures LastStanding(log).Some?
    ensures var (s, e, standing) := (Fold(log).value, Last(log), LastStanding(log).value);
            && s.started == log[0].time
            && s.until == (if standing.kind == RunPaused then standing.until else 0)
            && (if e.kind == RunEnded then e.status.Ended() && s.status == e.status && s.err == e.err && s.ended == e.time
                else s.status == (if standing.kind == RunPaused then Paused else Running) && s.err == "" && s.ended == 0)
  {
    var front := log[..|log| - 1];
    FoldPrefix(log, |log| - 1);
    if Last(log).kind == RunStarted {
      OnlyFirstStarts(log);
    } else {
      FoldLast(log);
      hide Fold, Applied;
      StandsIs(Fold(front).value, Last(log));
      RunMeaning(front);
    }
  }

  lemma StandsIs(s: RunState, e: Event)
    requires Applied(s, e).Ok? && e.kind != RunStarted
    ensures s.num != 0 && !s.status.Ended()
    ensures var s' := Applied(s, e).value;
            && s'.started == s.started
            && s'.until == (if e.kind == RunPaused then e.until else if e.kind == RunResumed then 0 else s.until)
            && (if e.kind == RunEnded then e.status.Ended() && s'.status == e.status && s'.err == e.err && s'.ended == e.time
                else s'.err == s.err && s'.ended == s.ended
                     && s'.status == if e.kind == RunPaused then Paused else if e.kind == RunResumed then Running else s.status)
  {
  }

  // ---- Which logs fold -----------------------------------------------------------------------

  /** What a log may say after its first event, by that event's workflow. */
  predicate MayFollow(w: Workflow, e: Event) {
    match e.kind
    case RunResumed => true
    case RunPaused => true
    case SessionOpened => exists se :: se in w.sessions && se.name == e.session
    case StepStarted => exists st :: st in w.steps && st.id == e.step
    case StepEnded => (e.status == Done || e.status == Failed || e.status == Cancelled) && exists st :: st in w.steps && st.id == e.step
    case RunEnded => e.status == Done || e.status == Failed || e.status == Cancelled
    case _ => false
  }

  predicate WellFormed(log: seq<Event>) {
    && (forall i :: 0 <= i < |log| ==> log[i].num == i + 1)
    && (log != [] ==> log[0].kind == RunStarted && log[0].workflow.Some?)
    && (forall i :: 0 < i < |log| ==> log[i].runID == log[0].runID && MayFollow(log[0].workflow.value, log[i]))
    && (forall i :: 0 <= i < |log| - 1 ==> log[i].kind != RunEnded)
  }

  /** Exactly the well-formed logs fold. */
  lemma {:induction false} FoldsWhenWellFormed(log: seq<Event>)
    ensures Fold(log).Ok? <==> WellFormed(log)
  {
    hide Applied, MayFollow, StepIds;
    if log != [] {
      var front := log[..|log| - 1];
      FoldsWhenWellFormed(front);
      assert WellFormed(log) ==> WellFormed(front) by {
        assert forall i :: 0 <= i < |front| ==> front[i] == log[i];
      }
      if Fold(front).Ok? {
        if front != [] {
          AcceptedShape(front);
          assert log[0] == front[0];
        }
        assert forall i :: 0 <= i < |front| ==> front[i] == log[i];
        assert log[|log| - 1] == Last(log);
        NextFits(Fold(front).value, front, Last(log));
      }
    }
  }

  lemma NextFits(s: RunState, front: seq<Event>, e: Event)
    requires s.num == |front| && (front == [] ==> s == EMPTY)
    requires front != [] ==> s.runID == front[0].runID && front[0].workflow == Some(s.workflow) && s.steps.Keys == StepIds(s.workflow)
    requires front != [] ==> (s.status.Ended() <==> Last(front).kind == RunEnded)
    ensures Applied(s, e).Ok? <==>
            && e.num == |front| + 1
            && if front == [] then e.kind == RunStarted && e.workflow.Some?
               else e.runID == front[0].runID && MayFollow(s.workflow, e) && Last(front).kind != RunEnded
  {
  }

  /** Each refusal has its cause. */
  lemma RefusalsAreTrue(s: RunState, e: Event)
    requires Applied(s, e).Err?
    ensures match Applied(s, e).error
            case NotLogged => e.kind == ExchangeEvent
            case OutOfSequence => e.num != s.num + 1
            case AlreadyStarted => e.kind == RunStarted && s.num != 0
            case NoWorkflow => e.kind == RunStarted && e.workflow.None?
            case NotStarted => e.kind != RunStarted && s.num == 0
            case OtherRun => e.runID != s.runID
            case AfterEnd => s.status == Done || s.status == Failed || s.status == Cancelled
            case NoSession => e.kind == SessionOpened && forall se :: se in s.workflow.sessions ==> se.name != e.session
            case NoStep => (e.kind == StepStarted || e.kind == StepEnded) && e.step !in s.steps
            case BadStepStatus => e.kind == StepEnded && e.status != Done && e.status != Failed && e.status != Cancelled
            case BadRunStatus => e.kind == RunEnded && e.status != Done && e.status != Failed && e.status != Cancelled
            case BadKind => e.kind == UnknownKind
  {
  }

  // ---- The rest of the state, read off the log ---------------------------------------------

  /** A step's times and exchange: those of its last start, and of an end since then. */
  lemma {:induction false} StepOrigins(log: seq<Event>, id: string)
    requires Fold(log).Ok? && id in Fold(log).value.steps
    ensures var st := Fold(log).value.steps[id];
            && st.started == LastStarted(log, id) && st.exchange == LastExchange(log, id)
            && st.ended == match LastAbout(log, id) case Some(e) => (if e.kind == StepEnded then e.time else 0) case None => 0
  {
    if log != [] {
      var front := log[..|log| - 1];
      FoldPrefix(log, |log| - 1);
      if Last(log).kind == RunStarted {
        OnlyFirstStarts(log);
      } else {
        hide Fold;
        FoldLast(log);
        hide Applied;
        StepIs(Fold(front).value, Last(log), id);
        StepOrigins(front, id);
      }
    }
  }

  lemma FoldLast(log: seq<Event>)
    requires Fold(log).Ok? && log != []
    ensures Fold(log[..|log| - 1]).Ok? && Applied(Fold(log[..|log| - 1]).value, Last(log)) == Fold(log)
  {
    hide Applied;
  }

  lemma StepIs(s: RunState, e: Event, id: string)
    requires Applied(s, e).Ok? && e.kind != RunStarted && id in Applied(s, e).value.steps
    ensures id in s.steps
    ensures var (st, st') := (s.steps[id], Applied(s, e).value.steps[id]);
            if !About(e, id) then st' == st
            else if e.kind == StepStarted then st'.started == e.time && st'.exchange == e.exchange && st'.ended == 0
            else st'.started == st.started && st'.ended == e.time && st'.exchange == if e.exchange != NIL then e.exchange else st.exchange
  {
  }

  /** What a log says of a session, by the last event that opened it. */
  function LastOpened(log: seq<Event>, session: string): Option<string> {
    if log == [] then None
    else if Last(log).kind == SessionOpened && Last(log).session == session then Some(Last(log).sessionID)
    else LastOpened(log[..|log| - 1], session)
  }

  /** A session is recorded exactly when it was opened, under the ID it was last opened with. */
  lemma {:induction false} SessionMeaning(log: seq<Event>, session: string)
    requires Fold(log).Ok?
    ensures var recorded := Fold(log).value.sessions;
            (if session in recorded then Some(recorded[session]) else None) == LastOpened(log, session)
  {
    if log != [] {
      FoldPrefix(log, |log| - 1);
      SessionMeaning(log[..|log| - 1], session);
      if Last(log).kind == RunStarted {
        OnlyFirstStarts(log);
      }
    }
  }

  lemma OnlyFirstStarts(log: seq<Event>)
    requires Fold(log).Ok? && log != [] && Last(log).kind == RunStarted
    ensures log[..|log| - 1] == [] && Fold(log[..|log| - 1]) == Ok(EMPTY)
  {
    FoldPrefix(log, |log| - 1);
    assert |log[..|log| - 1]| == 0;
  }
}
