/**
 * Workflows: the DAG of steps, Validate with its cycle search, Ancestors, and Prompt's lookup of
 * the results a step depends on (workflow/workflow.go).
 */
module Workflows {
  import opened Common

  datatype Usage = Usage(input: nat, output: nat, cacheRead: nat, cacheWrite: nat)

  /** harness.Result; structured is the response's JSON, empty for none. */
  datatype HarnessResult = HarnessResult(
    stopReason: string, text: string, structured: string, usage: Usage)

  datatype SessionSpec = SessionSpec(name: string, harness: string, provider: string, model: string)

  /** What text/template makes of a prompt, and ValidateSchema of a schema, are library verdicts. */
  datatype Template = Template(text: string, parses: bool)
  datatype Schema = Schema(text: string, isObject: bool)

  datatype Step = Step(
    id: string, session: string, after: seq<string>, prompt: Template, schema: Option<Schema>)

  datatype Workflow = Workflow(
    name: string, input: string, sessions: seq<SessionSpec>, steps: seq<Step>)

  /** Step(id): the first step declared under the name. */
  function Lookup(steps: seq<Step>, id: string): Option<Step> {
    if steps == [] then None
    else if steps[0].id == id then Some(steps[0])
    else Lookup(steps[1..], id)
  }

  lemma {:induction false} LookupIs(steps: seq<Step>, id: string)
    ensures match Lookup(steps, id)
      case Some(st) => st in steps && st.id == id
      case None => forall s :: s in steps ==> s.id != id
  {
    if steps != [] && steps[0].id != id {
      LookupIs(steps[1..], id);
    }
  }

  /** The After list the source's Step(id) yields: empty for an undeclared step. */
  function Deps(w: Workflow, id: string): seq<string> {
    match Lookup(w.steps, id)
    case Some(st) => st.after
    case None => []
  }

  function StepIds(w: Workflow): set<string> {
    set st | st in w.steps :: st.id
  }

  function SessionNames(w: Workflow): set<string> {
    set s | s in w.sessions :: s.name
  }

  /** Every name the After relation mentions; the searches terminate because it is finite. */
  function Universe(w: Workflow): set<string> {
    StepIds(w) + set st, d | st in w.steps && d in st.after :: d
  }

  lemma UniverseHoldsDeps(w: Workflow, id: string)
    ensures forall d :: d in Deps(w, id) ==> d in Universe(w) && id in StepIds(w)
  {
    LookupIs(w.steps, id);
  }

  // ---- Paths -------------------------------------------------------------------------------

  ghost predicate Chain(w: Workflow, p: seq<string>) {
    forall i :: 0 <= i < |p| - 1 ==> p[i + 1] in Deps(w, p[i])
  }

  ghost predicate Path(w: Workflow, p: seq<string>, a: string, b: string) {
    |p| >= 2 && p[0] == a && Last(p) == b && Chain(w, p)
  }

  /** b is a step a comes after, directly or through others. */
  ghost predicate Reaches(w: Workflow, a: string, b: string) {
    exists p :: Path(w, p, a, b)
  }

  ghost predicate ClosedPath(w: Workflow, p: seq<string>) {
    |p| >= 2 && Path(w, p, p[0], p[0])
  }

  ghost predicate Acyclic(w: Workflow) {
    forall p :: !ClosedPath(w, p)
  }

  lemma ReachesEdge(w: Workflow, a: string, b: string)
    requires b in Deps(w, a)
    ensures Reaches(w, a, b)
  {
    assert Path(w, [a, b], a, b);
  }

  lemma ChainPrepend(w: Workflow, a: string, p: seq<string>)
    requires Chain(w, p) && p != [] && p[0] in Deps(w, a)
    ensures Chain(w, [a] + p)
  {
    forall i | 0 <= i < |p|
      ensures ([a] + p)[i + 1] in Deps(w, ([a] + p)[i])
    {
      assert i > 0 ==> p[i - 1 + 1] in Deps(w, p[i - 1]);
    }
  }

  lemma ReachesThrough(w: Workflow, a: string, b: string, c: string)
    requires b in Deps(w, a) && Reaches(w, b, c)
    ensures Reaches(w, a, c)
  {
    var p :| Path(w, p, b, c);
    var q := [a] + p;
    ChainPrepend(w, a, p);
    assert Path(w, q, a, c);
  }

  /** A set closed under After that holds a's dependencies holds everything a reaches. */
  lemma ClosedHoldsReachable(w: Workflow, s: set<string>, a: string, b: string)
    requires forall d :: d in Deps(w, a) ==> d in s
    requires forall n, d :: n in s && d in Deps(w, n) ==> d in s
    requires Reaches(w, a, b)
    ensures b in s
  {
    var p :| Path(w, p, a, b);
    var i := 1;
    while i < |p| - 1
      invariant 1 <= i < |p| && p[i] in s
    {
      i := i + 1;
      assert p[i] in Deps(w, p[i - 1]);
    }
  }

  // ---- The cycle search (workflow.go cycle) ------------------------------------------------

  datatype Mark = Visiting | Finished

  /** Each element's dependencies come before it, and none repeats. */
  ghost predicate Topological(w: Workflow, order: seq<string>) {
    && Distinct(order)
    && forall i, d :: 0 <= i < |order| && d in Deps(w, order[i]) ==> d in order[..i]
  }

  lemma {:induction false} PathDescends(w: Workflow, order: seq<string>, p: seq<string>, i: nat, k: nat)
    requires Topological(w, order) && Chain(w, p) && 0 < k < |p|
    requires i < |order| && p[0] == order[i]
    ensures p[k] in order[..i]
  {
    if k == 1 {
      assert p[1] in Deps(w, p[0]);
    } else {
      PathDescends(w, order, p, i, k - 1);
      var j :| 0 <= j < i && order[j] == p[k - 1];
      assert p[k - 1 + 1] in Deps(w, p[k - 1]);
      assert p[k] in order[..j];
    }
  }

  lemma OrderMeansAcyclic(w: Workflow, order: seq<string>)
    requires Topological(w, order)
    requires forall id :: id in StepIds(w) ==> id in order
    ensures Acyclic(w)
  {
    forall p | ClosedPath(w, p)
      ensures false
    {
      assert p[1] in Deps(w, p[0]);
      UniverseHoldsDeps(w, p[0]);
      var i := IndexOf(order, p[0]);
      PathDescends(w, order, p, i, |p| - 1);
    }
  }

  lemma ChainAppend(w: Workflow, p: seq<string>, id: string)
    requires Chain(w, p) && (p != [] ==> id in Deps(w, Last(p)))
    ensures Chain(w, p + [id])
  {
  }

  lemma ChainSuffix(w: Workflow, p: seq<string>, i: nat)
    requires Chain(w, p) && i <= |p|
    ensures Chain(w, p[i..])
  {
    forall k | 0 <= k < |p[i..]| - 1
      ensures p[i..][k + 1] in Deps(w, p[i..][k])
    {
      assert p[i + k + 1] in Deps(w, p[i + k]);
    }
  }

  lemma OrderAppend(w: Workflow, order: seq<string>, id: string)
    requires Topological(w, order) && id !in order
    requires forall d :: d in Deps(w, id) ==> d in order
    ensures Topological(w, order + [id])
  {
    var next := order + [id];
    forall i, d | 0 <= i < |next| && d in Deps(w, next[i])
      ensures d in next[..i]
    {
      assert next[..i] == order[..i];
    }
  }

  /** path is a chain of the visiting steps; order lists the done ones. */
  ghost predicate Searching(w: Workflow, mark: map<string, Mark>, path: seq<string>, order: seq<string>) {
    && Distinct(path)
    && Chain(w, path)
    && Topological(w, order)
    && (forall id :: id in path <==> id in mark && mark[id] == Visiting)
    && (forall id :: id in order <==> id in mark && mark[id] == Finished)
  }

  lemma CloseCycle(w: Workflow, mark: map<string, Mark>, p: seq<string>, order: seq<string>, id: string)
    requires Searching(w, mark, p, order) && id in mark && mark[id] == Visiting
    requires p != [] ==> id in Deps(w, Last(p))
    ensures id in p && ClosedPath(w, p[IndexOf(p, id)..] + [id])
  {
    ChainSuffix(w, p, IndexOf(p, id));
    ChainAppend(w, p[IndexOf(p, id)..], id);
  }

  lemma Enter(w: Workflow, mark: map<string, Mark>, path: seq<string>, order: seq<string>, id: string)
    requires Searching(w, mark, path, order) && id !in mark
    requires path != [] ==> id in Deps(w, Last(path))
    ensures Searching(w, mark[id := Visiting], path + [id], order)
  {
    ChainAppend(w, path, id);
    assert id !in path;
  }

  lemma Leave(w: Workflow, mark: map<string, Mark>, path: seq<string>, order: seq<string>, id: string)
    requires Searching(w, mark, path + [id], order)
    requires forall d :: d in Deps(w, id) ==> d in mark && mark[d] == Finished
    ensures Searching(w, mark[id := Finished], path, order + [id])
  {
    var p := path + [id];
    assert p[|path|] == id;
    assert id !in order;
    OrderAppend(w, order, id);
    forall n
      ensures n in path <==> n in mark[id := Finished] && mark[id := Finished][n] == Visiting
    {
      assert n in p <==> n in path || n == id;
      if n in path {
        var k := IndexOf(path, n);
        assert p[k] == n;
      }
    }
    assert forall i :: 0 <= i < |path| ==> path[i] == p[i];
    forall k | 0 <= k < |path| - 1
      ensures path[k + 1] in Deps(w, path[k])
    {
      assert p[k + 1] in Deps(w, p[k]);
    }
  }

  /** The source's mark map, path slice, and recursive visit; order is the finishing order. */
  class CycleFinder {
    const w: Workflow
    var mark: map<string, Mark>
    var path: seq<string>
    ghost var order: seq<string>

    constructor (w: Workflow)
      ensures this.w == w && Valid() && path == [] && mark == map[]
    {
      this.w := w;
      mark, path, order := map[], [], [];
    }

    ghost predicate Valid()
      reads this
    {
      Searching(w, mark, path, order)
    }

    /** The marks only move forward. */
    static ghost predicate Advances(m: map<string, Mark>, n: map<string, Mark>) {
      && m.Keys <= n.Keys
      && forall id :: id in m && m[id] == Finished ==> n[id] == Finished
    }

    method Visit(id: string) returns (c: Option<seq<string>>)
      requires Valid() && id in Universe(w)
      requires path != [] ==> id in Deps(w, Last(path))
      modifies this
      ensures Valid()
      ensures Advances(old(mark), mark)
      ensures c.None? ==> path == old(path) && id in mark && mark[id] == Finished
      ensures c.Some? ==> ClosedPath(w, c.value)
      decreases Universe(w) - mark.Keys
    {
      hide Searching, Deps, Universe, ClosedPath;
      if id in mark {
        if mark[id] == Visiting {
          CloseCycle(w, mark, path, order, id);
          return Some(path[IndexOf(path, id)..] + [id]);
        }
        return None;
      }
      Enter(w, mark, path, order, id);
      UniverseHoldsDeps(w, id);
      mark := mark[id := Visiting];
      path := path + [id];
      var deps := Deps(w, id);
      for k := 0 to |deps|
        invariant Valid() && path == old(path) + [id]
        invariant id in mark && Advances(old(mark), mark)
        invariant forall j :: 0 <= j < k ==> deps[j] in mark && mark[deps[j]] == Finished
      {
        c := Visit(deps[k]);
        if c.Some? {
          return c;
        }
      }
      Leave(w, mark, old(path), order, id);
      path := path[..|path| - 1];
      mark := mark[id := Finished];
      order := order + [id];
      return None;
    }
  }

  /** cycle: a closed path of After edges, or none exactly when the relation has none. */
  method Cycle(w: Workflow) returns (c: Option<seq<string>>)
    ensures c.Some? ==> ClosedPath(w, c.value)
    ensures c.None? <==> Acyclic(w)
  {
    var f := new CycleFinder(w);
    for i := 0 to |w.steps|
      invariant f.Valid() && f.path == [] && f.w == w && fresh(f)
      invariant forall j :: 0 <= j < i ==> w.steps[j].id in f.mark && f.mark[w.steps[j].id] == Finished
    {
      c := f.Visit(w.steps[i].id);
      if c.Some? {
        return;
      }
    }
    OrderMeansAcyclic(w, f.order);
    return None;
  }

  // ---- Validate ----------------------------------------------------------------------------

  datatype Invalid =
    | NoName | NoSteps
    | SessionUnnamed | SessionTwice(name: string)
    | StepUnnamed | StepTwice(id: string)
    | UndeclaredSession(id: string) | AfterItself(id: string) | AfterUndeclared(id: string, dep: string)
    | NoPrompt(id: string) | BadPrompt(id: string) | BadSchema(id: string)
    | Cyclic(steps: seq<string>)

  /** unicode.IsSpace. */
  predicate IsSpace(c: char) {
    var n := c as int;
    || 9 <= n <= 13 || n == 32 || n == 0x85 || n == 0xA0 || n == 0x1680
    || 0x2000 <= n <= 0x200A || n == 0x2028 || n == 0x2029 || n == 0x202F || n == 0x205F || n == 0x3000
  }

  /** strings.TrimSpace leaves nothing. */
  predicate Blank(s: string) {
    forall c :: c in s ==> IsSpace(c)
  }

  ghost predicate GoodStep(w: Workflow, st: Step) {
    && st.session in SessionNames(w)
    && (forall d :: d in st.after ==> d != st.id && d in StepIds(w))
    && !Blank(st.prompt.text) && st.prompt.parses
    && (st.schema.Some? ==> st.schema.value.isObject)
  }

  /** Everything Validate checks before it looks for a cycle. */
  ghost predicate Declared(w: Workflow) {
    && w.name != "" && w.steps != []
    && (forall i :: 0 <= i < |w.sessions| ==> w.sessions[i].name != "")
    && (forall i, j :: 0 <= i < j < |w.sessions| ==> w.sessions[i].name != w.sessions[j].name)
    && (forall i :: 0 <= i < |w.steps| ==> w.steps[i].id != "")
    && (forall i, j :: 0 <= i < j < |w.steps| ==> w.steps[i].id != w.steps[j].id)
    && (forall st :: st in w.steps ==> GoodStep(w, st))
  }

  ghost predicate Valid(w: Workflow) {
    Declared(w) && Acyclic(w)
  }

  /** What is wrong with the first k sessions. */
  ghost predicate SessionFault(w: Workflow, k: nat, e: Invalid)
    requires k <= |w.sessions|
  {
    match e
    case SessionUnnamed => exists i :: 0 <= i < k && w.sessions[i].name == ""
    case SessionTwice(name) =>
      name != "" && exists i, j :: 0 <= i < j < k && w.sessions[i].name == name && w.sessions[j].name == name
    case _ => false
  }

  ghost predicate IdFault(w: Workflow, k: nat, e: Invalid)
    requires k <= |w.steps|
  {
    match e
    case StepUnnamed => exists i :: 0 <= i < k && w.steps[i].id == ""
    case StepTwice(id) => id != "" && exists i, j :: 0 <= i < j < k && w.steps[i].id == id && w.steps[j].id == id
    case _ => false
  }

  ghost predicate StepFault(w: Workflow, st: Step, e: Invalid) {
    match e
    case UndeclaredSession(id) => id == st.id && st.session !in SessionNames(w)
    case AfterItself(id) => id == st.id && st.id in st.after
    case AfterUndeclared(id, dep) => id == st.id && dep in st.after && dep != id && dep !in StepIds(w)
    case NoPrompt(id) => id == st.id && Blank(st.prompt.text)
    case BadPrompt(id) => id == st.id && !Blank(st.prompt.text) && !st.prompt.parses
    case BadSchema(id) => id == st.id && st.schema.Some? && !st.schema.value.isObject
    case _ => false
  }

  /** What Validate says is wrong before it looks for a cycle. */
  ghost predicate Fault(w: Workflow, e: Invalid) {
    || (e == NoName && w.name == "") || (e == NoSteps && w.steps == [])
    || SessionFault(w, |w.sessions|, e) || IdFault(w, |w.steps|, e)
    || exists st :: st in w.steps && StepFault(w, st, e)
  }

  method CheckSessions(w: Workflow) returns (names: set<string>, errs: seq<Invalid>)
    ensures names == SessionNames(w)
    ensures forall e :: e in errs <==> SessionFault(w, |w.sessions|, e)
  {
    names, errs := {}, [];
    for k := 0 to |w.sessions|
      invariant names == set j | 0 <= j < k :: w.sessions[j].name
      invariant forall e :: e in errs <==> SessionFault(w, k, e)
    {
      var name := w.sessions[k].name;
      if name == "" {
        errs := errs + [SessionUnnamed];
      } else if name in names {
        errs := errs + [SessionTwice(name)];
      }
      names := names + {name};
    }
  }

  method CheckIds(w: Workflow) returns (ids: set<string>, errs: seq<Invalid>)
    ensures ids == StepIds(w)
    ensures forall e :: e in errs <==> IdFault(w, |w.steps|, e)
  {
    ids, errs := {}, [];
    for k := 0 to |w.steps|
      invariant ids == set j | 0 <= j < k :: w.steps[j].id
      invariant forall e :: e in errs <==> IdFault(w, k, e)
    {
      var id := w.steps[k].id;
      if id == "" {
        errs := errs + [StepUnnamed];
      } else if id in ids {
        errs := errs + [StepTwice(id)];
      }
      ids := ids + {id};
    }
  }

  method CheckStep(w: Workflow, st: Step, sessions: set<string>, ids: set<string>) returns (errs: seq<Invalid>)
    requires sessions == SessionNames(w) && ids == StepIds(w)
    ensures forall e :: e in errs <==> StepFault(w, st, e)
  {
    errs := [];
    if st.session !in sessions {
      errs := errs + [UndeclaredSession(st.id)];
    }
    for k := 0 to |st.after|
      invariant forall e :: e in errs <==> match e
        case UndeclaredSession(id) => id == st.id && st.session !in sessions
        case AfterItself(id) => id == st.id && st.id in st.after[..k]
        case AfterUndeclared(id, dep) => id == st.id && dep in st.after[..k] && dep != id && dep !in ids
        case _ => false
    {
      var dep := st.after[k];
      assert st.after[..k + 1] == st.after[..k] + [dep];
      if dep == st.id {
        errs := errs + [AfterItself(st.id)];
      } else if dep !in ids {
        errs := errs + [AfterUndeclared(st.id, dep)];
      }
    }
    assert st.after[..|st.after|] == st.after;
    if Blank(st.prompt.text) {
      errs := errs + [NoPrompt(st.id)];
    } else if !st.prompt.parses {
      errs := errs + [BadPrompt(st.id)];
    }
    if st.schema.Some? && !st.schema.value.isObject {
      errs := errs + [BadSchema(st.id)];
    }
  }

  /** A workflow is well declared exactly when none of that is wrong with it. */
  lemma FaultlessIsDeclared(w: Workflow)
    ensures Declared(w) <==> forall e :: !Fault(w, e)
  {
    if forall e :: !Fault(w, e) {
      assert !Fault(w, NoName) && !Fault(w, NoSteps) && !Fault(w, SessionUnnamed) && !Fault(w, StepUnnamed);
      forall i, j | 0 <= i < j < |w.sessions|
        ensures w.sessions[i].name != w.sessions[j].name
      {
        assert !Fault(w, SessionTwice(w.sessions[i].name));
      }
      forall i, j | 0 <= i < j < |w.steps|
        ensures w.steps[i].id != w.steps[j].id
      {
        assert !Fault(w, StepTwice(w.steps[i].id));
      }
      forall st | st in w.steps
        ensures GoodStep(w, st)
      {
        FaultlessStep(w, st);
      }
    }
  }

  lemma FaultlessStep(w: Workflow, st: Step)
    requires st in w.steps && forall e :: !Fault(w, e)
    ensures GoodStep(w, st)
  {
    forall e
      ensures !StepFault(w, st, e)
    {
      assert !Fault(w, e);
    }
    assert !StepFault(w, st, UndeclaredSession(st.id)) && !StepFault(w, st, AfterItself(st.id));
    assert !StepFault(w, st, NoPrompt(st.id)) && !StepFault(w, st, BadPrompt(st.id)) && !StepFault(w, st, BadSchema(st.id));
    forall d | d in st.after
      ensures d != st.id && d in StepIds(w)
    {
      assert !StepFault(w, st, AfterUndeclared(st.id, d));
    }
  }

  /** Validate accepts exactly the workflows that are well declared and have no cycle. Its errors are
      what is wrong, all of it and nothing else, or for a workflow otherwise sound one of its cycles. */
  method Validate(w: Workflow) returns (errs: seq<Invalid>)
    ensures errs == [] <==> Valid(w)
    ensures Declared(w) || forall e :: e in errs <==> Fault(w, e)
    ensures Declared(w) && errs != [] ==> |errs| == 1 && errs[0].Cyclic? && ClosedPath(w, errs[0].steps)
  {
    hide Acyclic, ClosedPath, SessionFault, IdFault, StepFault;
    errs := (if w.name == "" then [NoName] else []) + (if w.steps == [] then [NoSteps] else []);
    var sessions, sessionErrs := CheckSessions(w);
    var ids, idErrs := CheckIds(w);
    var stepErrs: seq<Invalid> := [];
    for k := 0 to |w.steps|
      invariant forall e :: e in stepErrs <==> exists j :: 0 <= j < k && StepFault(w, w.steps[j], e)
    {
      var es := CheckStep(w, w.steps[k], sessions, ids);
      stepErrs := stepErrs + es;
    }
    errs := errs + sessionErrs + idErrs + stepErrs;
    assert forall e :: e in errs <==> Fault(w, e);
    FaultlessIsDeclared(w);
    if errs == [] {
      var c := Cycle(w);
      if c.Some? {
        errs := [Cyclic(c.value)];
      }
    } else {
      assert errs[0] in errs;
    }
  }

  // ---- Ancestors and Prompt ----------------------------------------------------------------

  /** The steps of a declaration list that id reaches, in that list's order. */
  ghost function Reached(w: Workflow, steps: seq<Step>, id: string): seq<string> {
    if steps == [] then []
    else
      Reached(w, steps[..|steps| - 1], id)
      + if Reaches(w, id, Last(steps).id) then [Last(steps).id] else []
  }

  /** The source's seen map and recursive visit. */
  class AncestorFinder {
    const w: Workflow
    var seen: set<string>

    constructor (w: Workflow)
      ensures this.w == w && seen == {}
    {
      this.w, seen := w, {};
    }

    /** Every step seen since `before` has its own dependencies seen, and is reached from id. */
    ghost predicate Explored(before: set<string>, id: string)
      reads this
    {
      && before <= seen <= Universe(w)
      && (forall n, d :: n in seen - before && d in Deps(w, n) ==> d in seen)
      && (forall n :: n in seen - before ==> Reaches(w, id, n))
    }

    method Visit(id: string)
      requires seen <= Universe(w)
      modifies this
      ensures Explored(old(seen), id)
      ensures forall d :: d in Deps(w, id) ==> d in seen
      decreases Universe(w) - seen
    {
      var deps := Deps(w, id);
      UniverseHoldsDeps(w, id);
      for k := 0 to |deps|
        invariant Explored(old(seen), id)
        invariant forall j :: 0 <= j < k ==> deps[j] in seen
      {
        var dep := deps[k];
        if dep !in seen {
          label before:
          seen := seen + {dep};
          Visit(dep);
          ReachesEdge(w, id, dep);
          forall n | n in seen - old@before(seen) - {dep}
            ensures Reaches(w, id, n)
          {
            ReachesThrough(w, id, dep, n);
          }
        }
      }
    }
  }

  method Ancestors(w: Workflow, id: string) returns (ids: seq<string>)
    ensures ids == Reached(w, w.steps, id)
  {
    var f := new AncestorFinder(w);
    f.Visit(id);
    forall n
      ensures n in f.seen <==> Reaches(w, id, n)
    {
      if Reaches(w, id, n) {
        ClosedHoldsReachable(w, f.seen, id, n);
      }
    }
    ids := [];
    for k := 0 to |w.steps|
      invariant ids == Reached(w, w.steps[..k], id)
    {
      assert w.steps[..k + 1][..k] == w.steps[..k];
      if w.steps[k].id in f.seen {
        ids := ids + [w.steps[k].id];
      }
    }
    assert w.steps[..|w.steps|] == w.steps;
  }

  lemma {:induction false} ReachedIs(w: Workflow, steps: seq<Step>, id: string, n: string)
    ensures n in Reached(w, steps, id) <==> Reaches(w, id, n) && exists st :: st in steps && st.id == n
  {
    if steps != [] {
      ReachedIs(w, steps[..|steps| - 1], id, n);
      assert steps == steps[..|steps| - 1] + [Last(steps)];
    }
  }

  datatype PromptError =
    UnknownStep | BadTemplate | NoResult(dep: string) | BadStructured(dep: string) | Execution

  /** Template execution: the library call that turns a template and its data into text. */
  type Renderer = (Template, string, map<string, HarnessResult>) -> Option<string>

  /** The step's result can be given to a template: what is structured of it decodes. */
  predicate Usable(res: HarnessResult, decodes: string -> bool) {
    res.structured != "" ==> decodes(res.structured)
  }

  /** Prompt renders over exactly the ancestors' results, and fails for want of one only when an
      ancestor has none; each other failure has its own cause. */
  method Prompt(w: Workflow, id: string, results: map<string, HarnessResult>, decodes: string -> bool, render: Renderer)
    returns (r: Result<string, PromptError>)
    ensures r.Ok? ==>
      && Lookup(w.steps, id).Some?
      && Lookup(w.steps, id).value.prompt.parses
      && (forall n :: n in StepIds(w) && Reaches(w, id, n) ==> n in results && Usable(results[n], decodes))
      && var data := map n | n in results && n in StepIds(w) && Reaches(w, id, n) :: results[n];
         render(Lookup(w.steps, id).value.prompt, w.input, data) == Some(r.value)
    ensures r.Err? && r.error.NoResult? ==>
      r.error.dep in StepIds(w) && Reaches(w, id, r.error.dep) && r.error.dep !in results
    ensures r.Err? && r.error.BadStructured? ==>
      r.error.dep in StepIds(w) && Reaches(w, id, r.error.dep) && r.error.dep in results && !Usable(results[r.error.dep], decodes)
    ensures r == Err(UnknownStep) <==> id !in StepIds(w)
    ensures r == Err(BadTemplate) <==> Lookup(w.steps, id).Some? && !Lookup(w.steps, id).value.prompt.parses
    ensures r == Err(Execution) ==>
      && Lookup(w.steps, id).Some?
      && var data := map n | n in results && n in StepIds(w) && Reaches(w, id, n) :: results[n];
         render(Lookup(w.steps, id).value.prompt, w.input, data).None?
  {
    hide Lookup, Reaches, Reached;
    var st := Lookup(w.steps, id);
    LookupIs(w.steps, id);
    if st.None? {
      return Err(UnknownStep);
    }
    if !st.value.prompt.parses {
      return Err(BadTemplate);
    }
    var ids := Ancestors(w, id);
    forall n
      ensures n in ids <==> n in StepIds(w) && Reaches(w, id, n)
    {
      ReachedIs(w, w.steps, id, n);
    }
    var data: map<string, HarnessResult> := map[];
    for k := 0 to |ids|
      invariant forall n :: n in data <==> n in ids[..k]
      invariant forall n :: n in data ==> n in results && data[n] == results[n] && Usable(results[n], decodes)
    {
      var dep := ids[k];
      if dep !in results {
        return Err(NoResult(dep));
      }
      if results[dep].structured != "" && !decodes(results[dep].structured) {
        return Err(BadStructured(dep));
      }
      data := data[dep := results[dep]];
    }
    assert data == map n | n in results && n in StepIds(w) && Reaches(w, id, n) :: results[n];
    var text := render(st.value.prompt, w.input, data);
    if text.None? {
      return Err(Execution);
    }
    return Ok(text.value);
  }

  // ---- Acyclicity at work ------------------------------------------------------------------

  ghost predicate HasDepIn(w: Workflow, id: string, s: set<string>) {
    exists d :: d in Deps(w, id) && d in s
  }

  lemma {:induction false} LongChain(w: Workflow, s: set<string>, n: nat) returns (p: seq<string>)
    requires s != {} && n > 0
    requires forall id {:trigger HasDepIn(w, id, s)} :: id in s ==> HasDepIn(w, id, s)
    ensures |p| == n && Chain(w, p) && forall i :: 0 <= i < n ==> p[i] in s
  {
    if n == 1 {
      var id :| id in s;
      p := [id];
    } else {
      var front := LongChain(w, s, n - 1);
      assert HasDepIn(w, Last(front), s);
      var d :| d in Deps(w, Last(front)) && d in s;
      ChainAppend(w, front, d);
      p := front + [d];
    }
  }

  lemma RepeatMeansCycle(w: Workflow, p: seq<string>, i: nat, j: nat)
    requires Chain(w, p) && i < j < |p| && p[i] == p[j]
    ensures !Acyclic(w)
  {
    ChainSuffix(w, p, i);
    var loop := p[i..][..j + 1 - i];
    assert forall k :: 0 <= k < |loop| ==> loop[k] == p[i..][k];
    assert Chain(w, loop);
    assert ClosedPath(w, loop);
  }

  /** In an acyclic workflow, some step of any nonempty set comes after no other of the set. */
  lemma SomeStepFirst(w: Workflow, s: set<string>) returns (first: string)
    requires Acyclic(w) && s != {}
    ensures first in s && !HasDepIn(w, first, s)
  {
    if forall id {:trigger HasDepIn(w, id, s)} :: id in s ==> HasDepIn(w, id, s) {
      var p := LongChain(w, s, |s| + 1);
      if Distinct(p) {
        DistinctFits(p, s);
        assert false;
      } else {
        var i, j :| 0 <= i < j < |p| && p[i] == p[j];
        RepeatMeansCycle(w, p, i, j);
        assert false;
      }
    } else {
      first :| first in s && !HasDepIn(w, first, s);
    }
  }
}
