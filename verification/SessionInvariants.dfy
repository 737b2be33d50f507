/** What every move of a session keeps: its exchanges, whose events arrive, and the cancellation fence. */
module SessionInvariants {
  import opened Common
  import X = Exchanges
  import opened Sessions

  type Sends = map<Xid, Send>

  /** Send has opened the exchange, and the harness has not taken its prompt. */
  predicate Preparing(pc: Send) {
    pc.Resyncing? || pc.Resynced? || pc.Prompting? || pc.Refused?
  }

  /** The harness took x's prompt. */
  predicate Running(sends: Sends, x: Xid) {
    x in sends && (sends[x].Accepted? || sends[x].Sent?)
  }

  // ---- The exchange objects --------------------------------------------------------------------

  ghost predicate Folds(xs: map<Xid, X.State>) {
    forall x :: x in xs ==> X.Folded(xs[x]) && xs[x].id == x
  }

  lemma FoldsPush(xs: map<Xid, X.State>, x: Xid, ev: X.Event)
    requires Folds(xs)
    ensures Folds(PushTo(xs, x, ev))
  {
    X.NewIsFolded("", x, false);
    hide X.Folded;
    X.PushKeepsFolded(Ex(xs, x), ev);
  }

  lemma FoldsMark(xs: map<Xid, X.State>, x: Xid)
    requires Folds(xs)
    ensures Folds(xs[x := X.Marked(Ex(xs, x))])
  {
    X.NewIsFolded("", x, false);
    hide X.Folded;
    X.MarkKeepsFolded(Ex(xs, x));
  }

  lemma FoldsNew(xs: map<Xid, X.State>, x: Xid, schema: bool)
    requires Folds(xs)
    ensures Folds(xs[x := X.New("", x, schema)])
  {
    X.NewIsFolded("", x, schema);
    hide X.Folded;
  }

  lemma FoldsSend(s: Session, m: SendMove)
    requires Folds(s.xs) && MaySend(s, m)
    ensures Folds(SendStep(s, m).xs)
  {
    hide Folds, PushTo;
    match m {
      case Open(x, schema) => FoldsNew(s.xs, x, schema);
      case PushFailure(x) => FoldsPush(s.xs, x, X.ErrorEvent(s.sends[x].err));
      case PushEnd(x) => FoldsPush(s.xs, x, X.ENDED);
      case _ =>
    }
  }

  lemma FoldsCancel(s: Session, m: CancelMove)
    requires Folds(s.xs) && MayCancel(s, m)
    ensures Folds(CancelStep(s, m).xs)
  {
    hide Folds, PushTo;
    match m {
      case Mark(x) => FoldsMark(s.xs, x);
      case PushRefusal(x) => FoldsPush(s.xs, x, X.ErrorEvent(s.cancels[x].err));
      case _ =>
    }
  }

  lemma FoldsRoute(s: Session, m: RouteMove)
    requires Folds(s.xs) && MayRoute(s, m)
    ensures Folds(RouteStep(s, m).xs)
  {
    hide Folds, PushTo;
    match m {
      case Deliver => FoldsPush(s.xs, s.route.x, s.route.a.ev);
      case _ =>
    }
  }

  lemma FoldsEnd(s: Session, m: EndMove)
    requires Folds(s.xs) && MayEnd(s, m)
    ensures Folds(EndStep(s, m).xs)
  {
    hide Folds, PushTo;
    match m {
      case PushUnanswered => FoldsPush(s.xs, s.route.x, X.ErrorEvent(UNANSWERED));
      case PushReport => FoldsPush(s.xs, s.route.x, X.ErrorEvent(s.route.stage.failure));
      case _ =>
    }
  }

  lemma FoldsLast(s: Session, m: LastMove)
    requires Folds(s.xs) && MayLast(s, m)
    ensures Folds(LastStep(s, m).xs)
  {
    hide Folds, PushTo;
    match m {
      case PushLastReport => FoldsPush(s.xs, s.route.x, X.ErrorEvent(s.route.stage.failure));
      case PushExit => FoldsPush(s.xs, s.route.x, X.ErrorEvent(s.exitErr));
      case PushLastEnd => FoldsPush(s.xs, s.route.x, X.ENDED);
      case _ =>
    }
  }

  // ---- Which exchange is open, and whose events arrive ----------------------------------------

  /** The events still to be routed, the router's own first. */
  function Unrouted(route: Route, arrivals: seq<Arrival>): seq<Arrival> {
    if route.Looking? then [route.a] + arrivals else arrivals
  }

  /** The open exchange while its run is under way, as far as the router knows. */
  function Current(open: Option<Xid>, sends: Sends, ending: bool): Option<Xid> {
    if open.Some? && Running(sends, open.value) && !ending then open else None
  }

  /** Every run's event still to be routed is the current exchange's, and its end comes last. */
  predicate Flow(q: seq<Arrival>, live: set<Xid>, current: Option<Xid>) {
    && (forall i :: 0 <= i < |q| && q[i].run.Some? ==> current == q[i].run)
    && (forall i :: 0 <= i < |q| && q[i].ev.kind == X.Ended ==> q[i].run.Some? && q[i].run.value !in live)
    && (forall i, j :: 0 <= i < j < |q| && q[i].ev.kind == X.Ended ==> q[j].run.None?)
  }

  predicate Opened(open: Option<Xid>, sends: Sends, live: set<Xid>, ending: bool, exited: bool) {
    && (forall x :: x in sends && Preparing(sends[x]) ==> open == Some(x) || exited)
    && (forall x :: x in live ==> if exited then Running(sends, x) else Current(open, sends, ending) == Some(x))
    && (forall x, y :: x in live && y in live ==> x == y)
    && (forall x :: x in sends && Preparing(sends[x]) ==> live == {})
  }

  /** x's run has ended, and a is the event of it. */
  predicate EndOf(x: Xid, a: Arrival, sends: Sends, live: set<Xid>) {
    a.ev.kind == X.Ended && a.run == Some(x) && Running(sends, x) && x !in live
  }

  predicate Exits(route: Route, exited: bool, hung: bool, arrivals: seq<Arrival>, open: Option<Xid>) {
    && (exited <==> route.Last? || route.Gone?)
    && (exited || route.Leaving? ==> hung && arrivals == [])
    && (exited ==> open.None?)
  }

  predicate Handed(route: Route, runEnded: bool, open: Option<Xid>, sends: Sends, live: set<Xid>) {
    && (runEnded <==> route.Ending?)
    && (route.Ending? ==> open == Some(route.x) && EndOf(route.x, route.a, sends, live))
    && (route.Delivering? && route.a.ev.kind == X.Ended ==> EndOf(route.x, route.a, sends, live) && open != Some(route.x))
    && (route.Delivering? && route.a.run.Some? ==> route.a.run == Some(route.x))
  }

  predicate Staged(s: Session) {
    && Opened(s.open, s.sends, s.live, s.route.Ending?, s.exited)
    && Flow(Unrouted(s.route, s.arrivals), s.live, Current(s.open, s.sends, s.route.Ending?))
    && Exits(s.route, s.exited, s.hung, s.arrivals, s.open)
    && Handed(s.route, s.runEnded, s.open, s.sends, s.live)
  }

  lemma FlowAppend(q: seq<Arrival>, live: set<Xid>, current: Option<Xid>, a: Arrival)
    requires Flow(q, live, current) && forall x :: x in live ==> current == Some(x)
    requires if a.run.Some? then a.run.value in live else a.ev.kind != X.Ended
    ensures Flow(q + [a], if a.ev.kind == X.Ended && a.run.Some? then live - {a.run.value} else live, current)
  {
  }

  lemma FlowRest(q: seq<Arrival>, live: set<Xid>, current: Option<Xid>)
    requires Flow(q, live, current) && q != []
    ensures Flow(q[1..], live, current)
    ensures q[0].ev.kind == X.Ended ==> Flow(q[1..], live, None)
  {
  }

  /** A prompt is accepted only with no other run under way, and nothing of one left to route. */
  lemma AcceptFlow(q: seq<Arrival>, live: set<Xid>, x: Xid)
    requires Flow(q, live, None)
    ensures Flow(q, live + {x}, Some(x))
  {
  }

  lemma StagedAccept(s: Session, x: Xid)
    requires Staged(s) && MaySend(s, Accept(x))
    ensures Staged(SendStep(s, Accept(x)))
  {
    hide Flow, PushTo;
    AcceptFlow(Unrouted(s.route, s.arrivals), s.live, x);
    assert s.open == Some(x) && s.live == {};
  }

  /** A control point that changes neither what is preparing nor what is running. */
  lemma PcKeeps(s: Session, x: Xid, pc: Send)
    requires Staged(s) && x in s.sends && (Preparing(pc) ==> Preparing(s.sends[x]))
    requires (pc.Accepted? || pc.Sent?) <==> Running(s.sends, x)
    ensures var sends := s.sends[x := pc];
      && Opened(s.open, sends, s.live, s.route.Ending?, s.exited)
      && Current(s.open, sends, s.route.Ending?) == Current(s.open, s.sends, s.route.Ending?)
      && Handed(s.route, s.runEnded, s.open, sends, s.live)
  {
    hide Flow;
  }

  lemma StagedOpen(s: Session, x: Xid, schema: bool)
    requires Staged(s) && MaySend(s, Open(x, schema))
    ensures Staged(SendStep(s, Open(x, schema)))
  {
    hide Flow;
    assert s.live == {};
  }

  lemma StagedTakeBack(s: Session, x: Xid)
    requires Staged(s) && MaySend(s, TakeBack(x))
    ensures Staged(SendStep(s, TakeBack(x)))
  {
    hide Flow;
  }

  lemma StagedSend(s: Session, m: SendMove)
    requires Staged(s) && MaySend(s, m)
    ensures Staged(SendStep(s, m))
  {
    hide PushTo, Staged;
    match m {
      case Open(x, schema) => StagedOpen(s, x, schema);
      case Accept(x) => StagedAccept(s, x);
      case TakeBack(x) => StagedTakeBack(s, x);
      case _ => StagedPc(s, m);
    }
  }

  lemma StagedPc(s: Session, m: SendMove)
    requires Staged(s) && MaySend(s, m) && !m.Open? && !m.Accept? && !m.TakeBack?
    ensures Staged(SendStep(s, m))
  {
    PcKeeps(s, m.x, SendStep(s, m).sends[m.x]);
    hide PushTo, Opened, Flow, Current, Exits, Handed;
  }

  lemma StagedCancel(s: Session, m: CancelMove)
    requires Staged(s) && MayCancel(s, m)
    ensures Staged(CancelStep(s, m))
  {
    hide Opened, Flow, Exits, Handed, PushTo;
  }

  lemma StagedTake(s: Session)
    requires Staged(s) && MayRoute(s, Take)
    ensures Staged(RouteStep(s, Take))
  {
    assert [s.arrivals[0]] + s.arrivals[1..] == s.arrivals;
    hide Opened, Flow, Current;
  }

  /** The event the router holds is the current run's or no run's, and an end is the current run's. */
  lemma HeldFlow(s: Session)
    requires Staged(s) && s.route.Looking?
    ensures var (a, current) := (s.route.a, Current(s.open, s.sends, false));
      && (a.run.Some? ==> current == a.run)
      && (a.ev.kind == X.Ended ==> a.run.Some? && a.run.value !in s.live && Flow(s.arrivals, s.live, None))
      && Flow(s.arrivals, s.live, current)
  {
    hide Opened, Exits, Handed;
    var (q, a, current) := (Unrouted(s.route, s.arrivals), s.route.a, Current(s.open, s.sends, false));
    assert q[0] == a && q[1..] == s.arrivals;
    FlowRest(q, s.live, current);
  }

  lemma StagedSeeEnd(s: Session)
    requires Staged(s) && MayRoute(s, SeeEnd)
    ensures Staged(RouteStep(s, SeeEnd))
  {
    HeldFlow(s);
    hide Flow;
  }

  lemma StagedSeeEvent(s: Session)
    requires Staged(s) && MayRoute(s, SeeEvent)
    ensures Staged(RouteStep(s, SeeEvent))
  {
    HeldFlow(s);
    hide Flow, Opened;
  }

  lemma StagedDrop(s: Session)
    requires Staged(s) && MayRoute(s, Drop)
    ensures Staged(RouteStep(s, Drop))
  {
    HeldFlow(s);
    hide Flow, Opened;
  }

  lemma StagedLeave(s: Session)
    requires Staged(s) && MayRoute(s, Leave)
    ensures Staged(RouteStep(s, Leave))
  {
  }

  lemma StagedRoute(s: Session, m: RouteMove)
    requires Staged(s) && MayRoute(s, m)
    ensures Staged(RouteStep(s, m))
  {
    match m {
      case Take => StagedTake(s);
      case Leave => StagedLeave(s);
      case Deliver => hide PushTo, Opened, Flow, Current;
      case SeeExit => hide Opened, Flow, Current;
      case SeeEnd => StagedSeeEnd(s);
      case SeeEvent => StagedSeeEvent(s);
      case Drop => StagedDrop(s);
    }
  }

  lemma StagedEnd(s: Session, m: EndMove)
    requires Staged(s) && MayEnd(s, m)
    ensures Staged(EndStep(s, m))
  {
    hide PushTo, Joined, RecordOf, CursorAfter;
  }

  lemma StagedLast(s: Session, m: LastMove)
    requires Staged(s) && MayLast(s, m)
    ensures Staged(LastStep(s, m))
  {
    hide PushTo, RecordOf;
  }

  lemma StagedHarness(s: Session, m: HarnessMove)
    requires Staged(s) && MayHarness(s, m)
    ensures Staged(HarnessStep(s, m))
  {
    if m.Emit? {
      var q := Unrouted(s.route, s.arrivals);
      FlowAppend(q, s.live, Current(s.open, s.sends, s.route.Ending?), m.a);
      assert Unrouted(s.route, s.arrivals + [m.a]) == q + [m.a];
    }
    hide Flow;
  }

  // ---- The cancellation fence ------------------------------------------------------------------

  predicate Underway(pc: Cancel) {
    pc.Marking? || pc.Asking? || pc.Complaining? || pc.Freeing?
  }

  /** Nothing but x is open, prompting, or running. */
  predicate Alone(x: Xid, open: Option<Xid>, sends: Sends, live: set<Xid>) {
    && Running(sends, x)
    && (open.Some? ==> open == Some(x))
    && (forall y :: y in sends && y != x ==> !Preparing(sends[y]))
    && (forall y :: y in live ==> y == x)
  }

  predicate Fence(cancelling: Option<Xid>, cancels: map<Xid, Cancel>, open: Option<Xid>, sends: Sends, live: set<Xid>) {
    && (cancelling.Some? ==> cancelling.value in cancels && Underway(cancels[cancelling.value]))
    && (forall x :: x in cancels && Underway(cancels[x]) ==> cancelling == Some(x))
    && (forall x :: x in cancels ==> Running(sends, x))
    && (cancelling.Some? ==> Alone(cancelling.value, open, sends, live))
  }

  predicate Fenced(s: Session) {
    Fence(s.cancelling, s.cancels, s.open, s.sends, s.live)
  }

  lemma FencePc(s: Session, x: Xid, pc: Send)
    requires Fenced(s) && x in s.sends && (Preparing(pc) ==> Preparing(s.sends[x]))
    requires Running(s.sends, x) ==> pc == Sent
    ensures Fence(s.cancelling, s.cancels, s.open, s.sends[x := pc], s.live)
  {
  }

  lemma FencedAccept(s: Session, x: Xid)
    requires Fenced(s) && MaySend(s, Accept(x))
    ensures Fenced(SendStep(s, Accept(x)))
  {
    assert s.cancelling.None?;
  }

  lemma FencedTakeBack(s: Session, x: Xid)
    requires Fenced(s) && MaySend(s, TakeBack(x))
    ensures Fenced(SendStep(s, TakeBack(x)))
  {
  }

  lemma FencedOpen(s: Session, x: Xid, schema: bool)
    requires Fenced(s) && MaySend(s, Open(x, schema))
    ensures Fenced(SendStep(s, Open(x, schema)))
  {
  }

  lemma FencedSend(s: Session, m: SendMove)
    requires Fenced(s) && MaySend(s, m)
    ensures Fenced(SendStep(s, m))
  {
    hide PushTo;
    match m {
      case Open(x, schema) => FencedOpen(s, x, schema);
      case Accept(x) => FencedAccept(s, x);
      case TakeBack(x) => FencedTakeBack(s, x);
      case _ => FencePc(s, m.x, SendStep(s, m).sends[m.x]); hide Fence;
    }
  }

  /** A cancellation is decided only for the open exchange, while nothing else is prompting or running. */
  lemma FencedDecide(s: Session, x: Xid)
    requires Fenced(s) && Staged(s) && MayCancel(s, Decide(x))
    ensures Fenced(CancelStep(s, Decide(x)))
  {
    hide Flow;
  }

  lemma FencedCancel(s: Session, m: CancelMove)
    requires Fenced(s) && Staged(s) && MayCancel(s, m)
    ensures Fenced(CancelStep(s, m))
  {
    hide PushTo, Staged;
    match m {
      case Decide(x) => FencedDecide(s, x);
      case _ => hide Alone;
    }
  }

  lemma FencedRoute(s: Session, m: RouteMove)
    requires Fenced(s) && MayRoute(s, m)
    ensures Fenced(RouteStep(s, m))
  {
    hide PushTo;
  }

  lemma FencedEnd(s: Session, m: EndMove)
    requires Fenced(s) && MayEnd(s, m)
    ensures Fenced(EndStep(s, m))
  {
    hide PushTo, Joined, RecordOf, CursorAfter, AfterStore;
  }

  lemma FencedLast(s: Session, m: LastMove)
    requires Fenced(s) && MayLast(s, m)
    ensures Fenced(LastStep(s, m))
  {
    hide PushTo, RecordOf, AfterStore, Fence;
  }

  lemma FencedHarness(s: Session, m: HarnessMove)
    requires Fenced(s) && MayHarness(s, m)
    ensures Fenced(HarnessStep(s, m))
  {
  }
}
