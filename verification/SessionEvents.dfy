/**
 * What becomes of what a harness emits and what a journal gives (harness/session.go: route, record, bind):
 * every event of a run is on its exchange's queue, in order, and every binding that succeeds is recorded.
 */
module SessionEvents {
  import opened Common
  import X = Exchanges
  import opened Sessions
  import opened SessionInvariants
  import opened SessionRecords
  import opened SessionJournal
  import opened SessionTheorems

  // ---- A run's events ------------------------------------------------------------------------

  /** What of an event a push leaves alone: all but its stamps, and an end's stop reason. */
  predicate Same(ev: X.Event, q: X.Event) {
    && q.kind == ev.kind && q.text == ev.text && q.usage == ev.usage && q.structured == ev.structured && q.err == ev.err
    && (ev.kind != X.Ended ==> q.stopReason == ev.stopReason)
  }

  /** The events are all on the queue, in their order. */
  predicate InOrder(evs: seq<X.Event>, queued: seq<X.Event>) {
    evs == [] ||
    (queued != [] &&
     ((Same(Common.Last(evs), Common.Last(queued)) && InOrder(evs[..|evs| - 1], queued[..|queued| - 1]))
      || InOrder(evs, queued[..|queued| - 1])))
  }

  lemma QueuedMore(evs: seq<X.Event>, queued: seq<X.Event>, q: X.Event)
    requires InOrder(evs, queued)
    ensures InOrder(evs, queued + [q])
  {
    assert (queued + [q])[..|queued|] == queued;
  }

  lemma QueuedNext(evs: seq<X.Event>, queued: seq<X.Event>, ev: X.Event, q: X.Event)
    requires InOrder(evs, queued) && Same(ev, q)
    ensures InOrder(evs + [ev], queued + [q])
  {
    assert (queued + [q])[..|queued|] == queued && (evs + [ev])[..|evs|] == evs;
  }

  function OfRun(arrivals: seq<Arrival>, x: Xid): seq<X.Event> {
    if arrivals == [] then []
    else OfRun(arrivals[..|arrivals| - 1], x) + if Common.Last(arrivals).run == Some(x) then [Common.Last(arrivals).ev] else []
  }

  lemma OfRunOn(arrivals: seq<Arrival>, a: Arrival, x: Xid)
    ensures OfRun(arrivals + [a], x) == OfRun(arrivals, x) + if a.run == Some(x) then [a.ev] else []
  {
    assert (arrivals + [a])[..|arrivals|] == arrivals;
  }

  lemma {:induction false} OfRunFirst(a: Arrival, arrivals: seq<Arrival>, x: Xid)
    ensures OfRun([a] + arrivals, x) == (if a.run == Some(x) then [a.ev] else []) + OfRun(arrivals, x)
  {
    if arrivals == [] {
      assert [a] + arrivals == [] + [a];
      OfRunOn([], a, x);
    } else {
      var front := arrivals[..|arrivals| - 1];
      OfRunFirst(a, front, x);
      assert ([a] + arrivals)[..|arrivals|] == [a] + front;
    }
  }

  lemma {:induction false} NoneOfRun(arrivals: seq<Arrival>, x: Xid)
    requires forall i :: 0 <= i < |arrivals| ==> arrivals[i].run != Some(x)
    ensures OfRun(arrivals, x) == []
  {
    if arrivals != [] {
      NoneOfRun(arrivals[..|arrivals| - 1], x);
    }
  }

  /** All that was ever emitted, in that order: what the arrivals have grown by. */
  function Emitted(ss: seq<Session>): seq<Arrival> {
    if |ss| <= 1 then []
    else
      Grown(Emitted(ss[..|ss| - 1]), ss[|ss| - 2], ss[|ss| - 1])
  }

  /** The event the router holds, of a run's that it has yet to push. */
  function Held(route: Route): seq<Arrival> {
    if route.Looking? || route.Ending? || route.Delivering? then [route.a] else []
  }

  function Pending(s: Session, x: Xid): seq<X.Event> {
    OfRun(Held(s.route) + s.arrivals, x)
  }

  /** Of a run's events those not pending are on the queue; it is open to the pending ones. */
  predicate Delivered(events: seq<X.Event>, pending: seq<X.Event>, ex: X.State, running: bool) {
    && |pending| <= |events| && events[|events| - |pending|..] == pending
    && InOrder(events[..|events| - |pending|], ex.queued)
    && (events != [] ==> running) && (pending != [] ==> !ex.final)
  }

  ghost predicate AllDelivered(emitted: seq<Arrival>, s: Session) {
    forall x :: Delivered(OfRun(emitted, x), Pending(s, x), Ex(s.xs, x), Running(s.sends, x))
  }

  lemma PushedSame(ex: X.State, ev: X.Event)
    requires !ex.final
    ensures var ex' := X.Pushed(ex, ev);
      && ex'.queued == ex.queued + [X.Stamped(ex, ev)] && Same(ev, X.Stamped(ex, ev)) && (ex'.final <==> ev.kind == X.Ended)
  {
  }

  /** A push of the session's own, of no run's event. */
  lemma OwnPush(events: seq<X.Event>, pending: seq<X.Event>, ex: X.State, running: bool, ev: X.Event)
    requires Delivered(events, pending, ex, running) && (ev.kind == X.Ended ==> pending == [])
    ensures Delivered(events, pending, X.Pushed(ex, ev), running)
  {
    if !ex.final {
      PushedSame(ex, ev);
      QueuedMore(events[..|events| - |pending|], ex.queued, X.Stamped(ex, ev));
    }
    hide InOrder, Same, X.Stamped;
  }

  /** The push of the run's own next event. */
  lemma RunPush(events: seq<X.Event>, pending: seq<X.Event>, ex: X.State, running: bool, ev: X.Event)
    requires Delivered(events, [ev] + pending, ex, running) && (ev.kind == X.Ended ==> pending == [])
    ensures Delivered(events, pending, X.Pushed(ex, ev), running)
  {
    var n := |events| - |pending|;
    PushedSame(ex, ev);
    QueuedNext(events[..n - 1], ex.queued, ev, X.Stamped(ex, ev));
    assert events[n - 1] == ([ev] + pending)[0];
    assert events[..n] == events[..n - 1] + [ev];
    assert events[n..] == ([ev] + pending)[1..];
    hide InOrder, Same, X.Stamped;
  }

  lemma EmitMore(events: seq<X.Event>, pending: seq<X.Event>, ex: X.State, running: bool, ev: X.Event)
    requires Delivered(events, pending, ex, running) && running && !ex.final
    ensures Delivered(events + [ev], pending + [ev], ex, running)
  {
    var n := |events| - |pending|;
    assert (events + [ev])[..n] == events[..n] && (events + [ev])[n..] == events[n..] + [ev];
    hide InOrder;
  }

  lemma PendingOf(s: Session, x: Xid)
    ensures Pending(s, x) == (if Held(s.route) != [] && s.route.a.run == Some(x) then [s.route.a.ev] else []) + OfRun(s.arrivals, x)
  {
    if Held(s.route) != [] {
      OfRunFirst(s.route.a, s.arrivals, x);
    } else {
      assert [] + s.arrivals == s.arrivals;
    }
  }

  /** Neither the router's hold, nor the arrivals, nor the exchange change, and runs only begin. */
  lemma Unmoved(emitted: seq<Arrival>, s: Session, s': Session, x: Xid)
    requires Delivered(OfRun(emitted, x), Pending(s, x), Ex(s.xs, x), Running(s.sends, x))
    requires Pending(s', x) == Pending(s, x) && Ex(s'.xs, x) == Ex(s.xs, x)
    requires Running(s.sends, x) ==> Running(s'.sends, x)
    ensures Delivered(OfRun(emitted, x), Pending(s', x), Ex(s'.xs, x), Running(s'.sends, x))
  {
    hide OfRun, Pending, InOrder;
  }

  // ---- Each kind of move ---------------------------------------------------------------------

  /** The session pushes an event of its own to y. */
  lemma PushDelivers(emitted: seq<Arrival>, s: Session, s': Session, y: Xid, ev: X.Event, x: Xid)
    requires Delivered(OfRun(emitted, x), Pending(s, x), Ex(s.xs, x), Running(s.sends, x))
    requires Pending(s', x) == Pending(s, x) && s'.xs == PushTo(s.xs, y, ev)
    requires Running(s.sends, x) ==> Running(s'.sends, x)
    requires x == y && ev.kind == X.Ended ==> Pending(s, x) == []
    ensures Delivered(OfRun(emitted, x), Pending(s', x), Ex(s'.xs, x), Running(s'.sends, x))
  {
    hide OfRun, Pending, PushTo, X.Pushed;
    PushToIs(s.xs, y, ev);
    OthersSame(s.xs, y, X.Pushed(Ex(s.xs, y), ev));
    if x == y {
      OwnPush(OfRun(emitted, x), Pending(s, x), Ex(s.xs, x), Running(s.sends, x), ev);
    }
    hide InOrder;
  }

  lemma SendDeliversTo(emitted: seq<Arrival>, s: Session, m: SendMove, x: Xid)
    requires MaySend(s, m) && Delivered(OfRun(emitted, x), Pending(s, x), Ex(s.xs, x), Running(s.sends, x))
    ensures var s' := SendStep(s, m); Delivered(OfRun(emitted, x), Pending(s', x), Ex(s'.xs, x), Running(s'.sends, x))
  {
    hide OfRun, Delivered, Held, PushTo;
    var s' := SendStep(s, m);
    SendLeaves(s, m);
    assert Pending(s', x) == Pending(s, x);
    hide Pending;
    match m {
      case Open(y, schema) =>
        if x == y {
          OpensEmpty(OfRun(emitted, x), Pending(s, x), Ex(s.xs, x), schema, x);
        } else {
          Unmoved(emitted, s, s', x);
        }
      case PushFailure(y) => PushDelivers(emitted, s, s', y, X.ErrorEvent(s.sends[y].err), x);
      case PushEnd(y) =>
        if x == y {
          NothingPending(OfRun(emitted, x), Pending(s, x), Ex(s.xs, x));
        }
        PushDelivers(emitted, s, s', y, X.ENDED, x);
      case _ => Unmoved(emitted, s, s', x);
    }
  }

  lemma SendDelivers(emitted: seq<Arrival>, s: Session, m: SendMove)
    requires AllDelivered(emitted, s) && MaySend(s, m)
    ensures AllDelivered(emitted, SendStep(s, m))
  {
    hide OfRun, Delivered, Pending, Running, Ex, SendStep, MaySend;
    var s' := SendStep(s, m);
    forall x: Xid
      ensures Delivered(OfRun(emitted, x), Pending(s', x), Ex(s'.xs, x), Running(s'.sends, x))
    {
      SendDeliversTo(emitted, s, m, x);
    }
  }

  lemma PushToIs(xs: Objects, x: Xid, ev: X.Event)
    ensures PushTo(xs, x, ev) == xs[x := X.Pushed(Ex(xs, x), ev)]
  {
  }

  lemma NothingPending(events: seq<X.Event>, pending: seq<X.Event>, ex: X.State)
    requires Delivered(events, pending, ex, false)
    ensures events == [] && pending == []
  {
    hide InOrder;
  }

  lemma OpensEmpty(events: seq<X.Event>, pending: seq<X.Event>, ex: X.State, schema: bool, x: Xid)
    requires Delivered(events, pending, ex, false)
    ensures Delivered(events, pending, X.New("", x, schema), false)
  {
    NothingPending(events, pending, ex);
  }

  lemma CancelDelivers(emitted: seq<Arrival>, s: Session, m: CancelMove)
    requires AllDelivered(emitted, s) && MayCancel(s, m)
    ensures AllDelivered(emitted, CancelStep(s, m))
  {
    hide OfRun, Delivered, Held, PushTo;
    var s' := CancelStep(s, m);
    forall x: Xid
      ensures Delivered(OfRun(emitted, x), Pending(s', x), Ex(s'.xs, x), Running(s'.sends, x))
    {
      assert Delivered(OfRun(emitted, x), Pending(s, x), Ex(s.xs, x), Running(s.sends, x));
      assert Pending(s', x) == Pending(s, x);
      match m {
        case Mark(y) =>
          OthersSame(s.xs, y, X.Marked(Ex(s.xs, y)));
          if x == y {
            MarkedSame(OfRun(emitted, x), Pending(s, x), Ex(s.xs, x), Running(s.sends, x));
          } else {
            Unmoved(emitted, s, s', x);
          }
        case PushRefusal(y) => PushDelivers(emitted, s, s', y, X.ErrorEvent(s.cancels[y].err), x);
        case _ => Unmoved(emitted, s, s', x);
      }
    }
  }

  lemma MarkedSame(events: seq<X.Event>, pending: seq<X.Event>, ex: X.State, running: bool)
    requires Delivered(events, pending, ex, running)
    ensures Delivered(events, pending, X.Marked(ex), running)
  {
    hide InOrder;
  }

  /** What the router can see of the event it holds, and of those behind it. */
  lemma HeldIsOpen(s: Session, m: RouteMove, x: Xid)
    requires Kept(s) && MayRoute(s, m)
    ensures m.Drop? ==> s.route.a.run != Some(x)
    ensures m.Deliver? && s.route.a.run == Some(x) ==> s.route.x == x
    ensures m.Deliver? && s.route.a.ev.kind == X.Ended ==> s.route.a.run == Some(s.route.x) && OfRun(s.arrivals, s.route.x) == []
  {
    hide Folds, Fenced, Recording, Ended, Carried, Answered, Attended, Blocks;
    if m.Drop? {
      HeldFlow(s);
    } else if m.Deliver? && s.route.a.ev.kind == X.Ended {
      NoneOfRun(s.arrivals, s.route.x);
    }
  }

  lemma RouteDelivers(emitted: seq<Arrival>, s: Session, m: RouteMove)
    requires Kept(s) && AllDelivered(emitted, s) && MayRoute(s, m)
    ensures AllDelivered(emitted, RouteStep(s, m))
  {
    hide Kept, OfRun, Delivered, PushTo;
    var s' := RouteStep(s, m);
    forall x: Xid
      ensures Delivered(OfRun(emitted, x), Pending(s', x), Ex(s'.xs, x), Running(s'.sends, x))
    {
      assert Delivered(OfRun(emitted, x), Pending(s, x), Ex(s.xs, x), Running(s.sends, x));
      HeldIsOpen(s, m, x);
      PendingOf(s, x);
      PendingOf(s', x);
      match m {
        case Take =>
          assert s.arrivals == [s.arrivals[0]] + s.arrivals[1..];
          OfRunFirst(s.arrivals[0], s.arrivals[1..], x);
          assert [] + OfRun(s.arrivals, x) == OfRun(s.arrivals, x);
          Unmoved(emitted, s, s', x);
        case Deliver =>
          DeliverDelivers(emitted, s, x);
        case _ => Unmoved(emitted, s, s', x);
      }
    }
  }

  lemma DeliverDelivers(emitted: seq<Arrival>, s: Session, x: Xid)
    requires Kept(s) && MayRoute(s, Deliver)
    requires Delivered(OfRun(emitted, x), Pending(s, x), Ex(s.xs, x), Running(s.sends, x))
    ensures var s' := RouteStep(s, Deliver); Delivered(OfRun(emitted, x), Pending(s', x), Ex(s'.xs, x), Running(s'.sends, x))
  {
    hide Kept, OfRun, Delivered, PushTo;
    var s' := RouteStep(s, Deliver);
    var (y, ev) := (s.route.x, s.route.a.ev);
    HeldIsOpen(s, Deliver, x);
    PendingOf(s, x);
    PendingOf(s', x);
    OthersSame(s.xs, y, X.Pushed(Ex(s.xs, y), ev));
    PushToIs(s.xs, y, ev);
    assert [] + OfRun(s.arrivals, x) == OfRun(s.arrivals, x);
    if s.route.a.run == Some(x) {
      RunPush(OfRun(emitted, x), OfRun(s.arrivals, x), Ex(s.xs, x), Running(s.sends, x), ev);
    } else if x == y {
      OwnPush(OfRun(emitted, x), Pending(s, x), Ex(s.xs, x), Running(s.sends, x), ev);
    } else {
      Unmoved(emitted, s, s', x);
    }
  }

  lemma EndHolds(s: Session, m: EndMove)
    requires MayEnd(s, m)
    ensures var s' := EndStep(s, m);
      && Held(s'.route) == Held(s.route) && s'.arrivals == s.arrivals && s'.sends == s.sends
      && s'.closed == s.closed && s'.exited == s.exited && s'.cancels == s.cancels
    ensures !m.PushUnanswered? && !m.PushReport? ==> EndStep(s, m).xs == s.xs
  {
    hide PushTo, X.Unanswered, CursorAfter, RecordOf, Joined, Without;
    match m {
      case CheckAnswer =>
      case PushUnanswered =>
      case StartRecord =>
      case AskJournal(out) =>
      case BindEntries =>
      case MakeRecord =>
      case PutRecord(out) =>
      case PushReport =>
      case ClearOpen =>
    }
  }

  lemma EndPushes(s: Session, m: EndMove)
    requires MayEnd(s, m) && (m.PushUnanswered? || m.PushReport?)
    ensures EndStep(s, m).xs ==
      PushTo(s.xs, s.route.x, X.ErrorEvent(if m.PushUnanswered? then UNANSWERED else s.route.stage.failure))
  {
    hide PushTo;
  }

  lemma EndDeliversTo(emitted: seq<Arrival>, s: Session, m: EndMove, x: Xid)
    requires MayEnd(s, m) && Delivered(OfRun(emitted, x), Pending(s, x), Ex(s.xs, x), Running(s.sends, x))
    ensures var s' := EndStep(s, m); Delivered(OfRun(emitted, x), Pending(s', x), Ex(s'.xs, x), Running(s'.sends, x))
  {
    EndHolds(s, m);
    var s' := EndStep(s, m);
    if m.PushUnanswered? || m.PushReport? {
      EndPushes(s, m);
      hide OfRun, Delivered, Held, PushTo, Ex, Running, EndStep, MayEnd;
      PushDelivers(emitted, s, s', s.route.x, X.ErrorEvent(if m.PushUnanswered? then UNANSWERED else s.route.stage.failure), x);
    } else {
      hide OfRun, Delivered, Held, PushTo, Ex, Running, EndStep, MayEnd;
      Unmoved(emitted, s, s', x);
    }
  }

  lemma EndDelivers(emitted: seq<Arrival>, s: Session, m: EndMove)
    requires AllDelivered(emitted, s) && MayEnd(s, m)
    ensures AllDelivered(emitted, EndStep(s, m))
  {
    hide OfRun, Delivered, Pending, Running, Ex, EndStep, MayEnd;
    var s' := EndStep(s, m);
    forall x: Xid
      ensures Delivered(OfRun(emitted, x), Pending(s', x), Ex(s'.xs, x), Running(s'.sends, x))
    {
      EndDeliversTo(emitted, s, m, x);
    }
  }

  lemma LastDelivers(emitted: seq<Arrival>, s: Session, m: LastMove)
    requires Kept(s) && AllDelivered(emitted, s) && MayLast(s, m)
    ensures AllDelivered(emitted, LastStep(s, m))
  {
    hide Folds, Opened, Flow, Handed, Fenced, Recording, Ended, Carried, Answered, Attended, Blocks;
    hide OfRun, Delivered, PushTo, RecordOf;
    var s' := LastStep(s, m);
    var y := s.route.x;
    assert s.arrivals == [];
    forall x: Xid
      ensures Delivered(OfRun(emitted, x), Pending(s', x), Ex(s'.xs, x), Running(s'.sends, x))
    {
      assert Delivered(OfRun(emitted, x), Pending(s, x), Ex(s.xs, x), Running(s.sends, x));
      PendingOf(s, x);
      PendingOf(s', x);
      NoneOfRun(s.arrivals, x);
      if m.PushLastReport? || m.PushExit? || m.PushLastEnd? {
        var ev := if m.PushLastReport? then X.ErrorEvent(s.route.stage.failure)
                  else if m.PushExit? then X.ErrorEvent(s.exitErr) else X.ENDED;
        PushDelivers(emitted, s, s', y, ev, x);
      } else {
        Unmoved(emitted, s, s', x);
      }
    }
  }

  /** A run that emits is under way, and its exchange has not ended. */
  lemma EmitterIsOpen(s: Session, a: Arrival, x: Xid)
    requires Kept(s) && MayHarness(s, Emit(a)) && a.run == Some(x)
    ensures Running(s.sends, x) && !Ex(s.xs, x).final
  {
    hide Folds, Flow, Handed, Fenced, Recording, EndsRecorded, Carried, Answered, Blocks;
  }

  lemma EmitDelivers(emitted: seq<Arrival>, s: Session, a: Arrival)
    requires Kept(s) && AllDelivered(emitted, s) && MayHarness(s, Emit(a))
    ensures AllDelivered(emitted + [a], HarnessStep(s, Emit(a)))
  {
    hide Kept, OfRun, Delivered;
    var s' := HarnessStep(s, Emit(a));
    forall x: Xid
      ensures Delivered(OfRun(emitted + [a], x), Pending(s', x), Ex(s'.xs, x), Running(s'.sends, x))
    {
      assert Delivered(OfRun(emitted, x), Pending(s, x), Ex(s.xs, x), Running(s.sends, x));
      OfRunOn(emitted, a, x);
      OfRunOn(Held(s.route) + s.arrivals, a, x);
      assert Held(s.route) + (s.arrivals + [a]) == Held(s.route) + s.arrivals + [a];
      if a.run == Some(x) {
        EmitterIsOpen(s, a, x);
        EmitMore(OfRun(emitted, x), Pending(s, x), Ex(s.xs, x), Running(s.sends, x), a.ev);
      } else {
        assert OfRun(emitted, x) + [] == OfRun(emitted, x) && Pending(s, x) + [] == Pending(s, x);
      }
    }
  }

  // ---- Over histories ------------------------------------------------------------------------

  /** All that was emitted, once s has become s'. */
  function Grown(emitted: seq<Arrival>, s: Session, s': Session): seq<Arrival> {
    emitted + if |s'.arrivals| > |s.arrivals| then [Common.Last(s'.arrivals)] else []
  }

  lemma NoMore(emitted: seq<Arrival>, s: Session, s': Session)
    requires |s'.arrivals| <= |s.arrivals|
    ensures Grown(emitted, s, s') == emitted
  {
  }

  lemma SendEmits(emitted: seq<Arrival>, s: Session, m: SendMove)
    requires AllDelivered(emitted, s) && MaySend(s, m)
    ensures AllDelivered(Grown(emitted, s, SendStep(s, m)), SendStep(s, m))
  {
    hide AllDelivered, SendStep, MaySend, Grown;
    SendLeaves(s, m);
    NoMore(emitted, s, SendStep(s, m));
    SendDelivers(emitted, s, m);
  }

  lemma CancelEmits(emitted: seq<Arrival>, s: Session, m: CancelMove)
    requires AllDelivered(emitted, s) && MayCancel(s, m)
    ensures AllDelivered(Grown(emitted, s, CancelStep(s, m)), CancelStep(s, m))
  {
    hide AllDelivered, CancelStep, MayCancel, Grown;
    CancelLeaves(s, m);
    NoMore(emitted, s, CancelStep(s, m));
    CancelDelivers(emitted, s, m);
  }

  lemma RouteEmits(emitted: seq<Arrival>, s: Session, m: RouteMove)
    requires Kept(s) && AllDelivered(emitted, s) && MayRoute(s, m)
    ensures AllDelivered(Grown(emitted, s, RouteStep(s, m)), RouteStep(s, m))
  {
    hide Kept, AllDelivered, RouteStep, MayRoute, Grown;
    RouteLeaves(s, m);
    NoMore(emitted, s, RouteStep(s, m));
    RouteDelivers(emitted, s, m);
  }

  lemma EndEmits(emitted: seq<Arrival>, s: Session, m: EndMove)
    requires AllDelivered(emitted, s) && MayEnd(s, m)
    ensures AllDelivered(Grown(emitted, s, EndStep(s, m)), EndStep(s, m))
  {
    hide AllDelivered, EndStep, MayEnd, Grown;
    EndLeaves(s, m);
    NoMore(emitted, s, EndStep(s, m));
    EndDelivers(emitted, s, m);
  }

  lemma LastEmits(emitted: seq<Arrival>, s: Session, m: LastMove)
    requires Kept(s) && AllDelivered(emitted, s) && MayLast(s, m)
    ensures AllDelivered(Grown(emitted, s, LastStep(s, m)), LastStep(s, m))
  {
    hide Kept, AllDelivered, LastStep, MayLast, Grown;
    LastLeaves(s, m);
    NoMore(emitted, s, LastStep(s, m));
    LastDelivers(emitted, s, m);
  }

  lemma HarnessEmits(emitted: seq<Arrival>, s: Session, m: HarnessMove)
    requires Kept(s) && AllDelivered(emitted, s) && MayHarness(s, m)
    ensures AllDelivered(Grown(emitted, s, HarnessStep(s, m)), HarnessStep(s, m))
  {
    hide Kept, AllDelivered;
    if m.Emit? {
      EmitDelivers(emitted, s, m.a);
    } else {
      HarnessDelivers(emitted, s, m);
      assert emitted + [] == emitted;
    }
  }

  lemma StepDelivers(emitted: seq<Arrival>, s: Session, s': Session)
    requires Kept(s) && AllDelivered(emitted, s) && Next(s, s')
    ensures AllDelivered(Grown(emitted, s, s'), s')
  {
    hide Kept, AllDelivered, Grown, MaySend, MayCancel, MayRoute, MayEnd, MayLast, MayHarness;
    hide SendStep, CancelStep, RouteStep, EndStep, LastStep, HarnessStep;
    if m :| MaySend(s, m) && s' == SendStep(s, m) {
      SendEmits(emitted, s, m);
    } else if m :| MayCancel(s, m) && s' == CancelStep(s, m) {
      CancelEmits(emitted, s, m);
    } else if m :| MayRoute(s, m) && s' == RouteStep(s, m) {
      RouteEmits(emitted, s, m);
    } else if m :| MayEnd(s, m) && s' == EndStep(s, m) {
      EndEmits(emitted, s, m);
    } else if m :| MayLast(s, m) && s' == LastStep(s, m) {
      LastEmits(emitted, s, m);
    } else {
      var m :| MayHarness(s, m) && s' == HarnessStep(s, m);
      HarnessEmits(emitted, s, m);
    }
  }

  lemma SendLeaves(s: Session, m: SendMove)
    requires MaySend(s, m)
    ensures var s' := SendStep(s, m);
      && s'.arrivals == s.arrivals && s'.route == s.route && s'.puts == s.puts
      && s'.journaled == s.journaled && s'.exitErr == s.exitErr && s'.cancels == s.cancels
  {
    hide PushTo, MaySend;
    match m {
      case Open(x, schema) =>
      case TakeHead(x) =>
      case HeadFails(x, err) =>
      case SetCursor(x) =>
      case Accept(x) =>
      case Refuse(x, err) =>
      case Return(x) =>
      case TakeBack(x) =>
      case PushFailure(x) =>
      case PushEnd(x) =>
    }
  }

  lemma RouteLeaves(s: Session, m: RouteMove)
    requires MayRoute(s, m)
    ensures var s' := RouteStep(s, m); |s'.arrivals| <= |s.arrivals| && s'.puts == s.puts && !s.route.Ending?
  {
    hide PushTo;
    match m {
      case Take =>
      case Drop =>
      case SeeEvent =>
      case SeeEnd =>
      case Deliver =>
      case SeeExit =>
      case Leave =>
    }
  }

  lemma EndLeaves(s: Session, m: EndMove)
    requires MayEnd(s, m)
    ensures EndStep(s, m).arrivals == s.arrivals
  {
    hide PushTo, MayEnd;
    match m {
      case CheckAnswer =>
      case PushUnanswered =>
      case StartRecord =>
      case AskJournal(out) =>
      case BindEntries =>
      case MakeRecord =>
      case PutRecord(out) =>
      case PushReport =>
      case ClearOpen =>
    }
  }

  lemma LastLeaves(s: Session, m: LastMove)
    requires MayLast(s, m)
    ensures var s' := LastStep(s, m); s'.arrivals == s.arrivals && s.puts <= s'.puts && !s.route.Ending?
  {
    hide PushTo;
    match m {
      case MakeLast =>
      case PutLast(out) =>
      case PushLastReport =>
      case PushExit =>
      case PushLastEnd =>
    }
  }

  lemma HarnessDelivers(emitted: seq<Arrival>, s: Session, m: HarnessMove)
    requires AllDelivered(emitted, s) && MayHarness(s, m) && !m.Emit?
    ensures AllDelivered(emitted, HarnessStep(s, m)) && HarnessStep(s, m).arrivals == s.arrivals
  {
    hide OfRun, Delivered;
    var s' := HarnessStep(s, m);
    forall x: Xid
      ensures Delivered(OfRun(emitted, x), Pending(s', x), Ex(s'.xs, x), Running(s'.sends, x))
    {
      assert Delivered(OfRun(emitted, x), Pending(s, x), Ex(s.xs, x), Running(s.sends, x));
      Unmoved(emitted, s, s', x);
    }
  }

  lemma {:induction false} AlwaysDelivered(ss: seq<Session>)
    requires History(ss)
    ensures AllDelivered(Emitted(ss), Common.Last(ss))
  {
    hide Kept, Next;
    if |ss| == 1 {
      assert Held(ss[0].route) + ss[0].arrivals == [];
    } else {
      hide AllDelivered;
      var front := ss[..|ss| - 1];
      assert forall n :: 0 <= n < |front| ==> front[n] == ss[n];
      AlwaysDelivered(front);
      AlwaysKept(front);
      assert Next(ss[|ss| - 2], ss[|ss| - 2 + 1]);
      StepDelivers(Emitted(front), Common.Last(front), Common.Last(ss));
    }
  }

  /** Every event a run has emitted, but those the router has yet to push, is on its exchange's queue, in
      order and as it was emitted but for its stamps. With nothing left to route, all of them are. */
  lemma EventsAreDelivered(ss: seq<Session>, x: Xid)
    requires History(ss)
    ensures var (s, events) := (Common.Last(ss), OfRun(Emitted(ss), x));
      && |Pending(s, x)| <= |events| && events[|events| - |Pending(s, x)|..] == Pending(s, x)
      && InOrder(events[..|events| - |Pending(s, x)|], Ex(s.xs, x).queued)
      && (s.route == Reading && s.arrivals == [] ==> InOrder(events, Ex(s.xs, x).queued))
  {
    hide Next, OfRun, InOrder;
    AlwaysDelivered(ss);
    var (s, events) := (Common.Last(ss), OfRun(Emitted(ss), x));
    assert Delivered(events, Pending(s, x), Ex(s.xs, x), Running(s.sends, x));
    if s.route == Reading && s.arrivals == [] {
      assert Held(s.route) + s.arrivals == [];
      NoneOfRun([], x);
      assert events[..|events| - 0] == events;
    }
  }

  // ---- Bindings ------------------------------------------------------------------------------

  /** x's entries were bound to e: its end carries them still, or its record has them. */
  predicate BoundTo(s: Session, x: Xid, e: Entries) {
    || (s.route.Ending? && s.route.x == x &&
        match s.route.stage
        case Bind(entries, err) => entries == e && err.None?
        case Write(entries, _) => entries == e
        case Store(rec, _) => rec.x == x && rec.entries == e
        case _ => false)
    || exists i :: 0 <= i < |s.puts| && s.puts[i].rec.x == x && s.puts[i].rec.entries == e
  }

  lemma PutStays(s: Session, s': Session, x: Xid, e: Entries)
    requires BoundTo(s, x, e) && s.puts <= s'.puts && (s.route.Ending? ==> s'.route == s.route)
    ensures BoundTo(s', x, e)
  {
    if i :| 0 <= i < |s.puts| && s.puts[i].rec.x == x && s.puts[i].rec.entries == e {
      assert s'.puts[i] == s.puts[i];
    }
  }

  lemma EndKeepsBound(s: Session, m: EndMove, x: Xid, e: Entries)
    requires BoundTo(s, x, e) && MayEnd(s, m)
    ensures BoundTo(EndStep(s, m), x, e)
  {
    hide PushTo, X.Unanswered, CursorAfter, Joined;
    var s' := EndStep(s, m);
    if i :| 0 <= i < |s.puts| && s.puts[i].rec.x == x && s.puts[i].rec.entries == e {
      assert s'.puts[i] == s.puts[i];
    } else if m.PutRecord? {
      assert s'.puts[|s.puts|].rec == s.route.stage.rec;
    }
  }

  lemma StepKeepsBound(s: Session, s': Session, x: Xid, e: Entries)
    requires BoundTo(s, x, e) && Next(s, s')
    ensures BoundTo(s', x, e)
  {
    hide BoundTo, MaySend, MayCancel, MayRoute, MayEnd, MayLast, MayHarness;
    hide SendStep, CancelStep, RouteStep, EndStep, LastStep, HarnessStep;
    if m :| MaySend(s, m) && s' == SendStep(s, m) {
      SendKeepsBound(s, m, x, e);
    } else if m :| MayCancel(s, m) && s' == CancelStep(s, m) {
      CancelKeepsBound(s, m, x, e);
    } else if m :| MayRoute(s, m) && s' == RouteStep(s, m) {
      RouteKeepsBound(s, m, x, e);
    } else if m :| MayEnd(s, m) && s' == EndStep(s, m) {
      EndKeepsBound(s, m, x, e);
    } else if m :| MayLast(s, m) && s' == LastStep(s, m) {
      LastKeepsBound(s, m, x, e);
    } else {
      var m :| MayHarness(s, m) && s' == HarnessStep(s, m);
      HarnessKeepsBound(s, m, x, e);
    }
  }

  lemma SendKeepsBound(s: Session, m: SendMove, x: Xid, e: Entries)
    requires BoundTo(s, x, e) && MaySend(s, m)
    ensures BoundTo(SendStep(s, m), x, e)
  {
    hide BoundTo, MaySend, SendStep;
    SendLeaves(s, m);
    PutStays(s, SendStep(s, m), x, e);
  }

  lemma CancelKeepsBound(s: Session, m: CancelMove, x: Xid, e: Entries)
    requires BoundTo(s, x, e) && MayCancel(s, m)
    ensures BoundTo(CancelStep(s, m), x, e)
  {
    hide BoundTo, MayCancel, CancelStep;
    CancelLeaves(s, m);
    PutStays(s, CancelStep(s, m), x, e);
  }

  lemma RouteKeepsBound(s: Session, m: RouteMove, x: Xid, e: Entries)
    requires BoundTo(s, x, e) && MayRoute(s, m)
    ensures BoundTo(RouteStep(s, m), x, e)
  {
    hide BoundTo, MayRoute, RouteStep;
    RouteLeaves(s, m);
    PutStays(s, RouteStep(s, m), x, e);
  }

  lemma LastKeepsBound(s: Session, m: LastMove, x: Xid, e: Entries)
    requires BoundTo(s, x, e) && MayLast(s, m)
    ensures BoundTo(LastStep(s, m), x, e)
  {
    hide BoundTo, MayLast, LastStep;
    LastLeaves(s, m);
    PutStays(s, LastStep(s, m), x, e);
  }

  lemma HarnessKeepsBound(s: Session, m: HarnessMove, x: Xid, e: Entries)
    requires BoundTo(s, x, e) && MayHarness(s, m)
    ensures BoundTo(HarnessStep(s, m), x, e)
  {
    hide BoundTo, MayHarness, HarnessStep;
    HarnessLeaves(s, m);
    PutStays(s, HarnessStep(s, m), x, e);
  }

  lemma {:induction false} BoundForGood(ss: seq<Session>, n: nat, x: Xid, e: Entries)
    requires History(ss) && n < |ss| && BoundTo(ss[n], x, e)
    ensures BoundTo(Common.Last(ss), x, e)
    decreases |ss|
  {
    hide Next, BoundTo, Init;
    if n < |ss| - 1 {
      var front := ss[..|ss| - 1];
      assert forall k :: 0 <= k < |front| ==> front[k] == ss[k];
      BoundForGood(front, n, x, e);
      assert Next(ss[|ss| - 2], ss[|ss| - 2 + 1]);
      StepKeepsBound(Common.Last(front), Common.Last(ss), x, e);
    }
  }

  /** Entries that the journal gave are the entries recorded: what an exchange's binding took from the
      journal, from the cursor to the end, is what its record names, and holds all that its run appended. */
  lemma BindingsAreRecorded(ss: seq<Session>, n: nat, i: nat)
    requires History(ss) && n < |ss| && MayEnd(ss[n], AskJournal(None))
    requires var s := Common.Last(ss); i < |s.puts| && s.puts[i].rec.x == ss[n].route.x
    requires n < |ss| - 1 && ss[n + 1] == EndStep(ss[n], AskJournal(None))
    ensures var (s, e) := (Common.Last(ss), Block(ss[n].route.stage.cursor, |ss[n].journal|));
      && s.puts[i].rec.entries == e
      && forall k :: 0 <= k < |s.journal| && s.journal[k] == Some(s.puts[i].rec.x) ==> e.lo <= k < e.hi
  {
    hide Next, Init, Kept;
    assert Reachable(Common.Last(ss));
    var (x, e) := (ss[n].route.x, Block(ss[n].route.stage.cursor, |ss[n].journal|));
    BoundForGood(ss, n + 1, x, e);
    AlwaysKept(ss);
    OneRecord(Common.Last(ss), x, e, i);
    BlockIsItsRuns(Common.Last(ss), i);
  }

  lemma OneRecord(s: Session, x: Xid, e: Entries, i: nat)
    requires Kept(s) && BoundTo(s, x, e) && i < |s.puts| && s.puts[i].rec.x == x
    ensures s.puts[i].rec.entries == e
  {
    hide Folds, Staged, Fenced, Ended, Carried, Answered, Attended, Blocks;
  }

  // ---- Marks -----------------------------------------------------------------------------------

  /** The cancellation has been decided, and its exchange marked. */
  predicate Marked(pc: Cancel) {
    pc.Asking? || pc.Complaining? || pc.Freeing?
  }

  predicate Marks(cancels: map<Xid, Cancel>, xs: Objects) {
    forall x :: x in cancels && Marked(cancels[x]) ==> Ex(xs, x).cancelled
  }

  lemma PushMarks(cancels: map<Xid, Cancel>, xs: Objects, y: Xid, ev: X.Event)
    requires Marks(cancels, xs)
    ensures Marks(cancels, PushTo(xs, y, ev))
  {
    PushToIs(xs, y, ev);
    OthersSame(xs, y, X.Pushed(Ex(xs, y), ev));
    hide PushTo;
  }

  lemma SendMarks(s: Session, m: SendMove)
    requires Marks(s.cancels, s.xs) && MaySend(s, m)
    ensures Marks(SendStep(s, m).cancels, SendStep(s, m).xs)
  {
    hide PushTo;
    match m {
      case Open(y, schema) => OthersSame(s.xs, y, X.New("", y, schema));
      case PushFailure(y) => PushMarks(s.cancels, s.xs, y, X.ErrorEvent(s.sends[y].err));
      case PushEnd(y) => PushMarks(s.cancels, s.xs, y, X.ENDED);
      case _ =>
    }
  }

  lemma CancelMarks(s: Session, m: CancelMove)
    requires Marks(s.cancels, s.xs) && MayCancel(s, m)
    ensures Marks(CancelStep(s, m).cancels, CancelStep(s, m).xs)
  {
    hide PushTo;
    match m {
      case Mark(y) => OthersSame(s.xs, y, X.Marked(Ex(s.xs, y)));
      case PushRefusal(y) => PushMarks(s.cancels, s.xs, y, X.ErrorEvent(s.cancels[y].err));
      case _ =>
    }
  }

  lemma RouteMarks(s: Session, m: RouteMove)
    requires Marks(s.cancels, s.xs) && MayRoute(s, m)
    ensures Marks(RouteStep(s, m).cancels, RouteStep(s, m).xs)
  {
    hide PushTo, Marks;
    match m {
      case Deliver => PushMarks(s.cancels, s.xs, s.route.x, s.route.a.ev);
      case _ =>
    }
  }

  lemma EndMarks(s: Session, m: EndMove)
    requires Marks(s.cancels, s.xs) && MayEnd(s, m)
    ensures Marks(EndStep(s, m).cancels, EndStep(s, m).xs)
  {
    EndHolds(s, m);
    if m.PushUnanswered? || m.PushReport? {
      EndPushes(s, m);
      PushMarks(s.cancels, s.xs, s.route.x, X.ErrorEvent(if m.PushUnanswered? then UNANSWERED else s.route.stage.failure));
    }
    hide EndStep, MayEnd, Marks, PushTo;
  }

  lemma LastMarks(s: Session, m: LastMove)
    requires Marks(s.cancels, s.xs) && MayLast(s, m)
    ensures Marks(LastStep(s, m).cancels, LastStep(s, m).xs)
  {
    hide PushTo, Marks, RecordOf;
    match m {
      case PushLastReport => PushMarks(s.cancels, s.xs, s.route.x, X.ErrorEvent(s.route.stage.failure));
      case PushExit => PushMarks(s.cancels, s.xs, s.route.x, X.ErrorEvent(s.exitErr));
      case PushLastEnd => PushMarks(s.cancels, s.xs, s.route.x, X.ENDED);
      case _ =>
    }
  }

  lemma StepMarks(s: Session, s': Session)
    requires Marks(s.cancels, s.xs) && Next(s, s')
    ensures Marks(s'.cancels, s'.xs)
  {
    hide Marks, MaySend, MayCancel, MayRoute, MayEnd, MayLast, MayHarness;
    hide SendStep, CancelStep, RouteStep, EndStep, LastStep, HarnessStep;
    if m :| MaySend(s, m) && s' == SendStep(s, m) {
      SendMarks(s, m);
    } else if m :| MayCancel(s, m) && s' == CancelStep(s, m) {
      CancelMarks(s, m);
    } else if m :| MayRoute(s, m) && s' == RouteStep(s, m) {
      RouteMarks(s, m);
    } else if m :| MayEnd(s, m) && s' == EndStep(s, m) {
      EndMarks(s, m);
    } else if m :| MayLast(s, m) && s' == LastStep(s, m) {
      LastMarks(s, m);
    } else {
      var m :| MayHarness(s, m) && s' == HarnessStep(s, m);
      HarnessLeaves(s, m);
    }
  }

  lemma {:induction false} AlwaysMarks(ss: seq<Session>)
    requires History(ss)
    ensures Marks(Common.Last(ss).cancels, Common.Last(ss).xs)
  {
    hide Next;
    if |ss| > 1 {
      hide Marks;
      var front := ss[..|ss| - 1];
      assert forall n :: 0 <= n < |front| ==> front[n] == ss[n];
      AlwaysMarks(front);
      assert Next(ss[|ss| - 2], ss[|ss| - 2 + 1]);
      StepMarks(Common.Last(front), Common.Last(ss));
    }
  }

  /** By the time a cancellation asks the harness, its exchange is marked cancelled, and so owes no
      structured response: its end is not failed for want of one. */
  lemma CancelledOwesNoAnswer(s: Session, x: Xid)
    requires Reachable(s) && x in s.cancels && (s.cancels[x].Asking? || s.cancels[x].Complaining? || s.cancels[x].Freeing?)
    ensures Ex(s.xs, x).cancelled
    ensures MayEnd(s, CheckAnswer) && s.route.x == x ==> !EndStep(s, CheckAnswer).route.stage.Complain?
  {
    hide History;
    var ss :| ss != [] && History(ss) && Common.Last(ss) == s;
    AlwaysMarks(ss);
  }

  // ---- Errors --------------------------------------------------------------------------------

  /** The error the router is about to push to x. */
  function Due(route: Route, x: Xid, exitErr: string): Option<string> {
    match route
    case Ending(y, _, Report(failure)) => if y == x then Some(failure) else None
    case Last(y, Report(failure)) => if y == x then Some(failure) else None
    case Last(y, Fail) => if y == x then Some(exitErr) else None
    case _ => None
  }

  /** The error x's Wait returns, or will, if nothing else fails. */
  function Owed(ex: X.State, due: Option<string>): Option<string> {
    if ex.err.Some? then ex.err else if ex.final then None else due
  }

  function OwedOf(s: Session, x: Xid): Option<string> {
    Owed(Ex(s.xs, x), Due(s.route, x, s.exitErr))
  }

  /** A record without entries says why. A record's error is its exchange's, once it is stored, unless
      someone cancelled; and an exchange whose record has an error, or could not be stored, is in error. */
  predicate RecordErrs(p: Put, s: Session) {
    var (x, rec) := (p.rec.x, p.rec);
    && (s.journaled && rec.entries.Unbound? ==> rec.err.Some?)
    && (rec.err.None? ==> Running(s.sends, x))
    && (rec.err.Some? || !p.stored ==> OwedOf(s, x).Some?)
    && (p.stored && x !in s.cancels && Running(s.sends, x) ==> rec.err == OwedOf(s, x))
  }

  predicate StageErrs(s: Session, x: Xid, stage: Stage) {
    match stage
    case Bind(entries, err) => s.journaled && entries.Unbound? ==> err.Some?
    case Write(entries, err) => (s.journaled && entries.Unbound? ==> err.Some?) && (s.route.Last? ==> err == Some(s.exitErr))
    case Store(rec, err) =>
      var due := if s.route.Last? then Some(s.exitErr) else err;
      && rec.x == x && (s.journaled && rec.entries.Unbound? ==> rec.err.Some?)
      && (rec.err.Some? ==> InError(s.xs, x) || due.Some?) && (s.route.Last? ==> rec.err.Some?)
      && (x !in s.cancels && Running(s.sends, x) ==> rec.err == if InError(s.xs, x) then Ex(s.xs, x).err else due)
    case _ => true
  }

  predicate RouteErrs(s: Session) {
    && (s.route.Ending? ==> StageErrs(s, s.route.x, s.route.stage))
    && (s.route.Last? ==> StageErrs(s, s.route.x, s.route.stage) && (Ex(s.xs, s.route.x).final ==> InError(s.xs, s.route.x)))
  }

  ghost predicate Errs(s: Session) {
    RouteErrs(s) && forall i :: 0 <= i < |s.puts| ==> RecordErrs(s.puts[i], s)
  }

  /** Someone other than the router moves: records stay, and no exchange of one begins to run. */
  ghost predicate ErrsGrow(s: Session, s': Session) {
    && s'.journaled == s.journaled && s'.exitErr == s.exitErr && s'.route == s.route && s'.puts == s.puts
    && (forall x :: x in s.cancels ==> x in s'.cancels)
    && (forall x :: Running(s.sends, x) ==> Running(s'.sends, x))
    && (forall x :: Recorded(s.puts, x) && Running(s'.sends, x) ==> Running(s.sends, x))
    && (s.route.Last? && Running(s'.sends, s.route.x) ==> Running(s.sends, s.route.x))
  }

  /** What such a move does to exchange x: nothing, if it runs and nobody has cancelled it. */
  predicate ErrOf(s: Session, s': Session, x: Xid) {
    && (InError(s.xs, x) ==> InError(s'.xs, x))
    && (Ex(s'.xs, x).final ==> Ex(s.xs, x).final || InError(s'.xs, x))
    && (x !in s'.cancels && Running(s.sends, x) ==>
          Ex(s'.xs, x).err == Ex(s.xs, x).err && Ex(s'.xs, x).final == Ex(s.xs, x).final)
  }

  lemma ErrsKeep(s: Session, s': Session)
    requires Errs(s) && ErrsGrow(s, s') && forall x: Xid :: ErrOf(s, s', x)
    requires s.route.Ending? ==> Running(s.sends, s.route.x)
    ensures Errs(s')
  {
    hide Ex, Running, Due;
    forall i | 0 <= i < |s'.puts|
      ensures RecordErrs(s'.puts[i], s')
    {
      assert RecordErrs(s.puts[i], s) && ErrOf(s, s', s.puts[i].rec.x) && Recorded(s.puts, s.puts[i].rec.x);
    }
    if s.route.Ending? || s.route.Last? {
      assert ErrOf(s, s', s.route.x);
    }
  }

  lemma PushErrs(s: Session, s': Session, y: Xid, ev: X.Event)
    requires s'.xs == PushTo(s.xs, y, ev) && s'.cancels.Keys == s.cancels.Keys
    requires (ev.kind == X.Error && y in s.cancels) || ((ev.kind == X.Error || ev.kind == X.Ended) && !Running(s.sends, y))
    requires ev.kind == X.Ended ==> InError(s.xs, y) || Ex(s.xs, y).final
    ensures forall x: Xid :: ErrOf(s, s', x)
  {
    hide PushTo, Running;
    PushToIs(s.xs, y, ev);
    OthersSame(s.xs, y, X.Pushed(Ex(s.xs, y), ev));
  }

  lemma SendErrs(s: Session, m: SendMove)
    requires Kept(s) && Errs(s) && MaySend(s, m)
    ensures Errs(SendStep(s, m))
  {
    var s' := SendStep(s, m);
    SendGrows(s, m);
    EndingRuns(s);
    assert forall x: Xid :: ErrOf(s, s', x) by {
      SendErrOf(s, m);
    }
    hide Kept, Errs, ErrsGrow, ErrOf, SendStep;
    ErrsKeep(s, s');
  }

  lemma EndingRuns(s: Session)
    requires Kept(s)
    ensures s.route.Ending? ==> Running(s.sends, s.route.x) && s.open == Some(s.route.x) && !Ex(s.xs, s.route.x).final
  {
    hide Folds, Flow, Opened, Fenced, Recording, EndsRecorded, Carried, Answered, Attended, Blocks;
  }

  /** A prompt that is accepted now has no record yet. */
  lemma AcceptIsNew(s: Session, x: Xid)
    requires Kept(s) && MaySend(s, Accept(x))
    ensures !Recorded(s.puts, x) && !s.route.Last?
  {
    hide Folds, Flow, Fenced, Ended, Carried, Answered, Attended, Blocks, Recorded;
  }

  /** Only an accepted prompt's run begins. */
  lemma SendRuns(s: Session, m: SendMove, x: Xid)
    requires MaySend(s, m)
    ensures var s' := SendStep(s, m);
      (Running(s.sends, x) ==> Running(s'.sends, x)) && (Running(s'.sends, x) ==> Running(s.sends, x) || m == Accept(x))
  {
    hide PushTo;
    match m {
      case Open(y, schema) =>
      case TakeHead(y) =>
      case HeadFails(y, err) =>
      case SetCursor(y) =>
      case Accept(y) =>
      case Refuse(y, err) =>
      case Return(y) =>
      case TakeBack(y) =>
      case PushFailure(y) =>
      case PushEnd(y) =>
    }
  }

  lemma SendGrows(s: Session, m: SendMove)
    requires Kept(s) && MaySend(s, m)
    ensures ErrsGrow(s, SendStep(s, m))
  {
    if m.Accept? {
      AcceptIsNew(s, m.x);
    }
    SendLeaves(s, m);
    hide Kept, Recorded, Running, SendStep, MaySend;
    var s' := SendStep(s, m);
    forall x: Xid
      ensures (Running(s.sends, x) ==> Running(s'.sends, x)) && (Running(s'.sends, x) ==> Running(s.sends, x) || m == Accept(x))
    {
      SendRuns(s, m, x);
    }
  }

  lemma SendErrOf(s: Session, m: SendMove)
    requires Kept(s) && MaySend(s, m)
    ensures forall x: Xid :: ErrOf(s, SendStep(s, m), x)
  {
    hide Folds, Staged, Fenced, Recording, Ended, Carried, FinalsSettled, RouteAnswers, Attended, Blocks, PushTo;
    var s' := SendStep(s, m);
    match m {
      case Open(y, schema) => OthersSame(s.xs, y, X.New("", y, schema));
      case PushFailure(y) => PushErrs(s, s', y, X.ErrorEvent(s.sends[y].err));
      case PushEnd(y) => PushErrs(s, s', y, X.ENDED);
      case _ =>
    }
  }

  lemma CancelGrows(s: Session, m: CancelMove)
    requires MayCancel(s, m)
    ensures ErrsGrow(s, CancelStep(s, m))
  {
    hide PushTo;
    match m {
      case CallCancel(x) =>
      case TooLate(x) =>
      case Decide(x) =>
      case Mark(x) =>
      case Asked(x, out) =>
      case PushRefusal(x) =>
      case Free(x) =>
    }
  }

  lemma CancelErrOf(s: Session, m: CancelMove)
    requires MayCancel(s, m)
    ensures forall x: Xid :: ErrOf(s, CancelStep(s, m), x)
  {
    hide PushTo;
    var s' := CancelStep(s, m);
    match m {
      case Mark(y) => OthersSame(s.xs, y, X.Marked(Ex(s.xs, y)));
      case PushRefusal(y) => PushErrs(s, s', y, X.ErrorEvent(s.cancels[y].err));
      case _ =>
    }
  }

  lemma CancelErrs(s: Session, m: CancelMove)
    requires Kept(s) && Errs(s) && MayCancel(s, m)
    ensures Errs(CancelStep(s, m))
  {
    CancelGrows(s, m);
    EndingRuns(s);
    CancelErrOf(s, m);
    hide Kept, Errs, ErrsGrow, ErrOf, CancelStep, MayCancel;
    ErrsKeep(s, CancelStep(s, m));
  }

  /** What a move of the router's does to a recorded exchange: an error about to be pushed is pushed, or
      still to be, and there is no other. */
  predicate ReportOf(s: Session, s': Session, x: Xid) {
    OwedOf(s', x) == OwedOf(s, x)
  }

  lemma RouterErrs(s: Session, s': Session)
    requires Errs(s) && RouteErrs(s') && s.puts <= s'.puts && s'.journaled == s.journaled && s'.cancels == s.cancels && s'.sends == s.sends
    requires forall x: Xid :: Recorded(s.puts, x) ==> ReportOf(s, s', x)
    requires forall i :: |s.puts| <= i < |s'.puts| ==> RecordErrs(s'.puts[i], s')
    ensures Errs(s')
  {
    hide OwedOf, Running, RouteErrs;
    forall i | 0 <= i < |s'.puts|
      ensures RecordErrs(s'.puts[i], s')
    {
      if i < |s.puts| {
        assert s'.puts[i] == s.puts[i];
        assert RecordErrs(s.puts[i], s) && Recorded(s.puts, s.puts[i].rec.x);
      }
    }
  }

  lemma RouteMoveErrs(s: Session, m: RouteMove)
    requires Kept(s) && Errs(s) && MayRoute(s, m)
    ensures Errs(RouteStep(s, m))
  {
    hide Folds, Flow, Opened, Fenced, PutsOnce, EndsRecorded, Carried, Answered, Attended, Blocks, PushTo, Recorded;
    var s' := RouteStep(s, m);
    forall x: Xid | Recorded(s.puts, x)
      ensures ReportOf(s, s', x)
    {
      if m.Deliver? {
        var (y, ev) := (s.route.x, s.route.a.ev);
        PushToIs(s.xs, y, ev);
        OthersSame(s.xs, y, X.Pushed(Ex(s.xs, y), ev));
      }
    }
    RouterErrs(s, s');
  }

  /** What pushing an error, or an end, does to the exchanges. */
  lemma PushDoes(xs: Objects, y: Xid, ev: X.Event)
    requires ev.kind == X.Error || ev.kind == X.Ended
    ensures var xs' := PushTo(xs, y, ev);
      && (forall x :: x != y ==> Ex(xs', x) == Ex(xs, x))
      && Ex(xs', y).err == (if ev.kind == X.Error && Ex(xs, y).err.None? && !Ex(xs, y).final then Some(ev.err) else Ex(xs, y).err)
      && (ev.kind == X.Error ==> Ex(xs', y).final == Ex(xs, y).final)
  {
    PushToIs(xs, y, ev);
    OthersSame(xs, y, X.Pushed(Ex(xs, y), ev));
    hide PushTo;
  }

  lemma EndReports(s: Session, m: EndMove)
    requires Recording(s) && MayEnd(s, m)
    ensures forall x: Xid :: Recorded(s.puts, x) ==> ReportOf(s, EndStep(s, m), x)
  {
    hide PushTo, Recorded, Ex, PutsOnce, X.Unanswered, CursorAfter, Joined;
    if m.PushUnanswered? {
      PushDoes(s.xs, s.route.x, X.ErrorEvent(UNANSWERED));
    } else if m.PushReport? {
      PushDoes(s.xs, s.route.x, X.ErrorEvent(s.route.stage.failure));
    }
  }

  lemma EndRouteErrs(s: Session, m: EndMove)
    requires RouteErrs(s) && MayEnd(s, m)
    ensures RouteErrs(EndStep(s, m))
    ensures var s' := EndStep(s, m);
      s.puts <= s'.puts && s'.journaled == s.journaled && s'.cancels == s.cancels && s'.sends == s.sends
  {
    hide PushTo, X.Unanswered, CursorAfter, Joined, Without;
  }

  lemma EndPutErrs(s: Session, m: EndMove)
    requires RouteErrs(s) && MayEnd(s, m) && Running(s.sends, s.route.x) && !Ex(s.xs, s.route.x).final
    ensures var s' := EndStep(s, m); forall i :: |s.puts| <= i < |s'.puts| ==> RecordErrs(s'.puts[i], s')
  {
    hide PushTo, Ex, Running, X.Unanswered, CursorAfter, RecordOf, Without;
  }

  lemma EndMoveErrs(s: Session, m: EndMove)
    requires Kept(s) && Errs(s) && MayEnd(s, m)
    ensures Errs(EndStep(s, m))
  {
    EndingRuns(s);
    EndReports(s, m);
    EndRouteErrs(s, m);
    EndPutErrs(s, m);
    hide Kept, RouteErrs, ReportOf, RecordErrs, EndStep, MayEnd;
    RouterErrs(s, EndStep(s, m));
  }

  lemma LastReports(s: Session, m: LastMove)
    requires Recording(s) && MayLast(s, m) && RouteErrs(s)
    ensures forall x: Xid :: Recorded(s.puts, x) ==> ReportOf(s, LastStep(s, m), x)
  {
    hide PushTo, Recorded, Ex, PutsOnce;
    if m.PushLastReport? {
      PushDoes(s.xs, s.route.x, X.ErrorEvent(s.route.stage.failure));
    } else if m.PushExit? {
      PushDoes(s.xs, s.route.x, X.ErrorEvent(s.exitErr));
    } else if m.PushLastEnd? {
      PushDoes(s.xs, s.route.x, X.ENDED);
    }
  }

  lemma LastRouteErrs(s: Session, m: LastMove)
    requires RouteErrs(s) && MayLast(s, m)
    ensures RouteErrs(LastStep(s, m))
    ensures var s' := LastStep(s, m);
      s.puts <= s'.puts && s'.journaled == s.journaled && s'.cancels == s.cancels && s'.sends == s.sends
  {
    hide PushTo, Ex;
    if m.PushLastReport? {
      PushDoes(s.xs, s.route.x, X.ErrorEvent(s.route.stage.failure));
    } else if m.PushExit? {
      PushDoes(s.xs, s.route.x, X.ErrorEvent(s.exitErr));
    }
  }

  lemma LastPutErrs(s: Session, m: LastMove)
    requires RouteErrs(s) && MayLast(s, m)
    ensures var s' := LastStep(s, m); forall i :: |s.puts| <= i < |s'.puts| ==> RecordErrs(s'.puts[i], s')
  {
    hide PushTo, Ex;
  }

  lemma LastMoveErrs(s: Session, m: LastMove)
    requires Kept(s) && Errs(s) && MayLast(s, m)
    ensures Errs(LastStep(s, m))
  {
    LastReports(s, m);
    LastRouteErrs(s, m);
    LastPutErrs(s, m);
    hide Kept, RouteErrs, ReportOf, RecordErrs, LastStep, MayLast;
    RouterErrs(s, LastStep(s, m));
  }

  lemma HarnessErrs(s: Session, m: HarnessMove)
    requires Errs(s) && MayHarness(s, m)
    ensures Errs(HarnessStep(s, m))
  {
    HarnessLeaves(s, m);
    var s' := HarnessStep(s, m);
    hide HarnessStep, MayHarness, InError, Running, OwedOf;
    forall i | 0 <= i < |s'.puts|
      ensures RecordErrs(s'.puts[i], s')
    {
      assert RecordErrs(s.puts[i], s);
    }
  }

  lemma StepErrs(s: Session, s': Session)
    requires Kept(s) && Errs(s) && Next(s, s')
    ensures Errs(s')
  {
    hide Kept, Errs, MaySend, MayCancel, MayRoute, MayEnd, MayLast, MayHarness;
    hide SendStep, CancelStep, RouteStep, EndStep, LastStep, HarnessStep;
    if m :| MaySend(s, m) && s' == SendStep(s, m) {
      SendErrs(s, m);
    } else if m :| MayCancel(s, m) && s' == CancelStep(s, m) {
      CancelErrs(s, m);
    } else if m :| MayRoute(s, m) && s' == RouteStep(s, m) {
      RouteMoveErrs(s, m);
    } else if m :| MayEnd(s, m) && s' == EndStep(s, m) {
      EndMoveErrs(s, m);
    } else if m :| MayLast(s, m) && s' == LastStep(s, m) {
      LastMoveErrs(s, m);
    } else {
      var m :| MayHarness(s, m) && s' == HarnessStep(s, m);
      HarnessErrs(s, m);
    }
  }

  lemma {:induction false} AlwaysErrs(ss: seq<Session>)
    requires History(ss)
    ensures Errs(Common.Last(ss))
  {
    hide Kept, Next;
    if |ss| > 1 {
      hide Errs;
      var front := ss[..|ss| - 1];
      assert forall n :: 0 <= n < |front| ==> front[n] == ss[n];
      AlwaysErrs(front);
      AlwaysKept(front);
      assert Next(ss[|ss| - 2], ss[|ss| - 2 + 1]);
      StepErrs(Common.Last(front), Common.Last(ss));
    }
  }

  /** A record is without entries only with an error that says why, wherever there is a journal. An exchange
      that has ended is in error if its record has an error or could not be stored; and if it was stored, its
      prompt was accepted, and nobody cancelled it, then the record's error is just what its Wait returns. */
  lemma RecordedErrorsAreTrue(ss: seq<Session>, i: nat)
    requires History(ss) && i < |Common.Last(ss).puts|
    ensures var (s, p) := (Common.Last(ss), Common.Last(ss).puts[i]);
      && (s.journaled && p.rec.entries.Unbound? ==> p.rec.err.Some?)
      && (Ex(s.xs, p.rec.x).final && (p.rec.err.Some? || !p.stored) ==> Ex(s.xs, p.rec.x).err.Some?)
      && (Ex(s.xs, p.rec.x).final && p.stored && p.rec.x !in s.cancels && Running(s.sends, p.rec.x) ==>
            Ex(s.xs, p.rec.x).err == p.rec.err)
  {
    hide Next;
    AlwaysErrs(ss);
    assert RecordErrs(Common.Last(ss).puts[i], Common.Last(ss));
  }
}
