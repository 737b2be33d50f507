/** What every move of a session keeps of its records: each put once, true, and before the end it records. */
module SessionRecords {
  import opened Common
  import X = Exchanges
  import opened Sessions
  import opened SessionInvariants

  type Objects = map<Xid, X.State>

  // ---- Each exchange is recorded once ----------------------------------------------------------

  predicate Recorded(puts: seq<Put>, x: Xid) {
    exists i :: 0 <= i < |puts| && puts[i].rec.x == x
  }

  predicate PutsOnce(puts: seq<Put>) {
    forall i, j :: 0 <= i < j < |puts| ==> puts[i].rec.x != puts[j].rec.x
  }

  predicate AfterPut(stage: Stage) {
    stage.Report? || stage.Clear? || stage.Fail? || stage.End?
  }

  predicate StageRecords(x: Xid, stage: Stage, puts: seq<Put>, stored: bool) {
    && (stage.Store? ==> stage.rec.x == x)
    && if AfterPut(stage) then stored ==> Recorded(puts, x) else !Recorded(puts, x)
  }

  predicate RouteRecords(route: Route, puts: seq<Put>, stored: bool) {
    match route
    case Ending(x, _, stage) => StageRecords(x, stage, puts, stored)
    case Last(x, stage) => StageRecords(x, stage, puts, stored)
    case Delivering(x, a) => if a.ev.kind == X.Ended then stored ==> Recorded(puts, x) else !Recorded(puts, x)
    case _ => true
  }

  /** A record is put once, and while its exchange is open only by the router that holds its end. */
  predicate Recording(s: Session) {
    && PutsOnce(s.puts)
    && (s.open.Some? && !s.route.Ending? ==> !Recorded(s.puts, s.open.value))
    && RouteRecords(s.route, s.puts, s.stored)
  }

  lemma PutAppends(puts: seq<Put>, p: Put)
    requires PutsOnce(puts) && !Recorded(puts, p.rec.x)
    ensures PutsOnce(puts + [p]) && Recorded(puts + [p], p.rec.x)
  {
    assert (puts + [p])[|puts|] == p;
  }

  lemma RecordingSend(s: Session, m: SendMove)
    requires Recording(s) && MaySend(s, m)
    ensures Recording(SendStep(s, m))
  {
    hide PushTo, PutsOnce, RouteRecords;
  }

  lemma RecordingRoute(s: Session, m: RouteMove)
    requires Recording(s) && MayRoute(s, m)
    ensures Recording(RouteStep(s, m))
  {
    hide PushTo, PutsOnce, Recorded;
  }

  lemma RecordingPut(s: Session, out: Option<string>)
    requires Recording(s) && Staged(s) && MayEnd(s, PutRecord(out))
    ensures Recording(EndStep(s, PutRecord(out)))
  {
    PutAppends(s.puts, Put(s.route.stage.rec, out.None?));
    hide PushTo, PutsOnce, Recorded, Joined, CursorAfter, Opened, Flow, Exits;
  }

  lemma RecordingEnd(s: Session, m: EndMove)
    requires Recording(s) && Staged(s) && MayEnd(s, m)
    ensures Recording(EndStep(s, m))
  {
    hide PushTo, PutsOnce, Recorded, Joined, CursorAfter, Opened, Flow, Exits;
    match m {
      case PutRecord(out) =>
        RecordingPut(s, out);
        hide Recording, MayEnd, EndStep, Staged;
      case _ =>
    }
  }

  lemma RecordingLast(s: Session, m: LastMove)
    requires Recording(s) && Staged(s) && MayLast(s, m)
    ensures Recording(LastStep(s, m))
  {
    match m {
      case PutLast(out) =>
        if s.stored {
          PutAppends(s.puts, Put(s.route.stage.rec, out.None?));
        }
      case _ =>
    }
    hide PushTo, PutsOnce, Recorded, Opened, Flow, Handed;
  }

  // ---- An exchange that has ended ----------------------------------------------------------------

  predicate GivenUp(pc: Send) {
    pc.Failing? || pc.FailEnding?
  }

  predicate Closed(open: Option<Xid>, sends: Sends, xs: Objects) {
    && (forall x :: x in xs && xs[x].final ==> open != Some(x))
    && (forall x :: x in sends && GivenUp(sends[x]) ==> open != Some(x))
  }

  predicate EndsRecorded(xs: Objects, sends: Sends, puts: seq<Put>, stored: bool) {
    forall x :: x in xs && xs[x].final && Running(sends, x) && stored ==> Recorded(puts, x)
  }

  /** An ended exchange is not open, and one whose prompt was taken has been recorded. */
  predicate Ended(s: Session) {
    Closed(s.open, s.sends, s.xs) && EndsRecorded(s.xs, s.sends, s.puts, s.stored)
  }

  /** Only the end's own push ends an exchange. */
  lemma PushFinal(xs: Objects, x: Xid, ev: X.Event)
    ensures var xs' := PushTo(xs, x, ev);
      && (forall y :: y in xs' && xs'[y].final ==> (y in xs && xs[y].final) || (y == x && ev.kind == X.Ended))
  {
  }

  lemma PushedQuietly(s: Session, x: Xid, ev: X.Event)
    requires Ended(s) && ev.kind != X.Ended
    ensures Closed(s.open, s.sends, PushTo(s.xs, x, ev)) && EndsRecorded(PushTo(s.xs, x, ev), s.sends, s.puts, s.stored)
  {
    PushFinal(s.xs, x, ev);
    hide PushTo, Recorded;
  }

  lemma PushedEnd(s: Session, x: Xid, ev: X.Event)
    requires Ended(s) && s.open != Some(x) && (Running(s.sends, x) && s.stored ==> Recorded(s.puts, x))
    ensures Closed(s.open, s.sends, PushTo(s.xs, x, ev)) && EndsRecorded(PushTo(s.xs, x, ev), s.sends, s.puts, s.stored)
  {
    PushFinal(s.xs, x, ev);
    hide PushTo, Recorded;
  }

  /** A control point that runs nothing new, and gives up only what is not open. */
  lemma PcEnds(s: Session, xs: Objects, x: Xid, pc: Send)
    requires Closed(s.open, s.sends, xs) && EndsRecorded(xs, s.sends, s.puts, s.stored)
    requires GivenUp(pc) ==> s.open != Some(x)
    requires pc.Accepted? || pc.Sent? ==> Running(s.sends, x)
    ensures Closed(s.open, s.sends[x := pc], xs) && EndsRecorded(xs, s.sends[x := pc], s.puts, s.stored)
  {
    hide Recorded;
  }

  lemma EndedOpen(s: Session, x: Xid, schema: bool)
    requires Ended(s) && MaySend(s, Open(x, schema))
    ensures Ended(SendStep(s, Open(x, schema)))
  {
    hide Recorded;
  }

  lemma EndedAccept(s: Session, x: Xid)
    requires Ended(s) && Staged(s) && MaySend(s, Accept(x))
    ensures Ended(SendStep(s, Accept(x)))
  {
    hide Recorded, Flow, Handed;
    assert s.open == Some(x);
  }

  lemma EndedTakeBack(s: Session, x: Xid)
    requires Ended(s) && MaySend(s, TakeBack(x))
    ensures Ended(SendStep(s, TakeBack(x)))
  {
    hide Recorded;
  }

  lemma EndedSend(s: Session, m: SendMove)
    requires Ended(s) && Staged(s) && MaySend(s, m)
    ensures Ended(SendStep(s, m))
  {
    hide PushTo, Staged;
    match m {
      case Open(x, schema) => EndedOpen(s, x, schema);
      case Accept(x) => EndedAccept(s, x);
      case TakeBack(x) => EndedTakeBack(s, x);
      case PushFailure(x) =>
        PushedQuietly(s, x, X.ErrorEvent(s.sends[x].err));
        PcEnds(s, PushTo(s.xs, x, X.ErrorEvent(s.sends[x].err)), x, FailEnding);
      case PushEnd(x) =>
        PushedEnd(s, x, X.ENDED);
        PcEnds(s, PushTo(s.xs, x, X.ENDED), x, Failed);
      case _ => PcEnds(s, s.xs, m.x, SendStep(s, m).sends[m.x]);
    }
  }

  lemma EndedCancel(s: Session, m: CancelMove)
    requires Ended(s) && MayCancel(s, m)
    ensures Ended(CancelStep(s, m))
  {
    hide PushTo, Recorded;
    match m {
      case PushRefusal(x) => PushedQuietly(s, x, X.ErrorEvent(s.cancels[x].err));
      case Mark(x) =>
      case _ =>
    }
  }

  lemma EndedRoute(s: Session, m: RouteMove)
    requires Ended(s) && Staged(s) && Recording(s) && MayRoute(s, m)
    ensures Ended(RouteStep(s, m))
  {
    hide PushTo, Recorded;
    match m {
      case Deliver =>
        if s.route.a.ev.kind == X.Ended {
          PushedEnd(s, s.route.x, s.route.a.ev);
        } else {
          PushedQuietly(s, s.route.x, s.route.a.ev);
        }
      case _ => hide Opened, Flow, Handed;
    }
  }

  lemma MorePuts(xs: Objects, sends: Sends, puts: seq<Put>, stored: bool, p: Put)
    requires EndsRecorded(xs, sends, puts, stored)
    ensures EndsRecorded(xs, sends, puts + [p], stored)
  {
    forall x | Recorded(puts, x)
      ensures Recorded(puts + [p], x)
    {
      var i :| 0 <= i < |puts| && puts[i].rec.x == x;
      assert (puts + [p])[i].rec.x == x;
    }
  }

  lemma EndedEnd(s: Session, m: EndMove)
    requires Ended(s) && MayEnd(s, m)
    ensures Ended(EndStep(s, m))
  {
    hide PushTo, Recorded, EndsRecorded, Joined, CursorAfter;
    match m {
      case PushUnanswered => PushedQuietly(s, s.route.x, X.ErrorEvent(UNANSWERED));
      case PushReport => PushedQuietly(s, s.route.x, X.ErrorEvent(s.route.stage.failure));
      case PutRecord(out) => MorePuts(s.xs, s.sends, s.puts, s.stored, Put(s.route.stage.rec, out.None?));
      case _ =>
    }
  }

  lemma EndedLast(s: Session, m: LastMove)
    requires Ended(s) && Staged(s) && Recording(s) && MayLast(s, m)
    ensures Ended(LastStep(s, m))
  {
    hide PushTo, Recorded, EndsRecorded, Opened, Flow, Handed;
    match m {
      case PushLastReport => PushedQuietly(s, s.route.x, X.ErrorEvent(s.route.stage.failure));
      case PushExit => PushedQuietly(s, s.route.x, X.ErrorEvent(s.exitErr));
      case PushLastEnd => PushedEnd(s, s.route.x, X.ENDED);
      case PutLast(out) => MorePuts(s.xs, s.sends, s.puts, s.stored, Put(s.route.stage.rec, out.None?));
      case _ =>
    }
  }

  // ---- What a record carries ---------------------------------------------------------------------

  /** Every record carries the result its exchange has. */
  predicate Carries(puts: seq<Put>, xs: Objects) {
    forall i :: 0 <= i < |puts| ==> puts[i].rec.result == Ex(xs, puts[i].rec.x).result
  }

  predicate StageCarries(x: Xid, stage: Stage, xs: Objects) {
    stage.Store? ==> stage.rec.x == x && stage.rec.result == Ex(xs, x).result
  }

  predicate Carried(s: Session) {
    && Carries(s.puts, s.xs)
    && (s.route.Ending? || s.route.Last? ==> StageCarries(s.route.x, s.route.stage, s.xs))
  }

  /** The result changes only with a message or a structured response. */
  lemma QuietResult(ex: X.State, ev: X.Event)
    requires ev.kind == X.Error || ev.kind == X.Ended
    ensures X.Pushed(ex, ev).result == ex.result
  {
  }

  lemma CarriedPush(s: Session, x: Xid, ev: X.Event)
    requires Carried(s) && (ev.kind == X.Error || ev.kind == X.Ended)
    ensures Carries(s.puts, PushTo(s.xs, x, ev))
    ensures s.route.Ending? || s.route.Last? ==> StageCarries(s.route.x, s.route.stage, PushTo(s.xs, x, ev))
  {
    hide X.Pushed;
    QuietResult(Ex(s.xs, x), ev);
  }

  lemma CarriedSend(s: Session, m: SendMove)
    requires Carried(s) && MaySend(s, m)
    ensures Carried(SendStep(s, m))
  {
    match m {
      case PushFailure(x) => CarriedPush(s, x, X.ErrorEvent(s.sends[x].err));
      case PushEnd(x) => CarriedPush(s, x, X.ENDED);
      case _ =>
    }
    hide PushTo, X.Pushed;
  }

  lemma CarriedCancel(s: Session, m: CancelMove)
    requires Carried(s) && MayCancel(s, m)
    ensures Carried(CancelStep(s, m))
  {
    match m {
      case PushRefusal(x) => CarriedPush(s, x, X.ErrorEvent(s.cancels[x].err));
      case _ =>
    }
    hide PushTo;
  }

  /** An event of the run changes the result of an exchange that has no record yet. */
  lemma CarriedUnrecorded(puts: seq<Put>, xs: Objects, x: Xid, ev: X.Event)
    requires Carries(puts, xs) && !Recorded(puts, x)
    ensures Carries(puts, PushTo(xs, x, ev))
  {
    hide X.Pushed;
  }

  lemma CarriedRoute(s: Session, m: RouteMove)
    requires Carried(s) && Recording(s) && MayRoute(s, m)
    ensures Carried(RouteStep(s, m))
  {
    if m.Deliver? {
      if s.route.a.ev.kind == X.Ended {
        CarriedPush(s, s.route.x, s.route.a.ev);
      } else {
        CarriedUnrecorded(s.puts, s.xs, s.route.x, s.route.a.ev);
      }
    }
    hide PushTo, PutsOnce, Recorded, Carries;
  }

  lemma CarriedEnd(s: Session, m: EndMove)
    requires Carried(s) && MayEnd(s, m)
    ensures Carried(EndStep(s, m))
  {
    match m {
      case PushUnanswered => CarriedPush(s, s.route.x, X.ErrorEvent(UNANSWERED));
      case PushReport => CarriedPush(s, s.route.x, X.ErrorEvent(s.route.stage.failure));
      case _ =>
    }
    hide PushTo, Joined, CursorAfter;
  }

  lemma CarriedLast(s: Session, m: LastMove)
    requires Carried(s) && MayLast(s, m)
    ensures Carried(LastStep(s, m))
  {
    match m {
      case PushLastReport => CarriedPush(s, s.route.x, X.ErrorEvent(s.route.stage.failure));
      case PushExit => CarriedPush(s, s.route.x, X.ErrorEvent(s.exitErr));
      case PushLastEnd => CarriedPush(s, s.route.x, X.ENDED);
      case _ =>
    }
    hide PushTo;
  }

  // ---- A schema's answer -------------------------------------------------------------------------

  predicate Settled(xs: Objects, x: Xid) {
    !X.Unanswered(Ex(xs, x))
  }

  predicate InError(xs: Objects, x: Xid) {
    Ex(xs, x).err.Some?
  }

  predicate FinalsSettled(xs: Objects) {
    forall x :: x in xs && xs[x].final ==> Settled(xs, x)
  }

  predicate FailuresInError(sends: Sends, xs: Objects) {
    forall x :: x in sends && sends[x].FailEnding? ==> InError(xs, x) || Ex(xs, x).final
  }

  predicate RouteAnswers(route: Route, xs: Objects) {
    match route
    case Ending(x, _, stage) => stage.Check? || stage.Complain? || Settled(xs, x)
    case Delivering(x, a) => a.ev.kind == X.Ended ==> Settled(xs, x)
    case Last(x, stage) => stage.End? ==> InError(xs, x) || Ex(xs, x).final
    case _ => true
  }

  predicate Answered(s: Session) {
    FinalsSettled(s.xs) && FailuresInError(s.sends, s.xs) && RouteAnswers(s.route, s.xs)
  }

  /** What has ended stays ended, and what is in error stays in error. */
  ghost predicate StillEnded(xs: Objects, xs': Objects) {
    && (forall y :: InError(xs, y) ==> InError(xs', y))
    && (forall y :: Ex(xs, y).final ==> Ex(xs', y).final)
  }

  ghost predicate StillSettled(xs: Objects, xs': Objects) {
    forall y :: Settled(xs, y) ==> Settled(xs', y)
  }

  /** Changing x's object changes no other's. */
  lemma OthersSame(xs: Objects, x: Xid, ex: X.State)
    ensures forall y :: y != x ==> Ex(xs[x := ex], y) == Ex(xs, y)
    ensures Ex(xs[x := ex], x) == ex
  {
  }

  lemma EventSettles(xs: Objects, x: Xid, ev: X.Event)
    requires FinalsSettled(xs) && (ev.kind == X.Ended ==> Settled(xs, x) || InError(xs, x))
    ensures FinalsSettled(PushTo(xs, x, ev)) && StillEnded(xs, PushTo(xs, x, ev))
  {
    OthersSame(xs, x, X.Pushed(Ex(xs, x), ev));
  }

  lemma ErrorSettles(xs: Objects, x: Xid, err: string)
    requires FinalsSettled(xs)
    ensures var xs' := PushTo(xs, x, X.ErrorEvent(err));
      && FinalsSettled(xs') && StillEnded(xs, xs') && StillSettled(xs, xs')
      && (InError(xs', x) || Ex(xs', x).final) && Settled(xs', x)
  {
    OthersSame(xs, x, X.Pushed(Ex(xs, x), X.ErrorEvent(err)));
  }

  lemma EndSettles(xs: Objects, x: Xid)
    requires FinalsSettled(xs) && (Settled(xs, x) || InError(xs, x) || Ex(xs, x).final)
    ensures var xs' := PushTo(xs, x, X.ENDED); FinalsSettled(xs') && StillEnded(xs, xs') && StillSettled(xs, xs')
  {
    OthersSame(xs, x, X.Pushed(Ex(xs, x), X.ENDED));
  }

  lemma MarkSettles(xs: Objects, x: Xid)
    requires FinalsSettled(xs)
    ensures var xs' := xs[x := X.Marked(Ex(xs, x))];
      FinalsSettled(xs') && StillEnded(xs, xs') && StillSettled(xs, xs')
  {
    OthersSame(xs, x, X.Marked(Ex(xs, x)));
  }

  lemma FailuresKeep(sends: Sends, xs: Objects, xs': Objects)
    requires FailuresInError(sends, xs) && StillEnded(xs, xs')
    ensures FailuresInError(sends, xs')
  {
    hide InError;
  }

  lemma AnswersKeep(route: Route, xs: Objects, xs': Objects)
    requires RouteAnswers(route, xs) && StillEnded(xs, xs') && StillSettled(xs, xs')
    ensures RouteAnswers(route, xs')
  {
    hide InError, Settled;
  }

  lemma AnsweredOpen(s: Session, x: Xid, schema: bool)
    requires Answered(s) && Staged(s) && MaySend(s, Open(x, schema))
    ensures Answered(SendStep(s, Open(x, schema)))
  {
    hide Flow, Opened;
  }

  lemma AnsweredSend(s: Session, m: SendMove)
    requires Answered(s) && Staged(s) && MaySend(s, m)
    ensures Answered(SendStep(s, m))
  {
    hide PushTo, Settled, InError, Ex, FinalsSettled, RouteAnswers, StillEnded, StillSettled, Staged;
    match m {
      case PushFailure(x) =>
        var xs' := PushTo(s.xs, x, X.ErrorEvent(s.sends[x].err));
        ErrorSettles(s.xs, x, s.sends[x].err);
        FailuresKeep(s.sends, s.xs, xs');
        AnswersKeep(s.route, s.xs, xs');
      case PushEnd(x) =>
        var xs' := PushTo(s.xs, x, X.ENDED);
        EndSettles(s.xs, x);
        FailuresKeep(s.sends, s.xs, xs');
        AnswersKeep(s.route, s.xs, xs');
      case Open(x, schema) => AnsweredOpen(s, x, schema);
      case _ =>
    }
  }

  lemma AnsweredCancel(s: Session, m: CancelMove)
    requires Answered(s) && MayCancel(s, m)
    ensures Answered(CancelStep(s, m))
  {
    hide PushTo, Settled, InError, Ex, FinalsSettled, FailuresInError, RouteAnswers, StillEnded, StillSettled;
    match m {
      case PushRefusal(x) =>
        var xs' := PushTo(s.xs, x, X.ErrorEvent(s.cancels[x].err));
        ErrorSettles(s.xs, x, s.cancels[x].err);
        FailuresKeep(s.sends, s.xs, xs');
        AnswersKeep(s.route, s.xs, xs');
      case Mark(x) =>
        MarkSettles(s.xs, x);
        FailuresKeep(s.sends, s.xs, s.xs[x := X.Marked(Ex(s.xs, x))]);
        AnswersKeep(s.route, s.xs, s.xs[x := X.Marked(Ex(s.xs, x))]);
      case _ =>
    }
  }

  lemma AnsweredRoute(s: Session, m: RouteMove)
    requires Answered(s) && MayRoute(s, m)
    ensures Answered(RouteStep(s, m))
  {
    hide PushTo, Settled, InError, Ex, FinalsSettled, FailuresInError, StillEnded, StillSettled;
    match m {
      case Deliver =>
        EventSettles(s.xs, s.route.x, s.route.a.ev);
        FailuresKeep(s.sends, s.xs, PushTo(s.xs, s.route.x, s.route.a.ev));
      case _ =>
    }
  }

  lemma AnsweredEnd(s: Session, m: EndMove)
    requires Answered(s) && MayEnd(s, m)
    ensures Answered(EndStep(s, m))
  {
    hide PushTo, InError, Ex, FinalsSettled, FailuresInError, StillEnded, StillSettled, Joined, CursorAfter, AfterStore;
    match m {
      case PushUnanswered =>
        ErrorSettles(s.xs, s.route.x, UNANSWERED);
        FailuresKeep(s.sends, s.xs, PushTo(s.xs, s.route.x, X.ErrorEvent(UNANSWERED)));
      case PushReport =>
        ErrorSettles(s.xs, s.route.x, s.route.stage.failure);
        FailuresKeep(s.sends, s.xs, PushTo(s.xs, s.route.x, X.ErrorEvent(s.route.stage.failure)));
      case _ =>
    }
  }

  lemma AnsweredLast(s: Session, m: LastMove)
    requires Answered(s) && MayLast(s, m)
    ensures Answered(LastStep(s, m))
  {
    hide PushTo, InError, Ex, FinalsSettled, FailuresInError, StillEnded, StillSettled;
    match m {
      case PushLastReport =>
        ErrorSettles(s.xs, s.route.x, s.route.stage.failure);
        FailuresKeep(s.sends, s.xs, PushTo(s.xs, s.route.x, X.ErrorEvent(s.route.stage.failure)));
      case PushExit =>
        ErrorSettles(s.xs, s.route.x, s.exitErr);
        FailuresKeep(s.sends, s.xs, PushTo(s.xs, s.route.x, X.ErrorEvent(s.exitErr)));
      case PushLastEnd =>
        EndSettles(s.xs, s.route.x);
        FailuresKeep(s.sends, s.xs, PushTo(s.xs, s.route.x, X.ENDED));
      case _ =>
    }
  }

  // ---- Nobody is left waiting --------------------------------------------------------------------

  predicate Attends(x: Xid, open: Option<Xid>, sends: Sends, route: Route) {
    || open == Some(x)
    || (x in sends && (Preparing(sends[x]) || GivenUp(sends[x])))
    || (route.Delivering? && route.x == x && route.a.ev.kind == X.Ended)
    || (route.Last? && route.x == x)
  }

  /** An exchange that has not ended is open, or someone is about to end it. */
  predicate AllAttended(xs: Objects, open: Option<Xid>, sends: Sends, route: Route) {
    forall x :: x in xs && !xs[x].final ==> Attends(x, open, sends, route)
  }

  predicate Known(s: Session) {
    && s.sends.Keys == s.xs.Keys
    && (s.open.Some? ==> s.open.value in s.sends)
    && (s.route.Ending? || s.route.Delivering? || s.route.Last? ==> s.route.x in s.sends)
  }

  predicate Attended(s: Session) {
    Known(s) && AllAttended(s.xs, s.open, s.sends, s.route)
  }

  lemma KnownSend(s: Session, m: SendMove)
    requires Known(s) && MaySend(s, m)
    ensures Known(SendStep(s, m))
  {
    hide X.Pushed;
  }

  lemma KnownCancel(s: Session, m: CancelMove)
    requires Known(s) && Fenced(s) && MayCancel(s, m)
    ensures Known(CancelStep(s, m))
  {
    hide X.Pushed, Alone;
  }

  lemma KnownRoute(s: Session, m: RouteMove)
    requires Known(s) && MayRoute(s, m)
    ensures Known(RouteStep(s, m))
  {
    hide X.Pushed;
  }

  lemma KnownEnd(s: Session, m: EndMove)
    requires Known(s) && MayEnd(s, m)
    ensures Known(EndStep(s, m))
  {
    hide X.Pushed, Joined, CursorAfter, AfterStore, RecordOf;
  }

  lemma KnownLast(s: Session, m: LastMove)
    requires Known(s) && MayLast(s, m)
    ensures Known(LastStep(s, m))
  {
    hide X.Pushed, AfterStore, RecordOf;
  }

  /** A push adds nothing unended, and an end takes its exchange from those to be attended. */
  lemma PushAttends(xs: Objects, x: Xid, ev: X.Event)
    requires x in xs
    ensures forall y :: y in PushTo(xs, x, ev) && !PushTo(xs, x, ev)[y].final ==>
      y in xs && !xs[y].final && (ev.kind == X.Ended ==> y != x)
  {
  }

  lemma PushedAttended(s: Session, x: Xid, ev: X.Event)
    requires Attended(s) && x in s.xs
    ensures AllAttended(PushTo(s.xs, x, ev), s.open, s.sends, s.route)
  {
    PushAttends(s.xs, x, ev);
    hide PushTo, Attends;
  }

  lemma PcAttended(s: Session, x: Xid, pc: Send)
    requires Attended(s) && (Preparing(pc) || GivenUp(pc) || s.open == Some(x) || Running(s.sends, x))
    ensures AllAttended(s.xs, s.open, s.sends[x := pc], s.route)
  {
  }

  lemma EndedAttended(s: Session, x: Xid)
    requires Attended(s) && x in s.xs
    ensures AllAttended(PushTo(s.xs, x, X.ENDED), s.open, s.sends[x := Failed], s.route)
  {
    PushAttends(s.xs, x, X.ENDED);
    hide PushTo;
  }

  lemma AttendedOpen(s: Session, x: Xid, schema: bool)
    requires Attended(s) && MaySend(s, Open(x, schema))
    ensures Attended(SendStep(s, Open(x, schema)))
  {
  }

  lemma AttendedTakeBack(s: Session, x: Xid)
    requires Attended(s) && MaySend(s, TakeBack(x))
    ensures Attended(SendStep(s, TakeBack(x)))
  {
  }

  lemma AttendedSend(s: Session, m: SendMove)
    requires Attended(s) && Staged(s) && MaySend(s, m)
    ensures Attended(SendStep(s, m))
  {
    KnownSend(s, m);
    hide PushTo, Flow, Handed, Attends, AllAttended;
    match m {
      case Open(x, schema) => AttendedOpen(s, x, schema);
      case TakeBack(x) => AttendedTakeBack(s, x);
      case PushFailure(x) =>
        PushedAttended(s, x, X.ErrorEvent(s.sends[x].err));
        AttendedGivenUp(PushTo(s.xs, x, X.ErrorEvent(s.sends[x].err)), s.open, s.sends, s.route, x);
      case PushEnd(x) => EndedAttended(s, x);
      case _ => PcAttended(s, m.x, SendStep(s, m).sends[m.x]);
    }
  }

  lemma AttendedGivenUp(xs: Objects, open: Option<Xid>, sends: Sends, route: Route, x: Xid)
    requires AllAttended(xs, open, sends, route)
    ensures AllAttended(xs, open, sends[x := FailEnding], route)
  {
  }

  lemma AttendedCancel(s: Session, m: CancelMove)
    requires Attended(s) && Fenced(s) && MayCancel(s, m)
    ensures Attended(CancelStep(s, m))
  {
    KnownCancel(s, m);
    hide PushTo, Attends, Alone;
    match m {
      case PushRefusal(x) => PushedAttended(s, x, X.ErrorEvent(s.cancels[x].err));
      case _ =>
    }
  }

  lemma AttendedRoute(s: Session, m: RouteMove)
    requires Attended(s) && MayRoute(s, m)
    ensures Attended(RouteStep(s, m))
  {
    KnownRoute(s, m);
    if m.Deliver? {
      PushAttends(s.xs, s.route.x, s.route.a.ev);
    }
    hide PushTo;
  }

  lemma AttendedEnd(s: Session, m: EndMove)
    requires Attended(s) && Staged(s) && MayEnd(s, m)
    ensures Attended(EndStep(s, m))
  {
    hide Flow, Opened, Exits;
    KnownEnd(s, m);
    match m {
      case PushUnanswered => PushAttends(s.xs, s.route.x, X.ErrorEvent(UNANSWERED));
      case PushReport => PushAttends(s.xs, s.route.x, X.ErrorEvent(s.route.stage.failure));
      case _ =>
    }
    hide PushTo, Joined, CursorAfter, AfterStore, RecordOf;
  }

  lemma AttendedLast(s: Session, m: LastMove)
    requires Attended(s) && MayLast(s, m)
    ensures Attended(LastStep(s, m))
  {
    KnownLast(s, m);
    match m {
      case PushLastReport => PushAttends(s.xs, s.route.x, X.ErrorEvent(s.route.stage.failure));
      case PushExit => PushAttends(s.xs, s.route.x, X.ErrorEvent(s.exitErr));
      case PushLastEnd => PushAttends(s.xs, s.route.x, X.ENDED);
      case _ =>
    }
    hide PushTo, AfterStore, RecordOf;
  }
}
