/** What holds of any history of a session, however its callers, cancellations, and harness interleave. */
module SessionTheorems {
  import opened Common
  import X = Exchanges
  import opened Sessions
  import opened SessionInvariants
  import opened SessionRecords
  import opened SessionJournal

  ghost predicate Kept(s: Session) {
    && Folds(s.xs) && Staged(s) && Fenced(s)
    && Recording(s) && Ended(s) && Carried(s) && Answered(s) && Attended(s) && Blocks(s)
  }

  lemma InitKept(s: Session)
    requires Init(s)
    ensures Kept(s)
  {
  }

  lemma SendKept(s: Session, m: SendMove)
    requires Kept(s) && MaySend(s, m)
    ensures Kept(SendStep(s, m))
  {
    hide Folds, Staged, Fenced, Recording, Ended, Carried, Answered, Attended, Blocks, MaySend, SendStep;
    FoldsSend(s, m);
    StagedSend(s, m);
    FencedSend(s, m);
    RecordingSend(s, m);
    EndedSend(s, m);
    CarriedSend(s, m);
    AnsweredSend(s, m);
    AttendedSend(s, m);
    BlocksSend(s, m);
  }

  lemma CancelLeaves(s: Session, m: CancelMove)
    requires MayCancel(s, m)
    ensures var s' := CancelStep(s, m); s' == s.(cancelling := s'.cancelling, xs := s'.xs, cancels := s'.cancels)
  {
    hide PushTo, MayCancel;
    match m {
      case CallCancel(x) =>
      case TooLate(x) =>
      case Decide(x) =>
      case Mark(x) =>
      case Asked(x, out) =>
      case PushRefusal(x) =>
      case Free(x) =>
    }
  }

  lemma CancelKept(s: Session, m: CancelMove)
    requires Kept(s) && MayCancel(s, m)
    ensures Kept(CancelStep(s, m))
  {
    hide Folds, Staged, Fenced, PutsOnce, RouteRecords, Ended, Carried, Answered, Attended, Blocks, MayCancel, CancelStep;
    FoldsCancel(s, m);
    StagedCancel(s, m);
    FencedCancel(s, m);
    CancelLeaves(s, m);
    EndedCancel(s, m);
    CarriedCancel(s, m);
    AnsweredCancel(s, m);
    AttendedCancel(s, m);
    BlocksCancel(s, m);
  }

  lemma RouteKept(s: Session, m: RouteMove)
    requires Kept(s) && MayRoute(s, m)
    ensures Kept(RouteStep(s, m))
  {
    hide Folds, Staged, Fenced, Recording, Ended, Carried, Answered, Attended, Blocks, MayRoute, RouteStep;
    FoldsRoute(s, m);
    StagedRoute(s, m);
    FencedRoute(s, m);
    RecordingRoute(s, m);
    EndedRoute(s, m);
    CarriedRoute(s, m);
    AnsweredRoute(s, m);
    AttendedRoute(s, m);
    BlocksRoute(s, m);
  }

  lemma EndKept(s: Session, m: EndMove)
    requires Kept(s) && MayEnd(s, m)
    ensures Kept(EndStep(s, m))
  {
    hide Folds, Staged, Fenced, Recording, Ended, Carried, Answered, Attended, Blocks, MayEnd, EndStep;
    FoldsEnd(s, m);
    StagedEnd(s, m);
    FencedEnd(s, m);
    RecordingEnd(s, m);
    EndedEnd(s, m);
    CarriedEnd(s, m);
    AnsweredEnd(s, m);
    AttendedEnd(s, m);
    BlocksEnd(s, m);
  }

  lemma LastKept(s: Session, m: LastMove)
    requires Kept(s) && MayLast(s, m)
    ensures Kept(LastStep(s, m))
  {
    hide Folds, Staged, Fenced, Recording, Ended, Carried, Answered, Attended, Blocks, MayLast, LastStep;
    FoldsLast(s, m);
    StagedLast(s, m);
    FencedLast(s, m);
    RecordingLast(s, m);
    EndedLast(s, m);
    CarriedLast(s, m);
    AnsweredLast(s, m);
    AttendedLast(s, m);
    BlocksLast(s, m);
  }

  lemma HarnessLeaves(s: Session, m: HarnessMove)
    requires MayHarness(s, m)
    ensures var s' := HarnessStep(s, m);
      s' == s.(arrivals := s'.arrivals, live := s'.live, journal := s'.journal, hung := s'.hung, closed := s'.closed)
  {
    match m {
      case Emit(a) =>
      case AppendEntry(run) =>
      case HangUp =>
      case Close =>
    }
  }

  lemma HarnessKept(s: Session, m: HarnessMove)
    requires Kept(s) && MayHarness(s, m)
    ensures Kept(HarnessStep(s, m))
  {
    hide Folds, Staged, Fenced, PutsOnce, RouteRecords, Recorded, Closed, EndsRecorded, Carries, StageCarries,
         FinalsSettled, FailuresInError, RouteAnswers, Known, AllAttended, Blocks, MayHarness, HarnessStep;
    StagedHarness(s, m);
    FencedHarness(s, m);
    HarnessLeaves(s, m);
    BlocksHarness(s, m);
    hide Recording, Ended, Carried, Answered, Attended;
    HarnessRest(s, HarnessStep(s, m));
  }

  /** What depends on nothing the harness changes. */
  lemma HarnessRest(s: Session, s': Session)
    requires Recording(s) && Ended(s) && Carried(s) && Answered(s) && Attended(s)
    requires s' == s.(arrivals := s'.arrivals, live := s'.live, journal := s'.journal, hung := s'.hung, closed := s'.closed)
    ensures Recording(s') && Ended(s') && Carried(s') && Answered(s') && Attended(s')
  {
    hide PutsOnce, RouteRecords, Recorded, Closed, EndsRecorded, Carries, StageCarries,
         FinalsSettled, FailuresInError, RouteAnswers, AllAttended;
  }

  lemma NextKept(s: Session, s': Session)
    requires Kept(s) && Next(s, s')
    ensures Kept(s')
  {
    hide Kept, MaySend, MayCancel, MayRoute, MayEnd, MayLast, MayHarness;
    hide SendStep, CancelStep, RouteStep, EndStep, LastStep, HarnessStep;
    if m :| MaySend(s, m) && s' == SendStep(s, m) {
      SendKept(s, m);
    } else if m :| MayCancel(s, m) && s' == CancelStep(s, m) {
      CancelKept(s, m);
    } else if m :| MayRoute(s, m) && s' == RouteStep(s, m) {
      RouteKept(s, m);
    } else if m :| MayEnd(s, m) && s' == EndStep(s, m) {
      EndKept(s, m);
    } else if m :| MayLast(s, m) && s' == LastStep(s, m) {
      LastKept(s, m);
    } else {
      var m :| MayHarness(s, m) && s' == HarnessStep(s, m);
      HarnessKept(s, m);
    }
  }

  lemma {:induction false} AlwaysKept(ss: seq<Session>)
    requires History(ss)
    ensures Kept(Common.Last(ss))
  {
    hide Kept, Next, Init;
    if |ss| == 1 {
      InitKept(ss[0]);
    } else {
      var front := ss[..|ss| - 1];
      assert forall n :: 0 <= n < |front| ==> front[n] == ss[n];
      AlwaysKept(front);
      assert Next(ss[|ss| - 2], ss[|ss| - 2 + 1]);
      NextKept(Common.Last(front), Common.Last(ss));
    }
  }

  lemma KeptIn(s: Session)
    requires Reachable(s)
    ensures Kept(s)
  {
    hide Kept, History;
    var ss :| ss != [] && History(ss) && Common.Last(ss) == s;
    AlwaysKept(ss);
  }

  // ---- One exchange at a time ----------------------------------------------------------------------

  /** At most one run is under way, and no prompt is on its way while one is. */
  lemma OneRunAtATime(s: Session, x: Xid)
    requires Reachable(s) && x in s.live
    ensures s.live == {x}
    ensures forall y :: y in s.sends ==> !Preparing(s.sends[y])
    ensures s.open == Some(x) || s.exited
  {
    hide Reachable, Folds, Flow, Fenced, Recording, Ended, Carried, Answered, Attended, Blocks;
    KeptIn(s);
  }

  /** An event a run emits reaches that run's exchange: it finds the exchange open, and goes to no other. */
  lemma EventsReachTheirExchange(s: Session, x: Xid)
    requires Reachable(s)
    ensures s.route.Looking? && s.route.a.run == Some(x) ==> s.open == Some(x)
    ensures s.route.Delivering? && s.route.a.run == Some(x) ==> s.route.x == x
    ensures s.route.Ending? ==> s.open == Some(s.route.x) && s.route.a.run == s.open && s.route.x !in s.live
  {
    hide Reachable, Folds, Fenced, Recording, Ended, Carried, Answered, Attended, Blocks;
    KeptIn(s);
    if s.route.Looking? {
      HeldFlow(s);
    }
  }

  // ---- Cancellation ----------------------------------------------------------------------------------

  /** At most one cancellation is under way, and while one is, no exchange but its own is open,
      prompting, or running. */
  lemma CancellationIsFenced(s: Session, x: Xid)
    requires Reachable(s) && x in s.cancels && Underway(s.cancels[x])
    ensures s.cancelling == Some(x)
    ensures forall y :: y in s.cancels && Underway(s.cancels[y]) ==> y == x
    ensures Running(s.sends, x)
    ensures forall y :: y != x ==> s.open != Some(y) && y !in s.live && (y in s.sends ==> !Preparing(s.sends[y]))
  {
    hide Reachable, Folds, Staged, Recording, Ended, Carried, Answered, Attended, Blocks;
    KeptIn(s);
  }

  /** A cancellation is decided only for the exchange whose run's end the router has not taken. */
  lemma CancellationIsInTime(s: Session, x: Xid)
    requires Reachable(s) && MayCancel(s, Decide(x))
    ensures s.open == Some(x) && Running(s.sends, x) && !s.route.Ending? && !s.exited
    ensures s.route.Delivering? && s.route.x == x ==> s.route.a.ev.kind != X.Ended
    ensures x in s.xs && !s.xs[x].final
  {
    hide Reachable, Folds, Flow, Alone, Recording, EndsRecorded, Carried, Answered, AllAttended, Blocks;
    KeptIn(s);
  }

  // ---- Records ---------------------------------------------------------------------------------------

  /** An exchange's events are numbered 1..n and end once, last; its result is the fold of them. */
  lemma EventsAreFolded(s: Session, x: Xid)
    requires Reachable(s) && x in s.xs
    ensures X.Folded(s.xs[x])
  {
    hide Reachable, Staged, Fenced, Recording, Ended, Carried, Answered, Attended, Blocks, X.Folded;
    KeptIn(s);
  }

  /** An accepted exchange is put to the Store exactly once, before its end is queued, with the result
      its Wait returns. */
  lemma RecordedOnceAndTruly(s: Session, x: Xid) returns (i: nat)
    requires Reachable(s) && s.stored && x in s.xs && s.xs[x].final && Running(s.sends, x)
    ensures i < |s.puts| && s.puts[i].rec.x == x
    ensures forall j :: 0 <= j < |s.puts| && s.puts[j].rec.x == x ==> j == i
    ensures s.puts[i].rec.result == s.xs[x].result == X.ResultOf(s.xs[x].queued)
  {
    hide Reachable, Staged, Fenced, Answered, Attended, Blocks, X.ResultOf;
    KeptIn(s);
    i :| 0 <= i < |s.puts| && s.puts[i].rec.x == x;
  }

  /** Whoever's record it is, it carries the result its exchange has, and is the only one. */
  lemma RecordsAreTrue(s: Session, i: nat)
    requires Reachable(s) && i < |s.puts|
    ensures s.puts[i].rec.result == Ex(s.xs, s.puts[i].rec.x).result
    ensures forall j :: 0 <= j < |s.puts| && s.puts[j].rec.x == s.puts[i].rec.x ==> j == i
  {
    hide Reachable, Folds, Staged, Fenced, Ended, Answered, Attended, Blocks, Recorded, RouteRecords;
    KeptIn(s);
  }

  /** An exchange with a schema ends structured, cancelled, or in error. */
  lemma SchemaIsAnswered(s: Session, x: Xid)
    requires Reachable(s) && x in s.xs && s.xs[x].final && s.xs[x].schema
    ensures s.xs[x].result.structured != "" || s.xs[x].cancelled || s.xs[x].err.Some?
  {
    hide Reachable, Folds, Staged, Fenced, Recording, Ended, Carried, Attended, Blocks;
    KeptIn(s);
    assert Settled(s.xs, x);
  }

  /** The router fails a run that ended for want of a structured response exactly when its exchange has a
      schema and, as its events stand, no such response, no error, and no cancellation. */
  lemma OnlyUnansweredFails(s: Session)
    requires Reachable(s) && MayEnd(s, CheckAnswer)
    ensures var ex := Ex(s.xs, s.route.x);
      EndStep(s, CheckAnswer).route.stage.Complain? <==>
        && ex.schema && !ex.cancelled && !X.Queued(ex, X.Error) && !X.Queued(ex, X.Cancelled)
        && (X.LastOf(ex.queued, X.Structured).None? || X.LastOf(ex.queued, X.Structured).value.structured == "")
  {
    hide Reachable, Staged, Fenced, Recording, Ended, Carried, Answered, Attended, Blocks, X.Folded, X.LastOf, X.Unanswered;
    KeptIn(s);
    X.NewIsFolded("", s.route.x, false);
    hide Kept;
    X.FoldedUnanswered(Ex(s.xs, s.route.x));
    hide Ex, X.Queued;
  }

  /** Once the router is gone and no Send is under way, every exchange has ended: no Wait hangs. */
  lemma NothingIsLeftWaiting(s: Session, x: Xid)
    requires Reachable(s) && s.route.Gone? && x in s.xs
    requires x in s.sends && !Preparing(s.sends[x]) && !GivenUp(s.sends[x])
    ensures s.xs[x].final
  {
    hide Reachable, Folds, Flow, Opened, Handed, Fenced, Recording, Ended, Carried, Answered, Blocks, Known;
    KeptIn(s);
    assert !s.xs[x].final ==> Attends(x, s.open, s.sends, s.route);
  }

  // ---- The journal -----------------------------------------------------------------------------------

  /** The blocks the records name lie after the head taken at open, one after another. */
  lemma BlocksAreInOrder(s: Session, i: nat, j: nat)
    requires Reachable(s) && i < j < |s.puts|
    requires s.puts[i].rec.entries.Block? && s.puts[j].rec.entries.Block?
    ensures var (a, b) := (s.puts[i].rec.entries, s.puts[j].rec.entries);
      s.head <= a.lo <= a.hi <= b.lo <= b.hi <= |s.journal|
  {
    hide Reachable, Folds, Staged, Fenced, Recording, Ended, Carried, Answered, Attended, Owned, Tracked, Staging;
    KeptIn(s);
    assert Owns(s.journal, s.sends, s.live, s.puts[j].rec.x, s.puts[j].rec.entries);
  }

  /** A block holds every entry its run appended, and none of another run's: not even one whose own
      binding failed. With a harness that appends only during runs, it is exactly its run's entries. */
  lemma BlockIsItsRuns(s: Session, i: nat)
    requires Reachable(s) && i < |s.puts| && s.puts[i].rec.entries.Block?
    ensures var (x, e) := (s.puts[i].rec.x, s.puts[i].rec.entries);
      && (forall n :: 0 <= n < |s.journal| && s.journal[n] == Some(x) ==> e.lo <= n < e.hi)
      && (forall n :: e.lo <= n < e.hi && n < |s.journal| && s.journal[n].Some? ==> s.journal[n] == Some(x))
      && ((forall n :: s.head <= n < |s.journal| ==> s.journal[n].Some?) ==>
            forall n :: 0 <= n < |s.journal| ==> (e.lo <= n < e.hi <==> s.journal[n] == Some(x)))
  {
    hide Reachable, Folds, Staged, Fenced, Recording, Ended, Carried, Answered, Attended, Owned, Tracked, Staging;
    KeptIn(s);
    assert Owns(s.journal, s.sends, s.live, s.puts[i].rec.x, s.puts[i].rec.entries);
  }
}
