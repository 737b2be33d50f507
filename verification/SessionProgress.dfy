/**
 * How a session goes on (harness/session.go): what it does once shut, that everyone in it but the harness
 * always has a move and makes only so many, and an exchange that runs from its prompt to its record.
 */
module SessionProgress {
  import opened Common
  import X = Exchanges
  import opened Sessions
  import opened SessionInvariants
  import opened SessionTheorems
  import opened SessionEvents

  // ---- Whoever is at work can go on --------------------------------------------------------------

  /** The stages of an end that the router takes, and of one that the harness's exit makes. */
  predicate InPlace(route: Route) {
    match route
    case Ending(_, _, stage) => !stage.Fail? && !stage.End?
    case Last(_, stage) => stage.Write? || stage.Store? || stage.Report? || stage.Fail? || stage.End?
    case _ => true
  }

  lemma RouteInPlace(s: Session, m: RouteMove)
    requires MayRoute(s, m)
    ensures InPlace(RouteStep(s, m).route)
  {
    hide PushTo;
    match m {
      case Take =>
      case Drop =>
      case SeeEvent =>
      case SeeEnd =>
      case Deliver =>
      case SeeExit =>
      case Leave =>
    }
  }

  lemma EndInPlace(s: Session, m: EndMove)
    requires MayEnd(s, m)
    ensures var route := EndStep(s, m).route;
      && InPlace(route) && (route.Delivering? || (route.Ending? && EndRank(route.stage) < EndRank(s.route.stage)))
  {
    hide PushTo, X.Unanswered, CursorAfter, RecordOf, Joined, Without;
    match m {
      case CheckAnswer =>
      case PushUnanswered =>
      case StartRecord =>
      case AskJournal(out) =>
      case BindEntries =>
      case MakeRecord =>
      case PutRecord(out) =>
      case PushReport =>
      case ClearOpen =>
    }
  }

  lemma LastInPlace(s: Session, m: LastMove)
    requires MayLast(s, m)
    ensures var route := LastStep(s, m).route;
      && InPlace(route) && (route.Gone? || (route.Last? && EndRank(route.stage) < EndRank(s.route.stage)))
  {
    hide PushTo, RecordOf;
    match m {
      case MakeLast =>
      case PutLast(out) =>
      case PushLastReport =>
      case PushExit =>
      case PushLastEnd =>
    }
  }

  lemma SendInPlace(s: Session, m: SendMove)
    requires MaySend(s, m) && InPlace(s.route)
    ensures InPlace(SendStep(s, m).route)
  {
    hide InPlace, SendStep, MaySend;
    SendLeaves(s, m);
  }

  lemma CancelInPlace(s: Session, m: CancelMove)
    requires MayCancel(s, m) && InPlace(s.route)
    ensures InPlace(CancelStep(s, m).route)
  {
    hide InPlace, CancelStep, MayCancel;
    CancelLeaves(s, m);
  }

  lemma HarnessInPlace(s: Session, m: HarnessMove)
    requires MayHarness(s, m) && InPlace(s.route)
    ensures InPlace(HarnessStep(s, m).route)
  {
    hide InPlace, HarnessStep, MayHarness;
    HarnessLeaves(s, m);
  }

  lemma StepInPlace(s: Session, s': Session)
    requires Next(s, s') && InPlace(s.route)
    ensures InPlace(s'.route)
  {
    hide InPlace, EndRank, MaySend, MayCancel, MayRoute, MayEnd, MayLast, MayHarness;
    hide SendStep, CancelStep, RouteStep, EndStep, LastStep, HarnessStep;
    if m :| MaySend(s, m) && s' == SendStep(s, m) {
      SendInPlace(s, m);
    } else if m :| MayCancel(s, m) && s' == CancelStep(s, m) {
      CancelInPlace(s, m);
    } else if m :| MayRoute(s, m) && s' == RouteStep(s, m) {
      RouteInPlace(s, m);
    } else if m :| MayEnd(s, m) && s' == EndStep(s, m) {
      EndInPlace(s, m);
    } else if m :| MayLast(s, m) && s' == LastStep(s, m) {
      LastInPlace(s, m);
    } else {
      var m :| MayHarness(s, m) && s' == HarnessStep(s, m);
      HarnessInPlace(s, m);
    }
  }

  lemma {:induction false} AlwaysInPlace(ss: seq<Session>)
    requires History(ss)
    ensures InPlace(Common.Last(ss).route)
  {
    hide Next;
    if |ss| > 1 {
      hide InPlace;
      var front := ss[..|ss| - 1];
      assert forall n :: 0 <= n < |front| ==> front[n] == ss[n];
      AlwaysInPlace(front);
      assert Next(ss[|ss| - 2], ss[|ss| - 2 + 1]);
      StepInPlace(Common.Last(front), Common.Last(ss));
    }
  }

  /** Nobody waits but for the harness, and the harness's part is only to take or refuse a prompt, to answer a
      cancellation, and to give an event or exit: a caller of Send, a cancellation, and the router each
      have a move until they are done, whatever else has happened. */
  lemma NobodyIsStuck(s: Session, x: Xid)
    requires Reachable(s)
    ensures x in s.sends && !s.sends[x].Sent? && !s.sends[x].Failed? ==> exists m :: MaySend(s, m) && !m.Open? && m.x == x
    ensures x in s.cancels && !s.cancels[x].Over? ==> exists m :: MayCancel(s, m) && m.x == x
    ensures s.route.Ending? ==> exists m :: MayEnd(s, m)
    ensures s.route.Last? ==> exists m :: MayLast(s, m)
    ensures s.route.Looking? || s.route.Delivering? || s.route.Leaving? ==> exists m :: MayRoute(s, m)
    ensures s.route.Reading? && (s.arrivals != [] || s.hung) ==> exists m :: MayRoute(s, m)
  {
    InPlaceIn(s);
    if x in s.sends && !s.sends[x].Sent? && !s.sends[x].Failed? {
      SendGoesOn(s, x);
    }
    if x in s.cancels && !s.cancels[x].Over? {
      CancelGoesOn(s, x);
    }
    RouterGoesOn(s);
  }

  lemma InPlaceIn(s: Session)
    requires Reachable(s)
    ensures InPlace(s.route)
  {
    hide History, InPlace;
    var ss :| ss != [] && History(ss) && Common.Last(ss) == s;
    AlwaysInPlace(ss);
  }

  lemma SendGoesOn(s: Session, x: Xid)
    requires x in s.sends && !s.sends[x].Sent? && !s.sends[x].Failed?
    ensures exists m :: MaySend(s, m) && !m.Open? && m.x == x
  {
    var m :=
      match s.sends[x]
      case Resyncing => TakeHead(x)
      case Resynced(_) => SetCursor(x)
      case Prompting => Refuse(x, "")
      case Refused(_) => TakeBack(x)
      case Failing(_) => PushFailure(x)
      case FailEnding => PushEnd(x)
      case _ => Return(x);
    assert MaySend(s, m) && !m.Open? && m.x == x;
  }

  lemma CancelGoesOn(s: Session, x: Xid)
    requires x in s.cancels && !s.cancels[x].Over?
    ensures exists m :: MayCancel(s, m) && m.x == x
  {
    var m :=
      match s.cancels[x]
      case Deciding => if s.open == Some(x) && !s.runEnded then Decide(x) else TooLate(x)
      case Marking => Mark(x)
      case Asking => Asked(x, None)
      case Complaining(_) => PushRefusal(x)
      case _ => Free(x);
    assert MayCancel(s, m) && m.x == x;
  }

  lemma RouterGoesOn(s: Session)
    requires InPlace(s.route)
    ensures s.route.Ending? ==> exists m :: MayEnd(s, m)
    ensures s.route.Last? ==> exists m :: MayLast(s, m)
    ensures s.route.Looking? || s.route.Delivering? || s.route.Leaving? ==> exists m :: MayRoute(s, m)
    ensures s.route.Reading? && (s.arrivals != [] || s.hung) ==> exists m :: MayRoute(s, m)
  {
    match s.route {
      case Ending(_, _, stage) =>
        var m :=
          match stage
          case Check => CheckAnswer
          case Complain => PushUnanswered
          case Start => StartRecord
          case Call(_) => AskJournal(None)
          case Bind(_, _) => BindEntries
          case Write(_, _) => MakeRecord
          case Store(_, _) => PutRecord(None)
          case Report(_) => PushReport
          case _ => ClearOpen;
        assert MayEnd(s, m);
      case Last(_, stage) =>
        var m :=
          match stage
          case Write(_, _) => MakeLast
          case Store(_, _) => PutLast(None)
          case Report(_) => PushLastReport
          case Fail => PushExit
          case _ => PushLastEnd;
        assert MayLast(s, m);
      case Looking(a) =>
        assert MayRoute(s, if s.open.None? then Drop else if a.ev.kind == X.Ended then SeeEnd else SeeEvent);
      case Delivering(_, _) => assert MayRoute(s, Deliver);
      case Leaving => assert MayRoute(s, Leave);
      case Reading => assert s.arrivals != [] || s.hung ==> MayRoute(s, if s.arrivals != [] then Take else SeeExit);
      case Gone =>
    }
  }

  function EndRank(stage: Stage): nat {
    match stage
    case Check => 10
    case Complain => 9
    case Start => 8
    case Call(_) => 7
    case Bind(_, _) => 6
    case Write(_, _) => 5
    case Store(_, _) => 4
    case Report(_) => 3
    case Clear => 2
    case Fail => 1
    case End => 0
  }

  function SendRank(pc: Send): nat {
    match pc
    case Resyncing => 7
    case Resynced(_) => 6
    case Prompting => 5
    case Refused(_) => 4
    case Failing(_) => 3
    case FailEnding => 2
    case Accepted => 1
    case Failed => 0
    case Sent => 0
  }

  function CancelRank(pc: Cancel): nat {
    match pc
    case Deciding => 5
    case Marking => 4
    case Asking => 3
    case Complaining(_) => 2
    case Freeing => 1
    case Over => 0
  }

  /** And each makes only so many: every move of a call of Send, of a cancellation, and of the router within
      an end brings it nearer its own. */
  lemma SendsRunOut(s: Session, m: SendMove)
    requires MaySend(s, m) && !m.Open?
    ensures var s' := SendStep(s, m);
      && m.x in s'.sends && SendRank(s'.sends[m.x]) < SendRank(s.sends[m.x])
      && forall y :: y in s.sends && y != m.x ==> y in s'.sends && s'.sends[y] == s.sends[y]
  {
    hide PushTo;
    match m {
      case TakeHead(x) =>
      case HeadFails(x, err) =>
      case SetCursor(x) =>
      case Accept(x) =>
      case Refuse(x, err) =>
      case Return(x) =>
      case TakeBack(x) =>
      case PushFailure(x) =>
      case PushEnd(x) =>
    }
  }

  lemma CancelsRunOut(s: Session, m: CancelMove)
    requires MayCancel(s, m) && !m.CallCancel?
    ensures var s' := CancelStep(s, m);
      && m.x in s'.cancels && CancelRank(s'.cancels[m.x]) < CancelRank(s.cancels[m.x])
      && forall y :: y in s.cancels && y != m.x ==> y in s'.cancels && s'.cancels[y] == s.cancels[y]
  {
    hide PushTo;
    match m {
      case TooLate(x) =>
      case Decide(x) =>
      case Mark(x) =>
      case Asked(x, out) =>
      case PushRefusal(x) =>
      case Free(x) =>
    }
  }

  lemma EndsRunOut(s: Session, s': Session)
    requires (exists m :: MayEnd(s, m) && s' == EndStep(s, m)) || (exists m :: MayLast(s, m) && s' == LastStep(s, m))
    ensures || s'.route.Delivering? || s'.route.Gone?
            || ((s'.route.Ending? || s'.route.Last?) && EndRank(s'.route.stage) < EndRank(s.route.stage))
  {
    hide MayEnd, MayLast, EndStep, LastStep, EndRank;
    if m :| MayEnd(s, m) && s' == EndStep(s, m) {
      EndInPlace(s, m);
    } else {
      var m :| MayLast(s, m) && s' == LastStep(s, m);
      LastInPlace(s, m);
    }
  }

  // ---- After the end ---------------------------------------------------------------------------

  /** No more exchanges can be opened. */
  predicate Shut(s: Session) {
    s.closed || s.exited
  }

  lemma SendOpens(s: Session, m: SendMove)
    requires MaySend(s, m)
    ensures var s' := SendStep(s, m);
      && (Shut(s') <==> Shut(s)) && s.sends.Keys <= s'.sends.Keys && (Shut(s) ==> s'.sends.Keys == s.sends.Keys)
  {
    hide PushTo, Unused;
    match m {
      case Open(x, schema) =>
      case TakeHead(x) =>
      case HeadFails(x, err) =>
      case SetCursor(x) =>
      case Accept(x) =>
      case Refuse(x, err) =>
      case Return(x) =>
      case TakeBack(x) =>
      case PushFailure(x) =>
      case PushEnd(x) =>
    }
  }

  lemma RouteOpens(s: Session, m: RouteMove)
    requires MayRoute(s, m)
    ensures RouteStep(s, m).sends == s.sends && (Shut(s) ==> Shut(RouteStep(s, m)))
  {
    hide PushTo;
    match m {
      case Take =>
      case Drop =>
      case SeeEvent =>
      case SeeEnd =>
      case Deliver =>
      case SeeExit =>
      case Leave =>
    }
  }

  lemma CancelOpens(s: Session, m: CancelMove)
    requires MayCancel(s, m)
    ensures CancelStep(s, m).sends == s.sends && (Shut(s) ==> Shut(CancelStep(s, m)))
  {
    CancelLeaves(s, m);
    hide CancelStep, MayCancel;
  }

  lemma EndOpens(s: Session, m: EndMove)
    requires MayEnd(s, m)
    ensures EndStep(s, m).sends == s.sends && (Shut(s) ==> Shut(EndStep(s, m)))
  {
    EndHolds(s, m);
    hide EndStep, MayEnd;
  }

  lemma LastOpens(s: Session, m: LastMove)
    requires MayLast(s, m)
    ensures LastStep(s, m).sends == s.sends && (Shut(s) ==> Shut(LastStep(s, m)))
  {
    hide PushTo, RecordOf;
    match m {
      case MakeLast =>
      case PutLast(out) =>
      case PushLastReport =>
      case PushExit =>
      case PushLastEnd =>
    }
  }

  lemma HarnessOpens(s: Session, m: HarnessMove)
    requires MayHarness(s, m)
    ensures HarnessStep(s, m).sends == s.sends && (Shut(s) ==> Shut(HarnessStep(s, m)))
  {
    match m {
      case Emit(a) =>
      case AppendEntry(run) =>
      case HangUp =>
      case Close =>
    }
  }

  lemma StepOpens(s: Session, s': Session)
    requires Next(s, s') && Shut(s)
    ensures Shut(s') && s'.sends.Keys == s.sends.Keys
  {
    hide Shut, MaySend, MayCancel, MayRoute, MayEnd, MayLast, MayHarness;
    hide SendStep, CancelStep, RouteStep, EndStep, LastStep, HarnessStep;
    if m :| MaySend(s, m) && s' == SendStep(s, m) {
      SendOpens(s, m);
    } else if m :| MayCancel(s, m) && s' == CancelStep(s, m) {
      CancelOpens(s, m);
    } else if m :| MayRoute(s, m) && s' == RouteStep(s, m) {
      RouteOpens(s, m);
    } else if m :| MayEnd(s, m) && s' == EndStep(s, m) {
      EndOpens(s, m);
    } else if m :| MayLast(s, m) && s' == LastStep(s, m) {
      LastOpens(s, m);
    } else {
      var m :| MayHarness(s, m) && s' == HarnessStep(s, m);
      HarnessOpens(s, m);
    }
  }

  /** Close shuts the session. */
  lemma ClosedForGood(ss: seq<Session>, n: nat)
    requires History(ss) && n + 1 < |ss| && ss[n + 1] == HarnessStep(ss[n], Close)
    ensures Common.Last(ss).sends.Keys == ss[n].sends.Keys
  {
    hide Next, Init;
    ShutForGood(ss, n + 1);
  }

  /** A session that was closed, or whose harness has exited, opens no exchange ever after. */
  lemma {:induction false} ShutForGood(ss: seq<Session>, n: nat)
    requires History(ss) && n < |ss| && (ss[n].closed || ss[n].exited)
    ensures var s := Common.Last(ss); s.sends.Keys == ss[n].sends.Keys && (s.closed || s.exited)
    decreases |ss|
  {
    hide Next, Init;
    if n < |ss| - 1 {
      var front := ss[..|ss| - 1];
      assert forall k :: 0 <= k < |front| ==> front[k] == ss[k];
      ShutForGood(front, n);
      assert Next(ss[|ss| - 2], ss[|ss| - 2 + 1]);
      StepOpens(Common.Last(front), Common.Last(ss));
    }
  }

  // ---- An exchange that runs -------------------------------------------------------------------

  lemma ReachNext(s: Session, s': Session)
    requires Reachable(s) && Next(s, s')
    ensures Reachable(s')
  {
    hide Next, Init;
    var ss :| ss != [] && History(ss) && Common.Last(ss) == s;
    var all := ss + [s'];
    forall n | 0 <= n < |all| - 1
      ensures Next(all[n], all[n + 1])
    {
      assert n < |ss| - 1 ==> Next(ss[n], ss[n + 1]);
    }
    assert History(all) && Common.Last(all) == s';
  }

  lemma ReachSend(s: Session, m: SendMove)
    requires Reachable(s) && MaySend(s, m)
    ensures Reachable(SendStep(s, m))
  {
    hide Reachable, SendStep, MaySend;
    ReachNext(s, SendStep(s, m));
  }

  lemma ReachRoute(s: Session, m: RouteMove)
    requires Reachable(s) && MayRoute(s, m)
    ensures Reachable(RouteStep(s, m))
  {
    hide Reachable, RouteStep, MayRoute;
    ReachNext(s, RouteStep(s, m));
  }

  lemma ReachEnd(s: Session, m: EndMove)
    requires Reachable(s) && MayEnd(s, m)
    ensures Reachable(EndStep(s, m))
  {
    hide Reachable, EndStep, MayEnd;
    ReachNext(s, EndStep(s, m));
  }

  lemma ReachHarness(s: Session, m: HarnessMove)
    requires Reachable(s) && MayHarness(s, m)
    ensures Reachable(HarnessStep(s, m))
  {
    hide Reachable, HarnessStep, MayHarness;
    ReachNext(s, HarnessStep(s, m));
  }

  const SAID := X.Event(X.TextDelta, "hi", "", None, "", "", "", 0, 0)

  /** A new session with a Store and a Journal. */
  const NEW := Session(true, true, "exit", None, false, 0, false, false, false, None, map[], map[], map[], Reading,
                       {}, [], false, 0, [], [])

  const DELTA := Arrival(SAID, Some(1))
  const END := Arrival(X.ENDED, Some(1))

  const OPENED := X.New("", 1, false)
  const ASKED := NEW.(open := Some(1), xs := map[1 := OPENED], sends := map[1 := Accepted], live := {1})
  const SPOKEN := ASKED.(journal := [Some(1)], arrivals := [DELTA, END], live := {})
  const TOLD := X.Pushed(OPENED, SAID)
  const HEARD := SPOKEN.(arrivals := [END], xs := map[1 := TOLD])
  const RECORD := Record(1, X.NO_RESULT, None, Block(0, 1))
  const ENDING := HEARD.(arrivals := [], runEnded := true, route := Ending(1, END, Start))
  const BOUND := ENDING.(cursor := 1, route := Ending(1, END, Write(Block(0, 1), None)))
  const STORED := ENDING.(cursor := 1, puts := [Put(RECORD, true)], route := Ending(1, END, Clear))

  /** A prompt is accepted. */
  lemma Asks()
    ensures Reachable(ASKED)
  {
    assert Reachable(NEW) by {
      assert History([NEW]);
    }
    hide Reachable, X.New, Init;
    ReachSend(NEW, Open(1, false));
    var s := SendStep(NEW, Open(1, false));
    ReachSend(s, Accept(1));
    assert SendStep(s, Accept(1)) == ASKED;
  }

  /** Its run says something, and ends. */
  lemma Speaks()
    ensures Reachable(SPOKEN)
  {
    Asks();
    hide Reachable, OPENED;
    ReachHarness(ASKED, AppendEntry(Some(1)));
    var s := HarnessStep(ASKED, AppendEntry(Some(1)));
    assert [] + [Some(1)] == [Some(1)];
    ReachHarness(s, Emit(DELTA));
    var s' := HarnessStep(s, Emit(DELTA));
    assert [] + [DELTA] == [DELTA] && [DELTA] + [END] == [DELTA, END];
    ReachHarness(s', Emit(END));
    assert HarnessStep(s', Emit(END)) == SPOKEN;
  }

  /** The router hands on what it said. */
  lemma Hears()
    ensures Reachable(HEARD)
  {
    Speaks();
    hide Reachable, OPENED, X.Pushed;
    ReachRoute(SPOKEN, Take);
    var s := RouteStep(SPOKEN, Take);
    assert s.route == Looking(DELTA) && s.arrivals == [END];
    ReachRoute(s, SeeEvent);
    var s' := RouteStep(s, SeeEvent);
    ReachRoute(s', Deliver);
    assert RouteStep(s', Deliver) == HEARD;
  }

  lemma ToldIsAnswered()
    ensures !X.Unanswered(TOLD)
  {
  }

  /** The router takes its end. */
  lemma Ends()
    ensures Reachable(ENDING)
  {
    Hears();
    hide Reachable, TOLD, X.Unanswered;
    ReachRoute(HEARD, Take);
    var s := HEARD.(arrivals := [], route := Looking(END));
    assert s == RouteStep(HEARD, Take);
    ReachRoute(s, SeeEnd);
    var s' := HEARD.(arrivals := [], runEnded := true, route := Ending(1, END, Check));
    assert s' == RouteStep(s, SeeEnd);
    ToldIsAnswered();
    ReachEnd(s', CheckAnswer);
    assert EndStep(s', CheckAnswer) == ENDING;
  }

  /** Its entry is bound. */
  lemma Binds()
    ensures Reachable(BOUND)
  {
    Ends();
    hide Reachable, TOLD;
    ReachEnd(ENDING, StartRecord);
    var s1 := ENDING.(route := Ending(1, END, Call(0)));
    assert s1 == EndStep(ENDING, StartRecord);
    ReachEnd(s1, AskJournal(None));
    var s2 := ENDING.(route := Ending(1, END, Bind(Block(0, 1), None)));
    assert s2 == EndStep(s1, AskJournal(None));
    ReachEnd(s2, BindEntries);
    assert BOUND == EndStep(s2, BindEntries);
  }

  /** And it is recorded. */
  lemma Records()
    ensures Reachable(STORED)
  {
    Binds();
    assert RecordOf(1, TOLD, Block(0, 1), None) == RECORD;
    hide Reachable, TOLD, RECORD, RecordOf;
    ReachEnd(BOUND, MakeRecord);
    var s := ENDING.(cursor := 1, route := Ending(1, END, Store(RECORD, None)));
    assert s == EndStep(BOUND, MakeRecord);
    ReachEnd(s, PutRecord(None));
    assert [] + [Put(RECORD, true)] == [Put(RECORD, true)];
    assert EndStep(s, PutRecord(None)) == STORED;
  }

  /** A session can run an exchange from its prompt to its end: its event and its end are queued, and its
      record names its one entry. */
  lemma AnExchangeRuns() returns (s: Session)
    ensures Reachable(s) && s.puts == [Put(Record(1, X.NO_RESULT, None, Block(0, 1)), true)] && s.journal == [Some(1)]
    ensures var ex := Ex(s.xs, 1);
      && ex.final && ex.err.None? && |ex.queued| == 2
      && ex.queued[0].text == "hi" && ex.queued[0].num == 1 && ex.queued[1].kind == X.Ended && ex.queued[1].num == 2
    ensures s.open.None? && s.sends == map[1 := Accepted] && s.route == Reading
  {
    Records();
    hide Reachable;
    ReachEnd(STORED, ClearOpen);
    var s1 := EndStep(STORED, ClearOpen);
    ReachRoute(s1, Deliver);
    s := RouteStep(s1, Deliver);
  }
}
