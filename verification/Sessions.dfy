/**
 * A session (harness/session.go) as interleaved moves: the callers of Send, the cancellations, the
 * router, and the harness with its journal. Each move is one critical section or one call out.
 */
module Sessions {
  import opened Common
  import opened Workflows
  import X = Exchanges

  type Xid = nat

  /** An event on the Connection's channel, and the exchange whose run emitted it, if one did. */
  datatype Arrival = Arrival(ev: X.Event, run: Option<Xid>)

  /** The journal entries a record names: those from lo up to hi, or none because binding failed. */
  datatype Entries = Unbound | Block(lo: nat, hi: nat)

  datatype Record = Record(x: Xid, result: HarnessResult, err: Option<string>, entries: Entries)

  /** A call of Store.Put. */
  datatype Put = Put(rec: Record, stored: bool)

  /** A caller of Send from the moment it has opened an exchange; a call turned away changes nothing. */
  datatype Send =
    | Resyncing             // ask the journal for its head
    | Resynced(head: nat)   // set the cursor
    | Prompting             // in Connection.Prompt
    | Refused(err: string)  // take the exchange back
    | Failing(err: string)  // push the error
    | FailEnding            // push the end
    | Failed                // Send returned an error
    | Accepted              // the harness took the prompt
    | Sent                  // Send returned the exchange

  datatype Cancel =
    | Deciding               // is its run still under way?
    | Marking                // mark the exchange cancelled
    | Asking                 // in Connection.Cancel
    | Complaining(err: string)
    | Freeing                // let the next Send go on
    | Over

  /** How far an exchange's end has got. */
  datatype Stage =
    | Check | Complain | Start
    | Call(cursor: nat)                              // in Journal.Since
    | Bind(entries: Entries, err: Option<string>)    // advance the cursor, or note the failure
    | Write(entries: Entries, err: Option<string>)   // make the record
    | Store(rec: Record, err: Option<string>)        // in Store.Put
    | Report(failure: string)
    | Clear                                          // the exchange is no longer open
    | Fail | End                                     // the two pushes of a harness that exited

  datatype Route =
    | Reading
    | Looking(a: Arrival)                       // which exchange is open?
    | Ending(x: Xid, a: Arrival, stage: Stage)  // x's run has ended
    | Delivering(x: Xid, a: Arrival)
    | Leaving                                   // the Connection's events have closed
    | Last(x: Xid, stage: Stage)                // x was open when they did
    | Gone

  datatype Session = Session(
    stored: bool, journaled: bool, exitErr: string,     // has a Store; has a Journal too; why it exits
    open: Option<Xid>, runEnded: bool, cursor: nat, resync: bool, exited: bool, closed: bool,
    cancelling: Option<Xid>,
    xs: map<Xid, X.State>, sends: map<Xid, Send>, cancels: map<Xid, Cancel>, route: Route,
    live: set<Xid>, arrivals: seq<Arrival>, hung: bool, // the harness: runs, events not taken, exited
    head: nat, journal: seq<Option<Xid>>,               // each entry's run; the head taken at open
    puts: seq<Put>)

  /** A session as NewSession leaves it, over a journal that already has entries. */
  predicate Init(s: Session) {
    && (s.journaled ==> s.stored)
    && s.open.None? && !s.runEnded && !s.resync && !s.exited && !s.closed && s.cancelling.None?
    && s.xs == map[] && s.sends == map[] && s.cancels == map[] && s.route == Reading
    && s.live == {} && s.arrivals == [] && !s.hung && s.puts == []
    && s.cursor == s.head == |s.journal| && (forall i :: 0 <= i < |s.journal| ==> s.journal[i].None?)
  }

  // ---- Moves -------------------------------------------------------------------------------

  /** Send, past its checks. */
  datatype SendMove =
    | Open(x: Xid, schema: bool) | TakeHead(x: Xid) | HeadFails(x: Xid, err: string) | SetCursor(x: Xid)
    | Accept(x: Xid) | Refuse(x: Xid, err: string) | Return(x: Xid) | TakeBack(x: Xid) | PushFailure(x: Xid)
    | PushEnd(x: Xid)

  /** An exchange's cancellation. */
  datatype CancelMove =
    | CallCancel(x: Xid) | TooLate(x: Xid) | Decide(x: Xid) | Mark(x: Xid) | Asked(x: Xid, out: Option<string>)
    | PushRefusal(x: Xid) | Free(x: Xid)

  /** The router, between ends. */
  datatype RouteMove =
    | Take | Drop | SeeEvent | SeeEnd | Deliver | SeeExit | Leave

  /** The router, recording a run's end. */
  datatype EndMove =
    | CheckAnswer | PushUnanswered | StartRecord | AskJournal(out: Option<string>) | BindEntries | MakeRecord
    | PutRecord(out: Option<string>) | PushReport | ClearOpen

  /** The router, ending the exchange the harness exited on. */
  datatype LastMove =
    | MakeLast | PutLast(out: Option<string>) | PushLastReport | PushExit | PushLastEnd

  /** The harness, and Close. */
  datatype HarnessMove =
    | Emit(a: Arrival) | AppendEntry(run: Option<Xid>) | HangUp | Close

  predicate SendAt(s: Session, x: Xid, pc: Send) {
    x in s.sends && s.sends[x] == pc
  }

  predicate CancelAt(s: Session, x: Xid, pc: Cancel) {
    x in s.cancels && s.cancels[x] == pc
  }

  /** Exchange IDs are new. */
  predicate Unused(s: Session, x: Xid) {
    && x !in s.xs && x !in s.sends && x !in s.cancels && x !in s.live && Some(x) !in s.journal
    && forall i :: 0 <= i < |s.puts| ==> s.puts[i].rec.x != x
  }

  /** The exchange object x. */
  function Ex(xs: map<Xid, X.State>, x: Xid): X.State {
    if x in xs then xs[x] else X.New("", x, false)
  }

  function PushTo(xs: map<Xid, X.State>, x: Xid, ev: X.Event): map<Xid, X.State> {
    xs[x := X.Pushed(Ex(xs, x), ev)]
  }

  /** The open exchange once x is taken out of it. */
  function Without(open: Option<Xid>, x: Xid): Option<Xid> {
    if open == Some(x) then None else open
  }

  const UNANSWERED := "harness: the exchange ended without a structured response"

  function Joined(a: Option<string>, b: Option<string>): Option<string> {
    if a.Some? && b.Some? then Some(a.value + "\n" + b.value) else if a.Some? then a else b
  }

  function RecordOf(x: Xid, ex: X.State, entries: Entries, err: Option<string>): Record {
    Record(x, ex.result, if ex.err.Some? then ex.err else err, entries)
  }

  /** What the router does next once a record was put, or could not be. */
  function AfterStore(failure: Option<string>, next: Stage): Stage {
    if failure.Some? then Report(failure.value) else next
  }

  function CursorAfter(cursor: nat, entries: Entries): nat {
    if entries.Block? && entries.lo < entries.hi then entries.hi else cursor
  }

  predicate MaySend(s: Session, m: SendMove) {
    match m
    case Open(x, _) => s.cancelling.None? && !s.closed && !s.exited && s.open.None? && Unused(s, x)
    case TakeHead(x) => SendAt(s, x, Resyncing)
    case HeadFails(x, _) => SendAt(s, x, Resyncing)
    case SetCursor(x) => x in s.sends && s.sends[x].Resynced?
    case Accept(x) => SendAt(s, x, Prompting) && !s.hung
    case Refuse(x, _) => SendAt(s, x, Prompting)
    case Return(x) => SendAt(s, x, Accepted)
    case TakeBack(x) => x in s.sends && s.sends[x].Refused?
    case PushFailure(x) => x in s.sends && s.sends[x].Failing?
    case PushEnd(x) => SendAt(s, x, FailEnding)
  }

  function SendStep(s: Session, m: SendMove): Session
    requires MaySend(s, m)
  {
    match m
    case Open(x, schema) =>
      s.(open := Some(x), xs := s.xs[x := X.New("", x, schema)],
         sends := s.sends[x := if s.resync then Resyncing else Prompting])
    case TakeHead(x) => s.(sends := s.sends[x := Resynced(|s.journal|)])
    case HeadFails(x, err) => s.(sends := s.sends[x := Refused(err)])
    case SetCursor(x) => s.(cursor := s.sends[x].head, resync := false, sends := s.sends[x := Prompting])
    case Accept(x) => s.(live := s.live + {x}, sends := s.sends[x := Accepted])
    case Refuse(x, err) => s.(sends := s.sends[x := Refused(err)])
    case Return(x) => s.(sends := s.sends[x := Sent])
    case TakeBack(x) => s.(open := Without(s.open, x), sends := s.sends[x := Send.Failing(s.sends[x].err)])
    case PushFailure(x) => s.(xs := PushTo(s.xs, x, X.ErrorEvent(s.sends[x].err)), sends := s.sends[x := FailEnding])
    case PushEnd(x) => s.(xs := PushTo(s.xs, x, X.ENDED), sends := s.sends[x := Failed])
  }

  predicate MayCancel(s: Session, m: CancelMove) {
    match m
    case CallCancel(x) => SendAt(s, x, Sent) && x !in s.cancels
    case TooLate(x) => CancelAt(s, x, Deciding) && (s.open != Some(x) || s.runEnded)
    case Decide(x) => CancelAt(s, x, Deciding) && s.open == Some(x) && !s.runEnded
    case Mark(x) => CancelAt(s, x, Marking)
    case Asked(x, _) => CancelAt(s, x, Asking)
    case PushRefusal(x) => x in s.cancels && s.cancels[x].Complaining?
    case Free(x) => CancelAt(s, x, Freeing)
  }

  function CancelStep(s: Session, m: CancelMove): Session
    requires MayCancel(s, m)
  {
    match m
    case CallCancel(x) => s.(cancels := s.cancels[x := Deciding])
    case TooLate(x) => s.(cancels := s.cancels[x := Over])
    case Decide(x) => s.(cancelling := Some(x), cancels := s.cancels[x := Marking])
    case Mark(x) => s.(xs := s.xs[x := X.Marked(Ex(s.xs, x))], cancels := s.cancels[x := Asking])
    case Asked(x, out) =>
      s.(cancels := s.cancels[x := if out.Some? && !s.closed then Complaining(out.value) else Freeing])
    case PushRefusal(x) => s.(xs := PushTo(s.xs, x, X.ErrorEvent(s.cancels[x].err)), cancels := s.cancels[x := Freeing])
    case Free(x) => s.(cancelling := None, cancels := s.cancels[x := Over])
  }

  predicate MayRoute(s: Session, m: RouteMove) {
    match m
    case Take => s.route == Reading && s.arrivals != []
    case Drop => s.route.Looking? && s.open.None?
    case SeeEvent => s.route.Looking? && s.open.Some? && s.route.a.ev.kind != X.Ended
    case SeeEnd => s.route.Looking? && s.open.Some? && s.route.a.ev.kind == X.Ended
    case Deliver => s.route.Delivering?
    case SeeExit => s.route == Reading && s.arrivals == [] && s.hung
    case Leave => s.route == Leaving
  }

  function RouteStep(s: Session, m: RouteMove): Session
    requires MayRoute(s, m)
  {
    match m
    case Take => s.(arrivals := s.arrivals[1..], route := Looking(s.arrivals[0]))
    case Drop => s.(route := Reading)
    case SeeEvent => s.(route := Delivering(s.open.value, s.route.a))
    case SeeEnd => s.(runEnded := true, route := Ending(s.open.value, s.route.a, Check))
    case Deliver => s.(xs := PushTo(s.xs, s.route.x, s.route.a.ev), route := Reading)
    case SeeExit => s.(route := Leaving)
    case Leave =>
      s.(exited := true, open := None,
         route := if s.open.Some? then Last(s.open.value, Write(Unbound, Some(s.exitErr))) else Gone)
  }

  predicate MayEnd(s: Session, m: EndMove) {
    match m
    case CheckAnswer => s.route.Ending? && s.route.stage.Check?
    case PushUnanswered => s.route.Ending? && s.route.stage.Complain?
    case StartRecord => s.route.Ending? && s.route.stage.Start?
    case AskJournal(_) => s.route.Ending? && s.route.stage.Call?
    case BindEntries => s.route.Ending? && s.route.stage.Bind?
    case MakeRecord => s.route.Ending? && s.route.stage.Write?
    case PutRecord(_) => s.route.Ending? && s.route.stage.Store?
    case PushReport => s.route.Ending? && s.route.stage.Report?
    case ClearOpen => s.route.Ending? && s.route.stage.Clear?
  }

  function EndStep(s: Session, m: EndMove): Session
    requires MayEnd(s, m)
  {
    var (x, a, stage) := (s.route.x, s.route.a, s.route.stage);
    match m
    case CheckAnswer => s.(route := Ending(x, a, if X.Unanswered(Ex(s.xs, x)) then Complain else Start))
    case PushUnanswered =>
      s.(xs := PushTo(s.xs, x, X.ErrorEvent(UNANSWERED)), route := Ending(x, a, Start))
    case StartRecord =>
      s.(route := Ending(x, a, if !s.stored then Clear else if s.journaled then Call(s.cursor) else Write(Unbound, None)))
    case AskJournal(out) =>
      s.(route := Ending(x, a, Bind(if out.Some? then Unbound else Block(stage.cursor, |s.journal|), out)))
    case BindEntries =>
      var failed := stage.err.Some?;
      s.(resync := s.resync || failed, cursor := if failed then s.cursor else CursorAfter(s.cursor, stage.entries),
         route := Ending(x, a, Write(stage.entries, stage.err)))
    case MakeRecord =>
      s.(route := Ending(x, a, Store(RecordOf(x, Ex(s.xs, x), stage.entries, stage.err), stage.err)))
    case PutRecord(out) =>
      s.(puts := s.puts + [Put(stage.rec, out.None?)],
         route := Ending(x, a, AfterStore(Joined(stage.err, out), Clear)))
    case PushReport =>
      s.(xs := PushTo(s.xs, x, X.ErrorEvent(stage.failure)), route := Ending(x, a, Clear))
    case ClearOpen =>
      s.(open := Without(s.open, x), runEnded := false, route := Delivering(x, a))
  }

  predicate MayLast(s: Session, m: LastMove) {
    match m
    case MakeLast => s.route.Last? && s.route.stage.Write?
    case PutLast(_) => s.route.Last? && s.route.stage.Store?
    case PushLastReport => s.route.Last? && s.route.stage.Report?
    case PushExit => s.route.Last? && s.route.stage.Fail?
    case PushLastEnd => s.route.Last? && s.route.stage.End?
  }

  function LastStep(s: Session, m: LastMove): Session
    requires MayLast(s, m)
  {
    var (x, stage) := (s.route.x, s.route.stage);
    match m
    case MakeLast =>
      s.(route := Last(x, Store(RecordOf(x, Ex(s.xs, x), stage.entries, stage.err), None)))
    case PutLast(out) =>
      s.(puts := if s.stored then s.puts + [Put(stage.rec, out.None?)] else s.puts,
         route := Last(x, AfterStore(if s.stored then out else None, Fail)))
    case PushLastReport =>
      s.(xs := PushTo(s.xs, x, X.ErrorEvent(stage.failure)), route := Last(x, Fail))
    case PushExit => s.(xs := PushTo(s.xs, x, X.ErrorEvent(s.exitErr)), route := Last(x, End))
    case PushLastEnd => s.(xs := PushTo(s.xs, x, X.ENDED), route := Gone)
  }

  /** The Connection's contract: a run's end comes once, from a prompt it accepted, and nothing else
      ends a run. */
  predicate MayHarness(s: Session, m: HarnessMove) {
    match m
    case Emit(a) => !s.hung && if a.run.Some? then a.run.value in s.live else a.ev.kind != X.Ended
    case AppendEntry(run) => run.Some? ==> run.value in s.live
    case HangUp => true
    case Close => true
  }

  function HarnessStep(s: Session, m: HarnessMove): Session
    requires MayHarness(s, m)
  {
    match m
    case Emit(a) =>
      s.(arrivals := s.arrivals + [a],
         live := if a.ev.kind == X.Ended && a.run.Some? then s.live - {a.run.value} else s.live)
    case AppendEntry(run) => s.(journal := s.journal + [run])
    case HangUp => s.(hung := true)
    case Close => s.(closed := true)
  }

  // ---- Histories ---------------------------------------------------------------------------

  ghost predicate Next(s: Session, s': Session) {
    || (exists m :: MaySend(s, m) && s' == SendStep(s, m))
    || (exists m :: MayCancel(s, m) && s' == CancelStep(s, m))
    || (exists m :: MayRoute(s, m) && s' == RouteStep(s, m))
    || (exists m :: MayEnd(s, m) && s' == EndStep(s, m))
    || (exists m :: MayLast(s, m) && s' == LastStep(s, m))
    || (exists m :: MayHarness(s, m) && s' == HarnessStep(s, m))
  }

  /** A session from its opening on: any interleaving of everyone's moves. */
  ghost predicate History(ss: seq<Session>) {
    && ss != [] && Init(ss[0])
    && forall n :: 0 <= n < |ss| - 1 ==> Next(ss[n], ss[n + 1])
  }

  ghost predicate Reachable(s: Session) {
    exists ss :: ss != [] && History(ss) && Common.Last(ss) == s
  }
}
