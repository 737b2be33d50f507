/** Which journal entries the records of a session bind, over any of its moves. */
module SessionJournal {
  import opened Common
  import X = Exchanges
  import opened Sessions
  import opened SessionInvariants

  type Journal = seq<Option<Xid>>

  // ---- Opening a session -------------------------------------------------------------------------

  /** What Journal.Since makes of an entry's ID. */
  datatype Since = Held | UnknownEntry | Unreadable

  datatype Verdict = Matches | Mismatch(entry: string) | JournalFails

  /** The k-th record is the last put that names any entries. */
  predicate Newest(records: seq<seq<string>>, k: nat) {
    k < |records| && records[k] != [] && forall j :: k < j < |records| ==> records[j] == []
  }

  /** verify: the journal must still hold the last entry recorded, if one was. */
  method Verify(records: seq<seq<string>>, since: string -> Since) returns (v: Verdict)
    ensures (forall k :: 0 <= k < |records| ==> records[k] == []) ==> v == Matches
    ensures forall k: nat :: Newest(records, k) ==>
      var last := Common.Last(records[k]);
      && (v == Matches <==> last == "" || since(last) == Held)
      && (v == Mismatch(last) <==> last != "" && since(last) == UnknownEntry)
      && (v == JournalFails <==> last != "" && since(last) == Unreadable)
  {
    var last := "";
    ghost var at: Option<nat> := None;
    for k := 0 to |records|
      invariant at.None? ==> last == "" && forall j :: 0 <= j < k ==> records[j] == []
      invariant at.Some? ==> at.value < k && Newest(records[..k], at.value) && last == Common.Last(records[at.value])
    {
      if |records[k]| > 0 {
        last := records[k][|records[k]| - 1];
        at := Some(k);
      }
    }
    assert records[..|records|] == records;
    if last == "" {
      return Matches;
    }
    match since(last) {
      case Held => return Matches;
      case UnknownEntry => return Mismatch(last);
      case Unreadable => return JournalFails;
    }
  }

  /** The entries hold all of x's and no other run's. */
  predicate Exact(journal: Journal, x: Xid, e: Entries) {
    e.Block? ==>
      && e.lo <= e.hi <= |journal|
      && (forall i :: 0 <= i < |journal| && journal[i] == Some(x) ==> e.lo <= i < e.hi)
      && (forall i :: e.lo <= i < e.hi ==> journal[i].None? || journal[i] == Some(x))
  }

  /** From pos on, the journal holds entries of no run but x's. */
  predicate Only(journal: Journal, pos: nat, x: Option<Xid>) {
    forall i :: pos <= i < |journal| && journal[i].Some? ==> journal[i] == x
  }

  predicate NoneBefore(journal: Journal, pos: nat, x: Xid) {
    forall i :: 0 <= i < pos && i < |journal| ==> journal[i] != Some(x)
  }

  /** x's run is over, and the entries are exactly its own. */
  predicate Owns(journal: Journal, sends: Sends, live: set<Xid>, x: Xid, e: Entries) {
    e.Block? ==> Exact(journal, x, e) && Running(sends, x) && x !in live
  }

  predicate Before(puts: seq<Put>, pos: nat) {
    forall i :: 0 <= i < |puts| && puts[i].rec.entries.Block? ==> puts[i].rec.entries.hi <= pos
  }

  /** Blocks come after the head and one after another. */
  predicate Ordered(puts: seq<Put>, head: nat) {
    && (forall i :: 0 <= i < |puts| && puts[i].rec.entries.Block? ==>
          head <= puts[i].rec.entries.lo <= puts[i].rec.entries.hi)
    && (forall i, j :: 0 <= i < j < |puts| && puts[i].rec.entries.Block? && puts[j].rec.entries.Block? ==>
          puts[i].rec.entries.hi <= puts[j].rec.entries.lo)
  }

  predicate AllOwned(puts: seq<Put>, journal: Journal, sends: Sends, live: set<Xid>) {
    forall i :: 0 <= i < |puts| ==> Owns(journal, sends, live, puts[i].rec.x, puts[i].rec.entries)
  }

  // ---- The cursor --------------------------------------------------------------------------------

  /** The router has yet to bind the entries of the exchange it ends. */
  predicate Unclaimed(stage: Stage) {
    stage.Check? || stage.Complain? || stage.Start? || stage.Call? || stage.Bind?
  }

  /** The exchange whose entries the cursor stands before. */
  function Claimant(open: Option<Xid>, sends: Sends, route: Route): Option<Xid> {
    if open.Some? && Running(sends, open.value) && (route.Ending? ==> Unclaimed(route.stage)) then open else None
  }

  predicate Cursor(cursor: nat, resync: bool, journal: Journal, claimant: Option<Xid>) {
    && (!resync ==> Only(journal, cursor, claimant))
    && (claimant.Some? ==> !resync && NoneBefore(journal, cursor, claimant.value))
  }

  predicate Prepared(sends: Sends, cursor: nat, resync: bool, journal: Journal) {
    forall x :: x in sends ==>
      && (sends[x].Prompting? ==> !resync)
      && (sends[x].Resynced? ==> cursor <= sends[x].head <= |journal| && Only(journal, sends[x].head, None))
  }

  /** Only a run appends entries in its name. */
  predicate Owned(journal: Journal, sends: Sends) {
    forall i :: 0 <= i < |journal| && journal[i].Some? ==> Running(sends, journal[i].value)
  }

  /** A block after every block recorded, which the cursor has passed. */
  predicate Follows(e: Entries, puts: seq<Put>, head: nat, cursor: nat) {
    e.Block? ==> head <= e.lo <= e.hi <= cursor && Before(puts, e.lo)
  }

  predicate StageBinds(s: Session, x: Xid, stage: Stage) {
    match stage
    case Call(cursor) => cursor == s.cursor
    case Bind(entries, err) =>
      && Owns(s.journal, s.sends, s.live, x, entries) && (err.None? <==> entries.Block?)
      && (entries.Block? ==> entries.lo == s.cursor && Only(s.journal, entries.hi, None))
    case Write(entries, _) =>
      Owns(s.journal, s.sends, s.live, x, entries) && Follows(entries, s.puts, s.head, s.cursor)
    case Store(rec, _) =>
      && rec.x == x && Owns(s.journal, s.sends, s.live, x, rec.entries)
      && Follows(rec.entries, s.puts, s.head, s.cursor)
    case _ => true
  }

  /** A stage that binds no entries. */
  predicate BindsNone(stage: Stage) {
    match stage
    case Call(_) => false
    case Bind(_, _) => false
    case Write(entries, _) => entries.Unbound?
    case Store(rec, _) => rec.entries.Unbound?
    case _ => true
  }

  predicate Staging(s: Session) {
    match s.route
    case Ending(x, _, stage) => if s.journaled then StageBinds(s, x, stage) else BindsNone(stage)
    case Last(_, stage) => BindsNone(stage)
    case _ => true
  }

  predicate Tracked(s: Session) {
    s.journaled && !s.exited ==>
      && s.stored && s.head <= s.cursor <= |s.journal| && Before(s.puts, s.cursor)
      && Cursor(s.cursor, s.resync, s.journal, Claimant(s.open, s.sends, s.route))
      && Prepared(s.sends, s.cursor, s.resync, s.journal)
  }

  /** Every block bound is exactly its run's, and blocks follow one another from the head on. */
  predicate Bound(s: Session) {
    Ordered(s.puts, s.head) && AllOwned(s.puts, s.journal, s.sends, s.live) && Owned(s.journal, s.sends)
  }

  predicate Blocks(s: Session) {
    Bound(s) && Tracked(s) && Staging(s)
  }

  // ---- The moves of Send -------------------------------------------------------------------------

  lemma BlocksAccept(s: Session, x: Xid)
    requires Blocks(s) && Staged(s) && MaySend(s, Accept(x))
    ensures Blocks(SendStep(s, Accept(x)))
  {
    hide Exact, Flow;
    assert s.open == Some(x) && !s.route.Ending? && !s.exited;
    assert Bound(SendStep(s, Accept(x))) by {
      hide Ordered, Tracked, Staging;
    }
    hide Owns, Ordered;
  }

  lemma BlocksSetCursor(s: Session, x: Xid)
    requires Blocks(s) && Staged(s) && MaySend(s, SetCursor(x))
    ensures Blocks(SendStep(s, SetCursor(x)))
  {
    hide Exact, Flow, Ordered;
    assert s.exited || (s.open == Some(x) && !s.route.Ending?);
  }

  lemma SameRunning(s: Session, s': Session)
    requires Bound(s) && s'.puts == s.puts && s'.head == s.head && s'.journal == s.journal && s'.live == s.live
    requires forall x :: Running(s.sends, x) ==> Running(s'.sends, x)
    ensures Bound(s')
  {
    hide Exact, Ordered;
  }

  lemma BlocksOpen(s: Session, x: Xid, schema: bool)
    requires Blocks(s) && Staged(s) && MaySend(s, Open(x, schema))
    ensures Blocks(SendStep(s, Open(x, schema)))
  {
    SameRunning(s, SendStep(s, Open(x, schema)));
    hide Exact, Flow, Only, Before, Bound;
  }

  lemma BlocksTakeHead(s: Session, x: Xid)
    requires Blocks(s) && Staged(s) && MaySend(s, TakeHead(x))
    ensures Blocks(SendStep(s, TakeHead(x)))
  {
    SameRunning(s, SendStep(s, TakeHead(x)));
    hide Exact, Flow, Before, Bound;
  }

  lemma BlocksTakeBack(s: Session, x: Xid)
    requires Blocks(s) && Staged(s) && MaySend(s, TakeBack(x))
    ensures Blocks(SendStep(s, TakeBack(x)))
  {
    SameRunning(s, SendStep(s, TakeBack(x)));
    hide Exact, Flow, Only, Before, Bound;
  }

  /** A control point that runs nothing new and needs nothing of the cursor. */
  lemma BlocksPc(s: Session, x: Xid, pc: Send, s': Session)
    requires Blocks(s) && x in s.sends && !pc.Prompting? && !pc.Resynced?
    requires Running(s.sends, x) <==> pc.Accepted? || pc.Sent?
    requires s' == s.(sends := s.sends[x := pc], xs := s'.xs)
    ensures Blocks(s')
  {
    SameRunning(s, s');
    hide Exact, Only, Before, Bound, NoneBefore;
  }

  lemma BlocksSend(s: Session, m: SendMove)
    requires Blocks(s) && Staged(s) && MaySend(s, m)
    ensures Blocks(SendStep(s, m))
  {
    hide Blocks, Staged, PushTo;
    match m {
      case Open(x, schema) => BlocksOpen(s, x, schema);
      case TakeHead(x) => BlocksTakeHead(s, x);
      case Accept(x) => BlocksAccept(s, x);
      case SetCursor(x) => BlocksSetCursor(s, x);
      case TakeBack(x) => BlocksTakeBack(s, x);
      case HeadFails(x, err) => BlocksPc(s, x, Refused(err), SendStep(s, m));
      case Refuse(x, err) => BlocksPc(s, x, Refused(err), SendStep(s, m));
      case Return(x) => BlocksPc(s, x, Sent, SendStep(s, m));
      case PushFailure(x) => BlocksPc(s, x, FailEnding, SendStep(s, m));
      case PushEnd(x) => BlocksPc(s, x, Failed, SendStep(s, m));
    }
  }

  // ---- The router's moves ------------------------------------------------------------------------

  lemma BlocksRoute(s: Session, m: RouteMove)
    requires Blocks(s) && Staged(s) && MayRoute(s, m)
    ensures Blocks(RouteStep(s, m))
  {
    SameRunning(s, RouteStep(s, m));
    hide Exact, Flow, Only, Before, NoneBefore, Prepared, Bound, Opened, PushTo;
  }

  lemma BlocksAsk(s: Session, out: Option<string>)
    requires Blocks(s) && Staged(s) && MayEnd(s, AskJournal(out))
    ensures Blocks(EndStep(s, AskJournal(out)))
  {
    SameRunning(s, EndStep(s, AskJournal(out)));
    hide Flow, Opened, Before, Bound, Prepared;
  }

  lemma BlocksBind(s: Session)
    requires Blocks(s) && Staged(s) && MayEnd(s, BindEntries)
    ensures Blocks(EndStep(s, BindEntries))
  {
    SameRunning(s, EndStep(s, BindEntries));
    hide Flow, Bound;
    assert forall x :: x in s.sends ==> !Preparing(s.sends[x]);
  }

  lemma BlocksPut(s: Session, out: Option<string>)
    requires Blocks(s) && Staged(s) && MayEnd(s, PutRecord(out))
    ensures Blocks(EndStep(s, PutRecord(out)))
  {
    hide Flow, Opened, Exact, Only, Prepared, Joined;
  }

  lemma BlocksEnd(s: Session, m: EndMove)
    requires Blocks(s) && Staged(s) && MayEnd(s, m)
    ensures Blocks(EndStep(s, m))
  {
    match m {
      case AskJournal(out) => BlocksAsk(s, out);
      case BindEntries => BlocksBind(s);
      case PutRecord(out) => BlocksPut(s, out);
      case _ => BlocksStage(s, m);
    }
  }

  lemma BlocksStage(s: Session, m: EndMove)
    requires Blocks(s) && Staged(s) && MayEnd(s, m) && !m.AskJournal? && !m.BindEntries? && !m.PutRecord?
    ensures Blocks(EndStep(s, m))
  {
    hide Staged, Tracked, Staging, MayEnd, EndStep;
    StageLeaves(s, m);
    SameRunning(s, EndStep(s, m));
    StageTracked(s, m);
    StageStaging(s, m);
    hide Bound;
  }

  lemma StageTracked(s: Session, m: EndMove)
    requires Tracked(s) && Staging(s) && Staged(s) && MayEnd(s, m) && !m.AskJournal? && !m.BindEntries? && !m.PutRecord?
    ensures Tracked(EndStep(s, m))
  {
    hide Flow, Opened, Exact, Only, Before, Prepared, NoneBefore, PushTo;
  }

  lemma StageStaging(s: Session, m: EndMove)
    requires Tracked(s) && Staging(s) && Staged(s) && MayEnd(s, m) && !m.AskJournal? && !m.BindEntries? && !m.PutRecord?
    ensures Staging(EndStep(s, m))
  {
    hide Flow, Opened, Exact, Only, Before, Prepared, NoneBefore, PushTo;
  }

  lemma StageLeaves(s: Session, m: EndMove)
    requires MayEnd(s, m) && !m.AskJournal? && !m.BindEntries? && !m.PutRecord?
    ensures var s' := EndStep(s, m);
      s'.puts == s.puts && s'.head == s.head && s'.journal == s.journal && s'.live == s.live && s'.sends == s.sends
  {
    hide PushTo, MayEnd;
    match m {
      case CheckAnswer =>
      case PushUnanswered =>
      case StartRecord =>
      case MakeRecord =>
      case PushReport =>
      case ClearOpen =>
    }
  }

  lemma BlocksLast(s: Session, m: LastMove)
    requires Blocks(s) && Staged(s) && MayLast(s, m)
    ensures Blocks(LastStep(s, m))
  {
    hide Flow, Opened, Handed, Exact, Only, Prepared, NoneBefore, PushTo;
  }

  // ---- The harness's moves -----------------------------------------------------------------------

  lemma AppendExact(journal: Journal, x: Xid, e: Entries, run: Option<Xid>)
    requires Exact(journal, x, e) && run != Some(x)
    ensures Exact(journal + [run], x, e)
  {
  }

  lemma AppendOwned(puts: seq<Put>, journal: Journal, sends: Sends, live: set<Xid>, run: Option<Xid>)
    requires AllOwned(puts, journal, sends, live) && (run.Some? ==> run.value in live)
    ensures AllOwned(puts, journal + [run], sends, live)
  {
    hide Exact;
    forall i | 0 <= i < |puts| && puts[i].rec.entries.Block?
      ensures Exact(journal + [run], puts[i].rec.x, puts[i].rec.entries)
    {
      AppendExact(journal, puts[i].rec.x, puts[i].rec.entries, run);
    }
  }

  lemma AppendStaging(s: Session, run: Option<Xid>)
    requires Staging(s) && Staged(s) && MayHarness(s, AppendEntry(run))
    ensures Staging(HarnessStep(s, AppendEntry(run)))
  {
    hide Flow, Exact, Before;
    if s.route.Ending? {
      assert !s.exited && s.live == {};
      var stage := s.route.stage;
      if stage.Bind? || stage.Write? {
        if stage.entries.Block? && s.journaled {
          AppendExact(s.journal, s.route.x, stage.entries, run);
        }
      } else if stage.Store? {
        if stage.rec.entries.Block? && s.journaled {
          AppendExact(s.journal, s.route.x, stage.rec.entries, run);
        }
      }
    }
  }

  lemma AppendTracked(s: Session, run: Option<Xid>)
    requires Tracked(s) && Staged(s) && MayHarness(s, AppendEntry(run))
    ensures Tracked(HarnessStep(s, AppendEntry(run)))
  {
    hide Flow, Before;
    if run.Some? && !s.exited {
      assert Current(s.open, s.sends, s.route.Ending?) == run;
    }
  }

  lemma BlocksHarness(s: Session, m: HarnessMove)
    requires Blocks(s) && Staged(s) && MayHarness(s, m)
    ensures Blocks(HarnessStep(s, m))
  {
    match m {
      case AppendEntry(run) =>
        AppendOwned(s.puts, s.journal, s.sends, s.live, run);
        AppendStaging(s, run);
        AppendTracked(s, run);
        hide Ordered, AllOwned, Staging, Tracked, Flow, Exits, Handed;
      case Emit(a) =>
        hide Exact, Only, Before, Ordered, Prepared, NoneBefore, Owned, Staged;
      case _ =>
        hide Exact, Only, Before, Ordered, Prepared, NoneBefore, Owned, Staged;
    }
  }

  lemma BlocksCancel(s: Session, m: CancelMove)
    requires Blocks(s) && MayCancel(s, m)
    ensures Blocks(CancelStep(s, m))
  {
    hide PushTo, Exact, Only, Before, Ordered, Prepared, NoneBefore, Owned, AllOwned, Cursor, Follows, Owns;
  }
}
