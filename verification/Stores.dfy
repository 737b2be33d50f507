/**
 * The Runner's log on the file store (workflow/runner.go: log; workflow/filestore): the outcomes an
 * append has for a run are exactly those of an Append to a file that holds the log. An Append may be
 * many calls among other writers', if each of them is clear: runners that share one Store make no
 * others, and processes that share a file keep its log only while they make none (Writers).
 */
module Stores {
  import opened Common
  import opened RunStates
  import opened RunProtocol
  import Runners
  import RunnerTheorems
  import F = LogFiles
  import W = Writers

  /** The file b stands for the log, by an encoding of events whose numbers are their Seq. */
  ghost predicate Holds(c: F.Codec<Event>, b: F.Bytes, log: seq<Event>) {
    && F.Lawful(c) && (forall e: Event {:trigger c.num(e)} :: c.num(e) == e.num)
    && F.Numbered(c, log) && F.Represents(c, b, log)
  }

  lemma HoldsMore(c: F.Codec<Event>, b: F.Bytes, log: seq<Event>, e: Event)
    requires Holds(c, b, log) && e.num == |log| + 1
    ensures F.Numbered(c, log + [e]) && c.num(e) == |log| + 1
    ensures F.Represents(c, F.Lines(c, log + [e]), log + [e])
  {
    F.CleanRepresents(c, log + [e], e);
  }

  lemma SyncFailsHold(c: F.Codec<Event>, b: F.Bytes, log: seq<Event>, e: Event)
    requires Holds(c, b, log) && e.num == |log| + 1
    ensures F.Append(c, b, e, F.SyncFails) == (F.Lines(c, log + [e]), F.IOFailed)
  {
    F.RepairsTheLog(c, b, log);
    F.LastNumOfLog(c, log);
    F.LinesSnoc(c, log, e);
    assert c.num(e) == e.num;
    assert F.Lines(c, log) + c.enc(e) + [F.NL] == F.Lines(c, log) + (c.enc(e) + [F.NL]);
    hide F.Lawful, F.Represents, F.Lines, F.Repair, F.LastNum, F.Numbered;
  }

  /** What Append does to a file that holds the log, for an event of the run. */
  lemma AppendHolds(c: F.Codec<Event>, b: F.Bytes, log: seq<Event>, e: Event, fault: F.Fault)
    requires Holds(c, b, log)
    ensures var (b', r) := F.Append(c, b, e, fault);
            && (Holds(c, b', log) || (e.num == |log| + 1 && Holds(c, b', log + [e])))
            && (r == F.Appended ==> e.num == |log| + 1 && Holds(c, b', log + [e]))
            && (fault == F.NoFault && e.num == |log| + 1 ==> r == F.Appended)
            && (fault == F.ReadFails ==> r != F.Appended && b' == b)
            && (fault == F.SyncFails && e.num == |log| + 1 ==> r != F.Appended && Holds(c, b', log + [e]))
  {
    F.AppendIsAtomic(c, b, log, e, fault);
    assert c.num(e) == e.num;
    hide F.Lawful, F.Represents, F.Lines, F.Repair, F.LastNum, F.Numbered;
    if e.num == |log| + 1 {
      HoldsMore(c, b, log, e);
      SyncFailsHold(c, b, log, e);
    }
  }

  /** However an Append of a run's event goes, its file, and what it reports, are those of an outcome of
      the run's log. */
  lemma AppendsAreLogs(c: F.Codec<Event>, b: F.Bytes, a: Local, e: Event, fault: F.Fault)
    returns (out: Append, a': Local)
    requires Holds(c, b, a.log) && Applied(a.r.state, Stamped(a.r, e)).Ok?
    ensures var (b', r) := F.Append(c, b, Stamped(a.r, e), fault);
            Logs(a, e, out, a', r == F.Appended) && Holds(c, b', a'.log)
  {
    hide Holds, Applied, F.Append, Stamped;
    var e' := Stamped(a.r, e);
    var next := Applied(a.r.state, e').value;
    var (b', r) := F.Append(c, b, e', fault);
    AppendHolds(c, b, a.log, e', fault);
    if r == F.Appended {
      out, a' := Written, a.(r := a.r.(state := next), log := a.log + [e']);
    } else if Holds(c, b', a.log) {
      out, a' := Lost, a.(r := WithCause(a.r, LogFailed));
    } else {
      out, a' := Unreported, a.(r := WithCause(a.r, LogFailed), log := a.log + [e']);
    }
  }

  /** The fault behind an outcome. */
  function FaultOf(out: Append): F.Fault {
    match out
    case Written => F.NoFault
    case Lost => F.ReadFails
    case Unreported => F.SyncFails
  }

  /** And each outcome of the run's log is one an Append has. */
  lemma LogsAreAppends(c: F.Codec<Event>, b: F.Bytes, a: Local, e: Event, out: Append, a': Local, ok: bool)
    requires Holds(c, b, a.log) && Applied(a.r.state, Stamped(a.r, e)).Ok? && Logs(a, e, out, a', ok)
    ensures var (b', r) := F.Append(c, b, Stamped(a.r, e), FaultOf(out));
            ok == (r == F.Appended) && Holds(c, b', a'.log)
  {
    hide Holds, Applied, F.Append, Stamped;
    AppendHolds(c, b, a.log, Stamped(a.r, e), FaultOf(out));
  }

  // ---- Among other writers ---------------------------------------------------------------------

  /** The file holds the log while Appends are under way. */
  ghost predicate HoldsAmong(c: F.Codec<Event>, f: W.File<Event>, log: seq<Event>) {
    W.Keyed(c) && W.Stands(c, f, log) && forall e: Event {:trigger c.num(e)} :: c.num(e) == e.num
  }

  /** A clear write of a run's event, cut short or not, is an outcome of the run's log, at that moment and
      whatever other writers did since the Append began. */
  lemma ClearWritesAreLogs(c: F.Codec<Event>, f: W.File<Event>, a: Local, e: Event, w: nat, kept: nat, synced: bool)
    returns (out: Append, a': Local)
    requires HoldsAmong(c, f, a.log) && Applied(a.r.state, Stamped(a.r, e)).Ok?
    requires w in f.writers && f.writers[w].Ready? && f.writers[w].e == Stamped(a.r, e)
    requires W.Clear(c, f, W.Write(w, kept, synced))
    ensures var f' := W.Step(c, f, W.Write(w, kept, synced));
            Logs(a, e, out, a', f'.reported != f.reported) && HoldsAmong(c, f', a'.log)
  {
    hide W.Keyed, W.Stands, W.Clear, Applied, Stamped;
    var e' := Stamped(a.r, e);
    var log' := W.WriteStands(c, f, a.log, w, kept, synced);
    if kept < |c.enc(e')| {
      out, a' := Lost, a.(r := WithCause(a.r, LogFailed));
    } else if kept >= |W.LineOf(c, e')| && synced {
      out, a' := Written, a.(r := a.r.(state := Applied(a.r.state, e').value), log := log');
    } else {
      out, a' := Unreported, a.(r := WithCause(a.r, LogFailed), log := log');
    }
  }

  /** Every other clear move leaves every run's log alone. */
  lemma OtherMovesLogNothing(c: F.Codec<Event>, f: W.File<Event>, log: seq<Event>, m: W.Move<Event>)
    requires HoldsAmong(c, f, log) && W.Enabled(f, m) && W.Clear(c, f, m) && !m.Write?
    ensures HoldsAmong(c, W.Step(c, f, m), log)
  {
    hide W.Keyed, W.Stands, W.Clear, W.Step, W.Enabled;
    var log' := W.ClearStands(c, f, log, m);
  }

  /** What a file that holds a run's log gives a reader at any cursor: the log's events past it, of a log
      that folds, if every line fits. */
  lemma FileFolds(w: Runners.World, id: string, c: F.Codec<Event>, b: F.Bytes, after: int)
    requires Runners.Reachable(w) && id in w.disk && Holds(c, b, w.disk[id]) && F.Fits(b)
    ensures F.Read(c, b, after) == Ok(w.disk[id][F.Past(after, |w.disk[id]|)..]) && Fold(w.disk[id]).Ok?
  {
    hide Runners.Reachable, F.Fits, F.Lawful, F.Represents, F.Read, Fold;
    RunnerTheorems.EveryLogFolds(w, id);
    F.ReadsAfterTheCursor(c, b, w.disk[id], after);
  }
}
