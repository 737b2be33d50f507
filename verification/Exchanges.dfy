/**
 * One exchange of a session (harness/exchange.go): the events pushed to it, numbered and folded
 * into its result. Pushed is the meaning of one push; Exchange is the source's object.
 */
module Exchanges {
  import opened Common
  import opened Workflows

  datatype Kind =
    | Started | TextDelta | ThinkingDelta | ToolCall | ToolResult | MessageEnd | Cancelled
    | Structured | StructuredRejected | LimitNotice | Error | Ended | Harness

  /** What of an event the exchange reads or stamps; err is the error's text. */
  datatype Event = Event(
    kind: Kind, text: string, stopReason: string, usage: Option<Usage>, structured: string, err: string,
    sessionID: string, exchange: nat, num: nat)

  const NO_USAGE := Usage(0, 0, 0, 0)
  const NO_RESULT := HarnessResult("", "", "", NO_USAGE)

  function ErrorEvent(err: string): Event {
    Event(Error, "", "", None, "", err, "", 0, 0)
  }

  const ENDED := Event(Ended, "", "", None, "", "", "", 0, 0)

  function Sum(a: Usage, b: Usage): Usage {
    Usage(a.input + b.input, a.output + b.output, a.cacheRead + b.cacheRead, a.cacheWrite + b.cacheWrite)
  }

  /** queued is all that was ever put in the exchange's event queue. */
  datatype State = State(
    sessionID: string, id: nat, schema: bool,
    final: bool, cancelled: bool, result: HarnessResult, err: Option<string>, queued: seq<Event>)

  function New(sessionID: string, id: nat, schema: bool): State {
    State(sessionID, id, schema, false, false, NO_RESULT, None, [])
  }

  function ResultAfter(r: HarnessResult, ev: Event): HarnessResult {
    match ev.kind
    case MessageEnd =>
      r.(stopReason := ev.stopReason, text := ev.text, usage := if ev.usage.Some? then Sum(r.usage, ev.usage.value) else r.usage)
    case Structured => r.(structured := ev.structured)
    case _ => r
  }

  /** ev as it is queued: stamped, and ended with the result's stop reason. */
  function Stamped(x: State, ev: Event): Event {
    ev.(sessionID := x.sessionID, exchange := x.id, num := |x.queued| + 1,
        stopReason := if ev.kind == Ended then x.result.stopReason else ev.stopReason)
  }

  function Pushed(x: State, ev: Event): State {
    if x.final then x
    else
      x.(queued := x.queued + [Stamped(x, ev)],
         result := ResultAfter(x.result, ev),
         cancelled := x.cancelled || ev.kind == Cancelled,
         err := if ev.kind == Error && x.err.None? then Some(ev.err) else x.err,
         final := ev.kind == Ended)
  }

  function Marked(x: State): State {
    x.(cancelled := true)
  }

  /** The request carried a schema, and nothing has answered, cancelled, or failed it. */
  predicate Unanswered(x: State) {
    x.schema && x.result.structured == "" && !x.cancelled && x.err.None?
  }

  // ---- The source's object -----------------------------------------------------------------

  class Exchange {
    const sessionID: string
    const id: nat
    const schema: bool
    var num: nat
    var final: bool
    var cancelled: bool
    var result: HarnessResult
    var err: Option<string>
    /** What events.Push was given, whether events and ended are closed, and unwatch was called. */
    var queued: seq<Event>
    var closed: bool
    var unwatched: bool

    function View(): State
      reads this
    {
      State(sessionID, id, schema, final, cancelled, result, err, queued)
    }

    /** The counter counts what is queued, and the end closes the queue and ends the watch. */
    ghost predicate Valid()
      reads this
    {
      num == |queued| && closed == final && unwatched == final
    }

    constructor (sessionID: string, id: nat, schema: bool)
      ensures Valid() && View() == New(sessionID, id, schema)
    {
      this.sessionID, this.id, this.schema := sessionID, id, schema;
      num, final, cancelled, result, err := 0, false, false, NO_RESULT, None;
      queued, closed, unwatched := [], false, false;
    }

    method Push(ev: Event)
      requires Valid()
      modifies this
      ensures Valid() && View() == Pushed(old(View()), ev)
    {
      if final {
        return;
      }
      num := num + 1;
      var stamped := ev.(sessionID := sessionID, exchange := id, num := num);
      match ev.kind {
        case MessageEnd =>
          result := result.(stopReason := ev.stopReason, text := ev.text);
          if ev.usage.Some? {
            result := result.(usage := Sum(result.usage, ev.usage.value));
          }
        case Structured =>
          result := result.(structured := ev.structured);
        case Cancelled =>
          cancelled := true;
        case Error =>
          if err.None? {
            err := Some(ev.err);
          }
        case Ended =>
          stamped := stamped.(stopReason := result.stopReason);
          final := true;
        case _ =>
      }
      queued := queued + [stamped];
      if ev.kind == Ended {
        closed, unwatched := true, true;
      }
    }

    method MarkCancelled()
      requires Valid()
      modifies this
      ensures Valid() && View() == Marked(old(View()))
    {
      cancelled := true;
    }

    method IsUnanswered() returns (b: bool)
      ensures b == Unanswered(View())
    {
      b := schema && |result.structured| == 0 && !cancelled && err.None?;
    }

    /** fail ends the exchange with an error, and its own pushes change nothing once it has ended. */
    method Fail(failure: string)
      requires Valid()
      modifies this
      ensures Valid() && final
      ensures View() == Pushed(Pushed(old(View()), ErrorEvent(failure)), ENDED)
      ensures old(final) ==> View() == old(View())
    {
      Push(ErrorEvent(failure));
      Push(ENDED);
    }
  }

  // ---- What an exchange's events say -------------------------------------------------------

  /** The last event of a kind. */
  function LastOf(events: seq<Event>, kind: Kind): Option<Event> {
    if events == [] then None
    else if Last(events).kind == kind then Some(Last(events))
    else LastOf(events[..|events| - 1], kind)
  }

  function FirstError(events: seq<Event>): Option<string> {
    if events == [] then None
    else if events[0].kind == Error then Some(events[0].err)
    else FirstError(events[1..])
  }

  /** The usage every message reported. */
  function TotalUsage(events: seq<Event>): Usage {
    if events == [] then NO_USAGE
    else
      Sum(TotalUsage(events[..|events| - 1]),
          if Last(events).kind == MessageEnd && Last(events).usage.Some? then Last(events).usage.value else NO_USAGE)
  }

  /** The result the events amount to: the last message, the last structured response, all usage. */
  function ResultOf(events: seq<Event>): HarnessResult {
    var message, structured := LastOf(events, MessageEnd), LastOf(events, Structured);
    HarnessResult(
      if message.Some? then message.value.stopReason else "",
      if message.Some? then message.value.text else "",
      if structured.Some? then structured.value.structured else "",
      TotalUsage(events))
  }

  lemma {:induction false} FirstErrorAppend(events: seq<Event>, ev: Event)
    ensures FirstError(events + [ev]) ==
      if FirstError(events).Some? then FirstError(events) else if ev.kind == Error then Some(ev.err) else None
  {
    if events != [] {
      FirstErrorAppend(events[1..], ev);
      assert (events + [ev])[1..] == events[1..] + [ev];
    }
  }

  /** The exchange as its queue has it: numbered from 1, ended once and last, its result the fold of
      its events and its error the first of them. */
  ghost predicate Folded(x: State) {
    && Numbered(x) && EndsOnce(x.queued, x.final, x.result)
    && x.result == ResultOf(x.queued) && x.err == FirstError(x.queued)
    && ((exists ev :: ev in x.queued && ev.kind == Cancelled) ==> x.cancelled)
  }

  predicate Numbered(x: State) {
    forall i :: 0 <= i < |x.queued| ==>
      x.queued[i].num == i + 1 && x.queued[i].exchange == x.id && x.queued[i].sessionID == x.sessionID
  }

  predicate EndsOnce(events: seq<Event>, final: bool, result: HarnessResult) {
    && (forall i :: 0 <= i < |events| ==> (events[i].kind == Ended <==> final && i == |events| - 1))
    && (final ==> events != [] && Last(events).stopReason == result.stopReason)
  }

  lemma NewIsFolded(sessionID: string, id: nat, schema: bool)
    ensures Folded(New(sessionID, id, schema))
  {
  }

  lemma LastOfAppend(events: seq<Event>, ev: Event, kind: Kind)
    ensures LastOf(events + [ev], kind) == if ev.kind == kind then Some(ev) else LastOf(events, kind)
  {
    assert (events + [ev])[..|events|] == events;
  }

  lemma UsageAppend(events: seq<Event>, ev: Event)
    ensures TotalUsage(events + [ev]) ==
      if ev.kind == MessageEnd && ev.usage.Some? then Sum(TotalUsage(events), ev.usage.value) else TotalUsage(events)
  {
    assert (events + [ev])[..|events|] == events;
  }

  lemma PushResult(events: seq<Event>, r: HarnessResult, ev: Event)
    requires r == ResultOf(events)
    ensures ResultAfter(r, ev) == ResultOf(events + [ev])
  {
    hide LastOf, TotalUsage, Sum;
    LastOfAppend(events, ev, MessageEnd);
    LastOfAppend(events, ev, Structured);
    UsageAppend(events, ev);
  }

  lemma StampFolds(x: State, r: HarnessResult, ev: Event)
    ensures ResultAfter(r, Stamped(x, ev)) == ResultAfter(r, ev)
  {
    hide Sum;
  }

  lemma EndsOnceAppend(x: State, ev: Event)
    requires Numbered(x) && EndsOnce(x.queued, x.final, x.result) && !x.final
    ensures var x' := Pushed(x, ev); Numbered(x') && EndsOnce(x'.queued, x'.final, x'.result)
  {
    hide Sum;
  }

  /** Every push keeps the exchange what its events say. */
  lemma PushKeepsFolded(x: State, ev: Event)
    requires Folded(x)
    ensures Folded(Pushed(x, ev))
  {
    hide ResultOf, FirstError, ResultAfter;
    if !x.final {
      PushResult(x.queued, x.result, Stamped(x, ev));
      StampFolds(x, x.result, ev);
      FirstErrorAppend(x.queued, Stamped(x, ev));
      EndsOnceAppend(x, ev);
      var x' := Pushed(x, ev);
      if c :| c in x'.queued && c.kind == Cancelled {
        assert c in x.queued || c == Stamped(x, ev);
      }
    }
  }

  lemma MarkKeepsFolded(x: State)
    requires Folded(x)
    ensures Folded(Marked(x))
  {
    hide ResultOf, FirstError;
  }

  // ---- Any series of pushes and marks ------------------------------------------------------

  datatype Op = Push(ev: Event) | MarkCancelled

  function Applied(x: State, op: Op): State {
    match op
    case Push(ev) => Pushed(x, ev)
    case MarkCancelled => Marked(x)
  }

  function After(x: State, ops: seq<Op>): State {
    if ops == [] then x else Applied(After(x, ops[..|ops| - 1]), Last(ops))
  }

  /** From any goroutines, in any order: the events stay numbered, ended at most once and last, and
      the result and error are always the fold of the events queued. */
  lemma {:induction false} AlwaysFolded(sessionID: string, id: nat, schema: bool, ops: seq<Op>)
    ensures Folded(After(New(sessionID, id, schema), ops))
  {
    if ops != [] {
      AlwaysFolded(sessionID, id, schema, ops[..|ops| - 1]);
      var x := After(New(sessionID, id, schema), ops[..|ops| - 1]);
      match Last(ops) {
        case Push(ev) => PushKeepsFolded(x, ev);
        case MarkCancelled => MarkKeepsFolded(x);
      }
    }
  }

  predicate Queued(x: State, kind: Kind) {
    exists i :: 0 <= i < |x.queued| && x.queued[i].kind == kind
  }

  lemma {:induction false} ErrorsAreFirst(events: seq<Event>)
    ensures FirstError(events).Some? <==> exists i :: 0 <= i < |events| && events[i].kind == Error
  {
    if events != [] {
      ErrorsAreFirst(events[1..]);
      if i :| 0 <= i < |events| && events[i].kind == Error {
        assert i > 0 ==> events[1..][i - 1].kind == Error;
      }
      if i :| 0 <= i < |events[1..]| && events[1..][i].kind == Error {
        assert events[i + 1].kind == Error;
      }
    }
  }

  /** An exchange is cancelled when its session marked it, or it was told so before its end. */
  lemma {:induction false} CancelledIs(sessionID: string, id: nat, schema: bool, ops: seq<Op>)
    ensures var x := After(New(sessionID, id, schema), ops);
      x.cancelled <==> MarkCancelled in ops || Queued(x, Cancelled)
  {
    if ops != [] {
      var front, op := ops[..|ops| - 1], Last(ops);
      CancelledIs(sessionID, id, schema, front);
      var x := After(New(sessionID, id, schema), front);
      assert op in ops && forall o :: o in ops ==> o in front || o == op;
      hide After, ResultAfter;
      if op.Push? {
        PushQueues(x, op.ev, Cancelled);
      }
    }
  }

  lemma PushQueues(x: State, ev: Event, kind: Kind)
    ensures var x' := Pushed(x, ev); Queued(x', kind) <==> Queued(x, kind) || (!x.final && ev.kind == kind)
  {
    hide ResultAfter;
    var x' := Pushed(x, ev);
    if !x.final {
      assert x'.queued[|x.queued|].kind == ev.kind;
      assert forall i :: 0 <= i < |x.queued| ==> x'.queued[i] == x.queued[i];
    }
  }

  lemma FoldedUnanswered(x: State)
    requires Folded(x)
    ensures Unanswered(x) <==>
      && x.schema && !x.cancelled && !Queued(x, Error) && !Queued(x, Cancelled)
      && (LastOf(x.queued, Structured).None? || LastOf(x.queued, Structured).value.structured == "")
  {
    hide LastOf, FirstError, TotalUsage;
    ErrorsAreFirst(x.queued);
    if Queued(x, Cancelled) {
      var i :| 0 <= i < |x.queued| && x.queued[i].kind == Cancelled;
      assert x.queued[i] in x.queued;
    }
  }

  /** An exchange is unanswered exactly when its request carried a schema and it has no structured response,
      no error, no word of its cancellation, and no mark. */
  lemma UnansweredIs(sessionID: string, id: nat, schema: bool, ops: seq<Op>)
    ensures var x := After(New(sessionID, id, schema), ops);
      Unanswered(x) <==>
        && schema && (LastOf(x.queued, Structured).None? || LastOf(x.queued, Structured).value.structured == "")
        && !Queued(x, Error) && !Queued(x, Cancelled) && MarkCancelled !in ops
  {
    var x := After(New(sessionID, id, schema), ops);
    AlwaysFolded(sessionID, id, schema, ops);
    CancelledIs(sessionID, id, schema, ops);
    FoldedUnanswered(x);
    SchemaStays(sessionID, id, schema, ops);
    hide After, LastOf, Folded, Unanswered;
  }

  lemma {:induction false} SchemaStays(sessionID: string, id: nat, schema: bool, ops: seq<Op>)
    ensures After(New(sessionID, id, schema), ops).schema == schema
  {
    if ops != [] {
      SchemaStays(sessionID, id, schema, ops[..|ops| - 1]);
    }
  }

  /** What an exchange has queued and decided, it keeps: pushes only add events, the first error
      stays, and an ended exchange never changes but for a mark. */
  lemma {:induction false} OnlyGrows(x: State, ops: seq<Op>)
    ensures var x' := After(x, ops);
      && x.queued <= x'.queued && (x.err.Some? ==> x'.err == x.err) && (x.cancelled ==> x'.cancelled)
      && (x.final ==> x'.(cancelled := false) == x.(cancelled := false))
  {
    if ops != [] {
      OnlyGrows(x, ops[..|ops| - 1]);
    }
  }
}
