/**
 * The two unbounded queues with a one-slot wake channel: a subscriber's queue
 * (workflow/broadcast.go) and EventQueue (harness/queue.go). A queue lives with its pump, which
 * takes whatever is queued under the lock and hands it over item by item.
 */
module Queues {
  import opened Common

  /** A subscriber's queue signals under its lock and empties itself as its pump ends; EventQueue
      signals after unlocking, and leaves what is queued. */
  datatype Kind = Subscriber | Events

  // ---- The source's object -----------------------------------------------------------------

  class Queue<T> {
    const kind: Kind
    var items: seq<T>
    var closed: bool
    var signal: bool

    constructor (kind: Kind)
      ensures this.kind == kind && items == [] && !closed && !signal
    {
      this.kind := kind;
      items, closed, signal := [], false, false;
    }

    method Push(more: seq<T>)
      modifies this
      ensures closed == old(closed) && items == if closed then old(items) else old(items) + more
      ensures signal == (old(signal) || !closed || kind.Events?)
    {
      if closed && kind.Subscriber? {
        return;
      }
      if !closed {
        items := items + more;
      }
      signal := true;
    }

    method Close()
      modifies this
      ensures closed && signal && items == old(items)
    {
      closed, signal := true, true;
    }

    /** The pump, left to itself: it hands over everything queued, in order, and then ends if the
        queue is closed and parks if not. */
    method Pump() returns (out: seq<T>, ended: bool)
      modifies this
      ensures out == old(items) && items == [] && ended == closed == old(closed)
      ensures !ended ==> !signal
    {
      out := [];
      while true
        invariant out + items == old(items) && closed == old(closed)
        decreases items != [], signal
      {
        var batch := items;
        items := [];
        var i := 0;
        ghost var before := out;
        while i < |batch|
          invariant i <= |batch| && out == before + batch[..i] && items == [] && closed == old(closed)
        {
          out := out + [batch[i]];
          i := i + 1;
        }
        if |batch| > 0 {
          continue;
        }
        if closed {
          return out, true;
        }
        if !signal {
          return out, false;
        }
        signal := false;
      }
    }
  }

  // ---- Interleaved moves -------------------------------------------------------------------

  datatype Pump<T> =
    | Top                                                       // about to take what is queued
    | Handing(batch: seq<T>, closed: bool, any: bool)           // any: the batch began with items
    | Parked                                                    // waits for the wake channel
    | Leaving(quit: bool)                                       // quit: its context ended
    | Done(quit: bool)

  /** owed counts the pushers and closers that have unlocked and have yet to signal. accepted and
      delivered are all that was ever queued and handed over. */
  datatype State<T> = State(
    kind: Kind, items: seq<T>, closed: bool, signal: bool, owed: nat,
    pump: Pump<T>, ended: bool,
    accepted: seq<T>, delivered: seq<T>)

  function Fresh<T>(kind: Kind): State<T> {
    State(kind, [], false, false, 0, Top, false, [], [])
  }

  datatype Move<T> =
    | Push(more: seq<T>) | Close | End       // a pusher, the closer, the context
    | Signal                                 // one that unlocked signals
    | Take | Hand | Settle | Wake | Quit | Leave

  predicate Enabled<T>(q: State<T>, m: Move<T>) {
    match m
    case Push(_) => true
    case Close => true
    case End => true
    case Signal => q.owed > 0
    case Take => q.pump.Top?
    case Hand => q.pump.Handing? && q.pump.batch != []
    case Settle => q.pump.Handing? && q.pump.batch == []
    case Wake => q.pump.Parked? && q.signal
    case Quit => q.ended && (q.pump.Parked? || (q.pump.Handing? && q.pump.batch != []))
    case Leave => q.pump.Leaving?
  }

  /** wake: at once, or owed. */
  function Woken<T>(q: State<T>): State<T> {
    if q.kind.Subscriber? then q.(signal := true) else q.(owed := q.owed + 1)
  }

  function Step<T>(q: State<T>, m: Move<T>): State<T>
    requires Enabled(q, m)
  {
    match m
    case Push(more) =>
      if !q.closed then Woken(q.(items := q.items + more, accepted := q.accepted + more))
      else if q.kind.Subscriber? then q
      else Woken(q)
    case Close => Woken(q.(closed := true))
    case End => q.(ended := true)
    case Signal => q.(owed := q.owed - 1, signal := true)
    case Take => q.(items := [], pump := Handing(q.items, q.closed, q.items != []))
    case Hand =>
      q.(delivered := q.delivered + [q.pump.batch[0]], pump := q.pump.(batch := q.pump.batch[1..]))
    case Settle => q.(pump := if q.pump.any then Top else if q.pump.closed then Leaving(false) else Parked)
    case Wake => q.(signal := false, pump := Top)
    case Quit => q.(pump := Leaving(true))
    case Leave =>
      if q.kind.Subscriber? then q.(closed := true, items := [], pump := Done(q.pump.quit))
      else q.(pump := Done(q.pump.quit))
  }

  ghost predicate Next<T(!new)>(q: State<T>, q': State<T>) {
    exists m :: Enabled(q, m) && q' == Step(q, m)
  }

  ghost predicate History<T(!new)>(kind: Kind, qs: seq<State<T>>) {
    && qs != [] && qs[0] == Fresh(kind)
    && forall n :: 0 <= n < |qs| - 1 ==> Next(qs[n], qs[n + 1])
  }

  ghost predicate Reachable<T(!new)>(q: State<T>) {
    exists qs :: qs != [] && History(q.kind, qs) && Last(qs) == q
  }

  // ---- What every move keeps -----------------------------------------------------------------

  function Batch<T>(pump: Pump<T>): seq<T> {
    if pump.Handing? then pump.batch else []
  }

  predicate GivenUp<T>(pump: Pump<T>) {
    (pump.Leaving? || pump.Done?) && pump.quit
  }

  /** Nothing is lost, repeated, or reordered: what was accepted was delivered, is being handed over, or
      is queued, in that order, until the context's end stops the pump. */
  ghost predicate Conserved<T>(q: State<T>) {
    && q.delivered <= q.accepted
    && (!GivenUp(q.pump) ==> q.accepted == q.delivered + Batch(q.pump) + q.items)
  }

  /** What the pump saw closed is closed, and empty when it leaves for that. */
  ghost predicate Closing<T>(q: State<T>) {
    && (q.pump.Handing? ==> (q.pump.closed ==> q.closed) && (!q.pump.any ==> q.pump.batch == []))
    && (q.pump.Handing? && q.pump.closed ==> q.items == [])
    && ((q.pump.Leaving? || q.pump.Done?) && !q.pump.quit ==> q.closed && q.items == [])
    && (q.kind.Subscriber? && q.pump.Done? ==> q.closed && q.items == [])
    && (q.kind.Subscriber? ==> q.owed == 0)
    && (GivenUp(q.pump) ==> q.ended)
  }

  /** The pump is parked, or has found nothing and is about to park. */
  predicate Idle<T>(pump: Pump<T>) {
    pump.Parked? || (pump.Handing? && !pump.any && !pump.closed)
  }

  ghost predicate Roused<T>(q: State<T>) {
    Idle(q.pump) && (q.items != [] || q.closed) ==> q.signal || q.owed > 0
  }

  ghost predicate Kept<T>(q: State<T>) {
    Conserved(q) && Closing(q) && Roused(q)
  }

  lemma ConservedKeeps<T>(q: State<T>, m: Move<T>)
    requires Conserved(q) && Closing(q) && Enabled(q, m)
    ensures Conserved(Step(q, m))
  {
  }

  lemma ClosingKeeps<T>(q: State<T>, m: Move<T>)
    requires Closing(q) && Enabled(q, m)
    ensures Closing(Step(q, m))
  {
  }

  lemma RousedKeeps<T>(q: State<T>, m: Move<T>)
    requires Roused(q) && Closing(q) && Enabled(q, m)
    ensures Roused(Step(q, m))
  {
  }

  lemma {:induction false} AlwaysKept<T(!new)>(kind: Kind, qs: seq<State<T>>)
    requires qs != [] && History(kind, qs)
    ensures Kept(Last(qs)) && Last(qs).kind == kind
  {
    if |qs| > 1 {
      var front := qs[..|qs| - 1];
      forall n | 0 <= n < |front| - 1
        ensures Next(front[n], front[n + 1])
      {
        assert Next(qs[n], qs[n + 1]);
      }
      AlwaysKept(kind, front);
      assert Next(qs[|qs| - 2], qs[|qs| - 1]);
      var m :| Enabled(Last(front), m) && Last(qs) == Step(Last(front), m);
      ConservedKeeps(Last(front), m);
      ClosingKeeps(Last(front), m);
      RousedKeeps(Last(front), m);
      hide Conserved, Closing, Roused;
    }
  }

  lemma ReachableKept<T(!new)>(q: State<T>)
    requires Reachable(q)
    ensures Kept(q)
  {
    hide Kept, History;
    var qs :| qs != [] && History(q.kind, qs) && Last(qs) == q;
    AlwaysKept(q.kind, qs);
  }

  // ---- Main results --------------------------------------------------------------------------

  /** What was delivered is always the first of what was accepted, and once the queue has ended, unless
      its context ended it, all of it. */
  lemma DeliversInOrder<T(!new)>(q: State<T>)
    requires Reachable(q)
    ensures q.delivered <= q.accepted
    ensures q.pump.Done? && !q.pump.quit ==> q.delivered == q.accepted
    ensures !q.ended ==> q.accepted == q.delivered + Batch(q.pump) + q.items
  {
    ReachableKept(q);
  }

  /** The moves that make up a history. */
  ghost predicate Played<T(!new)>(kind: Kind, qs: seq<State<T>>, ms: seq<Move<T>>) {
    && |qs| == |ms| + 1 && qs[0] == Fresh(kind)
    && forall n :: 0 <= n < |ms| ==> Enabled(qs[n], ms[n]) && qs[n + 1] == Step(qs[n], ms[n])
  }

  /** Someone has closed the queue: for a subscriber's, its own pump too, as it ends. */
  predicate Shut<T(==)>(kind: Kind, ms: seq<Move<T>>) {
    Move<T>.Close in ms || (kind.Subscriber? && Move<T>.Leave in ms)
  }

  /** What was pushed before the queue was closed. */
  function Offered<T(==)>(kind: Kind, ms: seq<Move<T>>): seq<T> {
    if ms == [] then []
    else
      var front := ms[..|ms| - 1];
      Offered(kind, front) + if Last(ms).Push? && !Shut(kind, front) then Last(ms).more else []
  }

  lemma AcceptsOn<T(!new)>(q: State<T>, m: Move<T>)
    requires Enabled(q, m)
    ensures var q' := Step(q, m);
      && q'.kind == q.kind && q'.accepted == q.accepted + (if m.Push? && !q.closed then m.more else [])
      && (q'.closed <==> q.closed || m.Close? || (q.kind.Subscriber? && m.Leave?)) && (q'.ended <==> q.ended || m.End?)
  {
    assert q.accepted + [] == q.accepted;
  }

  /** A queue accepts all that is pushed until it is closed, and nothing after; it is closed by those who
      close it alone, and its context ends only when it is ended. */
  lemma {:induction false} AcceptsUntilClosed<T(!new)>(kind: Kind, qs: seq<State<T>>, ms: seq<Move<T>>)
    requires Played(kind, qs, ms)
    ensures var q := Last(qs);
      && q.accepted == Offered(kind, ms) && (q.closed <==> Shut(kind, ms)) && (q.ended <==> Move<T>.End in ms)
      && q.kind == kind
  {
    if ms != [] {
      var (fq, fm, m) := (qs[..|qs| - 1], ms[..|ms| - 1], Last(ms));
      assert Last(fq) == qs[|ms| - 1] && Last(qs) == Step(Last(fq), m);
      AcceptsUntilClosed(kind, fq, fm);
      assert forall x :: x in ms <==> x in fm || x == m;
      AcceptsOn(Last(fq), m);
      hide Step, Enabled;
    }
  }

  /** The pump never sleeps on queued items, nor on a close: it can wake, or whoever queued them or
      closed has yet to signal. A subscriber's queue owes no signal. */
  lemma NeverSleepsOnItems<T(!new)>(q: State<T>)
    requires Reachable(q) && q.pump.Parked? && (q.items != [] || q.closed)
    ensures Enabled(q, Wake) || Enabled(q, Signal)
    ensures q.kind.Subscriber? ==> Enabled(q, Wake)
  {
    ReachableKept(q);
    hide Conserved;
  }

  /** The pump's moves, and the signals it is owed. */
  predicate Inner<T>(m: Move<T>) {
    !m.Push? && !m.Close? && !m.End?
  }

  function Rank<T>(q: State<T>): nat {
    8 * |q.items| + 4 * |Batch(q.pump)| + 16 * q.owed + (if q.signal then 8 else 0) +
    match q.pump
    case Top => 4
    case Handing(_, _, any) => if any then 5 else 3
    case Parked => 2
    case Leaving(_) => 1
    case Done(_) => 0
  }

  lemma RankFalls<T>(q: State<T>, m: Move<T>)
    requires Closing(q) && Enabled(q, m) && Inner(m)
    ensures Rank(Step(q, m)) < Rank(q)
  {
  }

  /** A queue at rest has delivered everything, or its context ended; one that is closed has ended. So a
      queue closed and left to its consumer ends after at most Rank moves, with all of it delivered. */
  lemma RestIsTheEnd<T(!new)>(q: State<T>)
    requires Reachable(q) && forall m: Move<T> :: Inner(m) ==> !Enabled(q, m)
    ensures q.pump.Parked? || q.pump.Done?
    ensures q.closed ==> q.pump.Done?
    ensures !q.ended ==> q.delivered == q.accepted
  {
    ReachableKept(q);
    assert !Enabled(q, Move<T>.Take) && !Enabled(q, Move<T>.Hand) && !Enabled(q, Move<T>.Settle);
    assert !Enabled(q, Move<T>.Wake) && !Enabled(q, Move<T>.Leave) && !Enabled(q, Move<T>.Signal);
  }

  /** Each move of the pump, and each signal owed, brings the queue nearer its rest. */
  lemma MovesRunOut<T(!new)>(q: State<T>, m: Move<T>)
    requires Reachable(q) && Enabled(q, m) && Inner(m)
    ensures Rank(Step(q, m)) < Rank(q)
  {
    ReachableKept(q);
    RankFalls(q, m);
  }

  /** gone: a subscriber's queue that is closed and holds nothing. */
  predicate Gone<T>(q: State<T>) {
    q.closed && q.items == []
  }

  /** A queue found gone, and so dropped, would have taken nothing more; and one whose pump has ended is
      found gone. */
  lemma GoneForGood<T(!new)>(q: State<T>, m: Move<T>)
    requires Reachable(q) && q.kind.Subscriber? && Enabled(q, m)
    ensures Gone(q) ==> Gone(Step(q, m)) && Step(q, m).accepted == q.accepted
    ensures q.pump.Done? ==> Gone(q)
  {
    ReachableKept(q);
    hide Conserved, Roused;
  }
}
