/**
 * Call correlation in the line-protocol client (harness/stdio/calls.go and client.go): commands are
 * numbered, each registers a one-slot channel under its numeral, and resolvers, callers that stop
 * waiting, and the end of the harness race for it.
 */
module Calls {
  import opened Common
  import opened Numerals

  /** A Response: the harness's, or the failure that ended the calls, in err. */
  datatype Reply = Reply(id: string, err: Option<string>, body: string)

  function Failure(id: string, err: string): Reply {
    Reply(id, Some(err), "")
  }

  predicate OneToOne(pending: map<string, nat>) {
    forall i, j :: i in pending && j in pending && pending[i] == pending[j] ==> i == j
  }

  /** fail has ended the open calls but those still pending: each of their channels has the failure,
      under the call's own id, and no other channel has changed. */
  predicate Ended(open: map<string, nat>, pending: map<string, nat>, before: map<nat, seq<Reply>>,
                  sent: map<nat, seq<Reply>>, err: string) {
    && sent.Keys == before.Keys
    && (forall id :: id in pending ==> id in open && pending[id] == open[id])
    && (forall id :: id in open && id !in pending ==> open[id] in sent && sent[open[id]] == [Failure(id, err)])
    && (forall ch :: ch in sent && (forall id :: id in open && id !in pending ==> open[id] != ch) ==> sent[ch] == before[ch])
  }

  lemma NoneEnded(open: map<string, nat>, sent: map<nat, seq<Reply>>, err: string)
    ensures Ended(open, open, sent, sent, err)
  {
  }

  lemma EndedOn(open: map<string, nat>, pending: map<string, nat>, before: map<nat, seq<Reply>>,
                sent: map<nat, seq<Reply>>, err: string, id: string)
    requires OneToOne(open) && Ended(open, pending, before, sent, err) && id in pending
    requires forall i :: i in pending ==> pending[i] in sent && sent[pending[i]] == []
    ensures Ended(open, pending - {id}, before, sent[pending[id] := [Failure(id, err)]], err)
    ensures OneToOne(pending - {id})
    ensures var rest, more := pending - {id}, sent[pending[id] := [Failure(id, err)]];
            forall i :: i in rest ==> rest[i] in more && more[rest[i]] == []
  {
    var pending', sent' := pending - {id}, sent[pending[id] := [Failure(id, err)]];
    forall ch | ch in sent' && (forall i :: i in open && i !in pending' ==> open[i] != ch)
      ensures sent'[ch] == before[ch]
    {
      assert open[id] != ch;
      assert forall i :: i in open && i !in pending ==> open[i] != ch;
    }
  }

  // ---- The source's object -----------------------------------------------------------------

  /** calls. Channels are numbered; sent is all that was ever sent on each. */
  class Calls {
    var pending: map<string, nat>
    var err: Option<string>
    var sent: map<nat, seq<Reply>>
    var next: nat

    /** No two open calls share a channel, and an open call's channel is empty. */
    ghost predicate Valid()
      reads this
    {
      && (forall id :: id in pending ==> pending[id] in sent && sent[pending[id]] == [])
      && OneToOne(pending)
      && (forall ch :: ch in sent ==> ch < next && |sent[ch]| <= 1)
    }

    constructor ()
      ensures Valid() && pending == map[] && err == None && sent == map[] && next == 0
    {
      pending, err, sent, next := map[], None, map[], 0;
    }

    method Register(id: string) returns (r: Result<nat, string>)
      requires Valid()
      modifies this
      ensures Valid() && err == old(err)
      ensures err.Some? ==> r == Err(err.value) && pending == old(pending) && sent == old(sent)
      ensures err.None? ==> r.Ok? && r.value !in old(sent)
                            && pending == old(pending)[id := r.value] && sent == old(sent)[r.value := []]
    {
      if err.Some? {
        return Err(err.value);
      }
      r := Ok(next);
      pending, sent, next := pending[id := next], sent[next := []], next + 1;
    }

    /** A reply to no open call is dropped; any other is the only one its channel gets. */
    method Resolve(r: Reply)
      requires Valid()
      modifies this
      ensures Valid() && err == old(err) && pending == old(pending) - {r.id}
      ensures sent == if r.id in old(pending) then old(sent)[old(pending)[r.id] := [r]] else old(sent)
    {
      if r.id in pending {
        var ch := pending[r.id];
        assert sent[ch] == [] && [] + [r] == [r];
        pending := pending - {r.id};
        assert |sent[ch]| < 1;
        sent := sent[ch := sent[ch] + [r]];
      }
    }

    method Forget(id: string)
      requires Valid()
      modifies this`pending
      ensures Valid() && pending == old(pending) - {id}
    {
      pending := pending - {id};
    }

    /** Every open call gets the failure, each under its own id, and no other channel anything. */
    method Fail(e: string)
      requires Valid()
      modifies this
      ensures Valid() && err == Some(e) && pending == map[]
      ensures Ended(old(pending), map[], old(sent), sent, e)
    {
      hide OneToOne, Ended;
      err := Some(e);
      ghost var open, before := pending, sent;
      NoneEnded(open, before, e);
      while pending != map[]
        invariant OneToOne(open) && Ended(open, pending, before, sent, e)
        invariant err == Some(e) && next == old(next) && Valid()
        decreases pending.Keys
      {
        var id :| id in pending;
        var ch := pending[id];
        assert |sent[ch]| < 1 && sent[ch] + [Failure(id, e)] == [Failure(id, e)];
        EndedOn(open, pending, before, sent, e, id);
        sent := sent[ch := sent[ch] + [Failure(id, e)]];
        pending := pending - {id};
      }
    }
  }

  // ---- Interleaved moves -------------------------------------------------------------------

  /** Where a caller is in send or Call. */
  datatype Point =
    | Numbered          // has its id, not registered
    | Refused           // failed before it registered
    | Writing           // registered, its line not yet written
    | Waiting
    | Dropping          // about to forget
    | GaveUp
    | Got(r: Reply)

  /** A resolver between its removal of the call and its send. */
  datatype Flight = Flight(call: nat, r: Reply)

  /** fail, while it holds the mutex; half is a call it has sent to and not yet removed. */
  datatype Failing = Failing(err: string, half: Option<string>)

  /** Call n registers as Itoa(n), on channel n. heard and failures are what resolve and fail were
      ever given. */
  datatype Client = Client(
    next: nat, calls: map<nat, Point>,
    pending: map<string, nat>, err: Option<string>, failing: Option<Failing>,
    sent: map<nat, seq<Reply>>, flights: map<nat, Flight>,
    heard: set<Reply>, failures: set<string>)

  const FRESH := Client(0, map[], map[], None, None, map[], map[], {}, {})

  datatype Move =
    | Number | Discard(n: nat) | Register(n: nat) | Write(n: nat) | Drop(n: nat) | Forget(n: nat) | Receive(n: nat)
    | Take(k: nat, r: Reply) | Deliver(k: nat)
    | BeginFail(e: string) | SendFailure(id: string) | Remove | EndFail

  /** The channel's one slot is free. */
  predicate Room(c: Client, n: nat) {
    n in c.calls && n in c.sent && |c.sent[n]| < if c.calls[n].Got? then 2 else 1
  }

  predicate At(c: Client, n: nat, p: Point) {
    n in c.calls && c.calls[n] == p
  }

  predicate Enabled(c: Client, m: Move) {
    match m
    case Number => true
    case Discard(n) => At(c, n, Numbered)
    case Register(n) => c.failing.None? && At(c, n, Numbered)
    case Write(n) => At(c, n, Writing)
    case Drop(n) => At(c, n, Writing) || At(c, n, Waiting)
    case Forget(n) => c.failing.None? && At(c, n, Dropping)
    case Receive(n) => At(c, n, Waiting) && n in c.sent && c.sent[n] != []
    case Take(k, _) => c.failing.None? && k !in c.flights
    case Deliver(k) => k in c.flights && Room(c, c.flights[k].call)
    case BeginFail(_) => c.failing.None?
    case SendFailure(id) => c.failing.Some? && c.failing.value.half.None? && id in c.pending && Room(c, c.pending[id])
    case Remove => c.failing.Some? && c.failing.value.half.Some?
    case EndFail => c.failing.Some? && c.failing.value.half.None? && c.pending == map[]
  }

  function Step(c: Client, m: Move): Client
    requires Enabled(c, m)
  {
    match m
    case Number => c.(next := c.next + 1, calls := c.calls[c.next + 1 := Numbered])
    case Discard(n) => c.(calls := c.calls[n := Refused])
    case Register(n) =>
      if c.err.Some? then c.(calls := c.calls[n := Refused])
      else c.(calls := c.calls[n := Writing], pending := c.pending[Itoa(n) := n], sent := c.sent[n := []])
    case Write(n) => c.(calls := c.calls[n := Waiting])
    case Drop(n) => c.(calls := c.calls[n := Dropping])
    case Forget(n) => c.(calls := c.calls[n := GaveUp], pending := c.pending - {Itoa(n)})
    case Receive(n) => c.(calls := c.calls[n := Got(c.sent[n][0])])
    case Take(k, r) =>
      if r.id in c.pending then
        c.(pending := c.pending - {r.id}, flights := c.flights[k := Flight(c.pending[r.id], r)], heard := c.heard + {r})
      else c.(heard := c.heard + {r})
    case Deliver(k) =>
      var f := c.flights[k];
      c.(sent := c.sent[f.call := c.sent[f.call] + [f.r]], flights := c.flights - {k})
    case BeginFail(e) => c.(err := Some(e), failing := Some(Failing(e, None)), failures := c.failures + {e})
    case SendFailure(id) =>
      var (n, e) := (c.pending[id], c.failing.value.err);
      c.(sent := c.sent[n := c.sent[n] + [Failure(id, e)]], failing := Some(Failing(e, Some(id))))
    case Remove =>
      c.(pending := c.pending - {c.failing.value.half.value}, failing := Some(c.failing.value.(half := None)))
    case EndFail => c.(failing := None)
  }

  ghost predicate Next(c: Client, c': Client) {
    exists m :: Enabled(c, m) && c' == Step(c, m)
  }

  ghost predicate History(cs: seq<Client>) {
    && cs != [] && cs[0] == FRESH
    && forall n :: 0 <= n < |cs| - 1 ==> Next(cs[n], cs[n + 1])
  }

  ghost predicate Reachable(c: Client) {
    exists cs :: cs != [] && History(cs) && Last(cs) == c
  }

  // ---- What every move keeps -----------------------------------------------------------------

  predicate Registered(p: Point) {
    !p.Numbered? && !p.Refused?
  }

  predicate Flying(flights: map<nat, Flight>, n: nat) {
    exists k :: k in flights && flights[k].call == n
  }

  /** A registered call has its channel. */
  predicate Callers(next: nat, calls: map<nat, Point>, sent: map<nat, seq<Reply>>) {
    && (forall n :: n in calls ==> n <= next)
    && (forall n :: n in calls && Registered(calls[n]) ==> n in sent)
    && (forall n :: n in sent ==> n in calls && Registered(calls[n]))
    && (forall n :: n in calls && calls[n].Got? ==> sent[n] == [calls[n].r])
  }

  /** An open call is under its own numeral, its channel empty but for the failure just sent, and no
      resolver has it. */
  predicate Open(pending: map<string, nat>, half: Option<string>, sent: map<nat, seq<Reply>>, flights: map<nat, Flight>) {
    && (forall id :: id in pending ==>
          && id == Itoa(pending[id]) && pending[id] in sent && !Flying(flights, pending[id])
          && |sent[pending[id]]| == if half == Some(id) then 1 else 0)
    && (half.Some? ==> half.value in pending)
  }

  /** A resolver's call is out of the pending ones, its channel empty, and no other resolver's. */
  predicate InFlight(pending: map<string, nat>, sent: map<nat, seq<Reply>>, flights: map<nat, Flight>, heard: set<Reply>) {
    && (forall k :: k in flights ==>
          && flights[k].call in sent && sent[flights[k].call] == [] && Itoa(flights[k].call) !in pending
          && flights[k].r.id == Itoa(flights[k].call) && flights[k].r in heard)
    && (forall j, k :: j in flights && k in flights && flights[j].call == flights[k].call ==> j == k)
  }

  /** A reply on channel n answers call n, and came from the harness or from fail. */
  predicate Origin(n: nat, r: Reply, heard: set<Reply>, failures: set<string>) {
    r.id == Itoa(n) && (r in heard || exists e :: e in failures && r == Failure(r.id, e))
  }

  predicate Addressed(sent: map<nat, seq<Reply>>, heard: set<Reply>, failures: set<string>) {
    forall n :: n in sent ==> |sent[n]| <= 1 && forall i :: 0 <= i < |sent[n]| ==> Origin(n, sent[n][i], heard, failures)
  }

  /** A call not forgotten is open, in a resolver's hands, or answered. */
  predicate Answerable(calls: map<nat, Point>, pending: map<string, nat>, sent: map<nat, seq<Reply>>, flights: map<nat, Flight>) {
    forall n :: n in sent && n in calls && calls[n] != GaveUp ==>
      (Itoa(n) in pending && pending[Itoa(n)] == n) || Flying(flights, n) || sent[n] != []
  }

  predicate Failed(err: Option<string>, failing: Option<Failing>, pending: map<string, nat>, failures: set<string>) {
    && (failing.Some? ==> err.Some? && failing.value.err in failures)
    && (err.Some? && failing.None? ==> pending == map[])
  }

  function Half(c: Client): Option<string> {
    if c.failing.Some? then c.failing.value.half else None
  }

  predicate Kept(c: Client) {
    && Callers(c.next, c.calls, c.sent)
    && Open(c.pending, Half(c), c.sent, c.flights)
    && InFlight(c.pending, c.sent, c.flights, c.heard)
    && Addressed(c.sent, c.heard, c.failures)
    && Answerable(c.calls, c.pending, c.sent, c.flights)
    && Failed(c.err, c.failing, c.pending, c.failures)
  }

  // ---- One lemma an invariant ----------------------------------------------------------------

  type Pending = map<string, nat>
  type Sent = map<nat, seq<Reply>>
  type Flights = map<nat, Flight>

  lemma CallersSent(next: nat, calls: map<nat, Point>, sent: Sent, n: nat, r: Reply)
    requires Callers(next, calls, sent) && n in sent && sent[n] == []
    ensures Callers(next, calls, sent[n := sent[n] + [r]])
  {
  }

  lemma CallersGoOn(next: nat, calls: map<nat, Point>, sent: Sent, n: nat, p: Point)
    requires Callers(next, calls, sent) && n in calls && (Registered(calls[n]) <==> Registered(p))
    requires p.Got? ==> n in sent && sent[n] == [p.r]
    ensures Callers(next, calls[n := p], sent)
  {
  }

  lemma CallersRegister(next: nat, calls: map<nat, Point>, sent: Sent, n: nat)
    requires Callers(next, calls, sent) && n in calls && calls[n] == Numbered
    ensures Callers(next, calls[n := Writing], sent[n := []])
  {
  }

  lemma CallersKeep(c: Client, m: Move)
    requires Callers(c.next, c.calls, c.sent) && Addressed(c.sent, c.heard, c.failures) && Enabled(c, m)
    requires InFlight(c.pending, c.sent, c.flights, c.heard) && Open(c.pending, Half(c), c.sent, c.flights)
    ensures Callers(Step(c, m).next, Step(c, m).calls, Step(c, m).sent)
  {
    hide Itoa, Origin, Flying, Callers, Room;
    match m {
      case Number =>
        hide Open, InFlight, Addressed;
        CallersNumber(c.next, c.calls, c.sent);
      case Discard(n) => CallersGoOn(c.next, c.calls, c.sent, n, Refused);
      case Register(n) =>
        hide Open, InFlight, Addressed;
        if c.err.Some? {
          CallersGoOn(c.next, c.calls, c.sent, n, Refused);
        } else {
          CallersRegister(c.next, c.calls, c.sent, n);
        }
      case Write(n) => CallersGoOn(c.next, c.calls, c.sent, n, Waiting);
      case Drop(n) => CallersGoOn(c.next, c.calls, c.sent, n, Dropping);
      case Forget(n) => CallersGoOn(c.next, c.calls, c.sent, n, GaveUp);
      case Receive(n) =>
        hide Open, InFlight;
        assert c.sent[n] == [c.sent[n][0]];
        CallersGoOn(c.next, c.calls, c.sent, n, Got(c.sent[n][0]));
      case Deliver(k) =>
        hide Open, Addressed;
        CallersSent(c.next, c.calls, c.sent, c.flights[k].call, c.flights[k].r);
      case SendFailure(id) =>
        hide InFlight, Addressed;
        CallersSent(c.next, c.calls, c.sent, c.pending[id], Failure(id, c.failing.value.err));
      case _ =>
        hide Open, InFlight, Addressed;
    }
  }

  lemma CallersNumber(next: nat, calls: map<nat, Point>, sent: Sent)
    requires Callers(next, calls, sent)
    ensures Callers(next + 1, calls[next + 1 := Numbered], sent)
  {
  }

  lemma OpenRegister(pending: Pending, sent: Sent, flights: Flights, n: nat)
    requires Open(pending, None, sent, flights) && n !in sent && !Flying(flights, n)
    ensures Open(pending[Itoa(n) := n], None, sent[n := []], flights)
  {
    hide Itoa, Flying;
  }

  lemma OpenLess(pending: Pending, half: Option<string>, sent: Sent, flights: Flights, id: string)
    requires Open(pending, half, sent, flights) && half != Some(id)
    ensures Open(pending - {id}, half, sent, flights)
  {
    hide Itoa, Flying;
  }

  lemma OpenTake(pending: Pending, sent: Sent, flights: Flights, k: nat, r: Reply)
    requires Open(pending, None, sent, flights) && k !in flights && r.id in pending
    ensures Open(pending - {r.id}, None, sent, flights[k := Flight(pending[r.id], r)])
  {
    hide Itoa;
    var flights' := flights[k := Flight(pending[r.id], r)];
    forall id | id in pending && id != r.id
      ensures !Flying(flights', pending[id])
    {
      assert forall j :: j in flights' && j != k ==> flights'[j] == flights[j];
    }
    hide Flying;
  }

  lemma OpenDeliver(pending: Pending, half: Option<string>, sent: Sent, flights: Flights, k: nat)
    requires Open(pending, half, sent, flights) && k in flights && flights[k].call in sent
    ensures Open(pending, half, sent[flights[k].call := sent[flights[k].call] + [flights[k].r]], flights - {k})
  {
    hide Itoa;
    assert Flying(flights, flights[k].call);
    assert forall n :: Flying(flights - {k}, n) ==> Flying(flights, n);
    hide Flying;
  }

  lemma OpenSend(pending: Pending, sent: Sent, flights: Flights, id: string, r: Reply)
    requires Open(pending, None, sent, flights) && id in pending
    ensures Open(pending, Some(id), sent[pending[id] := sent[pending[id]] + [r]], flights)
  {
    hide Itoa, Flying;
  }

  lemma OpenRemove(pending: Pending, id: string, sent: Sent, flights: Flights)
    requires Open(pending, Some(id), sent, flights)
    ensures Open(pending - {id}, None, sent, flights)
  {
    hide Itoa, Flying;
  }

  lemma OpenKeeps(c: Client, m: Move)
    requires Callers(c.next, c.calls, c.sent) && Enabled(c, m)
    requires InFlight(c.pending, c.sent, c.flights, c.heard) && Open(c.pending, Half(c), c.sent, c.flights)
    ensures Open(Step(c, m).pending, Half(Step(c, m)), Step(c, m).sent, Step(c, m).flights)
  {
    hide Itoa, Open;
    match m {
      case Register(n) =>
        if c.err.None? {
          OpenRegister(c.pending, c.sent, c.flights, n);
        }
      case Forget(n) => OpenLess(c.pending, None, c.sent, c.flights, Itoa(n));
      case Take(k, r) =>
        if r.id in c.pending {
          OpenTake(c.pending, c.sent, c.flights, k, r);
        }
      case Deliver(k) => OpenDeliver(c.pending, Half(c), c.sent, c.flights, k);
      case SendFailure(id) => OpenSend(c.pending, c.sent, c.flights, id, Failure(id, c.failing.value.err));
      case Remove => OpenRemove(c.pending, c.failing.value.half.value, c.sent, c.flights);
      case _ => hide InFlight, Callers;
    }
  }

  lemma InFlightRegister(pending: Pending, sent: Sent, flights: Flights, heard: set<Reply>, n: nat)
    requires InFlight(pending, sent, flights, heard) && n !in sent
    ensures InFlight(pending[Itoa(n) := n], sent[n := []], flights, heard)
  {
    forall k | k in flights
      ensures Itoa(flights[k].call) != Itoa(n)
    {
      if Itoa(flights[k].call) == Itoa(n) {
        ItoaIsOneToOne(flights[k].call, n);
      }
    }
    hide Itoa;
  }

  lemma InFlightLess(pending: Pending, id: string, sent: Sent, flights: Flights, heard: set<Reply>)
    requires InFlight(pending, sent, flights, heard)
    ensures InFlight(pending - {id}, sent, flights, heard)
  {
    hide Itoa;
  }

  lemma InFlightTake(pending: Pending, sent: Sent, flights: Flights, heard: set<Reply>, k: nat, r: Reply)
    requires InFlight(pending, sent, flights, heard) && Open(pending, None, sent, flights)
    requires k !in flights && r.id in pending
    ensures InFlight(pending - {r.id}, sent, flights[k := Flight(pending[r.id], r)], heard + {r})
  {
    hide Itoa;
    assert forall j :: j in flights ==> flights[j].call != pending[r.id];
    hide Flying;
  }

  lemma InFlightDeliver(pending: Pending, sent: Sent, flights: Flights, heard: set<Reply>, k: nat)
    requires InFlight(pending, sent, flights, heard) && k in flights
    ensures InFlight(pending, sent[flights[k].call := sent[flights[k].call] + [flights[k].r]], flights - {k}, heard)
  {
    hide Itoa;
  }

  lemma InFlightSend(pending: Pending, sent: Sent, flights: Flights, heard: set<Reply>, id: string, r: Reply)
    requires InFlight(pending, sent, flights, heard) && Open(pending, None, sent, flights) && id in pending
    ensures InFlight(pending, sent[pending[id] := sent[pending[id]] + [r]], flights, heard)
  {
    hide Itoa;
    assert forall j :: j in flights ==> flights[j].call != pending[id];
    hide Flying;
  }

  lemma InFlightKeeps(c: Client, m: Move)
    requires Callers(c.next, c.calls, c.sent) && Enabled(c, m)
    requires InFlight(c.pending, c.sent, c.flights, c.heard) && Open(c.pending, Half(c), c.sent, c.flights)
    ensures InFlight(Step(c, m).pending, Step(c, m).sent, Step(c, m).flights, Step(c, m).heard)
  {
    hide Itoa, Open, Flying;
    match m {
      case Register(n) =>
        if c.err.None? {
          InFlightRegister(c.pending, c.sent, c.flights, c.heard, n);
        }
        hide InFlight;
      case Forget(n) =>
        InFlightLess(c.pending, Itoa(n), c.sent, c.flights, c.heard);
        hide InFlight, Callers;
      case Take(k, r) =>
        hide Callers;
        if r.id in c.pending {
          InFlightTake(c.pending, c.sent, c.flights, c.heard, k, r);
        }
      case Deliver(k) =>
        InFlightDeliver(c.pending, c.sent, c.flights, c.heard, k);
        hide InFlight, Callers;
      case SendFailure(id) =>
        InFlightSend(c.pending, c.sent, c.flights, c.heard, id, Failure(id, c.failing.value.err));
        hide InFlight, Callers;
      case Remove =>
        InFlightLess(c.pending, c.failing.value.half.value, c.sent, c.flights, c.heard);
        hide InFlight, Callers;
      case _ => hide InFlight, Callers;
    }
  }

  lemma AddressedSent(sent: Sent, heard: set<Reply>, failures: set<string>, n: nat, r: Reply)
    requires Addressed(sent, heard, failures) && n in sent && sent[n] == [] && Origin(n, r, heard, failures)
    ensures Addressed(sent[n := sent[n] + [r]], heard, failures)
  {
    hide Origin;
  }

  lemma AddressedMore(sent: Sent, heard: set<Reply>, failures: set<string>, more: set<Reply>, worse: set<string>)
    requires Addressed(sent, heard, failures)
    ensures Addressed(sent, heard + more, failures + worse)
  {
    hide Itoa;
    forall n, i | n in sent && 0 <= i < |sent[n]|
      ensures Origin(n, sent[n][i], heard + more, failures + worse)
    {
      assert Origin(n, sent[n][i], heard, failures);
    }
    hide Origin;
  }

  lemma AddressedKeeps(c: Client, m: Move)
    requires Callers(c.next, c.calls, c.sent)
    requires Addressed(c.sent, c.heard, c.failures) && Failed(c.err, c.failing, c.pending, c.failures) && Enabled(c, m)
    requires InFlight(c.pending, c.sent, c.flights, c.heard) && Open(c.pending, Half(c), c.sent, c.flights)
    ensures Addressed(Step(c, m).sent, Step(c, m).heard, Step(c, m).failures)
  {
    hide Itoa, Flying;
    match m {
      case Take(k, r) =>
        AddressedMore(c.sent, c.heard, c.failures, {r}, {});
        assert c.failures + {} == c.failures;
        hide Addressed;
      case BeginFail(e) =>
        AddressedMore(c.sent, c.heard, c.failures, {}, {e});
        assert c.heard + {} == c.heard;
        hide Addressed;
      case Deliver(k) =>
        AddressedSent(c.sent, c.heard, c.failures, c.flights[k].call, c.flights[k].r);
        hide Addressed;
      case SendFailure(id) =>
        AddressedSent(c.sent, c.heard, c.failures, c.pending[id], Failure(id, c.failing.value.err));
        hide Addressed;
      case Register(n) =>
        assert c.err.None? ==> n !in c.sent;
        hide InFlight, Open, Callers, Origin;
      case _ => hide Addressed;
    }
  }

  lemma AnswerableRegister(calls: map<nat, Point>, pending: Pending, sent: Sent, flights: Flights, n: nat)
    requires Answerable(calls, pending, sent, flights) && n !in sent
    ensures Answerable(calls[n := Writing], pending[Itoa(n) := n], sent[n := []], flights)
  {
    forall i | i in sent && Itoa(i) == Itoa(n)
      ensures i == n
    {
      ItoaIsOneToOne(i, n);
    }
    hide Itoa, Flying;
  }

  lemma AnswerableForget(calls: map<nat, Point>, pending: Pending, sent: Sent, flights: Flights, n: nat)
    requires Answerable(calls, pending, sent, flights)
    ensures Answerable(calls[n := GaveUp], pending - {Itoa(n)}, sent, flights)
  {
    forall i | i in sent && Itoa(i) == Itoa(n)
      ensures i == n
    {
      ItoaIsOneToOne(i, n);
    }
    hide Itoa, Flying;
  }

  lemma AnswerableTake(calls: map<nat, Point>, pending: Pending, sent: Sent, flights: Flights, k: nat, r: Reply)
    requires Answerable(calls, pending, sent, flights) && r.id in pending && k !in flights
    ensures Answerable(calls, pending - {r.id}, sent, flights[k := Flight(pending[r.id], r)])
  {
    hide Itoa;
    var flights' := flights[k := Flight(pending[r.id], r)];
    assert flights'[k].call == pending[r.id];
    forall n | Flying(flights, n)
      ensures Flying(flights', n)
    {
      var j :| j in flights && flights[j].call == n;
      assert flights'[j] == flights[j];
    }
    hide Flying;
  }

  lemma AnswerableDeliver(calls: map<nat, Point>, pending: Pending, sent: Sent, flights: Flights, k: nat)
    requires Answerable(calls, pending, sent, flights) && k in flights && flights[k].call in sent
    ensures Answerable(calls, pending, sent[flights[k].call := sent[flights[k].call] + [flights[k].r]], flights - {k})
  {
    hide Itoa;
    var flights' := flights - {k};
    forall n | Flying(flights, n) && n != flights[k].call
      ensures Flying(flights', n)
    {
      var j :| j in flights && flights[j].call == n;
      assert j in flights' && flights'[j] == flights[j];
    }
    hide Flying;
  }

  lemma AnswerableSend(calls: map<nat, Point>, pending: Pending, sent: Sent, flights: Flights, n: nat, r: Reply)
    requires Answerable(calls, pending, sent, flights) && n in sent
    ensures Answerable(calls, pending, sent[n := sent[n] + [r]], flights)
  {
    hide Itoa, Flying;
  }

  lemma AnswerableRemove(calls: map<nat, Point>, pending: Pending, id: string, sent: Sent, flights: Flights)
    requires Answerable(calls, pending, sent, flights) && Open(pending, Some(id), sent, flights)
    ensures Answerable(calls, pending - {id}, sent, flights)
  {
    hide Itoa, Flying;
  }

  lemma AnswerableKeeps(c: Client, m: Move)
    requires Callers(c.next, c.calls, c.sent) && Answerable(c.calls, c.pending, c.sent, c.flights) && Enabled(c, m)
    requires InFlight(c.pending, c.sent, c.flights, c.heard) && Open(c.pending, Half(c), c.sent, c.flights)
    ensures Answerable(Step(c, m).calls, Step(c, m).pending, Step(c, m).sent, Step(c, m).flights)
  {
    hide Itoa, Flying, InFlight;
    match m {
      case Register(n) =>
        if c.err.None? {
          AnswerableRegister(c.calls, c.pending, c.sent, c.flights, n);
          hide Answerable;
        }
        hide Open;
      case Forget(n) =>
        AnswerableForget(c.calls, c.pending, c.sent, c.flights, n);
        hide Answerable;
      case Take(k, r) =>
        if r.id in c.pending {
          AnswerableTake(c.calls, c.pending, c.sent, c.flights, k, r);
        }
        hide Answerable;
      case Deliver(k) =>
        AnswerableDeliver(c.calls, c.pending, c.sent, c.flights, k);
        hide Answerable;
      case SendFailure(id) =>
        AnswerableSend(c.calls, c.pending, c.sent, c.flights, c.pending[id], Failure(id, c.failing.value.err));
        hide Answerable;
      case Remove =>
        AnswerableRemove(c.calls, c.pending, c.failing.value.half.value, c.sent, c.flights);
        hide Answerable;
      case _ => hide Open;
    }
  }

  lemma FailedKeeps(c: Client, m: Move)
    requires Failed(c.err, c.failing, c.pending, c.failures) && Enabled(c, m)
    ensures Failed(Step(c, m).err, Step(c, m).failing, Step(c, m).pending, Step(c, m).failures)
  {
    hide Itoa, Room;
  }

  lemma KeptOn(c: Client, m: Move)
    requires Kept(c) && Enabled(c, m)
    ensures Kept(Step(c, m))
  {
    CallersKeep(c, m);
    OpenKeeps(c, m);
    InFlightKeeps(c, m);
    AddressedKeeps(c, m);
    AnswerableKeeps(c, m);
    FailedKeeps(c, m);
    hide Callers, Open, InFlight, Addressed, Answerable, Failed, Half, Step, Enabled;
  }

  lemma {:induction false} AlwaysKept(cs: seq<Client>)
    requires cs != [] && History(cs)
    ensures Kept(Last(cs))
  {
    hide Step, Enabled;
    if |cs| > 1 {
      hide Kept;
      var front := cs[..|cs| - 1];
      forall n | 0 <= n < |front| - 1
        ensures Next(front[n], front[n + 1])
      {
        assert Next(cs[n], cs[n + 1]);
      }
      AlwaysKept(front);
      assert Next(cs[|cs| - 2], cs[|cs| - 1]);
      var m :| Enabled(Last(front), m) && Last(cs) == Step(Last(front), m);
      KeptOn(Last(front), m);
    } else {
      FreshKept();
      hide Kept;
    }
  }

  lemma FreshKept()
    ensures Kept(FRESH)
  {
  }

  lemma ReachableKept(c: Client)
    requires Reachable(c)
    ensures Kept(c)
  {
    hide Kept, History;
    var cs :| cs != [] && History(cs) && Last(cs) == c;
    AlwaysKept(cs);
  }

  // ---- What the moves say ----------------------------------------------------------------------

  /** The moves that make up a history. */
  ghost predicate Played(cs: seq<Client>, ms: seq<Move>) {
    && |cs| == |ms| + 1 && cs[0] == FRESH
    && forall n :: 0 <= n < |ms| ==> Enabled(cs[n], ms[n]) && cs[n + 1] == Step(cs[n], ms[n])
  }

  /** The failure that fail was last given. */
  function LastFailure(ms: seq<Move>): Option<string> {
    if ms == [] then None
    else if Last(ms).BeginFail? then Some(Last(ms).e)
    else LastFailure(ms[..|ms| - 1])
  }

  function HeardIn(ms: seq<Move>): set<Reply> {
    if ms == [] then {} else HeardIn(ms[..|ms| - 1]) + if Last(ms).Take? then {Last(ms).r} else {}
  }

  function FailuresIn(ms: seq<Move>): set<string> {
    if ms == [] then {} else FailuresIn(ms[..|ms| - 1]) + if Last(ms).BeginFail? then {Last(ms).e} else {}
  }

  function Numbers(ms: seq<Move>): nat {
    if ms == [] then 0 else Numbers(ms[..|ms| - 1]) + if Last(ms).Number? then 1 else 0
  }

  lemma HearsOn(c: Client, m: Move)
    requires Enabled(c, m)
    ensures var c' := Step(c, m);
      && c'.heard == c.heard + (if m.Take? then {m.r} else {})
      && c'.failures == c.failures + (if m.BeginFail? then {m.e} else {})
      && c'.err == (if m.BeginFail? then Some(m.e) else c.err)
      && c'.next == c.next + if m.Number? then 1 else 0
  {
    hide Itoa, Room;
  }

  /** What was heard is what resolve was given, the failures are what fail was, the calls' error is the
      last of those, and as many IDs were given out as there were calls. */
  lemma {:induction false} HeardAreTheMoves(cs: seq<Client>, ms: seq<Move>)
    requires Played(cs, ms)
    ensures var c := Last(cs);
      c.heard == HeardIn(ms) && c.failures == FailuresIn(ms) && c.err == LastFailure(ms) && c.next == Numbers(ms)
  {
    if ms != [] {
      var (front, fm, c, m) := (cs[..|cs| - 1], ms[..|ms| - 1], cs[|ms| - 1], Last(ms));
      assert Last(front) == c && Last(cs) == Step(c, m);
      HeardAreTheMoves(front, fm);
      HearsOn(c, m);
      hide Step, Enabled;
    }
  }

  // ---- Which calls are open ----------------------------------------------------------------------

  /** A call that was given up is open no more. */
  predicate Forgotten(calls: map<nat, Point>, pending: Pending) {
    forall n :: n in calls && calls[n].GaveUp? ==> Itoa(n) !in pending
  }

  lemma ForgottenKeeps(c: Client, m: Move)
    requires Forgotten(c.calls, c.pending) && Callers(c.next, c.calls, c.sent) && Enabled(c, m)
    ensures Forgotten(Step(c, m).calls, Step(c, m).pending)
  {
    if m.Register? && c.err.None? {
      forall n | n in c.calls && Itoa(n) == Itoa(m.n)
        ensures n == m.n
      {
        ItoaIsOneToOne(n, m.n);
      }
    }
    hide Itoa, Room;
  }

  lemma {:induction false} AlwaysForgotten(cs: seq<Client>)
    requires cs != [] && History(cs)
    ensures Forgotten(Last(cs).calls, Last(cs).pending)
  {
    hide Step, Enabled;
    if |cs| > 1 {
      var front := cs[..|cs| - 1];
      assert forall n :: 0 <= n < |front| ==> front[n] == cs[n];
      AlwaysForgotten(front);
      AlwaysKept(front);
      assert Next(cs[|cs| - 2], cs[|cs| - 2 + 1]);
      var m :| Enabled(Last(front), m) && Last(cs) == Step(Last(front), m);
      hide Forgotten, Open, InFlight, Addressed, Answerable, Failed, Callers;
      ForgottenKeeps(Last(front), m);
    }
  }

  /** The open calls are exactly those registered and not given up that no resolver has taken and nothing
      has answered, but for one that fail has just sent to, and is about to remove. */
  lemma OpenCalls(c: Client, n: nat)
    requires Reachable(c)
    ensures Itoa(n) in c.pending <==>
      && n in c.calls && Registered(c.calls[n]) && n in c.sent && !c.calls[n].GaveUp?
      && !Flying(c.flights, n) && (c.sent[n] == [] || (c.failing.Some? && c.failing.value.half == Some(Itoa(n))))
  {
    hide History, Kept, Forgotten;
    var cs :| cs != [] && History(cs) && Last(cs) == c;
    AlwaysKept(cs);
    AlwaysForgotten(cs);
    OpenIs(c, n);
  }

  lemma OpenIs(c: Client, n: nat)
    requires Kept(c) && Forgotten(c.calls, c.pending)
    ensures Itoa(n) in c.pending <==>
      && n in c.calls && Registered(c.calls[n]) && n in c.sent && !c.calls[n].GaveUp?
      && !Flying(c.flights, n) && (c.sent[n] == [] || (c.failing.Some? && c.failing.value.half == Some(Itoa(n))))
  {
    if Itoa(n) in c.pending {
      ItoaIsOneToOne(c.pending[Itoa(n)], n);
    }
    hide Itoa, Flying, Addressed, InFlight, Failed;
  }

  // ---- Main results --------------------------------------------------------------------------

  lemma CanDeliver(c: Client, k: nat)
    requires Kept(c) && k in c.flights
    ensures Enabled(c, Deliver(k)) && c.sent[c.flights[k].call] == []
  {
    hide Itoa, Addressed, Answerable, Flying, Open, Failed;
  }

  lemma CanSendFailure(c: Client, id: string)
    requires Kept(c) && c.failing.Some? && c.failing.value.half.None? && id in c.pending
    ensures Enabled(c, SendFailure(id))
  {
    hide Itoa, Addressed, Answerable, Flying, InFlight, Failed;
  }

  /** No send finds its channel full: a resolver can always deliver, and fail always has a move. */
  lemma NoSendBlocks(c: Client)
    requires Reachable(c)
    ensures forall k :: k in c.flights ==> Enabled(c, Deliver(k))
    ensures c.failing.Some? ==>
              Enabled(c, Remove) || Enabled(c, EndFail) || exists id :: id in c.pending && Enabled(c, SendFailure(id))
  {
    ReachableKept(c);
    hide Kept;
    forall k | k in c.flights
      ensures Enabled(c, Deliver(k))
    {
      CanDeliver(c, k);
    }
    if c.failing.Some? && c.failing.value.half.None? && c.pending != map[] {
      var id :| id in c.pending;
      CanSendFailure(c, id);
    }
  }

  /** Each channel gets at most one reply, addressed to its own call, that resolve or fail was given. */
  lemma AtMostOneReply(c: Client, n: nat)
    requires Reachable(c) && n in c.sent
    ensures |c.sent[n]| <= 1 && forall i :: 0 <= i < |c.sent[n]| ==> Origin(n, c.sent[n][i], c.heard, c.failures)
    ensures n in c.calls && (c.calls[n].Got? ==> c.sent[n] == [c.calls[n].r])
  {
    ReachableKept(c);
    hide Itoa, Origin, Open, InFlight, Answerable;
  }

  /** Once the calls have failed, every call registered and not forgotten has exactly one reply, or a
      resolver about to deliver its only one, and no call can register. */
  lemma FailureAnswersAll(c: Client, n: nat)
    requires Reachable(c) && c.err.Some? && c.failing.None?
    ensures n in c.calls && n in c.sent && c.calls[n] != GaveUp ==> (|c.sent[n]| == 1 <==> !Flying(c.flights, n))
    ensures n in c.calls && c.calls[n] == Numbered ==> Step(c, Register(n)).calls[n] == Refused
  {
    ReachableKept(c);
    hide Itoa, Origin;
  }

  /** When fail is what the resolvers' own goroutine does last, no resolver is left: then every caller
      still waiting can receive. */
  lemma WaitersAreAnswered(c: Client, n: nat)
    requires Reachable(c) && c.err.Some? && c.failing.None? && c.flights == map[] && At(c, n, Waiting)
    ensures Enabled(c, Receive(n))
  {
    ReachableKept(c);
    FailureAnswersAll(c, n);
    hide Itoa, Origin;
  }

  lemma PendingIs(c: Client, n: nat)
    requires Kept(c) && Itoa(n) in c.pending
    ensures c.pending[Itoa(n)] == n
  {
    hide Callers, InFlight, Addressed, Answerable, Failed, Flying;
    ItoaIsOneToOne(n, c.pending[Itoa(n)]);
  }

  /** A reply to an open call is that call's: once taken it is the one its channel will have. */
  lemma RepliesReachTheirCall(c: Client, k: nat, r: Reply, n: nat)
    requires Reachable(c) && Enabled(c, Take(k, r)) && r.id == Itoa(n) && r.id in c.pending
    ensures Enabled(Step(c, Take(k, r)), Deliver(k))
    ensures Step(Step(c, Take(k, r)), Deliver(k)).sent == c.sent[n := [r]]
  {
    ReachableKept(c);
    PendingIs(c, n);
    KeptOn(c, Take(k, r));
    hide Kept, Itoa;
    CanDeliver(Step(c, Take(k, r)), k);
    assert [] + [r] == [r];
  }
}
