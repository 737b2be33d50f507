/**
 * Following one run (workflow/runner.go: Subscribe, log, live): the run's log, the run objects of
 * any number of Runners that append to it, and the queues of those who follow it.
 */
module Following {
  import opened Common

  /** What a logged event says, without its number. */
  datatype Body = Body(kind: string, data: string)

  datatype Item = Logged(num: nat, body: Body) | Live(data: string)

  /** The logged events numbered above from, up to to. */
  function Entries(log: seq<Body>, from: nat, to: nat): (r: seq<Item>)
    requires from <= to <= |log|
    ensures |r| == to - from
    ensures forall i :: 0 <= i < |r| ==> r[i] == Logged(from + i + 1, log[from + i])
  {
    seq(to - from, i requires 0 <= i < to - from => Logged(from + i + 1, log[from + i]))
  }

  function Numbered(items: seq<Item>): (r: seq<Item>)
    ensures forall i :: 0 <= i < |r| ==> r[i].Logged?
  {
    if items == [] then []
    else
      var front := Numbered(items[..|items| - 1]);
      if Last(items).Logged? then front + [Last(items)] else front
  }

  lemma NumberedOn(items: seq<Item>, x: Item)
    ensures Numbered(items + [x]) == Numbered(items) + if x.Logged? then [x] else []
  {
    assert (items + [x])[..|items|] == items;
  }

  lemma {:induction false} NumberedAll(items: seq<Item>)
    requires forall i :: 0 <= i < |items| ==> items[i].Logged?
    ensures Numbered(items) == items
  {
    if items != [] {
      NumberedAll(items[..|items| - 1]);
      assert items == items[..|items| - 1] + [Last(items)];
    }
  }

  /** The logged ones among the first items are the first among the logged ones. */
  lemma {:induction false} NumberedPrefix(items: seq<Item>, n: nat)
    requires n <= |items|
    ensures Numbered(items[..n]) <= Numbered(items)
  {
    if n < |items| {
      var front := items[..|items| - 1];
      NumberedPrefix(front, n);
      assert front[..n] == items[..n];
    } else {
      assert items[..n] == items;
    }
  }

  /** The log position a cursor stands for when the log holds k events. */
  function Start(after: int, k: nat): (from: nat)
    ensures from <= k
  {
    if after < 0 then 0 else if after < k then after else k
  }

  // ---- The world ---------------------------------------------------------------------------

  /** A run object: how many events its state folds. */
  datatype Runner = Runner(known: nat, finished: bool)

  /** A subscription: the run object it joined, the cursor, how long the log was when it was read, how
      far it has been told, and all that was pushed on its queue. */
  datatype Sub = Sub(run: Option<nat>, after: int, read: nat, upto: nat, pushed: seq<Item>, joined: bool)

  datatype World = World(log: seq<Body>, runs: map<nat, Runner>, subs: map<nat, Sub>)

  const EMPTY := World([], map[], map[])

  datatype Move =
    | Take(r: nat, known: nat)                     // Start or Resume, from a log read some time before
    | LogEvent(r: nat, e: Body)                    // rn.log, appended and reported so
    | LogUnreported(r: nat, e: Body)               // rn.log, appended though reported failed
    | Append(e: Body)                              // another process, or Cancel of an idle run
    | Show(r: nat, data: string)                   // rn.live
    | Join(q: nat, r: nat, after: int, k: nat)     // Subscribe to a run that has not finished
    | Replay(q: nat, after: int, k: nat)           // Subscribe to any other
    | Leave(q: nat)                                // its queue found gone
    | Finish(r: nat)

  predicate Active(w: World, r: nat) {
    r in w.runs && !w.runs[r].finished
  }

  /** The Store takes an event only if it is the log's next. */
  predicate InSequence(w: World, r: nat) {
    Active(w, r) && w.runs[r].known == |w.log|
  }

  predicate Enabled(w: World, m: Move) {
    match m
    case Take(r, known) => r !in w.runs && known <= |w.log|
    case LogEvent(r, _) => InSequence(w, r)
    case LogUnreported(r, _) => InSequence(w, r)
    case Append(_) => true
    case Show(r, _) => Active(w, r)
    case Join(q, r, after, k) => q !in w.subs && Active(w, r) && w.runs[r].known <= k <= |w.log|
    case Replay(q, after, k) => q !in w.subs && 0 < k <= |w.log|
    case Leave(q) => q in w.subs
    case Finish(r) => Active(w, r)
  }

  predicate Follows(s: Sub, r: nat) {
    s.joined && s.run == Some(r)
  }

  /** Every queue that follows run object r gets x, which is the log's event number upto if logged. */
  function Told(subs: map<nat, Sub>, r: nat, x: Item): map<nat, Sub> {
    map q | q in subs ::
      if Follows(subs[q], r)
      then subs[q].(pushed := subs[q].pushed + [x], upto := if x.Logged? then x.num else subs[q].upto)
      else subs[q]
  }

  function Ended(subs: map<nat, Sub>, r: nat): map<nat, Sub> {
    map q | q in subs :: if Follows(subs[q], r) then subs[q].(joined := false) else subs[q]
  }

  function Step(w: World, m: Move): World
    requires Enabled(w, m)
  {
    match m
    case Take(r, known) => w.(runs := w.runs[r := Runner(known, false)])
    case LogEvent(r, e) =>
      w.(log := w.log + [e], runs := w.runs[r := w.runs[r].(known := w.runs[r].known + 1)],
         subs := Told(w.subs, r, Logged(w.runs[r].known + 1, e)))
    case LogUnreported(r, e) => w.(log := w.log + [e])
    case Append(e) => w.(log := w.log + [e])
    case Show(r, data) => w.(subs := Told(w.subs, r, Live(data)))
    case Join(q, r, after, k) =>
      w.(subs := w.subs[q := Sub(Some(r), after, k, k, Entries(w.log, Start(after, k), k), true)])
    case Replay(q, after, k) =>
      w.(subs := w.subs[q := Sub(None, after, k, k, Entries(w.log, Start(after, k), k), false)])
    case Leave(q) => w.(subs := w.subs[q := w.subs[q].(joined := false)])
    case Finish(r) => w.(runs := w.runs[r := w.runs[r].(finished := true)], subs := Ended(w.subs, r))
  }

  ghost predicate Next(w: World, w': World) {
    exists m :: Enabled(w, m) && w' == Step(w, m)
  }

  ghost predicate History(ws: seq<World>) {
    && ws != [] && ws[0] == EMPTY
    && forall n :: 0 <= n < |ws| - 1 ==> Next(ws[n], ws[n + 1])
  }

  ghost predicate Reachable(w: World) {
    exists ws :: ws != [] && History(ws) && Last(ws) == w
  }

  // ---- What every move keeps -----------------------------------------------------------------

  /** A queue has been told the log's events from its cursor, or from where the log then ended, up to
      upto, each once and in order. */
  predicate Faithful(log: seq<Body>, s: Sub) {
    && s.read <= s.upto <= |log|
    && Numbered(s.pushed) == Entries(log, Start(s.after, s.read), s.upto)
  }

  /** A run object's followers have been told all it has folded, and all the log when it is in sequence. */
  predicate Abreast(log: seq<Body>, runs: map<nat, Runner>, s: Sub) {
    s.joined ==>
      && s.run.Some? && s.run.value in runs && !runs[s.run.value].finished
      && runs[s.run.value].known <= s.upto
  }

  predicate Kept(w: World) {
    && (forall r :: r in w.runs ==> w.runs[r].known <= |w.log|)
    && (forall q :: q in w.subs ==> Faithful(w.log, w.subs[q]))
    && (forall q :: q in w.subs ==> Abreast(w.log, w.runs, w.subs[q]))
  }

  lemma EntriesLonger(log: seq<Body>, e: Body, from: nat, to: nat)
    requires from <= to <= |log|
    ensures Entries(log + [e], from, to) == Entries(log, from, to)
    ensures to == |log| ==> Entries(log + [e], from, to + 1) == Entries(log, from, to) + [Logged(to + 1, e)]
  {
  }

  lemma FaithfulLonger(log: seq<Body>, e: Body, s: Sub)
    requires Faithful(log, s)
    ensures Faithful(log + [e], s)
  {
    EntriesLonger(log, e, Start(s.after, s.read), s.upto);
    hide Entries, Numbered, Start;
  }

  lemma FaithfulTold(log: seq<Body>, e: Body, s: Sub)
    requires Faithful(log, s) && s.upto == |log|
    ensures Faithful(log + [e], s.(pushed := s.pushed + [Logged(|log| + 1, e)], upto := |log| + 1))
  {
    EntriesLonger(log, e, Start(s.after, s.read), s.upto);
    NumberedOn(s.pushed, Logged(|log| + 1, e));
    hide Entries, Numbered, Start;
  }

  lemma FaithfulShown(log: seq<Body>, s: Sub, data: string)
    requires Faithful(log, s)
    ensures Faithful(log, s.(pushed := s.pushed + [Live(data)]))
  {
    NumberedOn(s.pushed, Live(data));
    assert Numbered(s.pushed) + [] == Numbered(s.pushed);
    hide Entries, Numbered, Start;
  }

  lemma FaithfulRead(log: seq<Body>, run: Option<nat>, after: int, k: nat, joined: bool)
    requires k <= |log|
    ensures Faithful(log, Sub(run, after, k, k, Entries(log, Start(after, k), k), joined))
  {
    NumberedAll(Entries(log, Start(after, k), k));
  }

  lemma KeptLogged(w: World, r: nat, e: Body)
    requires Kept(w) && Enabled(w, LogEvent(r, e))
    ensures Kept(Step(w, LogEvent(r, e)))
  {
    var w' := Step(w, LogEvent(r, e));
    forall q | q in w'.subs
      ensures Faithful(w'.log, w'.subs[q]) && Abreast(w'.log, w'.runs, w'.subs[q])
    {
      assert Faithful(w.log, w.subs[q]) && Abreast(w.log, w.runs, w.subs[q]);
      if Follows(w.subs[q], r) {
        FaithfulTold(w.log, e, w.subs[q]);
      } else {
        FaithfulLonger(w.log, e, w.subs[q]);
      }
      hide Faithful;
    }
  }

  lemma KeptLonger(w: World, e: Body)
    requires Kept(w)
    ensures Kept(w.(log := w.log + [e]))
  {
    forall q | q in w.subs
      ensures Faithful(w.log + [e], w.subs[q])
    {
      FaithfulLonger(w.log, e, w.subs[q]);
    }
    hide Faithful;
  }

  lemma KeptShown(w: World, r: nat, data: string)
    requires Kept(w) && Enabled(w, Show(r, data))
    ensures Kept(Step(w, Show(r, data)))
  {
    var w' := Step(w, Show(r, data));
    forall q | q in w'.subs
      ensures Faithful(w'.log, w'.subs[q]) && Abreast(w'.log, w'.runs, w'.subs[q])
    {
      assert Faithful(w.log, w.subs[q]) && Abreast(w.log, w.runs, w.subs[q]);
      FaithfulShown(w.log, w.subs[q], data);
      hide Faithful;
    }
  }

  lemma KeptWith(w: World, q: nat, s: Sub)
    requires Kept(w) && Faithful(w.log, s) && Abreast(w.log, w.runs, s)
    ensures Kept(w.(subs := w.subs[q := s]))
  {
    hide Faithful, Abreast;
  }

  lemma KeptFinish(w: World, r: nat)
    requires Kept(w) && Enabled(w, Finish(r))
    ensures Kept(Step(w, Finish(r)))
  {
    hide Numbered, Entries, Start;
  }

  lemma KeptOn(w: World, m: Move)
    requires Kept(w) && Enabled(w, m)
    ensures Kept(Step(w, m))
  {
    match m {
      case LogEvent(r, e) =>
        KeptLogged(w, r, e);
        hide Kept;
      case LogUnreported(r, e) =>
        KeptLonger(w, e);
        hide Kept;
      case Append(e) =>
        KeptLonger(w, e);
        hide Kept;
      case Show(r, data) =>
        KeptShown(w, r, data);
        hide Kept;
      case Join(q, r, after, k) =>
        FaithfulRead(w.log, Some(r), after, k, true);
        KeptWith(w, q, Sub(Some(r), after, k, k, Entries(w.log, Start(after, k), k), true));
        hide Kept;
      case Replay(q, after, k) =>
        FaithfulRead(w.log, None, after, k, false);
        KeptWith(w, q, Sub(None, after, k, k, Entries(w.log, Start(after, k), k), false));
        hide Kept;
      case Leave(q) =>
        assert Faithful(w.log, w.subs[q]);
        KeptWith(w, q, w.subs[q].(joined := false));
        hide Kept;
      case Finish(r) =>
        KeptFinish(w, r);
        hide Kept;
      case Take(r, known) =>
        hide Faithful;
    }
  }

  lemma {:induction false} AlwaysKept(ws: seq<World>)
    requires ws != [] && History(ws)
    ensures Kept(Last(ws))
  {
    if |ws| > 1 {
      hide Kept;
      var front := ws[..|ws| - 1];
      forall n | 0 <= n < |front| - 1
        ensures Next(front[n], front[n + 1])
      {
        assert Next(ws[n], ws[n + 1]);
      }
      AlwaysKept(front);
      assert Next(ws[|ws| - 2], ws[|ws| - 1]);
      var m :| Enabled(Last(front), m) && Last(ws) == Step(Last(front), m);
      KeptOn(Last(front), m);
      hide Step, Enabled;
    }
  }

  lemma ReachableKept(w: World)
    requires Reachable(w)
    ensures Kept(w)
  {
    hide Kept, History;
    var ws :| ws != [] && History(ws) && Last(ws) == w;
    AlwaysKept(ws);
  }

  // ---- Main results --------------------------------------------------------------------------

  /** What a subscription is ever told of the log: its events above the cursor, or above the log's end
      if that came first, with no gap, repeat, or reordering. */
  lemma TellsTheLog(w: World, q: nat)
    requires Reachable(w) && q in w.subs
    ensures var s := w.subs[q];
            && s.read <= s.upto <= |w.log|
            && Numbered(s.pushed) == Entries(w.log, Start(s.after, s.read), s.upto)
  {
    ReachableKept(w);
    hide Entries, Numbered, Start;
  }

  /** Nothing is held back: while the run object follows the log, its followers have been told all of it. */
  lemma TellsAllOfIt(w: World, q: nat, r: nat)
    requires Reachable(w) && q in w.subs && Follows(w.subs[q], r) && InSequence(w, r)
    ensures w.subs[q].read <= |w.log|
    ensures Numbered(w.subs[q].pushed) == Entries(w.log, Start(w.subs[q].after, w.subs[q].read), |w.log|)
  {
    ReachableKept(w);
    hide Entries, Numbered, Start;
  }

  /** Subscribe promises events numbered above the cursor. It keeps that exactly when the cursor was
      not beyond the log it read, or nothing has been logged since. */
  lemma AboveTheCursor(w: World, q: nat)
    requires Reachable(w) && q in w.subs
    ensures var s := w.subs[q];
            (forall i :: 0 <= i < |Numbered(s.pushed)| ==> Numbered(s.pushed)[i].num > s.after)
            <==> s.after <= s.read || s.upto == s.read
  {
    TellsTheLog(w, q);
    var s := w.subs[q];
    var told := Numbered(s.pushed);
    if s.after > s.read && s.upto > s.read {
      assert told[0].num == s.read + 1;
    }
    hide Numbered;
  }

  lemma LogGrows(w: World, w': World)
    requires Next(w, w')
    ensures w.log <= w'.log
  {
  }

  lemma QueueGrows(w: World, w': World, q: nat)
    requires Next(w, w') && q in w.subs
    ensures q in w'.subs && w.subs[q].pushed <= w'.subs[q].pushed
    ensures w'.subs[q].after == w.subs[q].after && w'.subs[q].read == w.subs[q].read
  {
    hide Entries;
  }

  /** What a subscriber was told is never revised: later it is the first of all it has been told, of a log
      that has only grown, for the same cursor. */
  lemma {:induction false} ToldForGood(ws: seq<World>, i: nat, q: nat)
    requires ws != [] && History(ws) && i < |ws| && q in ws[i].subs
    ensures var (w, w') := (ws[i], Last(ws));
            && q in w'.subs && w.subs[q].pushed <= w'.subs[q].pushed && w.log <= w'.log
            && w'.subs[q].after == w.subs[q].after && w'.subs[q].read == w.subs[q].read
    decreases |ws|
  {
    hide Next;
    if i < |ws| - 1 {
      var front := ws[..|ws| - 1];
      forall n | 0 <= n < |front| - 1
        ensures Next(front[n], front[n + 1])
      {
        assert Next(ws[n], ws[n + 1]);
      }
      ToldForGood(front, i, q);
      assert Next(ws[|ws| - 2], ws[|ws| - 1]);
      LogGrows(Last(front), Last(ws));
      QueueGrows(Last(front), Last(ws), q);
    }
  }

  // ---- What followers hear -----------------------------------------------------------------------

  /** The moves that make up a history. */
  ghost predicate Played(ws: seq<World>, ms: seq<Move>) {
    && |ws| == |ms| + 1 && ws[0] == EMPTY
    && forall n :: 0 <= n < |ms| ==> Enabled(ws[n], ms[n]) && ws[n + 1] == Step(ws[n], ms[n])
  }

  /** What a move has run object r say: the event it logs, by its place in the log, or the one it shows. */
  function Saying(log: seq<Body>, m: Move, r: nat): seq<Item> {
    match m
    case LogEvent(r', e) => if r' == r then [Logged(|log| + 1, e)] else []
    case Show(r', data) => if r' == r then [Live(data)] else []
    case _ => []
  }

  /** All that r says from the i-th move on. */
  function Said(ws: seq<World>, ms: seq<Move>, i: nat, r: nat): seq<Item>
    requires |ms| <= |ws|
  {
    if |ms| <= i then []
    else Said(ws, ms[..|ms| - 1], i, r) + Saying(ws[|ms| - 1].log, Last(ms), r)
  }

  /** A move adds to a queue what it has the run object that the queue follows say. */
  lemma HearsOn(w: World, m: Move, q: nat)
    requires Kept(w) && Enabled(w, m) && q in w.subs
    ensures var (s, w') := (w.subs[q], Step(w, m));
      && q in w'.subs && w'.subs[q].run == s.run && (w'.subs[q].joined ==> s.joined)
      && w'.subs[q].pushed == s.pushed + if s.joined && s.run.Some? then Saying(w.log, m, s.run.value) else []
  {
    hide Faithful, Abreast, Entries;
    var s := w.subs[q];
    assert s.pushed + [] == s.pushed;
    match m {
      case LogEvent(r, e) =>
      case Show(r, data) =>
      case Finish(r) =>
      case Leave(q') =>
      case Join(q', r, after, k) =>
      case Replay(q', after, k) =>
      case _ =>
    }
  }

  /** A subscriber to a run hears, after the log's events from its cursor on, all that the run object it
      joined says, logged or live, in order and nothing else, for as long as it follows it. */
  lemma {:induction false} FollowersHearAll(ws: seq<World>, ms: seq<Move>, i: nat, q: nat, r: nat, after: int, k: nat)
    requires Played(ws, ms) && i < |ms| && ms[i] == Join(q, r, after, k)
    ensures q in Last(ws).subs && Last(ws).subs[q].run == Some(r) && k <= |ws[i].log|
    ensures Last(ws).subs[q].joined ==>
      Last(ws).subs[q].pushed == Entries(ws[i].log, Start(after, k), k) + Said(ws, ms, i + 1, r)
    decreases |ms|
  {
    hide Entries, Start;
    if i == |ms| - 1 {
      assert Entries(ws[i].log, Start(after, k), k) + [] == Entries(ws[i].log, Start(after, k), k);
    } else {
      var (front, w, m) := (ws[..|ws| - 1], ws[|ms| - 1], Last(ms));
      assert Last(front) == w && Last(ws) == Step(w, m);
      FollowersHearAll(front, ms[..|ms| - 1], i, q, r, after, k);
      PlayedKept(front, ms[..|ms| - 1]);
      hide Kept, Step, Enabled;
      HearsOn(w, m, q);
      SaidFront(ws, ms[..|ms| - 1], i + 1, r);
    }
  }

  /** A run object that has finished says nothing more, and no one joins it. */
  lemma FinishedIsSilent(ws: seq<World>, ms: seq<Move>, i: nat, r: nat)
    requires Played(ws, ms) && i < |ms| && ms[i] == Finish(r)
    ensures forall n :: i < n < |ms| ==> Saying(ws[n].log, ms[n], r) == [] && !(ms[n].Join? && ms[n].r == r)
  {
    for n := i + 1 to |ms|
      invariant r in ws[n].runs && ws[n].runs[r].finished
      invariant forall k :: i < k < n ==> Saying(ws[k].log, ms[k], r) == [] && !(ms[k].Join? && ms[k].r == r)
    {
      FinishedStays(ws[n], ms[n], r);
    }
  }

  lemma FinishedStays(w: World, m: Move, r: nat)
    requires Enabled(w, m) && r in w.runs && w.runs[r].finished
    ensures r in Step(w, m).runs && Step(w, m).runs[r].finished
    ensures Saying(w.log, m, r) == [] && !(m.Join? && m.r == r)
  {
  }

  lemma {:induction false} SaidFront(ws: seq<World>, ms: seq<Move>, i: nat, r: nat)
    requires |ms| < |ws|
    ensures Said(ws[..|ws| - 1], ms, i, r) == Said(ws, ms, i, r)
  {
    if |ms| > i {
      SaidFront(ws, ms[..|ms| - 1], i, r);
    }
  }

  lemma PlayedKept(ws: seq<World>, ms: seq<Move>)
    requires Played(ws, ms)
    ensures Kept(Last(ws))
  {
    hide Kept, Step, Enabled;
    forall n | 0 <= n < |ws| - 1
      ensures Next(ws[n], ws[n + 1])
    {
      assert Enabled(ws[n], ms[n]);
    }
    AlwaysKept(ws);
  }

  // ---- A cursor beyond the log -------------------------------------------------------------------

  const SAID := Body("step_started", "{}")

  /** Event 1 is logged, a subscriber joins above 5, and event 2 is logged. */
  const BEYOND: seq<World> := [
    EMPTY,
    World([], map[0 := Runner(0, false)], map[]),
    World([SAID], map[0 := Runner(1, false)], map[]),
    World([SAID], map[0 := Runner(1, false)], map[0 := Sub(Some(0), 5, 1, 1, [], true)]),
    World([SAID, SAID], map[0 := Runner(2, false)], map[0 := Sub(Some(0), 5, 1, 2, [Logged(2, SAID)], true)])]

  lemma BeyondBegins()
    ensures Next(BEYOND[0], BEYOND[1]) && Next(BEYOND[1], BEYOND[2])
  {
    assert BEYOND[1] == Step(BEYOND[0], Take(0, 0));
    assert [] + [SAID] == [SAID];
    assert BEYOND[2] == Step(BEYOND[1], LogEvent(0, SAID));
  }

  lemma BeyondGoesOn()
    ensures Next(BEYOND[2], BEYOND[3]) && Next(BEYOND[3], BEYOND[4])
  {
    assert BEYOND[3] == Step(BEYOND[2], Join(0, 0, 5, 1));
    assert [SAID] + [SAID] == [SAID, SAID] && [] + [Logged(2, SAID)] == [Logged(2, SAID)];
    assert BEYOND[4] == Step(BEYOND[3], LogEvent(0, SAID));
  }

  /** A subscriber above 5 that is told event 2. */
  lemma CursorBeyondTheLog()
    ensures var w := BEYOND[4];
            Reachable(w) && w.subs[0].after == 5 && Numbered(w.subs[0].pushed) == [Logged(2, SAID)]
  {
    NumberedOn([], Logged(2, SAID));
    assert [] + [Logged(2, SAID)] == [Logged(2, SAID)];
    BeyondBegins();
    BeyondGoesOn();
    hide Next;
    assert |BEYOND| == 5 && History(BEYOND) && Last(BEYOND) == BEYOND[4];
  }
}
