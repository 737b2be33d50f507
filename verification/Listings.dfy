/**
 * The tool listings of the MCP bridge (mcpbridge/server.go): changes of the respond tool, tools/list
 * requests, and the callers of WaitListed, interleaved.
 */
module Listings {
  import opened Common

  /** The respond tool a server offers under a name, if any. */
  function Offered(respond: string): set<string> {
    if respond == "" then {} else {respond}
  }

  // ---- The source's object -----------------------------------------------------------------

  /** The fields SetSchema, WaitListed, and routeRespond share under the mutex. listed counts the
      channels closed so far; tools holds each go-sdk server's respond tools. */
  class Server {
    var schema: string
    var respond: string
    var gen: nat
    var listedGen: nat
    var started: nat
    var listed: nat
    var tools: map<nat, set<string>>

    ghost predicate Valid()
      reads this
    {
      listedGen <= gen && forall k :: k in tools ==> tools[k] == Offered(respond)
    }

    constructor ()
      ensures Valid() && schema == respond == "" && gen == listedGen == started == listed == 0 && tools == map[]
    {
      schema, respond, gen, listedGen, started, listed, tools := "", "", 0, 0, 0, 0, map[];
    }

    /** SetSchema: every server offers the new schema's tool in place of the old one's. A schema that doesn't
        compile is refused. One whose tool has the current name leaves the current schema in force. */
    method SetSchema(given: string, blank: string -> bool, compiles: string -> bool, nameOf: string -> string)
      returns (refused: bool)
      requires Valid()
      modifies this
      ensures Valid() && tools.Keys == old(tools.Keys)
      ensures forall k :: k in tools ==> tools[k] == if respond == "" then {} else {respond}
      ensures listedGen == old(listedGen) && started == old(started) && listed == old(listed)
      ensures refused <==> !blank(given) && !compiles(given)
      ensures var name := if refused then old(respond) else if blank(given) then "" else nameOf(given);
              && respond == name && gen == old(gen) + (if name == old(respond) then 0 else 1)
              && schema == (if name == old(respond) then old(schema) else if blank(given) then "" else given)
              && (name == old(respond) ==> tools == old(tools))
    {
      var next, name := "", "";
      if !blank(given) {
        if !compiles(given) {
          return true;
        }
        next, name := given, nameOf(given);
      }
      refused := false;
      if name == respond {
        return;
      }
      Replace(next, name);
    }

    /** What SetSchema does for a tool of another name, under the mutex. */
    method Replace(next: string, name: string)
      requires Valid() && name != respond
      modifies this
      ensures Valid() && respond == name && schema == next && tools.Keys == old(tools.Keys) && gen == old(gen) + 1
      ensures listedGen == old(listedGen) && started == old(started) && listed == old(listed)
    {
      var before := respond;
      schema, respond := next, name;
      gen := gen + 1;
      var rest := tools.Keys;
      while rest != {}
        invariant rest <= tools.Keys == old(tools.Keys)
        invariant respond == name && schema == next && gen == old(gen) + 1
        invariant listedGen == old(listedGen) && started == old(started) && listed == old(listed)
        invariant forall k :: k in tools ==> tools[k] == if k in rest then Offered(before) else Offered(name)
        decreases rest
      {
        var k :| k in rest;
        rest := rest - {k};
        if before != "" {
          tools := tools[k := tools[k] - {before}];
        }
        if name != "" {
          tools := tools[k := tools[k] + {name}];
        }
      }
    }

    method Register(k: nat)
      requires Valid()
      modifies this`tools
      ensures Valid() && tools == old(tools)[k := Offered(respond)]
    {
      tools := tools[k := Offered(respond)];
    }

    /** What routeRespond does as a tools/list arrives, and as it has been answered. */
    method Arrive() returns (g: nat)
      modifies this`started
      ensures g == gen && started == old(started) + 1
    {
      g := gen;
      started := started + 1;
    }

    method Answer(g: nat)
      requires Valid() && g <= gen
      modifies this`listedGen, this`listed
      ensures Valid() && listedGen == (if g > old(listedGen) then g else old(listedGen)) && listed == old(listed) + 1
    {
      listedGen := if g > listedGen then g else listedGen;
      listed := listed + 1;
    }

    /** WaitListed's look under the mutex: whether to return, and the channel to wait on if not. */
    method Look() returns (done: bool, channel: nat)
      ensures done <==> started == 0 || listedGen >= gen
      ensures channel == listed
    {
      done, channel := started == 0 || listedGen >= gen, listed;
    }
  }

  // ---- Interleaved moves -------------------------------------------------------------------

  datatype Listing =
    | Arriving(server: nat)                                // not yet counted
    | Reading(server: nat, gen: nat)                       // counted, tools not yet read
    | Answering(server: nat, gen: nat, names: set<string>) // read, not yet answered

  datatype Waiter = Looking | Sleeping(channel: nat) | Returned | TimedOut | Abandoned

  /** What happened, in order. A listing is counted as it arrives and as it is answered. */
  datatype Mark = Changed | Arrived(l: nat) | Answered(l: nat)

  /** A SetSchema that holds the mutex: the tool it removes, the servers it has yet to do, and the one
      it has only removed the tool from. */
  datatype Setting = Setting(before: string, rest: set<nat>, half: Option<nat>)

  datatype Answer = Answer(l: nat, gen: nat, names: set<string>)

  datatype Bridge = Bridge(
    respond: string, gen: nat, listedGen: nat, started: nat, listed: nat,
    setting: Option<Setting>, tools: map<nat, set<string>>,
    listings: map<nat, Listing>, waiters: map<nat, Waiter>,
    marks: seq<Mark>, answers: seq<Answer>)

  const FRESH := Bridge("", 0, 0, 0, 0, None, map[], map[], map[], [], [])

  datatype Move =
    | BeginSet(name: string) | RemoveOld(k: nat) | AddNew(k: nat) | EndSet
    | Register(k: nat) | Unregister(k: nat)
    | Request(l: nat, k: nat) | Count(l: nat) | Read(l: nat) | Reply(l: nat) | Fail(l: nat)
    | Wait(w: nat) | Look(w: nat) | Wake(w: nat) | Expire(w: nat) | Give(w: nat)

  predicate Unused(b: Bridge, l: nat) {
    && l !in b.listings
    && (forall i :: 0 <= i < |b.marks| ==> b.marks[i] != Arrived(l) && b.marks[i] != Answered(l))
    && (forall i :: 0 <= i < |b.answers| ==> b.answers[i].l != l)
  }

  /** A server is unregistered only once its sessions, and so its listings, are over. */
  predicate Enabled(b: Bridge, m: Move) {
    match m
    case BeginSet(name) => b.setting.None? && name != b.respond
    case RemoveOld(k) => b.setting.Some? && b.setting.value.half.None? && k in b.setting.value.rest && k in b.tools
    case AddNew(k) => b.setting.Some? && b.setting.value.half == Some(k) && k in b.tools
    case EndSet => b.setting.Some? && b.setting.value.half.None? && b.setting.value.rest == {}
    case Register(k) => b.setting.None? && k !in b.tools
    case Unregister(k) => b.setting.None? && forall l :: l in b.listings ==> b.listings[l].server != k
    case Request(l, k) => Unused(b, l) && k in b.tools
    case Count(l) => b.setting.None? && l in b.listings && b.listings[l].Arriving?
    case Read(l) => l in b.listings && b.listings[l].Reading? && b.listings[l].server in b.tools
    case Reply(l) => b.setting.None? && l in b.listings && b.listings[l].Answering?
    case Fail(l) => l in b.listings && !b.listings[l].Arriving?
    case Wait(w) => w !in b.waiters
    case Look(w) => b.setting.None? && w in b.waiters && b.waiters[w].Looking?
    case Wake(w) => w in b.waiters && b.waiters[w].Sleeping? && b.waiters[w].channel < b.listed
    case Expire(w) => w in b.waiters && b.waiters[w].Sleeping?
    case Give(w) => w in b.waiters && b.waiters[w].Sleeping?
  }

  /** The test WaitListed makes. */
  predicate Listed(b: Bridge) {
    b.started == 0 || b.listedGen >= b.gen
  }

  function Step(b: Bridge, m: Move): Bridge
    requires Enabled(b, m)
  {
    match m
    case BeginSet(name) =>
      b.(respond := name, gen := b.gen + 1, setting := Some(Setting(b.respond, b.tools.Keys, None)),
         marks := b.marks + [Changed])
    case RemoveOld(k) =>
      b.(tools := b.tools[k := b.tools[k] - Offered(b.setting.value.before)],
         setting := Some(b.setting.value.(rest := b.setting.value.rest - {k}, half := Some(k))))
    case AddNew(k) =>
      b.(tools := b.tools[k := b.tools[k] + Offered(b.respond)], setting := Some(b.setting.value.(half := None)))
    case EndSet => b.(setting := None)
    case Register(k) => b.(tools := b.tools[k := Offered(b.respond)])
    case Unregister(k) => b.(tools := b.tools - {k})
    case Request(l, k) => b.(listings := b.listings[l := Arriving(k)])
    case Count(l) =>
      b.(listings := b.listings[l := Reading(b.listings[l].server, b.gen)], started := b.started + 1,
         marks := b.marks + [Arrived(l)])
    case Read(l) =>
      b.(listings := b.listings[l := Answering(b.listings[l].server, b.listings[l].gen, b.tools[b.listings[l].server])])
    case Reply(l) =>
      var a := b.listings[l];
      b.(listings := b.listings - {l}, listedGen := if a.gen > b.listedGen then a.gen else b.listedGen,
         listed := b.listed + 1, marks := b.marks + [Answered(l)], answers := b.answers + [Answer(l, a.gen, a.names)])
    case Fail(l) => b.(listings := b.listings - {l})
    case Wait(w) => b.(waiters := b.waiters[w := Looking])
    case Look(w) => b.(waiters := b.waiters[w := if Listed(b) then Returned else Sleeping(b.listed)])
    case Wake(w) => b.(waiters := b.waiters[w := Looking])
    case Expire(w) => b.(waiters := b.waiters[w := TimedOut])
    case Give(w) => b.(waiters := b.waiters[w := Abandoned])
  }

  ghost predicate Next(b: Bridge, b': Bridge) {
    exists m :: Enabled(b, m) && b' == Step(b, m)
  }

  ghost predicate History(bs: seq<Bridge>) {
    && bs != [] && bs[0] == FRESH
    && forall n :: 0 <= n < |bs| - 1 ==> Next(bs[n], bs[n + 1])
  }

  ghost predicate Reachable(b: Bridge) {
    exists bs :: bs != [] && History(bs) && Last(bs) == b
  }

  // ---- The generations count the marks ------------------------------------------------------

  function Changes(marks: seq<Mark>): nat {
    if marks == [] then 0 else Changes(marks[..|marks| - 1]) + if Last(marks) == Changed then 1 else 0
  }

  lemma ChangesOn(marks: seq<Mark>, m: Mark)
    ensures Changes(marks + [m]) == Changes(marks) + if m == Changed then 1 else 0
  {
    assert (marks + [m])[..|marks|] == marks;
  }

  lemma {:induction false} ChangesGrow(marks: seq<Mark>, i: nat)
    requires i <= |marks|
    ensures Changes(marks[..i]) <= Changes(marks)
    ensures Changes(marks[..i]) == Changes(marks) <==> forall n :: i <= n < |marks| ==> marks[n] != Changed
  {
    if i < |marks| {
      var front := marks[..|marks| - 1];
      ChangesGrow(front, i);
      assert front[..i] == marks[..i];
      assert forall n :: i <= n < |front| ==> front[n] == marks[n];
    } else {
      assert marks[..i] == marks;
    }
  }

  predicate ArrivedAt(marks: seq<Mark>, l: nat, gen: nat) {
    exists i :: 0 <= i < |marks| && marks[i] == Arrived(l) && Changes(marks[..i]) == gen
  }

  predicate Once(marks: seq<Mark>) {
    forall i, j :: 0 <= i < j < |marks| && marks[i].Arrived? && marks[j].Arrived? ==> marks[i].l != marks[j].l
  }

  lemma ArrivedOn(marks: seq<Mark>, l: nat, gen: nat, m: Mark)
    requires ArrivedAt(marks, l, gen)
    ensures ArrivedAt(marks + [m], l, gen)
  {
    var i :| 0 <= i < |marks| && marks[i] == Arrived(l) && Changes(marks[..i]) == gen;
    assert (marks + [m])[..i] == marks[..i];
  }

  // ---- What every move keeps -----------------------------------------------------------------

  /** Each counted listing has the generation it arrived in; an answered one has a mark. */
  predicate Generations(b: Bridge) {
    && b.gen == Changes(b.marks)
    && (b.started == 0 <==> forall i :: 0 <= i < |b.marks| ==> !b.marks[i].Arrived?)
    && (forall l :: l in b.listings && !b.listings[l].Arriving? ==> ArrivedAt(b.marks, l, b.listings[l].gen))
    && (forall i :: 0 <= i < |b.answers| ==> ArrivedAt(b.marks, b.answers[i].l, b.answers[i].gen))
  }

  /** A listing arrives once, and is answered once. */
  predicate MarksOnce(b: Bridge) {
    && Once(b.marks)
    && (forall i, j :: 0 <= i < j < |b.answers| ==> b.answers[i].l != b.answers[j].l)
    && (forall l, i :: l in b.listings && 0 <= i < |b.answers| ==> b.answers[i].l != l)
    && (forall l :: l in b.listings && b.listings[l].Arriving? ==>
          forall i :: 0 <= i < |b.marks| ==> b.marks[i] != Arrived(l))
  }

  predicate AnswersMarked(b: Bridge) {
    && (forall i :: 0 <= i < |b.marks| && b.marks[i].Answered? ==> exists j :: 0 <= j < |b.answers| && b.answers[j].l == b.marks[i].l)
    && (forall j :: 0 <= j < |b.answers| ==> Answered(b.answers[j].l) in b.marks)
  }

  /** listedGen is the highest generation answered, 0 for none. */
  predicate Highest(listedGen: nat, answers: seq<Answer>) {
    && (forall i :: 0 <= i < |answers| ==> answers[i].gen <= listedGen)
    && (listedGen > 0 ==> exists i :: 0 <= i < |answers| && answers[i].gen == listedGen)
  }

  /** Between changes every server offers the current tool alone; within one, those not done the old. */
  predicate Offers(respond: string, setting: Option<Setting>, tools: map<nat, set<string>>) {
    && (setting.Some? ==> setting.value.rest <= tools.Keys)
    && (setting.Some? && setting.value.half.Some? ==>
          setting.value.half.value in tools && setting.value.half.value !in setting.value.rest)
    && forall k :: k in tools ==>
         if setting.Some? && k in setting.value.rest then tools[k] == Offered(setting.value.before)
         else if setting.Some? && setting.value.half == Some(k) then tools[k] == {}
         else tools[k] == Offered(respond)
  }

  /** A listing of the current generation reads, has read, or was answered with the current tool. */
  predicate Current(b: Bridge) {
    && (forall l :: l in b.listings ==> b.listings[l].server in b.tools)
    && (forall l :: l in b.listings && !b.listings[l].Arriving? ==>
          b.listings[l].gen <= b.gen && (b.listings[l].gen == b.gen ==> b.setting.None?))
    && (forall l :: l in b.listings && b.listings[l].Answering? && b.listings[l].gen == b.gen ==>
          b.listings[l].names == Offered(b.respond))
    && (forall i :: 0 <= i < |b.answers| ==>
          b.answers[i].gen <= b.gen && (b.answers[i].gen == b.gen ==> b.answers[i].names == Offered(b.respond)))
  }

  /** A waiter on the current channel had no reason to return, and has none. */
  predicate Sleepers(b: Bridge) {
    forall w :: w in b.waiters && b.waiters[w].Sleeping? ==>
      b.waiters[w].channel <= b.listed && (b.waiters[w].channel == b.listed ==> !Listed(b))
  }

  predicate Kept(b: Bridge) {
    && Generations(b) && MarksOnce(b) && AnswersMarked(b) && Highest(b.listedGen, b.answers)
    && Offers(b.respond, b.setting, b.tools) && Current(b) && Sleepers(b)
  }

  lemma MoreMarks(b: Bridge, m: Mark)
    requires Generations(b)
    ensures forall l :: l in b.listings && !b.listings[l].Arriving? ==> ArrivedAt(b.marks + [m], l, b.listings[l].gen)
    ensures forall i :: 0 <= i < |b.answers| ==> ArrivedAt(b.marks + [m], b.answers[i].l, b.answers[i].gen)
    ensures Changes(b.marks + [m]) == b.gen + if m == Changed then 1 else 0
    ensures (forall i :: 0 <= i < |b.marks + [m]| ==> !(b.marks + [m])[i].Arrived?) <==> b.started == 0 && !m.Arrived?
  {
    hide ArrivedAt;
    forall l | l in b.listings && !b.listings[l].Arriving?
      ensures ArrivedAt(b.marks + [m], l, b.listings[l].gen)
    {
      ArrivedOn(b.marks, l, b.listings[l].gen, m);
    }
    forall i | 0 <= i < |b.answers|
      ensures ArrivedAt(b.marks + [m], b.answers[i].l, b.answers[i].gen)
    {
      ArrivedOn(b.marks, b.answers[i].l, b.answers[i].gen, m);
    }
    ChangesOn(b.marks, m);
    assert (b.marks + [m])[|b.marks|] == m;
    assert forall i :: 0 <= i < |b.marks| ==> (b.marks + [m])[i] == b.marks[i];
  }

  lemma GenerationsChange(b: Bridge, name: string)
    requires Generations(b) && Enabled(b, BeginSet(name))
    ensures Generations(Step(b, BeginSet(name)))
  {
    MoreMarks(b, Changed);
    hide ArrivedAt, Changes, Offered, Unused;
  }

  lemma GenerationsCount(b: Bridge, l: nat)
    requires Generations(b) && Enabled(b, Count(l))
    ensures Generations(Step(b, Count(l)))
  {
    MoreMarks(b, Arrived(l));
    var marks := b.marks + [Arrived(l)];
    assert marks[|b.marks|] == Arrived(l) && marks[..|b.marks|] == b.marks;
    assert ArrivedAt(marks, l, b.gen);
    hide ArrivedAt, Changes, Offered, Unused;
  }

  lemma GenerationsReply(b: Bridge, l: nat)
    requires Generations(b) && Enabled(b, Reply(l))
    ensures Generations(Step(b, Reply(l)))
  {
    MoreMarks(b, Answered(l));
    hide ArrivedAt, Changes, Offered, Unused;
  }

  lemma GenerationsKeep(b: Bridge, m: Move)
    requires Generations(b) && Enabled(b, m)
    ensures Generations(Step(b, m))
  {
    hide ArrivedAt, Changes, Offered, Unused, Listed;
    match m {
      case BeginSet(name) => GenerationsChange(b, name);
      case Count(l) => GenerationsCount(b, l);
      case Reply(l) => GenerationsReply(b, l);
      case _ =>
    }
  }

  lemma MarksKeep(b: Bridge, m: Move)
    requires MarksOnce(b) && Enabled(b, m)
    ensures MarksOnce(Step(b, m))
  {
    hide Offered, Listed;
  }

  lemma AnswersReply(b: Bridge, l: nat)
    requires AnswersMarked(b) && Enabled(b, Reply(l))
    ensures AnswersMarked(Step(b, Reply(l)))
  {
    var b' := Step(b, Reply(l));
    assert b'.marks[|b.marks|] == Answered(l) && b'.answers[|b.answers|].l == l;
    forall i | 0 <= i < |b'.marks| && b'.marks[i].Answered?
      ensures exists j :: 0 <= j < |b'.answers| && b'.answers[j].l == b'.marks[i].l
    {
      if i < |b.marks| {
        var j :| 0 <= j < |b.answers| && b.answers[j].l == b.marks[i].l;
        assert b'.answers[j] == b.answers[j];
      }
    }
  }

  lemma AnswersKeep(b: Bridge, m: Move)
    requires AnswersMarked(b) && Enabled(b, m)
    ensures AnswersMarked(Step(b, m))
  {
    hide Offered, Listed, Unused;
    if m.Reply? {
      AnswersReply(b, m.l);
    }
  }

  lemma HighestOn(listedGen: nat, answers: seq<Answer>, a: Answer)
    requires Highest(listedGen, answers)
    ensures Highest(if a.gen > listedGen then a.gen else listedGen, answers + [a])
  {
    var more := answers + [a];
    assert more[|answers|] == a;
    if a.gen <= listedGen && listedGen > 0 {
      var i :| 0 <= i < |answers| && answers[i].gen == listedGen;
      assert more[i] == answers[i];
    }
  }

  lemma HighestKeeps(b: Bridge, m: Move)
    requires Highest(b.listedGen, b.answers) && Enabled(b, m)
    ensures Highest(Step(b, m).listedGen, Step(b, m).answers)
  {
    hide Offered, Listed, Unused;
    if m.Reply? {
      HighestOn(b.listedGen, b.answers, Answer(m.l, b.listings[m.l].gen, b.listings[m.l].names));
    }
  }

  lemma OffersKeep(b: Bridge, m: Move)
    requires Offers(b.respond, b.setting, b.tools) && Enabled(b, m)
    ensures Offers(Step(b, m).respond, Step(b, m).setting, Step(b, m).tools)
  {
    hide Listed, Unused;
    match m {
      case RemoveOld(k) =>
        var gone := Offered(b.setting.value.before);
        assert b.tools[k] == gone && gone - gone == {};
      case AddNew(k) =>
        assert {} + Offered(b.respond) == Offered(b.respond);
      case _ =>
    }
  }

  lemma CurrentKeeps(b: Bridge, m: Move)
    requires Current(b) && Offers(b.respond, b.setting, b.tools) && Enabled(b, m)
    ensures Current(Step(b, m))
  {
    hide Offered, Listed, Unused;
  }

  lemma SleepersKeep(b: Bridge, m: Move)
    requires Sleepers(b) && Enabled(b, m)
    ensures Sleepers(Step(b, m))
  {
    hide Offered, Unused;
  }

  lemma KeptOn(b: Bridge, m: Move)
    requires Kept(b) && Enabled(b, m)
    ensures Kept(Step(b, m))
  {
    GenerationsKeep(b, m);
    MarksKeep(b, m);
    AnswersKeep(b, m);
    HighestKeeps(b, m);
    OffersKeep(b, m);
    CurrentKeeps(b, m);
    SleepersKeep(b, m);
    hide *;
  }

  lemma {:induction false} AlwaysKept(bs: seq<Bridge>)
    requires bs != [] && History(bs)
    ensures Kept(Last(bs))
  {
    if |bs| > 1 {
      var front := bs[..|bs| - 1];
      forall n | 0 <= n < |front| - 1
        ensures Next(front[n], front[n + 1])
      {
        assert Next(bs[n], bs[n + 1]);
      }
      AlwaysKept(front);
      assert Next(bs[|bs| - 2], bs[|bs| - 1]);
      var m :| Enabled(Last(front), m) && Last(bs) == Step(Last(front), m);
      KeptOn(Last(front), m);
    }
  }

  lemma ReachableKept(b: Bridge)
    requires Reachable(b)
    ensures Kept(b)
  {
    hide Kept, History;
    var bs :| bs != [] && History(bs) && Last(bs) == b;
    AlwaysKept(bs);
  }

  // ---- What the moves say ----------------------------------------------------------------------

  /** The moves that make up a history. */
  ghost predicate Played(bs: seq<Bridge>, ms: seq<Move>) {
    && |bs| == |ms| + 1 && bs[0] == FRESH
    && forall n :: 0 <= n < |ms| ==> Enabled(bs[n], ms[n]) && bs[n + 1] == Step(bs[n], ms[n])
  }

  /** The name last set, empty before any. */
  function LastSet(ms: seq<Move>): string {
    if ms == [] then ""
    else if Last(ms).BeginSet? then Last(ms).name
    else LastSet(ms[..|ms| - 1])
  }

  /** The changes, arrivals, and answers among the moves. */
  function MarksOf(ms: seq<Move>): seq<Mark> {
    if ms == [] then []
    else
      MarksOf(ms[..|ms| - 1]) +
      match Last(ms)
      case BeginSet(_) => [Changed]
      case Count(l) => [Arrived(l)]
      case Reply(l) => [Answered(l)]
      case _ => []
  }

  lemma MarksOn(b: Bridge, m: Move)
    requires Enabled(b, m)
    ensures var b' := Step(b, m);
      && b'.respond == (if m.BeginSet? then m.name else b.respond)
      && b'.marks == b.marks +
           match m
           case BeginSet(_) => [Changed]
           case Count(l) => [Arrived(l)]
           case Reply(l) => [Answered(l)]
           case _ => []
  {
    hide Offered, Unused, Listed;
    assert b.marks + [] == b.marks;
    match m {
      case BeginSet(name) =>
      case Count(l) =>
      case Reply(l) =>
      case _ =>
    }
  }

  /** The current tool is the one last set, and the marks are what has happened: each change of the tool,
      each arrival of a listing, and each answer, in order. */
  lemma {:induction false} MarksAreTheMoves(bs: seq<Bridge>, ms: seq<Move>)
    requires Played(bs, ms)
    ensures Last(bs).respond == LastSet(ms) && Last(bs).marks == MarksOf(ms)
  {
    if ms != [] {
      var (front, b, m) := (bs[..|bs| - 1], bs[|ms| - 1], Last(ms));
      assert Last(front) == b && Last(bs) == Step(b, m);
      MarksAreTheMoves(front, ms[..|ms| - 1]);
      MarksOn(b, m);
      hide Step, Enabled;
    }
  }

  // ---- Main results --------------------------------------------------------------------------

  predicate NoneArrived(marks: seq<Mark>) {
    forall i :: 0 <= i < |marks| ==> !marks[i].Arrived?
  }

  /** Listing l arrived after the last change of the respond tool. */
  predicate Fresh(marks: seq<Mark>, l: nat) {
    exists i :: 0 <= i < |marks| && marks[i] == Arrived(l) && Changed !in marks[i..]
  }

  lemma ChangedFrom(marks: seq<Mark>, i: nat)
    requires i <= |marks|
    ensures Changed !in marks[i..] <==> forall n :: i <= n < |marks| ==> marks[n] != Changed
  {
    assert forall n :: i <= n < |marks| ==> marks[i..][n - i] == marks[n];
  }

  lemma ArrivedOnce(marks: seq<Mark>, i: nat, j: nat)
    requires Once(marks) && i < |marks| && j < |marks| && marks[i].Arrived? && marks[j] == marks[i]
    ensures i == j
  {
  }

  lemma FreshIsCurrent(marks: seq<Mark>, l: nat, gen: nat)
    requires Once(marks) && ArrivedAt(marks, l, gen)
    ensures Fresh(marks, l) <==> gen == Changes(marks)
  {
    hide Once, Changes;
    var i :| 0 <= i < |marks| && marks[i] == Arrived(l) && Changes(marks[..i]) == gen;
    ChangesGrow(marks, i);
    ChangedFrom(marks, i);
    if Fresh(marks, l) {
      var j :| 0 <= j < |marks| && marks[j] == Arrived(l) && Changed !in marks[j..];
      ArrivedOnce(marks, i, j);
    }
  }

  /** WaitListed finds nothing to wait for exactly when no listing has arrived, the tool has never
      changed, or a listing that arrived after the last change has been answered. */
  lemma ReturnsWhenListed(b: Bridge)
    requires Reachable(b)
    ensures Listed(b) <==>
            || NoneArrived(b.marks) || Changed !in b.marks
            || exists l :: Fresh(b.marks, l) && Answered(l) in b.marks
  {
    ReachableKept(b);
    ChangesGrow(b.marks, 0);
    forall j | 0 <= j < |b.answers|
      ensures Fresh(b.marks, b.answers[j].l) <==> b.answers[j].gen == b.gen
    {
      FreshIsCurrent(b.marks, b.answers[j].l, b.answers[j].gen);
    }
    hide Fresh, ArrivedAt, Once, Offered;
    forall j | 0 <= j < |b.answers|
      ensures Answered(b.answers[j].l) in b.marks
    {
    }
  }

  /** A listing is answered at most once; and the answer to one that arrived after the last change named the
      current respond tool and no other, or none if there is none. */
  lemma FreshAnswersNameTheTool(b: Bridge, l: nat)
    requires Reachable(b) && Fresh(b.marks, l) && Answered(l) in b.marks
    ensures exists j :: 0 <= j < |b.answers| && b.answers[j].l == l
    ensures forall i, j :: 0 <= i < j < |b.answers| ==> b.answers[i].l != b.answers[j].l
    ensures forall j :: 0 <= j < |b.answers| && b.answers[j].l == l ==>
      b.answers[j].names == if b.respond == "" then {} else {b.respond}
  {
    ReachableKept(b);
    forall j | 0 <= j < |b.answers| && b.answers[j].l == l
      ensures b.answers[j].gen == b.gen
    {
      FreshIsCurrent(b.marks, l, b.answers[j].gen);
    }
    hide Fresh, ArrivedAt, Once;
  }

  /** The move that makes a waiter return early finds that no listing has arrived, that the tool has never
      changed, or that a listing that arrived after the last change has been answered, with the tool. */
  lemma EarlyReturns(b: Bridge, m: Move, w: nat)
    requires Reachable(b) && Enabled(b, m) && w in Step(b, m).waiters && Step(b, m).waiters[w] == Returned
    requires !(w in b.waiters && b.waiters[w] == Returned)
    ensures || NoneArrived(b.marks) || Changed !in b.marks
            || exists l :: Fresh(b.marks, l) && Answered(l) in b.marks && Named(b, l)
    ensures Step(b, m).respond == b.respond && Step(b, m).marks == b.marks
  {
    assert m == Look(w) && Listed(b) by {
      hide Offered, Unused, Listed;
    }
    ReturnsWhenListed(b);
    hide Reachable, Fresh, Offered, Unused, Named;
    if l :| Fresh(b.marks, l) && Answered(l) in b.marks {
      FreshAnswersNameTheTool(b, l);
      NamedBy(b, l);
    }
  }

  /** Listing l's answer named the current respond tool alone. */
  predicate Named(b: Bridge, l: nat) {
    exists j :: 0 <= j < |b.answers| && b.answers[j].l == l && b.answers[j].names == if b.respond == "" then {} else {b.respond}
  }

  lemma NamedBy(b: Bridge, l: nat)
    requires exists j :: 0 <= j < |b.answers| && b.answers[j].l == l
    requires forall j :: 0 <= j < |b.answers| && b.answers[j].l == l ==>
      b.answers[j].names == if b.respond == "" then {} else {b.respond}
    ensures Named(b, l)
  {
  }

  /** A sleeping waiter with something to return for can wake at once, and returns at its next look. */
  lemma NoAnswerIsMissed(b: Bridge, w: nat)
    requires Reachable(b) && w in b.waiters && b.waiters[w].Sleeping? && Listed(b)
    ensures Enabled(b, Wake(w))
    ensures b.setting.None? ==>
              && Enabled(Step(b, Wake(w)), Look(w))
              && Step(Step(b, Wake(w)), Look(w)).waiters[w] == Returned
  {
    ReachableKept(b);
    hide Offered, Unused, Generations, MarksOnce, AnswersMarked, Highest, Offers, Current;
  }
}
