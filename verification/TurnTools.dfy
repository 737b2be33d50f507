/** The tool events of a turn, read off the updates the turn heard (opencode/codec.go tool). */
module TurnTools {
  import opened Common
  import opened Turns
  import opened TurnTheorems

  // ---- What OpenCode's words mean ----------------------------------------------------------------

  /** The call runs, or has. */
  predicate Runs(status: string) {
    status !in {"", "pending"}
  }

  predicate Closes(status: string) {
    status in {"completed", "failed"}
  }

  /** A driver tool goes by its name without the driver's prefix. */
  function Titled(title: string): string {
    if |title| >= 7 && title[..7] == "driver_" then title[7..] else title
  }

  /** The tool answers an exchange's schema. */
  predicate Answers(name: string) {
    |name| >= 8 && name[..8] == "respond_"
  }

  /** An update that gives the call's arguments: not one without input, nor pending with an empty object. */
  predicate Gives(u: ToolUpdate) {
    !(u.rawInput == "" || (u.rawInput == "{}" && u.status == "pending"))
  }

  // ---- A call as its updates have it -----------------------------------------------------------

  /** The updates of the call under way with an ID: those since the last one that ended. */
  function CallOf(us: seq<Update>, id: string): seq<ToolUpdate> {
    if us == [] then []
    else
      var before := CallOf(us[..|us| - 1], id);
      match Last(us)
      case Tool(u) => if u.id != id then before else if Closes(u.status) then [] else before + [u]
      case _ => before
  }

  /** A call has the name its first update gives it. */
  function NameOf(call: seq<ToolUpdate>): string {
    if call == [] then "" else Titled(call[0].title)
  }

  predicate HasSurfaced(call: seq<ToolUpdate>) {
    exists k :: 0 <= k < |call| && Runs(call[k].status)
  }

  /** The arguments last given. */
  function ArgsOf(call: seq<ToolUpdate>): string {
    if call == [] then ""
    else if Gives(Last(call)) then Last(call).rawInput
    else ArgsOf(call[..|call| - 1])
  }

  /** A call surfaces with its first update that runs. */
  function Surfacing(before: seq<ToolUpdate>, u: ToolUpdate): seq<Event> {
    var call := before + [u];
    if Runs(u.status) && !HasSurfaced(before) && !Answers(NameOf(call)) then [ToolCall(u.id, NameOf(call), ArgsOf(call))] else []
  }

  function Result(before: seq<ToolUpdate>, u: ToolUpdate): seq<Event> {
    var name := NameOf(before + [u]);
    if Closes(u.status) && !Answers(name) then [ToolResult(u.id, name, u.rawOutput, u.status == "failed")] else []
  }

  /** A respond call that ends is the structured response if it completed with the bridge's acceptance,
      and otherwise rejected. */
  function Verdict(before: seq<ToolUpdate>, u: ToolUpdate): seq<Event> {
    var call := before + [u];
    if !Closes(u.status) || !Answers(NameOf(call)) then []
    else if u.status == "completed" && u.output == "Accepted." then [Structured(ArgsOf(call))]
    else [Rejected("opencode: respond: " + u.output)]
  }

  /** What an update of a call reports, by the call's updates before it. */
  function Reports(before: seq<ToolUpdate>, u: ToolUpdate): seq<Event> {
    var events := Surfacing(before, u) + Result(before, u) + Verdict(before, u);
    if events == [] then [Harness] else events
  }

  /** The codec's maps say of every call what its updates do. */
  ghost predicate Means(s: State, us: seq<Update>) {
    forall id :: MeansOf(s, id, CallOf(us, id))
  }

  predicate MeansOf(s: State, id: string, call: seq<ToolUpdate>) {
    && (id in s.calls <==> call != [])
    && (call != [] ==> id in s.calls && s.calls[id] == NameOf(call))
    && (id in s.called <==> HasSurfaced(call))
    && Get(s.args, id) == ArgsOf(call)
  }

  lemma CallMore(call: seq<ToolUpdate>, u: ToolUpdate)
    ensures NameOf(call + [u]) == if call != [] then NameOf(call) else Titled(u.title)
    ensures HasSurfaced(call + [u]) <==> HasSurfaced(call) || Runs(u.status)
    ensures HasSurfaced(call) ==> call != []
  {
    assert (call + [u])[|call|] == u;
    assert forall k :: 0 <= k < |call| ==> (call + [u])[k] == call[k];
  }

  /** The codec reads the words as they are meant. */
  lemma SameWords(u: ToolUpdate, name: string)
    ensures Ends(u.status) == Closes(u.status) && Surfaces(u.status) == Runs(u.status)
    ensures ToolName(u.title) == Titled(u.title) && IsRespond(name) == Answers(name) && CarriesArgs(u) == Gives(u)
  {
    assert TOOL_PREFIX <= u.title <==> |u.title| >= 7 && u.title[..7] == "driver_";
    assert RESPOND_PREFIX <= name <==> |name| >= 8 && name[..8] == "respond_";
  }

  lemma ToolReports(s: State, call: seq<ToolUpdate>, u: ToolUpdate)
    requires MeansOf(s, u.id, call)
    ensures Tooled(s, u).1 == Reports(call, u)
  {
    CallMore(call, u);
    SameWords(u, NameOf(call + [u]));
    assert (call + [u])[..|call|] == call;
    hide ToolName, IsRespond, Surfaces, CarriesArgs, Titled, Answers, Runs, Gives, NameOf, HasSurfaced;
  }

  lemma ToolMeans(s: State, call: seq<ToolUpdate>, u: ToolUpdate)
    requires MeansOf(s, u.id, call)
    ensures Tooled(s, u).1 == Reports(call, u)
    ensures MeansOf(Tooled(s, u).0, u.id, if Closes(u.status) then [] else call + [u])
  {
    CallMore(call, u);
    SameWords(u, NameOf(call + [u]));
    assert (call + [u])[..|call|] == call;
    ToolReports(s, call, u);
    hide ToolName, IsRespond, Ends, Surfaces, CarriesArgs, Titled, Answers, Runs, Closes, Gives, CallEvents, EndEvents, OrHarness, Reports;
  }

  lemma OthersMean(s: State, id: string, call: seq<ToolUpdate>, u: ToolUpdate)
    requires MeansOf(s, id, call) && u.id != id
    ensures MeansOf(Tooled(s, u).0, id, call)
  {
    hide ToolName, IsRespond, CarriesArgs, CallEvents, EndEvents, OrHarness, Ends, Surfaces, HasSurfaced, NameOf, ArgsOf;
  }

  lemma CallOn(us: seq<Update>, u: Update, id: string)
    ensures CallOf(us + [u], id) ==
      if !u.Tool? || u.tool.id != id then CallOf(us, id)
      else if Closes(u.tool.status) then [] else CallOf(us, id) + [u.tool]
  {
    assert (us + [u])[..|us|] == us;
  }

  lemma UpdateMeans(s: State, us: seq<Update>, u: Update)
    requires Means(s, us)
    ensures Means(Updated(s, u).0, us + [u])
    ensures u.Tool? ==> Updated(s, u).1 == Reports(CallOf(us, u.tool.id), u.tool)
  {
    hide Tooled, Closes, Reports;
    forall id
      ensures MeansOf(Updated(s, u).0, id, CallOf(us + [u], id))
    {
      CallOn(us, u, id);
      hide CallOf;
      assert MeansOf(s, id, CallOf(us, id));
      if u.Tool? {
        if u.tool.id == id {
          ToolMeans(s, CallOf(us, id), u.tool);
        } else {
          OthersMean(s, id, CallOf(us, id), u.tool);
        }
      }
    }
    if u.Tool? {
      assert MeansOf(s, u.tool.id, CallOf(us, u.tool.id));
      ToolMeans(s, CallOf(us, u.tool.id), u.tool);
    }
  }

  lemma SameMaps(s: State, s': State, us: seq<Update>)
    requires Means(s, us) && s'.calls == s.calls && s'.args == s.args && s'.called == s.called
    ensures Means(s', us)
  {
    hide CallOf, NameOf, ArgsOf, HasSurfaced;
    forall id
      ensures MeansOf(s', id, CallOf(us, id))
    {
      assert MeansOf(s, id, CallOf(us, id));
    }
  }

  /** Whatever lines a turn is made of, the codec's maps are those its updates mean. */
  lemma {:induction false} TurnMeans(s: State, p: string, ops: seq<Op>)
    requires Turn(s, p, ops)
    ensures Means(After(s, ops), Heard(s.loads, ops))
  {
    hide Applied, Means;
    if |ops| == 1 {
      FirstOp(s, p, ops);
      assert ops[..0] == [];
      assert Heard(s.loads, ops) == [];
      MeansNothing(Encoded(s, p, Prompt));
    } else {
      var front := ops[..|ops| - 1];
      TurnPrefix(s, p, ops);
      TurnMeans(s, p, front);
      TurnOpens(s, p, front);
      LoadsAre(s, p, front);
      OpHears(p, After(s, front), Last(ops));
      HeardOn(s.loads, ops);
      hide Heard, Loads, Updated, Turn, Opens, Emitted;
      var us := Heard(s.loads, front);
      if Heard(s.loads, ops) != us {
        var u := Last(ops).line.update.value;
        UpdateMeans(After(s, front), us, u);
        SameMaps(Updated(After(s, front), u).0, After(s, ops), us + [u]);
      } else {
        SameMaps(After(s, front), After(s, ops), us);
      }
    }
  }

  lemma MeansNothing(s: State)
    requires s.calls == map[] && s.args == map[] && s.called == {}
    ensures Means(s, [])
  {
  }

  /** What any tool update of a turn reports follows from the updates of its call before it alone. */
  lemma ReportsFollowTheUpdates(s: State, p: string, ops: seq<Op>, u: ToolUpdate)
    requires Turn(s, p, ops) && Loads(s.loads, ops) == {}
    ensures var (t, us) := (After(s, ops), Heard(s.loads, ops));
      Decoded(t, SessionUpdate(Some(Tool(u)))).1 ==
        (if t.started then [] else [Started]) + Reports(CallOf(us, u.id), u)
  {
    TurnMeans(s, p, ops);
    TurnOpens(s, p, ops);
    LoadsAre(s, p, ops);
    hide After, Heard, Loads, Reports, Means, Tooled, Turn;
    UpdateMeans(After(s, ops), Heard(s.loads, ops), Tool(u));
  }

  // ---- All that a turn tells ----------------------------------------------------------------------

  /** An event that tells of an update: of its text, its thought, or its call. */
  predicate Telling(e: Event) {
    !e.Harness? && !e.Error? && !e.Started?
  }

  function Tellings(events: seq<Event>): seq<Event> {
    if events == [] then []
    else Tellings(events[..|events| - 1]) + if Telling(Last(events)) then [Last(events)] else []
  }

  /** What the updates tell, one after another. */
  function Told(us: seq<Update>): seq<Event> {
    if us == [] then []
    else
      var front := us[..|us| - 1];
      Told(front) +
      match Last(us)
      case Tool(u) => Surfacing(CallOf(front, u.id), u) + Result(CallOf(front, u.id), u) + Verdict(CallOf(front, u.id), u)
      case Chunk(_, Some(text)) => [TextDelta(text)]
      case Thought(Some(text)) => [ThinkingDelta(text)]
      case _ => []
  }

  lemma {:induction false} TellingsAppend(a: seq<Event>, b: seq<Event>)
    ensures Tellings(a + b) == Tellings(a) + Tellings(b)
  {
    if b == [] {
      assert a + b == a;
      assert Tellings(a) + [] == Tellings(a);
    } else {
      assert (a + b)[..|a + b| - 1] == a + b[..|b| - 1];
      TellingsAppend(a, b[..|b| - 1]);
    }
  }

  lemma {:induction false} NoneTell(events: seq<Event>)
    requires forall k :: 0 <= k < |events| ==> !Telling(events[k])
    ensures Tellings(events) == []
  {
    if events != [] {
      NoneTell(events[..|events| - 1]);
    }
  }

  lemma {:induction false} AllTell(events: seq<Event>)
    requires forall k :: 0 <= k < |events| ==> Telling(events[k])
    ensures Tellings(events) == events
  {
    if events != [] {
      AllTell(events[..|events| - 1]);
    }
  }

  lemma ReportsTell(call: seq<ToolUpdate>, u: ToolUpdate)
    ensures Tellings(Reports(call, u)) == Surfacing(call, u) + Result(call, u) + Verdict(call, u)
  {
    hide HasSurfaced, NameOf, ArgsOf, Answers, Runs, Closes;
    var events := Surfacing(call, u) + Result(call, u) + Verdict(call, u);
    AllTell(events);
    NoneTell([Harness]);
    hide Surfacing, Result, Verdict;
  }

  /** What a heard update adds to that. */
  lemma HeardTells(s: State, us: seq<Update>, u: Update, es: seq<Event>)
    requires Means(s, us) && es == (if s.started then [] else [Started]) + Updated(s, u).1
    ensures Told(us + [u]) == Told(us) + Tellings(es)
  {
    hide Updated, Means, CallOf, Reports, Surfacing, Result, Verdict, Tellings;
    assert (us + [u])[..|us|] == us;
    NoneTell(if s.started then [] else [Started]);
    TellingsAppend(if s.started then [] else [Started], Updated(s, u).1);
    assert [] + Tellings(Updated(s, u).1) == Tellings(Updated(s, u).1);
    UpdateMeans(s, us, u);
    if u.Tool? {
      ReportsTell(CallOf(us, u.tool.id), u.tool);
    } else {
      QuietTells(s, us, u);
    }
  }

  lemma QuietTells(s: State, us: seq<Update>, u: Update)
    requires !u.Tool?
    ensures Told(us + [u]) == Told(us) + Tellings(Updated(s, u).1)
  {
    assert (us + [u])[..|us|] == us;
    var es := Updated(s, u).1;
    assert es[..|es| - 1] == [] && Tellings(es[..|es| - 1]) == [];
  }

  /** All that a turn's events tell, in order, is what its updates do: their text and their thoughts, each
      call once it runs, and each end of one by its tool, its status, and its output. */
  lemma {:induction false} TurnTellsItsUpdates(s: State, p: string, ops: seq<Op>)
    requires Turn(s, p, ops)
    ensures Tellings(Emitted(s, ops)) == Told(Heard(s.loads, ops))
  {
    hide Applied;
    if |ops| == 1 {
      FirstOp(s, p, ops);
      assert ops[..0] == [];
      assert Heard(s.loads, ops) == [];
    } else {
      var front := ops[..|ops| - 1];
      TurnPrefix(s, p, ops);
      TurnTellsItsUpdates(s, p, front);
      TurnOpens(s, p, front);
      TurnMeans(s, p, front);
      LoadsAre(s, p, front);
      OpHears(p, After(s, front), Last(ops));
      HeardOn(s.loads, ops);
      var (t, es) := (After(s, front), Applied(After(s, front), Last(ops)).1);
      TellingsAppend(Emitted(s, front), es);
      hide Heard, Loads, Updated, Turn, Opens, Means, Emitted, After, CallOf, Tellings, Told;
      var us := Heard(s.loads, front);
      if Heard(s.loads, ops) != us {
        HeardTells(t, us, Last(ops).line.update.value, es);
      } else {
        NoneTell(es);
        assert Tellings(Emitted(s, front)) + [] == Tellings(Emitted(s, front));
      }
    }
  }

  // ---- The tool events of one call ID ------------------------------------------------------------

  predicate About(e: Event, id: string) {
    (e.ToolCall? || e.ToolResult?) && e.id == id
  }

  function ToolEvents(events: seq<Event>, id: string): seq<Event> {
    if events == [] then []
    else ToolEvents(events[..|events| - 1], id) + if About(Last(events), id) then [Last(events)] else []
  }

  /** A call, its result, and so on, each result under its call's name. */
  predicate Alternates(te: seq<Event>) {
    && (forall k :: 0 <= k < |te| ==> if k % 2 == 0 then te[k].ToolCall? else te[k].ToolResult?)
    && (forall k :: 0 < k < |te| && k % 2 == 1 && te[k].ToolResult? && te[k - 1].ToolCall? ==> te[k].name == te[k - 1].name)
  }

  /** The events so far leave a call open exactly when its updates do. */
  predicate Balanced(te: seq<Event>, call: seq<ToolUpdate>) {
    && Alternates(te)
    && (|te| % 2 == 1 <==> HasSurfaced(call) && !Answers(NameOf(call)))
    && (|te| % 2 == 1 ==> Last(te).ToolCall? && Last(te).name == NameOf(call))
  }

  lemma {:induction false} ToolEventsAppend(a: seq<Event>, b: seq<Event>, id: string)
    ensures ToolEvents(a + b, id) == ToolEvents(a, id) + ToolEvents(b, id)
  {
    if b == [] {
      assert a + b == a;
      assert ToolEvents(a, id) + [] == ToolEvents(a, id);
    } else {
      assert (a + b)[..|a + b| - 1] == a + b[..|b| - 1];
      ToolEventsAppend(a, b[..|b| - 1], id);
    }
  }

  lemma {:induction false} NoToolEvents(events: seq<Event>, id: string)
    requires forall k :: 0 <= k < |events| ==> !About(events[k], id)
    ensures ToolEvents(events, id) == []
  {
    if events != [] {
      NoToolEvents(events[..|events| - 1], id);
    }
  }

  /** An update reports tool events only of its own call. */
  lemma ReportsTools(call: seq<ToolUpdate>, u: ToolUpdate, id: string)
    ensures ToolEvents(Reports(call, u), id) == if id == u.id then Surfacing(call, u) + Result(call, u) else []
  {
    var (a, b, c) := (Surfacing(call, u), Result(call, u), Verdict(call, u));
    ReportKinds(call, u, id);
    hide Surfacing, Result, Verdict, About;
    ToolEventsAppend(a + b, c, id);
    ToolEventsAppend(a, b, id);
    OneToolEvent(a, id);
    OneToolEvent(b, id);
    NoToolEvents(c, id);
    NoToolEvents([Harness], id);
    hide ToolEvents;
    assert ToolEvents(a + b, id) + [] == ToolEvents(a + b, id);
    if id != u.id {
      assert ToolEvents(a, id) == [] && ToolEvents(b, id) == [];
    }
  }

  lemma ReportKinds(call: seq<ToolUpdate>, u: ToolUpdate, id: string)
    ensures !About(Harness, id)
    ensures var a := Surfacing(call, u); |a| <= 1 && (a != [] ==> (About(a[0], id) <==> id == u.id))
    ensures var b := Result(call, u); |b| <= 1 && (b != [] ==> (About(b[0], id) <==> id == u.id))
    ensures var c := Verdict(call, u); forall k :: 0 <= k < |c| ==> !About(c[k], id)
  {
    hide HasSurfaced, NameOf, ArgsOf, Answers, Runs, Closes;
  }

  lemma OneToolEvent(events: seq<Event>, id: string)
    requires |events| <= 1
    ensures ToolEvents(events, id) == if events != [] && About(events[0], id) then events else []
  {
    if events != [] {
      assert events[..0] == [] && ToolEvents(events[..0], id) == [];
    }
  }

  lemma AlternatesOn(te: seq<Event>, e: Event)
    requires Alternates(te)
    requires if |te| % 2 == 0 then e.ToolCall? else e.ToolResult? && Last(te).ToolCall? && e.name == Last(te).name
    ensures Alternates(te + [e])
  {
  }

  lemma BalancedOn(te: seq<Event>, call: seq<ToolUpdate>, u: ToolUpdate)
    requires Balanced(te, call)
    ensures Balanced(te + (Surfacing(call, u) + Result(call, u)), if Closes(u.status) then [] else call + [u])
  {
    CallMore(call, u);
    CallMore([], u);
    hide Titled, Answers, ArgsOf, HasSurfaced, NameOf, Alternates;
    var (a, b) := (Surfacing(call, u), Result(call, u));
    assert te + [] == te && te + a + [] == te + a;
    if a != [] {
      AlternatesOn(te, a[0]);
      assert a == [a[0]];
    }
    if b != [] {
      AlternatesOn(te + a, b[0]);
      assert b == [b[0]];
    }
    assert te + (a + b) == te + a + b;
  }

  lemma {:induction false} TurnBalances(s: State, p: string, ops: seq<Op>, id: string)
    requires Turn(s, p, ops)
    ensures Balanced(ToolEvents(Emitted(s, ops), id), CallOf(Heard(s.loads, ops), id))
  {
    hide Applied, Balanced;
    if |ops| == 1 {
      FirstOp(s, p, ops);
      assert ops[..0] == [];
      assert Heard(s.loads, ops) == [];
      BalancedNothing();
    } else {
      var front := ops[..|ops| - 1];
      TurnPrefix(s, p, ops);
      TurnBalances(s, p, front, id);
      TurnOpens(s, p, front);
      TurnMeans(s, p, front);
      LoadsAre(s, p, front);
      OpHears(p, After(s, front), Last(ops));
      HeardOn(s.loads, ops);
      var (t, es) := (After(s, front), Applied(After(s, front), Last(ops)).1);
      ToolEventsAppend(Emitted(s, front), es, id);
      hide Heard, Loads, Updated, Turn, Opens, Means, Emitted, After, CallOf, ToolEvents;
      var us := Heard(s.loads, front);
      if Heard(s.loads, ops) != us {
        var u := Last(ops).line.update.value;
        HeardBalances(t, us, u, es, id, ToolEvents(Emitted(s, front), id));
      } else {
        NoToolEvents(es, id);
        assert ToolEvents(Emitted(s, front), id) + [] == ToolEvents(Emitted(s, front), id);
      }
    }
  }

  lemma BalancedNothing()
    ensures Balanced([], [])
  {
  }

  lemma NotStarted(started: bool, id: string)
    ensures ToolEvents(if started then [] else [Started], id) == []
  {
    NoToolEvents(if started then [] else [Started], id);
  }

  /** The tool events of one ID that a heard update adds to the turn. */
  lemma HeardTools(s: State, us: seq<Update>, u: Update, es: seq<Event>, id: string)
    requires Means(s, us) && es == (if s.started then [] else [Started]) + Updated(s, u).1
    ensures ToolEvents(es, id) ==
      if u.Tool? && u.tool.id == id then Surfacing(CallOf(us, id), u.tool) + Result(CallOf(us, id), u.tool) else []
  {
    hide Updated, Means, CallOf, Reports, Surfacing, Result, ToolEvents;
    NotStarted(s.started, id);
    ToolEventsAppend(if s.started then [] else [Started], Updated(s, u).1, id);
    assert [] + ToolEvents(Updated(s, u).1, id) == ToolEvents(Updated(s, u).1, id);
    UpdateMeans(s, us, u);
    if u.Tool? {
      ReportsTools(CallOf(us, u.tool.id), u.tool, id);
    } else {
      QuietTools(s, u, id);
    }
  }

  lemma HeardBalances(s: State, us: seq<Update>, u: Update, es: seq<Event>, id: string, te: seq<Event>)
    requires Means(s, us) && Balanced(te, CallOf(us, id))
    requires es == (if s.started then [] else [Started]) + Updated(s, u).1
    ensures Balanced(te + ToolEvents(es, id), CallOf(us + [u], id))
  {
    hide Updated, Means, CallOf, Surfacing, Result, Closes, ToolEvents, Balanced;
    HeardTools(s, us, u, es, id);
    CallOn(us, u, id);
    assert te + [] == te;
    if u.Tool? && u.tool.id == id {
      BalancedOn(te, CallOf(us, id), u.tool);
    }
  }

  lemma QuietTools(s: State, u: Update, id: string)
    requires !u.Tool?
    ensures ToolEvents(Updated(s, u).1, id) == []
  {
    NoToolEvents(Updated(s, u).1, id);
  }

  /** Each call ID's tool events alternate: a call, its result under the same name, and so on. */
  lemma ToolEventsAlternate(s: State, p: string, ops: seq<Op>, id: string)
    requires Turn(s, p, ops)
    ensures Alternates(ToolEvents(Emitted(s, ops), id))
  {
    TurnBalances(s, p, ops, id);
    hide Emitted, Heard, CallOf;
  }

  // ---- Which calls surface ------------------------------------------------------------------------

  /** The k-th update shows a call that runs or has ended, under a name that is not a respond tool's. */
  predicate Shows(us: seq<Update>, k: nat, id: string)
    requires k < |us|
  {
    && us[k].Tool? && us[k].tool.id == id && Runs(us[k].tool.status)
    && !Answers(NameOf(CallOf(us[..k], id) + [us[k].tool]))
  }

  predicate Shown(us: seq<Update>, id: string) {
    exists k :: 0 <= k < |us| && Shows(us, k, id)
  }

  lemma ShownOn(us: seq<Update>, u: Update, id: string)
    ensures Shown(us + [u], id) <==> Shown(us, id) || Shows(us + [u], |us|, id)
  {
    hide CallOf, NameOf, Answers, Runs;
    assert (us + [u])[..|us|] == us;
    forall k | 0 <= k < |us|
      ensures Shows(us + [u], k, id) <==> Shows(us, k, id)
    {
      assert (us + [u])[..k] == us[..k];
    }
  }

  /** A call ID surfaces in tool events exactly when some update shows it under another name than a
      respond tool's. Such a name is that of the call under way: one begun anew after the last ended. */
  lemma {:induction false} SurfacesWhenShown(s: State, p: string, ops: seq<Op>, id: string)
    requires Turn(s, p, ops)
    ensures ToolEvents(Emitted(s, ops), id) != [] <==> Shown(Heard(s.loads, ops), id)
  {
    hide Applied, Shown;
    if |ops| == 1 {
      FirstOp(s, p, ops);
      assert ops[..0] == [];
      assert Heard(s.loads, ops) == [];
      ShownNothing(id);
    } else {
      var front := ops[..|ops| - 1];
      TurnPrefix(s, p, ops);
      SurfacesWhenShown(s, p, front, id);
      TurnBalances(s, p, front, id);
      TurnOpens(s, p, front);
      TurnMeans(s, p, front);
      LoadsAre(s, p, front);
      OpHears(p, After(s, front), Last(ops));
      HeardOn(s.loads, ops);
      var (t, es) := (After(s, front), Applied(After(s, front), Last(ops)).1);
      ToolEventsAppend(Emitted(s, front), es, id);
      hide Heard, Loads, Updated, Turn, Opens, Means, Emitted, After, CallOf, ToolEvents, Balanced;
      var us := Heard(s.loads, front);
      if Heard(s.loads, ops) != us {
        var u := Last(ops).line.update.value;
        ShownOn(us, u, id);
        HeardShows(t, us, u, es, id, ToolEvents(Emitted(s, front), id));
      } else {
        NoToolEvents(es, id);
      }
    }
  }

  lemma ShownNothing(id: string)
    ensures !Shown([], id)
  {
  }

  lemma HeardShows(s: State, us: seq<Update>, u: Update, es: seq<Event>, id: string, te: seq<Event>)
    requires Means(s, us) && Balanced(te, CallOf(us, id))
    requires es == (if s.started then [] else [Started]) + Updated(s, u).1
    ensures te + ToolEvents(es, id) != [] <==> te != [] || Shows(us + [u], |us|, id)
  {
    hide Updated, Means, CallOf, ToolEvents, Balanced, Surfacing, Result, NameOf, Answers, Runs;
    HeardTools(s, us, u, es, id);
    assert (us + [u])[..|us|] == us;
    if u.Tool? && u.tool.id == id {
      ToolShows(te, CallOf(us, id), u.tool);
    }
  }

  /** With a call already open, it was shown before. */
  lemma ToolShows(te: seq<Event>, call: seq<ToolUpdate>, u: ToolUpdate)
    requires Balanced(te, call)
    ensures te + (Surfacing(call, u) + Result(call, u)) != [] <==>
      te != [] || (Runs(u.status) && !Answers(NameOf(call + [u])))
  {
    CallMore(call, u);
    hide NameOf, Answers, ArgsOf, HasSurfaced, Alternates;
  }

  /** No update of the call follows its end. */
  predicate Single(us: seq<Update>, id: string) {
    forall j, k :: 0 <= j < k < |us| && us[j].Tool? && us[k].Tool? && us[j].tool.id == us[k].tool.id == id ==>
      !Closes(us[j].tool.status)
  }

  predicate IsOf(us: seq<Update>, k: int, id: string) {
    0 <= k < |us| && us[k].Tool? && us[k].tool.id == id
  }

  /** Until its end, a call is all the updates of its ID, and keeps the name of the first. */
  lemma {:induction false} SingleCall(us: seq<Update>, id: string, first: nat)
    requires IsOf(us, first, id) && forall k :: 0 <= k < first ==> !IsOf(us, k, id)
    requires forall k :: IsOf(us, k, id) ==> !Closes(us[k].tool.status)
    ensures CallOf(us, id) != [] && CallOf(us, id)[0] == us[first].tool
  {
    var front := us[..|us| - 1];
    assert us == front + [Last(us)];
    CallOn(front, Last(us), id);
    if first < |us| - 1 {
      assert forall k :: 0 <= k < |front| ==> (IsOf(front, k, id) <==> IsOf(us, k, id));
      SingleCall(front, id, first);
    } else {
      forall k | 0 <= k < |front|
        ensures !IsOf(front, k, id)
      {
        assert front[k] == us[k] && !IsOf(us, k, id);
      }
      NoCall(front, id);
    }
  }

  lemma {:induction false} NoCall(us: seq<Update>, id: string)
    requires forall k :: 0 <= k < |us| ==> !IsOf(us, k, id)
    ensures CallOf(us, id) == []
  {
    if us != [] {
      var front := us[..|us| - 1];
      assert !IsOf(us, |us| - 1, id);
      forall k | 0 <= k < |front|
        ensures !IsOf(front, k, id)
      {
        assert !IsOf(us, k, id);
      }
      NoCall(front, id);
    }
  }

  /** A call first named as a respond tool, none of whose updates follows its end, never surfaces. */
  lemma RespondStaysHidden(s: State, p: string, ops: seq<Op>, id: string, first: nat)
    requires Turn(s, p, ops)
    requires var us := Heard(s.loads, ops);
      && IsOf(us, first, id) && (forall k :: 0 <= k < first ==> !IsOf(us, k, id))
      && Answers(Titled(us[first].tool.title)) && Single(us, id)
    ensures ToolEvents(Emitted(s, ops), id) == []
  {
    SurfacesWhenShown(s, p, ops, id);
    var us := Heard(s.loads, ops);
    hide Heard, Emitted, Turn, Titled;
    forall k | 0 <= k < |us| && IsOf(us, k, id)
      ensures !Shows(us, k, id)
    {
      var before := us[..k];
      assert forall j :: 0 <= j < k ==> (IsOf(before, j, id) <==> IsOf(us, j, id));
      if k == first {
        NoCall(before, id);
      } else {
        SingleCall(before, id, first);
      }
    }
  }

  function Hear(u: ToolUpdate): Op {
    Decode(SessionUpdate(Some(Tool(u))))
  }

  function Hears(us: seq<ToolUpdate>): seq<Op> {
    seq(|us|, i requires 0 <= i < |us| => Hear(us[i]))
  }

  function Tools(us: seq<ToolUpdate>): seq<Update> {
    seq(|us|, i requires 0 <= i < |us| => Tool(us[i]))
  }

  lemma {:induction false} HeardAll(us: seq<ToolUpdate>)
    ensures var ops := [Encode("1", Prompt)] + Hears(us);
      Loads({}, ops) == {} && Heard({}, ops) == Tools(us)
  {
    var ops := [Encode("1", Prompt)] + Hears(us);
    if us == [] {
      assert ops[..0] == [];
    } else {
      var front := us[..|us| - 1];
      HeardAll(front);
      assert ops[..|ops| - 1] == [Encode("1", Prompt)] + Hears(front);
      assert Tools(us) == Tools(front) + [Tool(Last(us))];
    }
  }

  /** A respond call that completes, and an update of the same ID after it that names no tool. */
  const LATE: seq<ToolUpdate> := [
    ToolUpdate("c", "driver_respond_0", "in_progress", "", "", ""),
    ToolUpdate("c", "", "completed", "", "", ACCEPTED),
    ToolUpdate("c", "", "in_progress", "", "", "")]

  const LATE_OPS: seq<Op> := [Encode("1", Prompt)] + Hears(LATE)

  /** But a name is forgotten with its call's end: the late update surfaces as a tool event. */
  lemma LateUpdateSurfaces()
    ensures Turn(FRESH, "1", LATE_OPS) && Heard({}, LATE_OPS) == Tools(LATE)
    ensures Answers(Titled(LATE[0].title)) && Closes(LATE[1].status)
    ensures ToolEvents(Emitted(FRESH, LATE_OPS), "c") != []
  {
    LateIsATurn();
    hide LATE_OPS, Turn, Shown, Emitted, Heard, ToolEvents;
    SurfacesWhenShown(FRESH, "1", LATE_OPS, "c");
    LateIsShown();
  }

  lemma LateIsATurn()
    ensures Turn(FRESH, "1", LATE_OPS) && Heard({}, LATE_OPS) == Tools(LATE)
  {
    HeardAll(LATE);
    hide Heard;
  }

  lemma LateIsShown()
    ensures Shown(Tools(LATE), "c")
  {
    var us := Tools(LATE);
    assert us[..2] == [us[0]] + [us[1]];
    CallOn([us[0]], us[1], "c");
    hide CallOf;
    assert NameOf([] + [us[2].tool]) == "";
    assert Shows(us, 2, "c");
  }
}
