/** A turn's events, over any lines and calls between a prompt and its answer (opencode/codec.go). */
module TurnTheorems {
  import opened Common
  import opened Workflows
  import opened Turns

  datatype Op = Encode(id: string, call: Call) | Decode(line: Line)

  function Applied(s: State, op: Op): (State, seq<Event>) {
    match op
    case Encode(id, call) => (Encoded(s, id, call), [])
    case Decode(line) => Decoded(s, line)
  }

  function After(s: State, ops: seq<Op>): State {
    if ops == [] then s else Applied(After(s, ops[..|ops| - 1]), Last(ops)).0
  }

  function Emitted(s: State, ops: seq<Op>): seq<Event> {
    if ops == [] then []
    else Emitted(s, ops[..|ops| - 1]) + Applied(After(s, ops[..|ops| - 1]), Last(ops)).1
  }

  /** Between prompt p and its answer: no other prompt, and no answer to p. */
  predicate Within(p: string, op: Op) {
    match op
    case Encode(id, call) => call == Prompt ==> id == ""
    case Decode(Response(id, _, _)) => id != p
    case _ => true
  }

  /** With no prompt in flight there is no call under way. */
  predicate Idle(s: State) {
    s.prompts == {} && s.calls == map[] && s.args == map[] && s.called == {}
  }

  /** The ops of a turn, from its prompt up to its answer. */
  ghost predicate Turn(s: State, p: string, ops: seq<Op>) {
    Idle(s) && p != "" && ops != [] && ops[0] == Encode(p, Prompt) && forall k :: 0 < k < |ops| ==> Within(p, ops[k])
  }

  lemma TurnPrefix(s: State, p: string, ops: seq<Op>)
    requires Turn(s, p, ops) && |ops| > 1
    ensures Turn(s, p, ops[..|ops| - 1]) && Within(p, Last(ops))
  {
  }

  lemma FirstOp(s: State, p: string, ops: seq<Op>)
    requires Turn(s, p, ops) && |ops| == 1
    ensures After(s, ops) == Encoded(s, p, Prompt) && Emitted(s, ops) == []
  {
    assert ops[..0] == [];
    assert After(s, ops[..0]) == s && Emitted(s, ops[..0]) == [];
  }

  // ---- The turn's shape ----------------------------------------------------------------------

  predicate Bare(e: Event) {
    e.Harness? || e.Error?
  }

  predicate OfTheEnd(e: Event) {
    e.MessageEnd? || e.Cancelled? || e.Ended?
  }

  /** Started comes once, once the turn has; before it there is nothing of the turn, and so far no end. */
  ghost predicate Opens(started: bool, events: seq<Event>) {
    && (forall k :: 0 <= k < |events| ==> !OfTheEnd(events[k]))
    && (if started then exists k :: StartsAt(events, k) else forall k :: 0 <= k < |events| ==> Bare(events[k]))
  }

  ghost predicate StartsAt(events: seq<Event>, k: int) {
    && 0 <= k < |events| && events[k] == Started
    && (forall j :: 0 <= j < k ==> Bare(events[j]))
    && (forall j :: k < j < |events| ==> events[j] != Started)
  }

  predicate InTurn(p: string, s: State) {
    s.prompts == {p}
  }

  /** What one op adds to a turn: nothing of its end, and Started first if it is the first update. */
  lemma OpAdds(p: string, s: State, op: Op)
    requires InTurn(p, s) && Within(p, op)
    ensures var (s', es) := Applied(s, op);
      && InTurn(p, s') && (s.started ==> s'.started)
      && (forall k :: 0 <= k < |es| ==> !OfTheEnd(es[k]) && (es[k] == Started ==> k == 0 && !s.started))
      && (!s'.started ==> forall k :: 0 <= k < |es| ==> Bare(es[k]))
      && (s'.started && !s.started ==> es != [] && es[0] == Started)
  {
    hide ToolName, IsRespond, Surfaces, Ends, CarriesArgs, Get;
    if op.Decode? && op.line.SessionUpdate? && op.line.update.Some? {
      UpdateAdds(s, op.line.update.value);
      hide Updated;
    }
  }

  lemma UpdateAdds(s: State, u: Update)
    ensures var (s', es) := Updated(s, u);
      && s'.prompts == s.prompts && s'.loads == s.loads && s'.started == s.started
      && forall k :: 0 <= k < |es| ==> !OfTheEnd(es[k]) && es[k] != Started
  {
    if u.Tool? {
      TooledAdds(s, u.tool);
    }
    hide Tooled;
  }

  lemma TooledAdds(s: State, u: ToolUpdate)
    ensures var (s', es) := Tooled(s, u);
      && s'.prompts == s.prompts && s'.loads == s.loads && s'.started == s.started
      && forall k :: 0 <= k < |es| ==> !OfTheEnd(es[k]) && es[k] != Started
  {
    hide ToolName, IsRespond, Surfaces, Ends, CarriesArgs, Get;
  }

  lemma OpensOn(started: bool, events: seq<Event>, started': bool, es: seq<Event>)
    requires Opens(started, events) && (started ==> started')
    requires forall k :: 0 <= k < |es| ==> !OfTheEnd(es[k]) && (es[k] == Started ==> k == 0 && !started)
    requires !started' ==> forall k :: 0 <= k < |es| ==> Bare(es[k])
    requires started' && !started ==> es != [] && es[0] == Started
    ensures Opens(started', events + es)
  {
    if started {
      var k :| StartsAt(events, k);
      assert StartsAt(events + es, k);
    } else if started' {
      assert StartsAt(events + es, |events|);
    }
  }

  lemma {:induction false} TurnOpens(s: State, p: string, ops: seq<Op>)
    requires Turn(s, p, ops)
    ensures InTurn(p, After(s, ops)) && Opens(After(s, ops).started, Emitted(s, ops))
  {
    hide Opens, Decoded, Applied;
    if |ops| == 1 {
      FirstOp(s, p, ops);
      OpensNothing();
    } else {
      var front := ops[..|ops| - 1];
      TurnPrefix(s, p, ops);
      TurnOpens(s, p, front);
      OpAdds(p, After(s, front), Last(ops));
      var (s', es) := Applied(After(s, front), Last(ops));
      OpensOn(After(s, front).started, Emitted(s, front), s'.started, es);
    }
  }

  lemma OpensNothing()
    ensures Opens(false, [])
  {
  }

  /** A whole turn: Started once, with nothing of the turn before it; one message end and one end, the
      end last; and then no prompt, no call, and no start is left over. */
  lemma TurnIsWhole(s: State, p: string, ops: seq<Op>, error: Option<string>, result: Option<PromptResult>)
    returns (start: nat, message: nat)
    requires Turn(s, p, ops)
    ensures var (s', es) := Answered(After(s, ops), p, error, result);
      var events := Emitted(s, ops) + es;
      && Idle(s') && !s'.started
      && StartsAt(events, start) && start < message < |events| - 1
      && events[message] == Closing(After(s, ops).text, error, result)[0]
      && Last(events) == Ended
      && (forall k :: 0 <= k < |events| ==> (events[k].MessageEnd? <==> k == message))
      && (forall k :: 0 <= k < |events| ==> (events[k].Ended? <==> k == |events| - 1))
  {
    hide Emitted, After, Closing, Opens, StartsAt, Turn;
    TurnOpens(s, p, ops);
    var (before, t) := (Emitted(s, ops), After(s, ops));
    var opening := before + if t.started then [] else [Started];
    OpensOn(t.started, before, true, if t.started then [] else [Started]);
    start := StartOf(opening);
    message := |opening|;
    var closing := Closing(t.text, error, result);
    assert before + ((if t.started then [] else [Started]) + closing) == opening + closing;
    ClosingShape(t.text, error, result);
    Whole(opening, closing, start);
  }

  lemma StartOf(events: seq<Event>) returns (start: nat)
    requires Opens(true, events)
    ensures StartsAt(events, start)
  {
    start :| StartsAt(events, start);
  }

  lemma Whole(opening: seq<Event>, closing: seq<Event>, start: nat)
    requires Opens(true, opening) && StartsAt(opening, start)
    requires 2 <= |closing| && closing[0].MessageEnd? && Last(closing) == Ended
    requires forall k :: 0 < k < |closing| ==>
      !closing[k].MessageEnd? && closing[k] != Started && (closing[k].Ended? <==> k == |closing| - 1)
    ensures var events := opening + closing;
      && StartsAt(events, start) && start < |opening| < |events| - 1
      && events[|opening|] == closing[0] && Last(events) == Ended
      && (forall k :: 0 <= k < |events| ==> (events[k].MessageEnd? <==> k == |opening|))
      && (forall k :: 0 <= k < |events| ==> (events[k].Ended? <==> k == |events| - 1))
  {
  }

  lemma ClosingShape(text: string, error: Option<string>, result: Option<PromptResult>)
    ensures var c := Closing(text, error, result);
      && 2 <= |c| && c[0].MessageEnd? && c[0].text == text && Last(c) == Ended
      && forall k :: 0 < k < |c| ==> !c[k].MessageEnd? && c[k] != Started && (c[k].Ended? <==> k == |c| - 1)
  {
  }

  // ---- What the turn heard ---------------------------------------------------------------------

  function Loads(loads: set<string>, ops: seq<Op>): set<string> {
    if ops == [] then loads
    else
      var before := Loads(loads, ops[..|ops| - 1]);
      match Last(ops)
      case Encode(id, Load) => if id == "" then before else before + {id}
      case Decode(Response(id, _, _)) => before - {id}
      case _ => before
  }

  /** The updates that are the turn's own: those that arrive with no load in flight. */
  function Heard(loads: set<string>, ops: seq<Op>): seq<Update> {
    if ops == [] then []
    else
      Heard(loads, ops[..|ops| - 1])
      + match Last(ops)
        case Decode(SessionUpdate(Some(u))) => if Loads(loads, ops[..|ops| - 1]) == {} then [u] else []
        case _ => []
  }

  /** How one op of a turn bears on what the turn has heard. */
  lemma OpHears(p: string, s: State, op: Op)
    requires InTurn(p, s) && Within(p, op)
    ensures var (s', es) := Applied(s, op);
      if op.Decode? && op.line.SessionUpdate? && op.line.update.Some? && s.loads == {} then
        s' == Updated(s, op.line.update.value).0.(started := true)
        && es == (if s.started then [] else [Started]) + Updated(s, op.line.update.value).1
        && s'.loads == {}
      else
        && s'.message == s.message && s'.text == s.text
        && s'.calls == s.calls && s'.args == s.args && s'.called == s.called
        && (forall k :: 0 <= k < |es| ==> Bare(es[k]))
  {
    hide Updated;
    if op.Decode? && op.line.SessionUpdate? && op.line.update.Some? {
      UpdateAdds(s, op.line.update.value);
    }
  }

  lemma LoadsOp(p: string, s: State, op: Op)
    requires InTurn(p, s) && Within(p, op)
    ensures Applied(s, op).0.loads ==
      match op
      case Encode(id, Load) => if id == "" then s.loads else s.loads + {id}
      case Decode(Response(id, _, _)) => s.loads - {id}
      case _ => s.loads
  {
    hide Updated;
    if op.Decode? && op.line.SessionUpdate? && op.line.update.Some? {
      UpdateAdds(s, op.line.update.value);
    }
  }

  lemma {:induction false} LoadsAre(s: State, p: string, ops: seq<Op>)
    requires Turn(s, p, ops)
    ensures After(s, ops).loads == Loads(s.loads, ops)
  {
    hide Applied;
    if |ops| == 1 {
      FirstOp(s, p, ops);
      assert ops[..0] == [];
      assert Loads(s.loads, ops[..0]) == s.loads;
    } else {
      var front := ops[..|ops| - 1];
      TurnPrefix(s, p, ops);
      LoadsAre(s, p, front);
      TurnOpens(s, p, front);
      LoadsOp(p, After(s, front), Last(ops));
    }
  }

  // ---- The turn's text -------------------------------------------------------------------------

  /** A message's chunk: its ID and its text. */
  function Chunks(us: seq<Update>): seq<(string, string)> {
    if us == [] then []
    else
      Chunks(us[..|us| - 1])
      + match Last(us) case Chunk(id, Some(text)) => [(id, text)] case _ => []
  }

  /** The texts of the chunks at the end that are all of one message: what the codec keeps. */
  function TextOf(chunks: seq<(string, string)>, id: string): string {
    if chunks == [] || Last(chunks).0 != id then ""
    else TextOf(chunks[..|chunks| - 1], id) + Last(chunks).1
  }

  function LastMessage(chunks: seq<(string, string)>): string {
    if chunks == [] then "" else Last(chunks).0
  }

  lemma ChunkOn(s: State, chunks: seq<(string, string)>, id: string, text: string)
    requires s.message == LastMessage(chunks) && s.text == TextOf(chunks, s.message)
    ensures var s' := Updated(s, Chunk(id, Some(text))).0;
      && s'.message == LastMessage(chunks + [(id, text)])
      && s'.text == TextOf(chunks + [(id, text)], s'.message)
  {
    assert (chunks + [(id, text)])[..|chunks|] == chunks;
    assert "" + text == text;
  }

  /** All the deltas of one message. */
  function Deltas(chunks: seq<(string, string)>, id: string): string {
    if chunks == [] then ""
    else Deltas(chunks[..|chunks| - 1], id) + if Last(chunks).0 == id then Last(chunks).1 else ""
  }

  /** A message that another interrupts: a chunk of its text, and later one of another's. */
  predicate Interrupted(chunks: seq<(string, string)>, id: string) {
    exists i, j :: 0 <= i < j < |chunks| && chunks[i].0 == id && chunks[i].1 != "" && chunks[j].0 != id
  }

  predicate Silent(chunks: seq<(string, string)>, id: string) {
    forall i :: 0 <= i < |chunks| && chunks[i].0 == id ==> chunks[i].1 == ""
  }

  lemma {:induction false} NoDeltas(chunks: seq<(string, string)>, id: string)
    ensures Deltas(chunks, id) == "" <==> Silent(chunks, id)
  {
    if chunks != [] {
      NoDeltas(chunks[..|chunks| - 1], id);
    }
  }

  lemma InterruptedOn(chunks: seq<(string, string)>, id: string)
    requires chunks != []
    ensures var front := chunks[..|chunks| - 1];
            Interrupted(chunks, id) <==> if Last(chunks).0 == id then Interrupted(front, id) else !Silent(front, id)
  {
    var front := chunks[..|chunks| - 1];
    if Interrupted(chunks, id) {
      var i, j :| 0 <= i < j < |chunks| && chunks[i].0 == id && chunks[i].1 != "" && chunks[j].0 != id;
      assert front[i] == chunks[i];
      assert j < |front| ==> front[j] == chunks[j];
    }
    if !Silent(front, id) {
      var i :| 0 <= i < |front| && front[i].0 == id && front[i].1 != "";
      assert chunks[i] == front[i];
      assert Last(chunks).0 != id ==> Interrupted(chunks, id);
    }
    if Interrupted(front, id) {
      var i, j :| 0 <= i < j < |front| && front[i].0 == id && front[i].1 != "" && front[j].0 != id;
      assert chunks[i] == front[i] && chunks[j] == front[j];
    }
  }

  lemma SameEnd(a: string, b: string, x: string)
    ensures a + x == b + x <==> a == b
  {
    assert (a + x)[..|a|] == a && (b + x)[..|b|] == b;
    assert |a + x| == |a| + |x| && |b + x| == |b| + |x|;
  }

  /** What the codec keeps is all of a message's deltas exactly when none was interrupted. */
  lemma {:induction false} TextIsWhole(chunks: seq<(string, string)>, id: string)
    ensures TextOf(chunks, id) == Deltas(chunks, id) <==> !Interrupted(chunks, id)
  {
    if chunks != [] {
      var front := chunks[..|chunks| - 1];
      InterruptedOn(chunks, id);
      NoDeltas(front, id);
      hide Interrupted, Silent;
      if Last(chunks).0 == id {
        TextIsWhole(front, id);
        SameEnd(TextOf(front, id), Deltas(front, id), Last(chunks).1);
      } else {
        assert Deltas(front, id) + "" == Deltas(front, id);
      }
    }
  }

  /** The text so far is what the codec keeps of the last message: its deltas since the last chunk of
      another. */
  lemma {:induction false} TextIsTheLastMessages(s: State, p: string, ops: seq<Op>)
    requires Turn(s, p, ops)
    ensures var (t, chunks) := (After(s, ops), Chunks(Heard(s.loads, ops)));
      t.message == LastMessage(chunks) && t.text == TextOf(chunks, LastMessage(chunks))
  {
    hide Applied;
    if |ops| == 1 {
      FirstOp(s, p, ops);
      assert ops[..0] == [];
      assert Heard(s.loads, ops[..0]) == [];
    } else {
      var front := ops[..|ops| - 1];
      TurnPrefix(s, p, ops);
      TextIsTheLastMessages(s, p, front);
      TurnOpens(s, p, front);
      LoadsAre(s, p, front);
      OpHears(p, After(s, front), Last(ops));
      HeardOn(s.loads, ops);
      hide Heard, Loads, Updated, Chunks, TextOf;
      var us := Heard(s.loads, front);
      if Heard(s.loads, ops) != us {
        TextOn(After(s, front), us, Last(ops).line.update.value);
      }
    }
  }

  lemma TextOn(s: State, us: seq<Update>, u: Update)
    requires s.message == LastMessage(Chunks(us)) && s.text == TextOf(Chunks(us), s.message)
    ensures var (s', chunks) := (Updated(s, u).0, Chunks(us + [u]));
      s'.message == LastMessage(chunks) && s'.text == TextOf(chunks, s'.message)
  {
    assert (us + [u])[..|us|] == us;
    if u.Chunk? && u.text.Some? {
      ChunkOn(s, Chunks(us), u.message, u.text.value);
    } else {
      QuietUpdate(s, u);
      assert Chunks(us) + [] == Chunks(us);
    }
  }

  lemma QuietUpdate(s: State, u: Update)
    requires !(u.Chunk? && u.text.Some?)
    ensures Updated(s, u).0.message == s.message && Updated(s, u).0.text == s.text
  {
    hide ToolName, IsRespond, CarriesArgs, CallEvents, EndEvents;
  }

  lemma HeardOn(loads: set<string>, ops: seq<Op>)
    requires ops != []
    ensures var (us, op) := (Heard(loads, ops[..|ops| - 1]), Last(ops));
      if op.Decode? && op.line.SessionUpdate? && op.line.update.Some? && Loads(loads, ops[..|ops| - 1]) == {} then
        Heard(loads, ops) == us + [op.line.update.value] != us
      else Heard(loads, ops) == us
  {
  }

  /** The turn's message end carries what the codec keeps of the last message, which is all its deltas if
      and only if no other message's chunk interrupted its text. */
  lemma MessageEndCarriesTheText(s: State, p: string, ops: seq<Op>, error: Option<string>, result: Option<PromptResult>)
    requires Turn(s, p, ops)
    ensures var chunks := Chunks(Heard(s.loads, ops));
      var es := Answered(After(s, ops), p, error, result).1;
      exists k :: 0 <= k < |es| && es[k].MessageEnd? && es[k].text == TextOf(chunks, LastMessage(chunks))
    ensures var chunks := Chunks(Heard(s.loads, ops));
      var es := Answered(After(s, ops), p, error, result).1;
      forall k :: 0 <= k < |es| && es[k].MessageEnd? ==>
        (es[k].text == Deltas(chunks, LastMessage(chunks)) <==> !Interrupted(chunks, LastMessage(chunks)))
  {
    hide After, Heard, Chunks, TextOf, Deltas, Interrupted, LastMessage, Answered, Turn;
    var t, chunks := After(s, ops), Chunks(Heard(s.loads, ops));
    TextIsTheLastMessages(s, p, ops);
    TextIsWhole(chunks, LastMessage(chunks));
    TurnOpens(s, p, ops);
    ClosesWithText(t, p, error, result);
  }

  lemma ClosesWithText(t: State, p: string, error: Option<string>, result: Option<PromptResult>)
    requires InTurn(p, t)
    ensures var es := Answered(t, p, error, result).1;
      && (exists k :: 0 <= k < |es| && es[k].MessageEnd? && es[k].text == t.text)
      && (forall k :: 0 <= k < |es| && es[k].MessageEnd? ==> es[k].text == t.text)
  {
    ClosingShape(t.text, error, result);
    var es := Answered(t, p, error, result).1;
    assert es[if t.started then 0 else 1] == Closing(t.text, error, result)[0];
  }

  /** A turn's last events, by its answer: an error's are an error, and so are those of an answer that
      cannot be read, or that gives "error" as its reason; a cancelled one's are a cancellation; and any
      other's are a message end with its reason. The usage is the answer's, if it has a result. */
  lemma TurnEndsAsAnswered(s: State, p: string, ops: seq<Op>, error: Option<string>, result: Option<PromptResult>)
    requires Turn(s, p, ops)
    ensures var chunks := Chunks(Heard(s.loads, ops));
      var text := TextOf(chunks, LastMessage(chunks));
      Answered(After(s, ops), p, error, result).1 ==
        (if After(s, ops).started then [] else [Started]) +
        match (error, result)
        case (Some(e), _) => [MessageEnd("error", text, None), Error(e), Ended]
        case (None, None) => [MessageEnd("error", text, None), Error("opencode: unreadable prompt result"), Ended]
        case (None, Some(r)) =>
          if r.stopReason in {"cancelled", "aborted"} then [MessageEnd("aborted", text, r.usage), Cancelled, Ended]
          else if r.stopReason == "error" then
            [MessageEnd("error", text, r.usage), Error("opencode: unreadable prompt result"), Ended]
          else [MessageEnd(r.stopReason, text, r.usage), Ended]
  {
    hide After, Heard, Chunks, TextOf, LastMessage, Turn;
    TextIsTheLastMessages(s, p, ops);
    TurnOpens(s, p, ops);
  }

  // ---- A message resumed -------------------------------------------------------------------------

  function ChunkOp(id: string, text: string): Op {
    Decode(SessionUpdate(Some(Chunk(id, Some(text)))))
  }

  const ASKED: seq<Op> := [Encode("1", Prompt)]
  const RESUMED: seq<Op> := ASKED + [ChunkOp("a", "x")] + [ChunkOp("b", "y")] + [ChunkOp("a", "z")]

  const CHUNKS: seq<(string, string)> := [("a", "x")] + [("b", "y")] + [("a", "z")]

  lemma ResumedDeltas()
    ensures Deltas(CHUNKS, "a") == "xz"
  {
    hide Deltas;
    DeltasOn([], "a", "x", "a");
    DeltasOn([("a", "x")], "b", "y", "a");
    DeltasOn([("a", "x")] + [("b", "y")], "a", "z", "a");
    assert [] + [("a", "x")] == [("a", "x")];
    assert "" + "x" == "x" && "x" + "" == "x" && "x" + "z" == "xz";
  }

  lemma ResumedText()
    ensures After(FRESH, RESUMED).text == "z"
  {
    hide Applied, After;
    AfterOn([], Encode("1", Prompt));
    assert [] + [Encode("1", Prompt)] == ASKED;
    AfterOn(ASKED, ChunkOp("a", "x"));
    AfterOn(ASKED + [ChunkOp("a", "x")], ChunkOp("b", "y"));
    AfterOn(ASKED + [ChunkOp("a", "x")] + [ChunkOp("b", "y")], ChunkOp("a", "z"));
    PromptApplies();
    var s1 := Encoded(FRESH, "1", Prompt);
    var s2 := Applied(s1, ChunkOp("a", "x")).0;
    ChunkApplies(s1, "a", "x");
    ChunkApplies(s2, "b", "y");
    ChunkApplies(Applied(s2, ChunkOp("b", "y")).0, "a", "z");
  }

  lemma HeardChunk(ops: seq<Op>, id: string, text: string)
    requires Loads({}, ops) == {}
    ensures Loads({}, ops + [ChunkOp(id, text)]) == {}
    ensures Chunks(Heard({}, ops + [ChunkOp(id, text)])) == Chunks(Heard({}, ops)) + [(id, text)]
  {
    var all, us := ops + [ChunkOp(id, text)], Heard({}, ops);
    assert all[..|all| - 1] == ops;
    HeardOn({}, all);
    assert (us + [Chunk(id, Some(text))])[..|us|] == us;
  }

  lemma AskedHears()
    ensures Loads({}, ASKED) == {} && Chunks(Heard({}, ASKED)) == []
  {
    assert ASKED[..0] == [];
    assert Loads({}, ASKED[..0]) == {} && Heard({}, ASKED[..0]) == [];
  }

  lemma ResumedChunks()
    ensures Chunks(Heard({}, RESUMED)) == CHUNKS
  {
    hide Loads, Heard, Chunks;
    AskedHears();
    HeardChunk(ASKED, "a", "x");
    HeardChunk(ASKED + [ChunkOp("a", "x")], "b", "y");
    HeardChunk(ASKED + [ChunkOp("a", "x")] + [ChunkOp("b", "y")], "a", "z");
    assert [] + [("a", "x")] == [("a", "x")];
  }

  /** A message that another interrupts loses what came before: the turn ends with "z", not "xz". */
  lemma ResumedMessageIsCut()
    ensures Turn(FRESH, "1", RESUMED) && Chunks(Heard({}, RESUMED)) == CHUNKS
    ensures After(FRESH, RESUMED).text == "z" && Deltas(CHUNKS, "a") == "xz"
  {
    ResumedText();
    ResumedDeltas();
    ResumedChunks();
    hide After, Deltas, Chunks, Heard;
  }

  lemma AfterOn(ops: seq<Op>, op: Op)
    ensures After(FRESH, ops + [op]) == Applied(After(FRESH, ops), op).0
    ensures After(FRESH, []) == FRESH
  {
    hide Applied;
    assert (ops + [op])[..|ops|] == ops;
  }

  lemma PromptApplies()
    ensures Applied(FRESH, Encode("1", Prompt)).0 == Encoded(FRESH, "1", Prompt)
  {
  }

  lemma ChunkApplies(s: State, id: string, text: string)
    requires s.prompts == {"1"} && s.loads == {}
    ensures var s' := Applied(s, ChunkOp(id, text)).0;
            && s'.prompts == {"1"} && s'.loads == {} && s'.message == id
            && s'.text == if id == s.message then s.text + text else text
  {
  }

  lemma DeltasOn(chunks: seq<(string, string)>, other: string, text: string, id: string)
    ensures Deltas(chunks + [(other, text)], id) == Deltas(chunks, id) + if other == id then text else ""
    ensures Deltas([], id) == ""
  {
    assert (chunks + [(other, text)])[..|chunks|] == chunks;
  }
}
