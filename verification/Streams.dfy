/**
 * A run's events as a Server-Sent Events stream (workflow/sse/sse.go), and the client that reads it
 * by section 9.2.6 of the WHATWG HTML standard and reconnects with its last event ID.
 */
module Streams {
  import opened Common
  import opened Numerals
  import opened Following

  // ---- What the server writes ----------------------------------------------------------------

  /** The request's cursor: the Last-Event-ID header, else the after parameter, else the log's start. */
  function Cursor(header: string, after: string): Result<nat, string> {
    var v := if header != "" then header else after;
    if v == "" then Ok(0)
    else
      match Atoi(v)
      case Some(n) => if n >= 0 then Ok(n) else Err(v)
      case None => Err(v)
  }

  datatype Answer = BadCursor | UnknownRun | NoContent | Streaming(after: nat)

  /** What Stream answers, from the cursor and the log it folds. */
  function Answered(header: string, after: string, log: seq<Body>, ended: bool): Answer {
    match Cursor(header, after)
    case Err(_) => BadCursor
    case Ok(n) => if log == [] then UnknownRun else if ended && n >= |log| then NoContent else Streaming(n)
  }

  datatype Frame = Event(item: Item) | Keepalive

  const EXCHANGE := "exchange"

  function Text(f: Frame): string {
    match f
    case Event(Logged(num, body)) => "id: " + Itoa(num) + "\nevent: " + body.kind + "\ndata: " + body.data + "\n\n"
    case Event(Live(data)) => "event: " + EXCHANGE + "\ndata: " + data + "\n\n"
    case Keepalive => ": keepalive\n\n"
  }

  function Texts(fs: seq<Frame>): string {
    if fs == [] then "" else Text(fs[0]) + Texts(fs[1..])
  }

  lemma {:induction false} TextsOn(fs: seq<Frame>, f: Frame)
    ensures Texts(fs + [f]) == Texts(fs) + Text(f)
  {
    hide Text;
    if fs == [] {
      assert [f][1..] == [];
    } else {
      TextsOn(fs[1..], f);
      assert (fs + [f])[1..] == fs[1..] + [f];
      Assoc(Text(fs[0]), Texts(fs[1..]), Text(f));
    }
  }

  class Response {
    var text: string

    constructor ()
      ensures text == ""
    {
      text := "";
    }

    /** Stream's loop. fails is the write that fails, after part of its text; unflushed the flush that does.
        It writes the frames of its turns, in order and whole, until one ends it or a call fails. */
    method Stream(turns: seq<Turn>, fails: Option<(nat, nat)>, unflushed: Option<nat>)
      returns (written: nat, part: string)
      modifies this
      ensures var frames := FramesOf(turns);
              && written <= |frames| && text == old(text) + Texts(frames[..written]) + part
              && (if written < |frames| then part <= Text(frames[written]) else part == "")
              && (written < |frames| ==>
                    (fails.Some? && fails.value.0 == written) || (unflushed.Some? && unflushed.value + 1 == written))
              && (part != "" ==> fails.Some? && fails.value.0 == written)
    {
      hide Text, Texts;
      written, part := 0, "";
      var frames := FramesOf(turns);
      assert frames[..0] == [];
      NoTexts();
      assert text + "" == text;
      var k := 0;
      while k < |turns| && !turns[k].RequestEnds? && !turns[k].EventsClose?
        invariant written == k <= |turns| && |frames| >= k && frames[k..] == FramesOf(turns[k..])
        invariant text == old(text) + Texts(frames[..written])
      {
        FramesOn(turns, k);
        var f := FrameOf(turns[k]);
        assert frames[k] == f && frames[k + 1..] == FramesOf(turns[k + 1..]);
        var t := Text(f);
        if fails.Some? && fails.value.0 == written {
          part := t[..if fails.value.1 < |t| then fails.value.1 else |t|];
          text := text + part;
          return;
        }
        TextsOn(frames[..written], f);
        assert frames[..written + 1] == frames[..written] + [f];
        Assoc(old(text), Texts(frames[..written]), t);
        text := text + t;
        written := written + 1;
        k := k + 1;
        if unflushed.Some? && unflushed.value + 1 == written {
          assert text + "" == text;
          return;
        }
      }
      assert FramesOf(turns[k..]) == [];
      assert text + "" == text;
    }
  }

  /** What the loop's select takes: the request's end, an event or the end of them, or a tick. */
  datatype Turn = RequestEnds | EventsClose | Taken(item: Item) | Tick

  function FrameOf(t: Turn): Frame {
    if t.Taken? then Event(t.item) else Keepalive
  }

  /** The frames of the turns up to the one that ends the stream. */
  function FramesOf(turns: seq<Turn>): seq<Frame> {
    if turns == [] || turns[0].RequestEnds? || turns[0].EventsClose? then []
    else [FrameOf(turns[0])] + FramesOf(turns[1..])
  }

  lemma FramesOn(turns: seq<Turn>, k: nat)
    requires k < |turns| && !turns[k].RequestEnds? && !turns[k].EventsClose?
    ensures FramesOf(turns[k..]) == [FrameOf(turns[k])] + FramesOf(turns[k + 1..])
  {
    assert turns[k..][1..] == turns[k + 1..];
  }

  lemma NoTexts()
    ensures Texts([]) == ""
  {
  }

  lemma Assoc<T>(a: seq<T>, b: seq<T>, c: seq<T>)
    ensures (a + b) + c == a + (b + c)
  {
  }

  lemma {:induction false} TextsSplit(fs: seq<Frame>, k: nat)
    requires k <= |fs|
    ensures Texts(fs) == Texts(fs[..k]) + Texts(fs[k..])
  {
    hide Text;
    if k == 0 {
      assert fs[..0] == [] && fs[0..] == fs;
    } else {
      TextsSplit(fs[1..], k - 1);
      assert fs[1..][..k - 1] == fs[..k][1..] && fs[1..][k - 1..] == fs[k..];
      Assoc(Text(fs[0]), Texts(fs[1..][..k - 1]), Texts(fs[k..]));
    }
  }

  // ---- What the client reads -----------------------------------------------------------------

  datatype Message = Message(kind: string, data: string, id: string)

  /** The standard's buffers: line is the unfinished line, cr whether the last character was a CR, id,
      kind, and data the buffers of the event being read; last is the client's last event ID. */
  datatype Reader = Reader(line: string, cr: bool, id: string, kind: string, data: string, last: string, out: seq<Message>)

  function Opened(id: string, last: string): Reader {
    Reader("", false, id, "", "", last, [])
  }

  function Field(r: Reader, name: string, value: string): Reader {
    if name == "event" then r.(kind := value)
    else if name == "data" then r.(data := r.data + value + "\n")
    else if name == "id" && '\0' !in value then r.(id := value)
    else r
  }

  function Dispatch(r: Reader): Reader {
    if r.data == "" then r.(last := r.id, kind := "")
    else
      var data := if Last(r.data) == '\n' then r.data[..|r.data| - 1] else r.data;
      var kind := if r.kind == "" then "message" else r.kind;
      r.(last := r.id, kind := "", data := "", out := r.out + [Message(kind, data, r.id)])
  }

  /** A field's value, without one space after the colon. */
  function Trimmed(value: string): string {
    if value != "" && value[0] == ' ' then value[1..] else value
  }

  function EndLine(r: Reader): Reader {
    var line, r := r.line, r.(line := "");
    if line == "" then Dispatch(r)
    else if ':' in line then
      var i := IndexOf(line, ':');
      if i == 0 then r else Field(r, line[..i], Trimmed(line[i + 1..]))
    else Field(r, line, "")
  }

  function Take(r: Reader, c: char): Reader {
    if c == '\n' then (if r.cr then r.(cr := false) else EndLine(r))
    else if c == '\r' then EndLine(r).(cr := true)
    else r.(line := r.line + [c], cr := false)
  }

  function Read(r: Reader, text: string): Reader {
    if text == "" then r else Take(Read(r, text[..|text| - 1]), Last(text))
  }

  lemma ReadsNothing(r: Reader)
    ensures Read(r, "") == r
  {
  }

  lemma {:induction false} ReadOn(r: Reader, a: string, b: string)
    ensures Read(r, a + b) == Read(Read(r, a), b)
  {
    if b == "" {
      assert a + b == a;
    } else {
      assert (a + b)[..|a + b| - 1] == a + b[..|b| - 1];
      ReadOn(r, a, b[..|b| - 1]);
    }
  }

  // ---- Reading a line ------------------------------------------------------------------------

  predicate OneLine(s: string) {
    '\n' !in s && '\r' !in s
  }

  lemma {:induction false} ReadsLine(r: Reader, s: string)
    requires OneLine(s) && !r.cr
    ensures Read(r, s) == r.(line := r.line + s)
  {
    if s == "" {
      assert r.line + "" == r.line;
    } else {
      ReadsLine(r, s[..|s| - 1]);
      assert r.line + s == r.line + s[..|s| - 1] + [Last(s)];
    }
  }

  lemma ReadsWholeLine(r: Reader, s: string)
    requires OneLine(s) && !r.cr && r.line == ""
    ensures Read(r, s + "\n") == EndLine(r.(line := s))
  {
    ReadsLine(r, s);
    assert "" + s == s && (s + "\n")[..|s|] == s && Last(s + "\n") == '\n';
  }

  lemma FirstIndex(s: string, c: char, k: nat)
    requires k < |s| && s[k] == c && c !in s[..k]
    ensures IndexOf(s, c) == k
  {
  }

  lemma FieldParts(name: string, value: string)
    ensures var line := name + ": " + value;
            line[..|name|] == name && line[|name|] == ':' && line[|name| + 1..] == " " + value
    ensures (" " + value)[1..] == value
  {
    var line := name + ": " + value;
    assert |line[|name| + 1..]| == |" " + value|;
    forall i | 0 <= i < |" " + value|
      ensures line[|name| + 1..][i] == (" " + value)[i]
    {
    }
  }

  lemma ReadsField(r: Reader, name: string, value: string)
    requires name != "" && ':' !in name
    ensures EndLine(r.(line := name + ": " + value)) == Field(r.(line := ""), name, value)
  {
    var line := name + ": " + value;
    FieldParts(name, value);
    FirstIndex(line, ':', |name|);
    hide IndexOf, Field, Dispatch;
  }

  function Join(lines: seq<string>): string {
    if lines == [] then "" else lines[0] + "\n" + Join(lines[1..])
  }

  lemma QuietLine(r: Reader)
    requires r.line != ""
    ensures EndLine(r) == r.(line := "", id := EndLine(r).id, kind := EndLine(r).kind, data := EndLine(r).data)
  {
    hide Dispatch, IndexOf, Trimmed;
  }

  /** Reading lines none of which is blank, or the first part of them, dispatches nothing. */
  lemma {:induction false} QuietLines(r: Reader, lines: seq<string>, p: string)
    requires !r.cr && r.line == "" && forall i :: 0 <= i < |lines| ==> OneLine(lines[i]) && lines[i] != ""
    requires p <= Join(lines)
    ensures Read(r, p).out == r.out && Read(r, p).last == r.last
    decreases lines
  {
    hide EndLine, Take, Read;
    if lines == [] {
      ReadsNothing(r);
    } else {
      var line := lines[0];
      if |p| <= |line| {
        assert p == line[..|p|];
        ReadsLine(r, p);
        assert OneLine(p);
      } else {
        var rest := p[|line| + 1..];
        assert p == line + "\n" + rest;
        QuietLine(r.(line := line));
        ReadsWholeLine(r, line);
        ReadOn(r, line + "\n", rest);
        QuietLines(EndLine(r.(line := line)), lines[1..], rest);
      }
    }
  }

  // ---- Reading a frame -----------------------------------------------------------------------

  /** A frame the server can write: a logged event's kind is not a live one's, and JSON has no line break. */
  predicate Plain(f: Frame) {
    match f
    case Event(Logged(_, body)) => body.kind != "" && body.kind != EXCHANGE && OneLine(body.kind) && OneLine(body.data)
    case Event(Live(data)) => OneLine(data)
    case Keepalive => true
  }

  function LinesOf(f: Frame): seq<string> {
    match f
    case Event(Logged(num, body)) => ["id: " + Itoa(num), "event: " + body.kind, "data: " + body.data]
    case Event(Live(data)) => ["event: " + EXCHANGE, "data: " + data]
    case Keepalive => [": keepalive"]
  }

  lemma NumeralsArePlain(n: nat)
    ensures OneLine(Itoa(n)) && '\0' !in Itoa(n) && Itoa(n) != ""
  {
    var s := Itoa(n);
    assert forall i :: 0 <= i < |s| ==> IsDigit(s[i]);
  }

  lemma JoinThree(a: string, b: string, c: string)
    ensures Join([a, b, c]) == a + "\n" + (b + "\n" + (c + "\n"))
  {
    assert [a, b, c][1..] == [b, c];
    JoinTwo(b, c);
    hide Join;
  }

  lemma JoinTwo(b: string, c: string)
    ensures Join([b, c]) == b + "\n" + (c + "\n")
  {
    assert Join([c]) == c + "\n" + Join([c][1..]);
    assert [b, c][1..] == [c] && [c][1..] == [] && c + "\n" + "" == c + "\n";
  }

  lemma LoggedLines(id: string, kind: string, data: string)
    ensures "id: " + id + "\nevent: " + kind + "\ndata: " + data + "\n\n"
            == "id: " + id + "\n" + ("event: " + kind + "\n" + ("data: " + data + "\n")) + "\n"
  {
    assert "\nevent: " == "\n" + "event: " && "\ndata: " == "\n" + "data: " && "\n\n" == "\n" + "\n";
  }

  lemma LiveLines(data: string)
    ensures "event: " + EXCHANGE + "\ndata: " + data + "\n\n"
            == "event: " + EXCHANGE + "\n" + ("data: " + data + "\n") + "\n"
  {
    assert "\ndata: " == "\n" + "data: " && "\n\n" == "\n" + "\n";
  }

  lemma TextIsLines(f: Frame)
    ensures Text(f) == Join(LinesOf(f)) + "\n"
  {
    match f {
      case Event(Logged(num, body)) =>
        hide Itoa, Join;
        LoggedLines(Itoa(num), body.kind, body.data);
        JoinThree("id: " + Itoa(num), "event: " + body.kind, "data: " + body.data);
      case Event(Live(data)) =>
        hide Join;
        LiveLines(data);
        JoinTwo("event: " + EXCHANGE, "data: " + data);
      case Keepalive =>
        assert LinesOf(f)[1..] == [];
    }
  }

  lemma LinesArePlain(f: Frame)
    requires Plain(f)
    ensures forall i :: 0 <= i < |LinesOf(f)| ==> OneLine(LinesOf(f)[i]) && LinesOf(f)[i] != ""
  {
    if f.Event? && f.item.Logged? {
      NumeralsArePlain(f.item.num);
      hide Itoa, Digits;
    }
  }

  /** The message a frame makes, under the ID the client then holds. */
  function MessageOf(f: Frame, id: string): seq<Message> {
    match f
    case Event(Logged(num, body)) => [Message(body.kind, body.data, Itoa(num))]
    case Event(Live(data)) => [Message(EXCHANGE, data, id)]
    case Keepalive => []
  }

  function IdAfter(f: Frame, id: string): string {
    if f.Event? && f.item.Logged? then Itoa(f.item.num) else id
  }

  /** Between frames: no line, and no event, half read. */
  predicate Between(r: Reader) {
    r.line == "" && !r.cr && r.kind == "" && r.data == ""
  }

  function After(r: Reader, f: Frame): Reader {
    var id := IdAfter(f, r.id);
    r.(id := id, last := id, out := r.out + MessageOf(f, r.id))
  }

  lemma ReadsLines(r: Reader, a: string, rest: seq<string>)
    requires OneLine(a) && !r.cr && r.line == ""
    ensures Read(r, Join([a] + rest)) == Read(EndLine(r.(line := a)), Join(rest))
  {
    assert ([a] + rest)[1..] == rest;
    ReadsWholeLine(r, a);
    ReadOn(r, a + "\n", Join(rest));
  }

  lemma ReadsLogged(r: Reader, num: nat, body: Body)
    requires Between(r) && Plain(Event(Logged(num, body)))
    ensures Read(r, Join(LinesOf(Event(Logged(num, body))))) == r.(id := Itoa(num), kind := body.kind, data := body.data + "\n")
  {
    hide Join, Read, EndLine, Itoa;
    var lines := LinesOf(Event(Logged(num, body)));
    NumeralsArePlain(num);
    LinesArePlain(Event(Logged(num, body)));
    var r1 := r.(id := Itoa(num));
    var r2 := r1.(kind := body.kind);
    assert lines == [lines[0]] + ([lines[1]] + ([lines[2]] + []));
    assert "id: " == "id" + ": " && "event: " == "event" + ": " && "data: " == "data" + ": ";
    ReadsLines(r, lines[0], [lines[1]] + ([lines[2]] + []));
    ReadsField(r, "id", Itoa(num));
    ReadsLines(r1, lines[1], [lines[2]] + []);
    ReadsField(r1, "event", body.kind);
    ReadsLines(r2, lines[2], []);
    ReadsField(r2, "data", body.data);
    JoinNone();
    ReadsNothing(r2.(data := body.data + "\n"));
    assert "" + body.data + "\n" == body.data + "\n";
  }

  lemma ReadsLive(r: Reader, data: string)
    requires Between(r) && Plain(Event(Live(data)))
    ensures Read(r, Join(LinesOf(Event(Live(data))))) == r.(kind := EXCHANGE, data := data + "\n")
  {
    hide Join, Read, EndLine;
    var lines := LinesOf(Event(Live(data)));
    LinesArePlain(Event(Live(data)));
    var r1 := r.(kind := EXCHANGE);
    assert lines == [lines[0]] + ([lines[1]] + []);
    assert "event: " == "event" + ": " && "data: " == "data" + ": ";
    ReadsLines(r, lines[0], [lines[1]] + []);
    ReadsField(r, "event", EXCHANGE);
    ReadsLines(r1, lines[1], []);
    ReadsField(r1, "data", data);
    JoinNone();
    ReadsNothing(r1.(data := data + "\n"));
    assert "" + data + "\n" == data + "\n";
  }

  lemma ReadsKeepalive(r: Reader)
    requires Between(r)
    ensures Read(r, Join(LinesOf(Keepalive))) == r
  {
    var lines := LinesOf(Keepalive);
    assert lines == [lines[0]] + [];
    LinesArePlain(Keepalive);
    ReadsComment(r, lines[0]);
    hide Join, Read, EndLine;
    ReadsLines(r, lines[0], []);
    JoinNone();
    ReadsNothing(r);
  }

  lemma ReadsComment(r: Reader, line: string)
    requires r.line == "" && line != "" && line[0] == ':'
    ensures EndLine(r.(line := line)) == r
  {
    FirstIndex(line, ':', 0);
  }

  lemma JoinNone()
    ensures Join([]) == ""
  {
  }

  lemma DispatchesEvent(r: Reader, data: string)
    requires r.line == "" && !r.cr && r.data == data + "\n" && r.kind != ""
    ensures Read(r, "\n") == r.(last := r.id, kind := "", data := "", out := r.out + [Message(r.kind, data, r.id)])
  {
    assert "\n"[..0] == "";
    ReadsNothing(r);
    assert r.data[..|r.data| - 1] == data;
  }

  lemma DispatchesNothing(r: Reader)
    requires Between(r)
    ensures Read(r, "\n") == r.(last := r.id)
  {
    assert "\n"[..0] == "";
    ReadsNothing(r);
  }

  /** A whole frame read between frames gives its message, and its ID if it has one. */
  lemma ReadsFrame(r: Reader, f: Frame)
    requires Between(r) && Plain(f)
    ensures Read(r, Text(f)) == After(r, f) && Between(After(r, f))
  {
    TextIsLines(f);
    ReadOn(r, Join(LinesOf(f)), "\n");
    hide Join, Read, Itoa, LinesOf;
    match f {
      case Event(Logged(num, body)) =>
        ReadsLogged(r, num, body);
        DispatchesEvent(r.(id := Itoa(num), kind := body.kind, data := body.data + "\n"), body.data);
      case Event(Live(data)) =>
        ReadsLive(r, data);
        DispatchesEvent(r.(kind := EXCHANGE, data := data + "\n"), data);
      case Keepalive =>
        ReadsKeepalive(r);
        DispatchesNothing(r);
        assert r.out + [] == r.out;
    }
  }

  /** Part of a frame gives nothing. */
  lemma PartGivesNothing(r: Reader, f: Frame, p: string)
    requires Between(r) && Plain(f) && p <= Text(f) && p != Text(f)
    ensures Read(r, p).out == r.out && Read(r, p).last == r.last
  {
    TextIsLines(f);
    LinesArePlain(f);
    hide Text, LinesOf, Read, Join;
    var lines := Join(LinesOf(f));
    assert p <= lines by {
      assert |p| <= |lines|;
      assert p == Text(f)[..|p|];
    }
    QuietLines(r, LinesOf(f), p);
  }

  // ---- Reading a stream ----------------------------------------------------------------------

  predicate AllPlain(fs: seq<Frame>) {
    forall i :: 0 <= i < |fs| ==> Plain(fs[i])
  }

  function AfterAll(r: Reader, fs: seq<Frame>): Reader {
    if fs == [] then r else After(AfterAll(r, fs[..|fs| - 1]), Last(fs))
  }

  lemma {:induction false} ReadsFrames(r: Reader, fs: seq<Frame>)
    requires Between(r) && AllPlain(fs)
    ensures Read(r, Texts(fs)) == AfterAll(r, fs) && Between(AfterAll(r, fs))
  {
    hide Plain, Text, Between, After;
    if fs == [] {
      ReadsNothing(r);
    } else {
      var front := fs[..|fs| - 1];
      hide Read, Texts;
      assert fs == front + [Last(fs)];
      ReadsFrames(r, front);
      TextsOn(front, Last(fs));
      ReadOn(r, Texts(front), Text(Last(fs)));
      ReadsFrame(AfterAll(r, front), Last(fs));
    }
  }

  /** However a stream is cut off, the client has dispatched its first k frames, those wholly received,
      and nothing else. */
  lemma {:induction false} CutOff(r: Reader, fs: seq<Frame>, p: string) returns (k: nat)
    requires Between(r) && AllPlain(fs) && p <= Texts(fs)
    ensures k <= |fs| && Texts(fs[..k]) <= p
    ensures k < |fs| ==> |p| < |Texts(fs[..k + 1])|
    ensures Read(r, p).out == AfterAll(r, fs[..k]).out && Read(r, p).last == AfterAll(r, fs[..k]).last
  {
    hide Plain, Text, Between, After, Read, AfterAll;
    if p == Texts(fs) {
      k := |fs|;
      assert fs[..k] == fs;
      ReadsFrames(r, fs);
      return;
    }
    NoTexts();
    var front, f := fs[..|fs| - 1], Last(fs);
    assert fs == front + [f];
    TextsOn(front, f);
    hide Texts;
    var before := Texts(front);
    if |p| < |before| {
      assert p <= before;
      k := CutOff(r, front, p);
      assert fs[..k] == front[..k] && (k < |front| ==> fs[..k + 1] == front[..k + 1]);
    } else {
      k := |front|;
      var part := p[|before|..];
      assert p == before + part && part <= Text(f) && part != Text(f);
      assert fs[..k] == front && fs[..k + 1] == fs;
      ReadsFrames(r, front);
      ReadOn(r, before, part);
      PartGivesNothing(AfterAll(r, front), f, part);
    }
  }

  function ItemsOf(fs: seq<Frame>): seq<Item> {
    if fs == [] then []
    else ItemsOf(fs[..|fs| - 1]) + if Last(fs).Event? then [Last(fs).item] else []
  }

  lemma {:induction false} ItemsPrefix(fs: seq<Frame>, k: nat)
    requires k <= |fs|
    ensures ItemsOf(fs[..k]) <= ItemsOf(fs)
  {
    if k < |fs| {
      ItemsPrefix(fs[..|fs| - 1], k);
      assert fs[..|fs| - 1][..k] == fs[..k];
    } else {
      assert fs[..k] == fs;
    }
  }

  /** The messages of logged events among those received. */
  function LoggedOf(out: seq<Message>): seq<Message> {
    if out == [] then []
    else LoggedOf(out[..|out| - 1]) + if Last(out).kind != EXCHANGE then [Last(out)] else []
  }

  lemma LoggedOn(out: seq<Message>, m: Message)
    ensures LoggedOf(out + [m]) == LoggedOf(out) + if m.kind != EXCHANGE then [m] else []
  {
    assert (out + [m])[..|out|] == out;
  }

  function MessagesOf(items: seq<Item>): seq<Message> {
    if items == [] then []
    else
      MessagesOf(items[..|items| - 1]) +
      if Last(items).Logged? then [Message(Last(items).body.kind, Last(items).body.data, Itoa(Last(items).num))] else []
  }

  /** The numeral of the last logged item, or what the client held. */
  function HeldAfter(items: seq<Item>, held: string): string {
    if items == [] then held
    else if Last(items).Logged? then Itoa(Last(items).num)
    else HeldAfter(items[..|items| - 1], held)
  }

  lemma ItemsOn(items: seq<Item>, x: Item, held: string)
    ensures MessagesOf(items + [x]) == MessagesOf(items) + if x.Logged? then [Message(x.body.kind, x.body.data, Itoa(x.num))] else []
    ensures HeldAfter(items + [x], held) == if x.Logged? then Itoa(x.num) else HeldAfter(items, held)
  {
    assert (items + [x])[..|items|] == items;
  }

  /** What a client has after whole frames of a stream it opened with id in its buffer, holding held. */
  lemma {:induction false} AfterFrames(id: string, held: string, fs: seq<Frame>)
    requires AllPlain(fs)
    ensures var r, items := AfterAll(Opened(id, held), fs), ItemsOf(fs);
            && LoggedOf(r.out) == MessagesOf(items)
            && r.id == HeldAfter(items, id) && r.last == if fs == [] then held else HeldAfter(items, id)
  {
    if fs == [] {
      assert LoggedOf([]) == [] && MessagesOf([]) == [] && HeldAfter([], id) == id;
    } else {
      var front := fs[..|fs| - 1];
      hide AfterAll, LoggedOf, MessagesOf, HeldAfter, ItemsOf, After, Plain;
      AfterFrames(id, held, front);
      AfterLast(Opened(id, held), fs);
      ItemsLast(fs);
      AfterOne(AfterAll(Opened(id, held), front), Last(fs), ItemsOf(front), id);
    }
  }

  function ItemOf(f: Frame): seq<Item> {
    if f.Event? then [f.item] else []
  }

  lemma ItemsLast(fs: seq<Frame>)
    requires fs != []
    ensures ItemsOf(fs) == ItemsOf(fs[..|fs| - 1]) + ItemOf(Last(fs))
  {
  }

  lemma AfterOne(r: Reader, f: Frame, items: seq<Item>, id: string)
    requires Plain(f) && LoggedOf(r.out) == MessagesOf(items) && r.id == HeldAfter(items, id)
    ensures var (r', items') := (After(r, f), items + ItemOf(f));
            LoggedOf(r'.out) == MessagesOf(items') && r'.id == r'.last == HeldAfter(items', id)
  {
    hide Itoa, OneLine, LoggedOf, MessagesOf, HeldAfter;
    match f {
      case Event(x) =>
        ItemsOn(items, x, id);
        LoggedOn(r.out, MessageOf(f, r.id)[0]);
        assert LoggedOf(r.out) + [] == LoggedOf(r.out) && MessagesOf(items) + [] == MessagesOf(items);
      case Keepalive =>
        assert r.out + [] == r.out && items + [] == items;
    }
  }

  lemma AfterLast(r: Reader, fs: seq<Frame>)
    requires fs != []
    ensures AfterAll(r, fs) == After(AfterAll(r, fs[..|fs| - 1]), Last(fs))
  {
  }

  // ---- Any series of connections -------------------------------------------------------------

  /** The messages of the log's events numbered above from, up to to. */
  function Told(log: seq<Body>, from: nat, to: nat): seq<Message>
    requires from <= to <= |log|
  {
    seq(to - from, i requires 0 <= i < to - from => Message(log[from + i].kind, log[from + i].data, Itoa(from + i + 1)))
  }

  /** A stream served from cursor after: the items are the log's next events, among live ones. */
  ghost predicate Serves(log: seq<Body>, after: nat, fs: seq<Frame>) {
    && AllPlain(fs)
    && exists upto :: after <= upto <= |log| && Numbered(ItemsOf(fs)) == Entries(log, after, upto)
  }

  /** What a subscription's queue delivers, framed among keepalives, serves its cursor, as the log grows. */
  lemma SubscriptionServes(w: World, q: nat, fs: seq<Frame>, log: seq<Body>)
    requires Following.Reachable(w) && q in w.subs && 0 <= w.subs[q].after <= w.subs[q].read
    requires AllPlain(fs) && ItemsOf(fs) <= w.subs[q].pushed && w.log <= log
    ensures Serves(log, w.subs[q].after, fs)
  {
    TellsTheLog(w, q);
    var s := w.subs[q];
    var items := ItemsOf(fs);
    NumberedPrefix(s.pushed, |items|);
    assert s.pushed[..|items|] == items;
    var all := Entries(w.log, s.after, s.upto);
    var n := |Numbered(items)|;
    assert Numbered(items) == all[..n];
    assert all[..n] == Entries(log, s.after, s.after + n);
    hide Numbered, Entries;
  }

  lemma {:induction false} MessagesOfNumbered(items: seq<Item>, held: string)
    ensures MessagesOf(items) == MessagesOf(Numbered(items))
    ensures HeldAfter(items, held) == HeldAfter(Numbered(items), held)
  {
    hide Itoa;
    if items != [] {
      var front := items[..|items| - 1];
      MessagesOfNumbered(front, held);
      if Last(items).Logged? {
        ItemsOn(Numbered(front), Last(items), held);
      } else {
        assert MessagesOf(front) + [] == MessagesOf(front);
      }
    }
  }

  lemma {:induction false} MessagesOfEntries(log: seq<Body>, from: nat, to: nat, held: string)
    requires from <= to <= |log|
    ensures MessagesOf(Entries(log, from, to)) == Told(log, from, to)
    ensures HeldAfter(Entries(log, from, to), held) == if from < to then Itoa(to) else held
  {
    hide Itoa;
    if from < to {
      MessagesOfEntries(log, from, to - 1, held);
      var front, x := Entries(log, from, to - 1), Logged(to, log[to - 1]);
      assert Entries(log, from, to) == front + [x];
      ItemsOn(front, x, held);
      assert Told(log, from, to) == Told(log, from, to - 1) + [Message(log[to - 1].kind, log[to - 1].data, Itoa(to))];
    }
  }

  lemma ServesPart(log: seq<Body>, after: nat, fs: seq<Frame>, k: nat) returns (upto: nat)
    requires Serves(log, after, fs) && k <= |fs|
    ensures after <= upto <= |log| && Numbered(ItemsOf(fs[..k])) == Entries(log, after, upto)
  {
    var items := ItemsOf(fs[..k]);
    ItemsPrefix(fs, k);
    NumberedPrefix(ItemsOf(fs), |items|);
    assert ItemsOf(fs)[..|items|] == items;
    hide Numbered, ItemsOf;
    var to: nat :| after <= to <= |log| && Numbered(ItemsOf(fs)) == Entries(log, after, to);
    upto := after + |Numbered(items)|;
    assert Numbered(items) == Entries(log, after, to)[..|Numbered(items)|];
    assert Numbered(items) == Entries(log, after, upto);
  }

  /** One connection, of which the client wholly receives k frames: it has the log's next events, and its
      last event ID is the last one's numeral, or what its buffer held as the stream opened, or, when no
      frame has come, what it held itself. */
  lemma Connected(log: seq<Body>, after: nat, fs: seq<Frame>, id: string, held: string, text: string)
    returns (k: nat, upto: nat)
    requires Serves(log, after, fs) && text <= Texts(fs)
    ensures k <= |fs| && Texts(fs[..k]) <= text && (k < |fs| ==> |text| < |Texts(fs[..k + 1])|)
    ensures after <= upto <= |log| && Numbered(ItemsOf(fs[..k])) == Entries(log, after, upto)
    ensures k == 0 ==> upto == after
    ensures LoggedOf(Read(Opened(id, held), text).out) == Told(log, after, upto)
    ensures Read(Opened(id, held), text).last == if after < upto then Itoa(upto) else if k > 0 then id else held
  {
    var r := Opened(id, held);
    hide Plain;
    hide Read, AfterAll, Texts, LoggedOf, MessagesOf, HeldAfter, Itoa;
    k := CutOff(r, fs, text);
    upto := ServesPart(log, after, fs, k);
    if k == 0 {
      assert fs[..k] == [];
      assert |Entries(log, after, upto)| == 0;
    }
    hide Numbered, Serves, ItemsOf;
    AfterFrames(id, held, fs[..k]);
    MessagesOfNumbered(ItemsOf(fs[..k]), id);
    MessagesOfEntries(log, after, upto, id);
  }

  /** One connection of a client that keeps its last event ID as the stream opens. */
  lemma OneConnection(log: seq<Body>, after: nat, fs: seq<Frame>, held: string, text: string) returns (upto: nat)
    requires Serves(log, after, fs) && text <= Texts(fs)
    ensures after <= upto <= |log|
    ensures LoggedOf(Read(Opened(held, held), text).out) == Told(log, after, upto)
    ensures Read(Opened(held, held), text).last == if after < upto then Itoa(upto) else held
  {
    hide Read, Serves, LoggedOf, Itoa, Texts;
    var k;
    k, upto := Connected(log, after, fs, held, held, text);
  }

  datatype Connection = Connection(frames: seq<Frame>, text: string)

  datatype Client = Client(got: seq<Message>, last: string)

  /** The client after its connections: the logged events it was given, and its last event ID. */
  function Collected(conns: seq<Connection>): Client {
    if conns == [] then Client([], "")
    else
      var c := Collected(conns[..|conns| - 1]);
      var r := Read(Opened(c.last, c.last), Last(conns).text);
      Client(c.got + LoggedOf(r.out), r.last)
  }

  /** Each connection is served from the cursor the client sends, and cut off anywhere. */
  ghost predicate Served(log: seq<Body>, after: string, conns: seq<Connection>) {
    conns != [] ==>
    && Served(log, after, conns[..|conns| - 1])
    && var cursor := Cursor(Collected(conns[..|conns| - 1]).last, after);
       cursor.Ok? && Serves(log, cursor.value, Last(conns).frames) && Last(conns).text <= Texts(Last(conns).frames)
  }

  /** The cursor a request names: none is the log's start; else it is a decimal numeral of an int of the
      source, with or without a sign and zeros before it, and not below zero. Anything else is refused. */
  lemma CursorIs(header: string, after: string, n: nat)
    ensures var v := if header != "" then header else after;
      Cursor(header, after) == Ok(n) <==> if v == "" then n == 0 else n < INT_END && Names(v, n)
  {
    hide Atoi, Names;
    AtoiIs(if header != "" then header else after, n);
  }

  /** A request with a cursor is answered by it and the log alone: no log is unknown, an ended run's with
      nothing beyond the cursor has no content, and any other streams from that cursor. */
  lemma AnswersTheCursor(n: nat, after: string, log: seq<Body>, ended: bool)
    requires n < INT_END
    ensures Answered(Itoa(n), after, log, ended) ==
      if log == [] then UnknownRun else if ended && n >= |log| then NoContent else Streaming(n)
  {
    hide Cursor, Itoa;
    CursorOfItoa(n, after);
  }

  lemma CursorOfItoa(n: nat, after: string)
    requires n < INT_END
    ensures Cursor(Itoa(n), after) == Ok(n)
  {
    AtoiReadsItoa(n);
    hide Itoa, Atoi;
  }

  /** Any series of disconnects and reconnects with the last ID seen gives exactly the log's events from the
      first cursor on, and leaves a cursor after the last of them. The next connection streams from there,
      unless the run has ended and the client has all of its log: that alone is answered 204. */
  lemma {:induction false} AnySeries(log: seq<Body>, after: string, conns: seq<Connection>) returns (upto: nat)
    requires |log| < INT_END && Cursor("", after).Ok? && Cursor("", after).value <= |log|
    requires Served(log, after, conns)
    ensures Cursor("", after).value <= upto <= |log|
    ensures Collected(conns).got == Told(log, Cursor("", after).value, upto)
    ensures Cursor(Collected(conns).last, after) == Ok(upto)
    ensures forall seen, ended :: seen <= log && upto <= |seen| && seen != [] ==>
      Answered(Collected(conns).last, after, seen, ended) == if ended && upto == |seen| then NoContent else Streaming(upto)
  {
    hide Cursor, Read, LoggedOf, Serves, Itoa, Texts;
    var from := Cursor("", after).value;
    if conns == [] {
      upto := from;
    } else {
      var front := conns[..|conns| - 1];
      var mid := AnySeries(log, after, front);
      upto := OneConnection(log, mid, Last(conns).frames, Collected(front).last, Last(conns).text);
      assert Told(log, from, mid) + Told(log, mid, upto) == Told(log, from, upto);
      CursorOfItoa(upto, after);
    }
  }

  /** What a client that empties its ID buffer as a stream opens, as the standard's text has it, holds
      after any part of any stream, k frames of which have wholly come: what it held if none has, nothing
      if none of them was logged, and otherwise the last logged one's numeral. */
  lemma EmptiedBuffer(held: string, fs: seq<Frame>, text: string) returns (k: nat)
    requires AllPlain(fs) && text <= Texts(fs)
    ensures k <= |fs| && Texts(fs[..k]) <= text && (k < |fs| ==> |text| < |Texts(fs[..k + 1])|)
    ensures var (r, told) := (Read(Opened("", held), text), Numbered(ItemsOf(fs[..k])));
            r.last == if k == 0 then held else if told == [] then "" else Itoa(Last(told).num)
  {
    hide Plain, Read, AfterAll, Texts, LoggedOf, MessagesOf, Itoa;
    k := CutOff(Opened("", held), fs, text);
    AfterFrames("", held, fs[..k]);
    MessagesOfNumbered(ItemsOf(fs[..k]), "");
    hide Numbered, ItemsOf;
  }

  /** Of a stream served from its cursor k frames have come, with the log's events up to upto. Its next cursor is upto,
      and so its place is kept, exactly when no frame came, a logged event did, or its place is where it
      first began; else it begins again. */
  lemma EmptyBufferForgets(log: seq<Body>, param: string, held: string, fs: seq<Frame>, text: string)
    returns (k: nat, upto: nat)
    requires |log| < INT_END && Cursor("", param).Ok? && Cursor(held, param).Ok?
    requires Serves(log, Cursor(held, param).value, fs) && text <= Texts(fs)
    ensures var (first, after, r) := (Cursor("", param).value, Cursor(held, param).value, Read(Opened("", held), text));
            && k <= |fs| && Texts(fs[..k]) <= text && (k < |fs| ==> |text| < |Texts(fs[..k + 1])|)
            && after <= upto <= |log| && LoggedOf(r.out) == Told(log, after, upto)
            && r.last == (if k == 0 then held else if Numbered(ItemsOf(fs[..k])) == [] then "" else Itoa(upto))
            && Cursor(r.last, param) == Ok(if k == 0 || after < upto then upto else first)
            && (Cursor(r.last, param) == Ok(upto) <==> k == 0 || Numbered(ItemsOf(fs[..k])) != [] || after == first)
  {
    hide Cursor, Read, LoggedOf, Serves, Itoa, Texts, Numbered, ItemsOf;
    var after := Cursor(held, param).value;
    k, upto := Connected(log, after, fs, "", held, text);
    assert |Numbered(ItemsOf(fs[..k]))| == upto - after;
    CursorOfItoa(upto, param);
  }

  /** A client that began again is given, before anything new, what it was given before: a connection
      that gets past its old place repeats every event from the first cursor to it. */
  lemma BeginningAgainRepeats(log: seq<Body>, first: nat, after: nat, fs: seq<Frame>, text: string)
    returns (upto: nat)
    requires first <= after && Serves(log, first, fs) && text <= Texts(fs)
    ensures first <= upto <= |log| && LoggedOf(Read(Opened("", ""), text).out) == Told(log, first, upto)
    ensures upto >= after ==> Told(log, first, upto) == Told(log, first, after) + Told(log, after, upto)
    ensures upto >= after ==> |Told(log, first, after)| == after - first
  {
    hide Read, Serves, LoggedOf, Itoa, Texts;
    upto := OneConnection(log, first, fs, "", text);
  }
}
