/**
 * The crash-tolerant log file (workflow/filestore/filestore.go): one JSON line per event, a
 * torn-tail repair, a backward search in chunks, and the sequence check of Append. JSON itself is
 * a Codec: what is needed of it is derived from the brace structure of RFC 8259, section 4.
 */
module LogFiles {
  import opened Common

  newtype byte = b: int | 0 <= b < 256

  type Bytes = seq<byte>

  const NL: byte := 10
  const CR: byte := 13
  const QUOTE: byte := 34
  const BACKSLASH: byte := 92
  const OPEN_BRACE: byte := 123
  const CLOSE_BRACE: byte := 125
  const OPEN_BRACKET: byte := 91
  const CLOSE_BRACKET: byte := 93

  /** maxEvent: the scanner's buffer holds a line together with its newline. */
  const MAX_EVENT: nat := 16 * 1024 * 1024

  /** The size of the backward search's buffer. */
  const CHUNK: nat := 4096

  // ---- JSON's brace structure --------------------------------------------------------------

  datatype Scan = Scan(depth: int, inString: bool, escaped: bool) {
    function Next(b: byte): Scan {
      if escaped then this.(escaped := false)
      else if inString then
        if b == BACKSLASH then this.(escaped := true)
        else if b == QUOTE then this.(inString := false)
        else this
      else if b == QUOTE then this.(inString := true)
      else if b == OPEN_BRACE || b == OPEN_BRACKET then this.(depth := depth + 1)
      else if b == CLOSE_BRACE || b == CLOSE_BRACKET then this.(depth := depth - 1)
      else this
    }

    predicate Closed() { depth == 0 && !inString && !escaped }
  }

  function Scanned(b: Bytes): Scan {
    if b == [] then Scan(0, false, false) else Scanned(b[..|b| - 1]).Next(Last(b))
  }

  /** One JSON object and nothing else: its brace closes at its last byte and not before. */
  ghost predicate WholeObject(b: Bytes) {
    && b != [] && b[0] == OPEN_BRACE
    && Scanned(b).Closed()
    && forall k :: 0 < k < |b| ==> !Scanned(b[..k]).Closed()
  }

  /** What the store uses of encoding/json: Marshal, Unmarshal into an Event and into its Seq
      alone, and Valid. num is an event's Seq. */
  datatype Codec<!E> = Codec(
    enc: E -> Bytes, dec: Bytes -> Option<E>, decNum: Bytes -> Option<int>, valid: Bytes -> bool, num: E -> int)

  /** An encoding is one object on one line, and a valid text that opens a brace closes it. */
  ghost predicate Lawful<E(!new)>(c: Codec<E>) {
    && (forall e {:trigger c.enc(e)} :: WholeObject(c.enc(e)) && NL !in c.enc(e))
    && (forall e {:trigger c.enc(e)} :: c.dec(c.enc(e)) == Some(e) && c.decNum(c.enc(e)) == Some(c.num(e)))
    && (forall b {:trigger c.dec(b)} :: c.dec(b).Some? ==> c.valid(b))
    && (forall b {:trigger c.decNum(b)} :: c.decNum(b).Some? ==> c.valid(b))
    && (forall b {:trigger c.valid(b)} :: c.valid(b) ==>
      b != [] && (b[0] == OPEN_BRACE ==> exists k :: 0 < k <= |b| && Scanned(b[..k]).Closed()))
  }

  /** A line cut short by a crash: a proper prefix of an encoding. */
  ghost predicate Torn<E(!new)>(c: Codec<E>, t: Bytes) {
    exists e :: t < c.enc(e)
  }

  lemma TornIsInvalid<E(!new)>(c: Codec<E>, t: Bytes)
    requires Lawful(c) && Torn(c, t)
    ensures !c.valid(t) && c.dec(t).None? && NL !in t
  {
    var e :| t < c.enc(e);
    var whole := c.enc(e);
    forall k | 0 < k <= |t|
      ensures !Scanned(t[..k]).Closed()
    {
      assert t[..k] == whole[..k];
    }
    assert t != [] ==> t[0] == whole[0];
    assert c.dec(t).Some? ==> c.valid(t);
  }

  lemma EncodingEnds<E(!new)>(c: Codec<E>, e: E)
    requires Lawful(c)
    ensures c.enc(e) != [] && Last(c.enc(e)) != CR && Last(c.enc(e)) != NL && c.valid(c.enc(e))
  {
    var b := c.enc(e);
    if Last(b) == CR {
      if |b| > 1 {
        assert !Scanned(b[..|b| - 1]).Closed();
        var s := Scanned(b[..|b| - 1]);
        assert s.Next(CR) == s.(escaped := false);
        assert s.escaped;
        EscapedInString(b[..|b| - 1]);
      }
      assert false;
    }
    assert Last(b) in b;
    assert c.dec(b).Some?;
  }

  lemma {:induction false} EscapedInString(b: Bytes)
    ensures Scanned(b).escaped ==> Scanned(b).inString
  {
    if b != [] {
      EscapedInString(b[..|b| - 1]);
    }
  }

  // ---- The file and the log it stands for --------------------------------------------------

  function Lines<E>(c: Codec<E>, log: seq<E>): Bytes {
    if log == [] then [] else c.enc(log[0]) + [NL] + Lines(c, log[1..])
  }

  lemma Grouped(a: Bytes, b: Bytes, x: Bytes)
    ensures a + (b + x) == a + b + x
  {
  }

  lemma {:induction false} LinesAppend<E>(c: Codec<E>, a: seq<E>, b: seq<E>)
    ensures Lines(c, a + b) == Lines(c, a) + Lines(c, b)
  {
    if a == [] {
      assert a + b == b && [] + Lines(c, b) == Lines(c, b);
    } else {
      LinesAppend(c, a[1..], b);
      assert (a + b)[1..] == a[1..] + b;
      Grouped(c.enc(a[0]) + [NL], Lines(c, a[1..]), Lines(c, b));
    }
  }

  lemma LinesSnoc<E>(c: Codec<E>, log: seq<E>, e: E)
    ensures Lines(c, log + [e]) == Lines(c, log) + c.enc(e) + [NL]
  {
    LinesAppend(c, log, [e]);
    assert Lines(c, [e]) == c.enc(e) + [NL] + Lines(c, []);
  }

  /** Whole lines and a torn one, or a last line whose newline alone is missing. */
  ghost predicate Represents<E(!new)>(c: Codec<E>, b: Bytes, log: seq<E>) {
    || (exists t :: Torn(c, t) && b == Lines(c, log) + t)
    || (log != [] && b == Lines(c, log[..|log| - 1]) + c.enc(Last(log)))
  }

  ghost predicate Numbered<E>(c: Codec<E>, log: seq<E>) {
    forall i :: 0 <= i < |log| ==> c.num(log[i]) == i + 1
  }

  lemma EmptyIsTorn<E(!new)>(c: Codec<E>, e: E)
    requires Lawful(c)
    ensures Torn(c, [])
  {
    assert [] < c.enc(e);
  }

  lemma CleanRepresents<E(!new)>(c: Codec<E>, log: seq<E>, e: E)
    requires Lawful(c)
    ensures Represents(c, Lines(c, log), log)
  {
    EmptyIsTorn(c, e);
    assert Lines(c, log) == Lines(c, log) + [];
  }

  // ---- The backward search -----------------------------------------------------------------

  /** Where the line ending at `end` starts: after the last newline before end. */
  function LineStart(b: Bytes, end: nat): (start: nat)
    requires end <= |b|
    ensures start <= end && NL !in b[start..end] && (start > 0 ==> b[start - 1] == NL)
  {
    if end == 0 || b[end - 1] == NL then end
    else
      var start := LineStart(b, end - 1);
      assert b[start..end] == b[start..end - 1] + [b[end - 1]];
      start
  }

  lemma {:induction false} LineStartUnique(b: Bytes, start: nat, end: nat)
    requires start <= end <= |b| && NL !in b[start..end] && (start > 0 ==> b[start - 1] == NL)
    ensures LineStart(b, end) == start
  {
    if start < end {
      assert b[start..end] == b[start..end - 1] + [b[end - 1]];
      LineStartUnique(b, start, end - 1);
    }
  }

  /** The last line of a file whose earlier lines end in newlines. */
  lemma LastLineOf(lines: Bytes, line: Bytes, rest: Bytes)
    requires (lines != [] ==> Last(lines) == NL) && NL !in line
    ensures var b, end := lines + line + rest, |lines| + |line|;
            LineStart(b, end) == |lines| && b[|lines|..end] == line
  {
    var b := lines + line + rest;
    assert b[|lines|..|lines| + |line|] == line;
    LineStartUnique(b, |lines|, |lines| + |line|);
  }

  /** x is not among the bytes from lo up to hi. */
  predicate Free(b: Bytes, x: byte, lo: nat, hi: nat)
    requires hi <= |b|
  {
    forall k :: lo <= k < hi ==> b[k] != x
  }

  lemma FreeIsNotIn(b: Bytes, x: byte, lo: nat, hi: nat)
    requires lo <= hi <= |b|
    ensures Free(b, x, lo, hi) <==> x !in b[lo..hi]
  {
    if x in b[lo..hi] {
      var k :| 0 <= k < hi - lo && b[lo..hi][k] == x;
      assert b[lo + k] == x;
    }
    forall k | lo <= k < hi
      ensures b[lo..hi][k - lo] == b[k]
    {
    }
  }

  /** bytes.LastIndexByte, -1 for none. */
  method LastIndexByte(chunk: Bytes, x: byte) returns (i: int)
    ensures -1 <= i < |chunk|
    ensures i >= 0 ==> chunk[i] == x
    ensures Free(chunk, x, i + 1, |chunk|)
  {
    i := |chunk| - 1;
    while i >= 0 && chunk[i] != x
      invariant -1 <= i < |chunk| && Free(chunk, x, i + 1, |chunk|)
    {
      i := i - 1;
    }
  }

  /** The last newline of a chunk is the last before end, when there is none from the chunk's end on. */
  lemma SearchedOn(b: Bytes, from: nat, pos: nat, end: nat, i: int)
    requires from <= pos <= end <= |b| && -1 <= i < pos - from
    requires Free(b[from..pos], NL, i + 1, pos - from) && Free(b, NL, pos, end)
    ensures Free(b, NL, from + i + 1, end)
  {
    forall k | from + i + 1 <= k < end
      ensures b[k] != NL
    {
      assert k < pos ==> b[k] == b[from..pos][k - from];
    }
  }

  lemma ToTheEnd(b: Bytes, start: nat)
    requires start <= |b|
    ensures b[start..|b|] == b[start..]
  {
  }

  function DropCR(line: Bytes): Bytes {
    if line != [] && Last(line) == CR then line[..|line| - 1] else line
  }

  datatype ReadError = TooLong | Corrupt(line: Bytes)

  function Keep<E>(c: Codec<E>, e: E, after: int): seq<E> {
    if c.num(e) > after then [e] else []
  }

  function Newer<E>(c: Codec<E>, log: seq<E>, after: int): seq<E> {
    if log == [] then [] else Keep(c, log[0], after) + Newer(c, log[1..], after)
  }

  /** A result with events read before it. */
  function Following<E>(events: seq<E>, r: Result<seq<E>, ReadError>): Result<seq<E>, ReadError> {
    match r
    case Ok(rest) => Ok(events + rest)
    case Err(x) => Err(x)
  }

  lemma FollowingTwice<E>(a: seq<E>, b: seq<E>, r: Result<seq<E>, ReadError>)
    ensures Following(a, Following(b, r)) == Following(a + b, r)
  {
    if r.Ok? {
      assert a + (b + r.value) == a + b + r.value;
    }
  }

  /** What Events reads from any bytes: a line that doesn't decode is an error, except a last one
      without its newline. */
  function Read<E>(c: Codec<E>, b: Bytes, after: int): Result<seq<E>, ReadError>
    decreases |b|
  {
    if b == [] then Ok([])
    else if NL in b then
      var i := IndexOf(b, NL);
      if i >= MAX_EVENT then Err(TooLong)
      else
        match c.dec(DropCR(b[..i]))
        case None => Err(Corrupt(b[..i]))
        case Some(e) =>
          Following(Keep(c, e, after), Read(c, b[i + 1..], after))
    else if |b| >= MAX_EVENT then Err(TooLong)
    else
      match c.dec(DropCR(b))
      case None => Ok([])
      case Some(e) => Ok(Keep(c, e, after))
  }

  lemma FollowingNone<E>(r: Result<seq<E>, ReadError>)
    ensures Following([], r) == r
  {
    if r.Ok? {
      assert [] + r.value == r.value;
    }
  }

  /** Reading on past a line that decodes. */
  lemma ReadOn<E>(c: Codec<E>, b: Bytes, events: seq<E>, pos: nat, next: nat, e: E, after: int)
    requires pos < |b| && NL in b[pos..] && next == pos + IndexOf(b[pos..], NL) + 1 <= |b|
    requires IndexOf(b[pos..], NL) < MAX_EVENT && c.dec(DropCR(b[pos..][..IndexOf(b[pos..], NL)])) == Some(e)
    ensures Following(events, Read(c, b[pos..], after)) == Following(events + Keep(c, e, after), Read(c, b[next..], after))
  {
    var rest := b[pos..];
    assert rest[IndexOf(rest, NL) + 1..] == b[next..];
    assert Read(c, rest, after) == Following(Keep(c, e, after), Read(c, b[next..], after));
    FollowingTwice(events, Keep(c, e, after), Read(c, b[next..], after));
  }

  /** Every line is shorter than the scanner's buffer. */
  predicate Fits(b: Bytes)
    decreases |b|
  {
    if NL in b then
      var i := IndexOf(b, NL);
      i < MAX_EVENT && Fits(b[i + 1..])
    else |b| < MAX_EVENT
  }

  lemma {:induction false} FirstNewline(line: Bytes, rest: Bytes)
    requires NL !in line
    ensures var b := line + [NL] + rest;
            NL in b && IndexOf(b, NL) == |line| && b[..|line|] == line && b[|line| + 1..] == rest
  {
    var b := line + [NL] + rest;
    assert b[|line|] == NL;
    assert b[..|line|] == line && b[|line| + 1..] == rest;
    if line != [] {
      FirstNewline(line[1..], rest);
      assert b[1..] == line[1..] + [NL] + rest;
      assert b[0] == line[0];
    }
  }

  lemma TornWithoutCR<E(!new)>(c: Codec<E>, t: Bytes)
    requires Lawful(c) && Torn(c, t)
    ensures c.dec(DropCR(t)).None?
  {
    var e :| t < c.enc(e);
    assert DropCR(t) < c.enc(e);
    TornIsInvalid(c, DropCR(t));
  }

  lemma ReadHead<E(!new)>(c: Codec<E>, e: E, rest: Bytes, after: int)
    requires Lawful(c)
    ensures var b := c.enc(e) + [NL] + rest;
            Read(c, b, after) ==
            if |c.enc(e)| >= MAX_EVENT then Err(TooLong)
            else Following(Keep(c, e, after), Read(c, rest, after))
  {
    FirstNewline(c.enc(e), rest);
    EncodingEnds(c, e);
  }

  ghost predicate ReadsAs<E>(c: Codec<E>, b: Bytes, log: seq<E>, after: int) {
    Read(c, b, after) == if Fits(b) then Ok(Newer(c, log, after)) else Err(TooLong)
  }

  lemma ReadStep<E(!new)>(c: Codec<E>, e: E, tail: Bytes, rest: seq<E>, after: int)
    requires Lawful(c) && ReadsAs(c, tail, rest, after)
    ensures ReadsAs(c, c.enc(e) + [NL] + tail, [e] + rest, after)
  {
    ReadHead(c, e, tail, after);
    FirstNewline(c.enc(e), tail);
    assert ([e] + rest)[1..] == rest;
  }

  lemma ReadLast<E(!new)>(c: Codec<E>, e: E, after: int)
    requires Lawful(c)
    ensures ReadsAs(c, c.enc(e), [e], after)
  {
    EncodingEnds(c, e);
    assert Newer(c, [e], after) == Keep(c, e, after) by {
      assert [e][1..] == [] && Newer(c, [e][1..], after) == [];
    }
  }

  lemma LinesThen<E>(c: Codec<E>, log: seq<E>, t: Bytes)
    requires log != []
    ensures Lines(c, log) + t == c.enc(log[0]) + [NL] + (Lines(c, log[1..]) + t)
  {
  }

  lemma {:induction false} ReadsTorn<E(!new)>(c: Codec<E>, log: seq<E>, t: Bytes, after: int)
    requires Lawful(c) && Torn(c, t)
    ensures ReadsAs(c, Lines(c, log) + t, log, after)
  {
    if log == [] {
      TornIsInvalid(c, t);
      TornWithoutCR(c, t);
      assert Lines(c, log) + t == t;
    } else {
      ReadsTorn(c, log[1..], t, after);
      ReadStep(c, log[0], Lines(c, log[1..]) + t, log[1..], after);
      LinesThen(c, log, t);
      assert [log[0]] + log[1..] == log;
    }
  }

  lemma {:induction false} ReadsUnended<E(!new)>(c: Codec<E>, log: seq<E>, e: E, after: int)
    requires Lawful(c)
    ensures ReadsAs(c, Lines(c, log) + c.enc(e), log + [e], after)
  {
    hide ReadsAs, Lawful;
    if log == [] {
      ReadLast(c, e, after);
      assert Lines(c, log) + c.enc(e) == c.enc(e) && log + [e] == [e];
    } else {
      hide Lines;
      ReadsUnended(c, log[1..], e, after);
      ReadStep(c, log[0], Lines(c, log[1..]) + c.enc(e), log[1..] + [e], after);
      LinesThen(c, log, c.enc(e));
      assert [log[0]] + (log[1..] + [e]) == log + [e];
    }
  }

  /** Events reads exactly the log, torn tail or not, if and only if every line fits the buffer. */
  lemma ReadsTheLog<E(!new)>(c: Codec<E>, b: Bytes, log: seq<E>, after: int)
    requires Lawful(c) && Represents(c, b, log)
    ensures Read(c, b, after) == if Fits(b) then Ok(Newer(c, log, after)) else Err(TooLong)
  {
    hide Lines, Torn, Lawful, Read, Fits, Newer;
    if t :| Torn(c, t) && b == Lines(c, log) + t {
      ReadsTorn(c, log, t, after);
    } else {
      ReadsUnended(c, log[..|log| - 1], Last(log), after);
      assert log[..|log| - 1] + [Last(log)] == log;
    }
  }

  /** How many events a cursor is past, in a log of n. */
  function Past(after: int, n: nat): (k: nat)
    ensures k <= n
  {
    if after < 0 then 0 else if after > n then n else after
  }

  lemma {:induction false} NewerIsTheRest<E>(c: Codec<E>, log: seq<E>, k: nat, after: int)
    requires forall i :: 0 <= i < |log| ==> c.num(log[i]) == k + i + 1
    ensures Newer(c, log, after) == log[Past(after - k, |log|)..]
  {
    if log != [] {
      NewerIsTheRest(c, log[1..], k + 1, after);
      assert log[1..][Past(after - k - 1, |log| - 1)..] == log[Past(after - k - 1, |log| - 1) + 1..];
      if after <= k {
        assert [log[0]] + log[1..] == log && log[0..] == log;
      }
    }
  }

  /** Events returns exactly the log's events numbered above the cursor: the log without its first
      events up to it. */
  lemma ReadsAfterTheCursor<E(!new)>(c: Codec<E>, b: Bytes, log: seq<E>, after: int)
    requires Lawful(c) && Represents(c, b, log) && Numbered(c, log)
    ensures Fits(b) ==> Read(c, b, after) == Ok(log[Past(after, |log|)..])
    ensures !Fits(b) ==> Read(c, b, after) == Err(TooLong)
    ensures forall i :: 0 <= i < |log| ==> (c.num(log[i]) > after <==> i >= Past(after, |log|))
  {
    ReadsTheLog(c, b, log, after);
    NewerIsTheRest(c, log, 0, after);
    hide Read, Fits, Represents, Lawful;
  }

  lemma {:induction false} LinesFit<E(!new)>(c: Codec<E>, log: seq<E>)
    requires Lawful(c)
    ensures Fits(Lines(c, log)) <==> forall i :: 0 <= i < |log| ==> |c.enc(log[i])| < MAX_EVENT
  {
    if log != [] {
      LinesFit(c, log[1..]);
      FirstNewline(c.enc(log[0]), Lines(c, log[1..]));
      assert forall i :: 0 < i < |log| ==> log[i] == log[1..][i - 1];
      hide Lawful, Lines, Fits;
    }
  }

  // ---- The torn-tail repair ----------------------------------------------------------------

  /** tail's repair: a last line without its newline gets one if it is valid, and is cut if not. */
  function Repair<E>(c: Codec<E>, b: Bytes): Bytes {
    if b == [] || Last(b) == NL then b
    else
      var start := LineStart(b, |b|);
      if c.valid(b[start..]) then b + [NL] else b[..start]
  }

  /** The Seq of the last line of a repaired file. */
  function LastNum<E>(c: Codec<E>, b: Bytes): Option<int> {
    if b == [] then Some(0)
    else
      var end := |b| - 1;
      c.decNum(b[LineStart(b, end)..end])
  }

  lemma RepairCuts<E(!new)>(c: Codec<E>, lines: Bytes, t: Bytes)
    requires Lawful(c) && Torn(c, t) && (lines != [] ==> Last(lines) == NL)
    ensures Repair(c, lines + t) == lines
  {
    TornIsInvalid(c, t);
    LastLineOf(lines, t, []);
    assert lines + t + [] == lines + t;
    if t == [] {
      assert lines + t == lines;
    } else {
      assert Last(lines + t) == Last(t) && Last(t) in t;
      assert (lines + t)[|lines|..] == (lines + t)[|lines|..|lines| + |t|];
    }
  }

  lemma RepairEnds<E(!new)>(c: Codec<E>, lines: Bytes, e: E)
    requires Lawful(c) && (lines != [] ==> Last(lines) == NL)
    ensures Repair(c, lines + c.enc(e)) == lines + c.enc(e) + [NL]
  {
    var line := c.enc(e);
    EncodingEnds(c, e);
    LastLineOf(lines, line, []);
    assert lines + line + [] == lines + line;
    assert Last(lines + line) == Last(line);
    assert (lines + line)[|lines|..] == (lines + line)[|lines|..|lines| + |line|];
  }

  lemma RepairsTheLog<E(!new)>(c: Codec<E>, b: Bytes, log: seq<E>)
    requires Lawful(c) && Represents(c, b, log)
    ensures Repair(c, b) == Lines(c, log)
  {
    hide Lines, Repair, Torn, Lawful;
    LinesEnd(c, log);
    if t :| Torn(c, t) && b == Lines(c, log) + t {
      RepairCuts(c, Lines(c, log), t);
    } else {
      var front := log[..|log| - 1];
      LinesEnd(c, front);
      RepairEnds(c, Lines(c, front), Last(log));
      LinesSnoc(c, front, Last(log));
      assert front + [Last(log)] == log;
    }
  }

  lemma LinesEnd<E>(c: Codec<E>, log: seq<E>)
    ensures log != [] ==> Lines(c, log) != [] && Last(Lines(c, log)) == NL
    ensures log == [] ==> Lines(c, log) == []
  {
    if log != [] {
      var front := log[..|log| - 1];
      LinesSnoc(c, front, Last(log));
      assert front + [Last(log)] == log;
    }
  }

  lemma LastNumOfLog<E(!new)>(c: Codec<E>, log: seq<E>)
    requires Lawful(c) && Numbered(c, log)
    ensures LastNum(c, Lines(c, log)) == Some(|log|)
  {
    LinesEnd(c, log);
    if log != [] {
      var front := log[..|log| - 1];
      LinesSnoc(c, front, Last(log));
      assert front + [Last(log)] == log;
      LinesEnd(c, front);
      LastLineOf(Lines(c, front), c.enc(Last(log)), [NL]);
    }
  }

  // ---- Append ------------------------------------------------------------------------------

  /** Where an Append stops short: a failed call, or a crash, of which the file shows no more. */
  datatype Fault = NoFault | ReadFails | RepairFails | WriteStops(kept: nat) | SyncFails

  datatype AppendResult = Appended | OutOfSequence(last: int) | BadTail | IOFailed

  /** What Append leaves in the file and returns, stopping at the fault. */
  function Append<E>(c: Codec<E>, b: Bytes, e: E, fault: Fault): (Bytes, AppendResult) {
    if fault.ReadFails? then (b, IOFailed)
    else if fault.RepairFails? && Repair(c, b) != b then (b, IOFailed)
    else
      var r := Repair(c, b);
      match LastNum(c, r)
      case None => (r, BadTail)
      case Some(last) =>
        if c.num(e) != last + 1 then (r, OutOfSequence(last))
        else
          var line := c.enc(e) + [NL];
          match fault
          case WriteStops(kept) => (r + line[..if kept < |line| then kept else |line|], IOFailed)
          case SyncFails => (r + line, IOFailed)
          case _ => (r + line, Appended)
  }

  /** A write cut anywhere leaves the log, or the log and the event. */
  lemma WriteIsAtomic<E(!new)>(c: Codec<E>, log: seq<E>, e: E, kept: nat)
    requires Lawful(c) && kept <= |c.enc(e)| + 1
    ensures var b := Lines(c, log) + (c.enc(e) + [NL])[..kept];
            if kept < |c.enc(e)| then Represents(c, b, log) else Represents(c, b, log + [e])
  {
    var line := c.enc(e) + [NL];
    var t := line[..kept];
    if kept < |c.enc(e)| {
      assert t < c.enc(e);
      assert Torn(c, t);
    } else if kept == |c.enc(e)| {
      assert t == c.enc(e);
      assert (log + [e])[..|log|] == log && Last(log + [e]) == e;
    } else {
      assert t == line;
      LinesSnoc(c, log, e);
      assert Lines(c, log) + line == Lines(c, log + [e]);
      CleanRepresents(c, log + [e], e);
    }
  }

  lemma AppendCases<E>(c: Codec<E>, b: Bytes, log: seq<E>, e: E, fault: Fault)
    requires Repair(c, b) == Lines(c, log) && LastNum(c, Lines(c, log)) == Some(|log|)
    ensures var ((b', r), lines, line, next) := (Append(c, b, e, fault), Lines(c, log), c.enc(e) + [NL], c.num(e) == |log| + 1);
      || (b' == b && r == IOFailed && fault != NoFault)
      || (b' == lines && r == OutOfSequence(|log|) && !next)
      || (next && b' == lines + line && (r == Appended || (r == IOFailed && fault != NoFault)))
      || (next && fault.WriteStops? && fault.kept < |line| && b' == lines + line[..fault.kept] && r == IOFailed)
  {
    var line := c.enc(e) + [NL];
    assert line[..|line|] == line;
  }

  /** Crash atomicity: whatever stops an Append, the file stands for the log it stood for, or for
      that log and the new event; it returns success only for the latter, and without a fault it
      accepts exactly the next Seq. */
  lemma AppendIsAtomic<E(!new)>(c: Codec<E>, b: Bytes, log: seq<E>, e: E, fault: Fault)
    requires Lawful(c) && Represents(c, b, log) && Numbered(c, log)
    ensures var (b', r) := Append(c, b, e, fault);
      && (Represents(c, b', log) || (c.num(e) == |log| + 1 && Represents(c, b', log + [e])))
      && (r == Appended ==> c.num(e) == |log| + 1 && b' == Lines(c, log + [e]))
      && (r.OutOfSequence? ==> c.num(e) != |log| + 1 && r.last == |log| && b' == Lines(c, log))
      && (fault == NoFault ==> r == if c.num(e) == |log| + 1 then Appended else OutOfSequence(|log|))
      && r != BadTail
  {
    RepairsTheLog(c, b, log);
    LastNumOfLog(c, log);
    AppendCases(c, b, log, e, fault);
    CleanRepresents(c, log, e);
    CleanRepresents(c, log + [e], e);
    LinesSnoc(c, log, e);
    assert Lines(c, log) + c.enc(e) + [NL] == Lines(c, log) + (c.enc(e) + [NL]);
    if fault.WriteStops? && fault.kept <= |c.enc(e)| {
      WriteIsAtomic(c, log, e, fault.kept);
    }
  }

  /** An Append fails exactly when a call that it makes does: a read, the repair of a file that needs one, or
      the write or the sync of the next event. */
  lemma FailsWithItsCalls<E(!new)>(c: Codec<E>, b: Bytes, log: seq<E>, e: E, fault: Fault)
    requires Lawful(c) && Represents(c, b, log) && Numbered(c, log)
    ensures Append(c, b, e, fault).1 == IOFailed <==>
      match fault
      case NoFault => false
      case ReadFails => true
      case RepairFails => b != Lines(c, log)
      case WriteStops(_) => c.num(e) == |log| + 1
      case SyncFails => c.num(e) == |log| + 1
  {
    RepairsTheLog(c, b, log);
    LastNumOfLog(c, log);
    hide Represents, Lawful, Numbered, Repair, LastNum, Lines;
  }

  /** Append has no bound on an event's line: it reports written one that makes the log unreadable, at
      whatever cursor. A caller that keeps every encoding below the bound never sees that (LinesFit). */
  lemma LongEventIsUnreadable<E(!new)>(c: Codec<E>, log: seq<E>, e: E, after: int)
    requires Lawful(c) && Numbered(c, log) && c.num(e) == |log| + 1 && |c.enc(e)| >= MAX_EVENT
    ensures var (b, r) := Append(c, Lines(c, log), e, NoFault);
            r == Appended && Read(c, b, after) == Err(TooLong)
  {
    CleanRepresents(c, log, e);
    AppendIsAtomic(c, Lines(c, log), log, e, NoFault);
    CleanRepresents(c, log + [e], e);
    ReadsTheLog(c, Lines(c, log + [e]), log + [e], after);
    LinesFit(c, log + [e]);
    hide Lawful, Numbered, Represents, Lines, Fits, Read, Append;
    assert (log + [e])[|log|] == e;
  }

  /** One Append after another, each with its own fault, as over any number of crashed processes. */
  ghost function Attempts<E>(c: Codec<E>, b: Bytes, tries: seq<(E, Fault)>): Bytes {
    if tries == [] then b else Append(c, Attempts(c, b, tries[..|tries| - 1]), Last(tries).0, Last(tries).1).0
  }

  /** Every event an Append reported written is in the log. */
  ghost predicate ReportedKept<E>(c: Codec<E>, b: Bytes, tries: seq<(E, Fault)>, log: seq<E>) {
    forall k :: 0 <= k < |tries| && Reported(c, b, tries, k) ==> tries[k].0 in log
  }

  lemma AttemptAfter<E(!new)>(c: Codec<E>, b: Bytes, log: seq<E>, e: E, fault: Fault) returns (log': seq<E>)
    requires Lawful(c) && Represents(c, b, log) && Numbered(c, log)
    ensures log' == log || log' == log + [e]
    ensures Numbered(c, log') && Represents(c, Append(c, b, e, fault).0, log')
    ensures Append(c, b, e, fault).1 == Appended ==> log' == log + [e]
  {
    AppendIsAtomic(c, b, log, e, fault);
    CleanRepresents(c, log + [e], e);
    var (b', r) := Append(c, b, e, fault);
    log' := if r == Appended || !Represents(c, b', log) then log + [e] else log;
  }

  /** Any series of Appends, however each ends, leaves a file that stands for one numbered log,
      which extends the log before by attempted events and holds every event reported written. */
  lemma {:induction false} AnyAttempts<E(!new)>(c: Codec<E>, b: Bytes, log: seq<E>, tries: seq<(E, Fault)>)
    returns (log': seq<E>)
    requires Lawful(c) && Represents(c, b, log) && Numbered(c, log)
    ensures log <= log' && Numbered(c, log') && Represents(c, Attempts(c, b, tries), log')
    ensures forall i :: |log| <= i < |log'| ==> Attempted(tries, log'[i])
    ensures ReportedKept(c, b, tries, log')
  {
    if tries == [] {
      log' := log;
    } else {
      var n := |tries| - 1;
      var mid := AnyAttempts(c, b, log, tries[..n]);
      log' := AttemptAfter(c, Attempts(c, b, tries[..n]), mid, tries[n].0, tries[n].1);
      assert Reported(c, b, tries, n) ==> log' == mid + [tries[n].0];
      AttemptsCover(tries, log, mid, log');
      ReportsKept(c, b, tries, mid, log');
    }
  }

  lemma AttemptsCover<E>(tries: seq<(E, Fault)>, log: seq<E>, mid: seq<E>, log': seq<E>)
    requires tries != [] && |log| <= |mid| && (log' == mid || log' == mid + [Last(tries).0])
    requires forall i :: |log| <= i < |mid| ==> Attempted(tries[..|tries| - 1], mid[i])
    ensures forall i :: |log| <= i < |log'| ==> Attempted(tries, log'[i])
  {
    forall i | |log| <= i < |log'|
      ensures Attempted(tries, log'[i])
    {
      if i < |mid| {
        AttemptedLater(tries, mid[i]);
      } else {
        assert tries[|tries| - 1].0 == log'[i];
      }
    }
  }

  lemma ReportsKept<E>(c: Codec<E>, b: Bytes, tries: seq<(E, Fault)>, mid: seq<E>, log': seq<E>)
    requires tries != [] && mid <= log'
    requires ReportedKept(c, b, tries[..|tries| - 1], mid)
    requires Reported(c, b, tries, |tries| - 1) ==> Last(tries).0 in log'
    ensures ReportedKept(c, b, tries, log')
  {
    forall k | 0 <= k < |tries| - 1 && Reported(c, b, tries, k)
      ensures tries[k].0 in log'
    {
      ReportedBefore(c, b, tries, k);
      var j :| 0 <= j < |mid| && mid[j] == tries[..|tries| - 1][k].0;
      assert log'[j] == tries[k].0;
    }
  }

  lemma AttemptedLater<E>(tries: seq<(E, Fault)>, e: E)
    requires tries != [] && Attempted(tries[..|tries| - 1], e)
    ensures Attempted(tries, e)
  {
    var k :| 0 <= k < |tries| - 1 && tries[..|tries| - 1][k].0 == e;
    assert tries[k].0 == e;
  }

  lemma ReportedBefore<E>(c: Codec<E>, b: Bytes, tries: seq<(E, Fault)>, k: nat)
    requires k < |tries| - 1 && Reported(c, b, tries, k)
    ensures Reported(c, b, tries[..|tries| - 1], k)
  {
    assert tries[..|tries| - 1][..k] == tries[..k];
  }

  ghost predicate Attempted<E>(tries: seq<(E, Fault)>, e: E) {
    exists k :: 0 <= k < |tries| && tries[k].0 == e
  }

  /** The k-th Append returned success. */
  ghost predicate Reported<E>(c: Codec<E>, b: Bytes, tries: seq<(E, Fault)>, k: nat)
    requires k < |tries|
  {
    Append(c, Attempts(c, b, tries[..k]), tries[k].0, tries[k].1).1 == Appended
  }

  // ---- The store's methods -----------------------------------------------------------------

  class LogFile<E(!new)> {
    const c: Codec<E>
    var bytes: Bytes

    constructor (c: Codec<E>)
      ensures this.c == c && bytes == []
    {
      this.c, bytes := c, [];
    }

    /** One chunk of the backward search: its last newline, if any, is the last before end. */
    method SearchChunk(from: nat, pos: nat, end: nat) returns (i: int)
      requires from <= pos <= end <= |bytes| && Free(bytes, NL, pos, end)
      ensures -1 <= i < pos - from && Free(bytes, NL, from + i + 1, end)
      ensures i >= 0 ==> bytes[from + i] == NL
    {
      hide Free;
      i := LastIndexByte(bytes[from..pos], NL);
      SearchedOn(bytes, from, pos, end, i);
    }

    /** lastLine: the line that ends at end, found backwards in chunks of CHUNK bytes. */
    method LastLine(end: nat) returns (start: nat, line: Bytes)
      requires end <= |bytes|
      ensures start == LineStart(bytes, end) && line == bytes[start..end]
    {
      start := 0;
      var pos: nat := end;
      while pos > 0
        invariant pos <= end && Free(bytes, NL, pos, end) && start == 0
      {
        var from: nat := if pos > CHUNK then pos - CHUNK else 0;
        var i := SearchChunk(from, pos, end);
        if i >= 0 {
          start := from + i + 1;
          break;
        }
        pos := from;
      }
      FreeIsNotIn(bytes, NL, start, end);
      LineStartUnique(bytes, start, end);
      line := bytes[start..end];
    }

    /** The repair of an unterminated file whose last line is line, from start. */
    method RepairTail(start: nat, line: Bytes) returns (last: Option<int>)
      requires bytes != [] && Last(bytes) != NL
      requires start == LineStart(bytes, |bytes|) && line == bytes[start..]
      modifies this
      ensures bytes == Repair(c, old(bytes)) && last == LastNum(c, bytes)
    {
      if c.valid(line) {
        LastLineOf(bytes[..start], line, [NL]);
        assert bytes[..start] + line + [NL] == bytes + [NL];
        bytes := bytes + [NL];
        last := c.decNum(line);
      } else {
        bytes := bytes[..start];
        if start == 0 {
          return Some(0);
        }
        var _, before := LastLine(start - 1);
        last := c.decNum(before);
      }
    }

    /** tail: repairs a last line left without its newline, and returns the last event's Seq. */
    method Tail(fault: Fault) returns (last: Option<int>, failed: bool)
      modifies this
      ensures failed <==> fault.ReadFails? || (fault.RepairFails? && Repair(c, old(bytes)) != old(bytes))
      ensures failed ==> bytes == old(bytes) && last.None?
      ensures !failed ==> bytes == Repair(c, old(bytes)) && last == LastNum(c, bytes)
    {
      if fault.ReadFails? {
        return None, true;
      }
      if bytes == [] {
        return Some(0), false;
      }
      var end := |bytes|;
      var terminated := bytes[end - 1] == NL;
      if terminated {
        end := end - 1;
      }
      var start, line := LastLine(end);
      if terminated {
        return c.decNum(line), false;
      }
      if fault.RepairFails? {
        return None, true;
      }
      assert end == |bytes|;
      ToTheEnd(bytes, start);
      last := RepairTail(start, line);
      failed := false;
    }

    /** Append: what it leaves and returns is the meaning AppendIsAtomic speaks of. */
    method AppendEvent(e: E, fault: Fault) returns (r: AppendResult)
      modifies this
      ensures (bytes, r) == Append(c, old(bytes), e, fault)
    {
      var last, failed := Tail(fault);
      if failed {
        return IOFailed;
      }
      if last.None? {
        return BadTail;
      }
      if c.num(e) != last.value + 1 {
        return OutOfSequence(last.value);
      }
      var line := c.enc(e) + [NL];
      if fault.WriteStops? {
        bytes := bytes + line[..if fault.kept < |line| then fault.kept else |line|];
        return IOFailed;
      }
      bytes := bytes + line;
      return if fault.SyncFails? then IOFailed else Appended;
    }

    /** The scanner's next line, from pos: to the next newline, or to the end without one. */
    static method NextLine(c: Codec<E>, bytes: Bytes, pos: nat) returns (next: nat, line: Bytes, unended: bool)
      requires pos < |bytes|
      ensures unended <==> NL !in bytes[pos..]
      ensures unended ==> line == bytes[pos..]
      ensures !unended ==> line == bytes[pos..][..IndexOf(bytes[pos..], NL)] && |line| == IndexOf(bytes[pos..], NL)
      ensures !unended ==> next == pos + |line| + 1 <= |bytes|
    {
      var rest := bytes[pos..];
      unended := NL !in rest;
      var size := if unended then |rest| else IndexOf(rest, NL);
      line, next := rest[..size], pos + size + 1;
    }

    /** Events: scans the lines, with unended set on a last one without its newline. */
    method Events(after: int) returns (r: Result<seq<E>, ReadError>)
      ensures r == Read(c, bytes, after)
    {
      var events: seq<E> := [];
      var pos := 0;
      assert bytes[0..] == bytes;
      FollowingNone(Read(c, bytes, after));
      while pos < |bytes|
        invariant 0 <= pos <= |bytes|
        invariant Read(c, bytes, after) == Following(events, Read(c, bytes[pos..], after))
      {
        var next, line, unended := NextLine(c, bytes, pos);
        if |line| >= MAX_EVENT {
          return Err(TooLong);
        }
        var e := c.dec(DropCR(line));
        if e.None? {
          assert events + [] == events;
          return if unended then Ok(events) else Err(Corrupt(line));
        }
        if unended {
          return Ok(events + Keep(c, e.value, after));
        }
        hide Read, Following, Keep, IndexOf, DropCR;
        ReadOn(c, bytes, events, pos, next, e.value, after);
        events := events + Keep(c, e.value, after);
        pos := next;
      }
      assert bytes[pos..] == [] && events + [] == events;
      return Ok(events);
    }
  }
}
