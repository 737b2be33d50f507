/**
 * Several writers on one log file (workflow/filestore/filestore.go): each Append's reads, its repair,
 * and its write are calls of their own, which a mutex keeps together only within one Store object. A
 * file keeps standing for one growing log exactly while every change finds the file as its maker's
 * tail had it.
 */
module Writers {
  import opened Common
  import opened LogFiles

  // ---- What else an encoding is --------------------------------------------------------------

  const COMMA: byte := 44
  const COLON: byte := 58

  /** What may follow a string in compact JSON. */
  predicate AfterString(b: byte) {
    b == COMMA || b == COLON || b == CLOSE_BRACE || b == CLOSE_BRACKET
  }

  /** A string ends at b[k]. */
  predicate ClosesString(b: Bytes, k: nat)
    requires k < |b|
  {
    Scanned(b[..k]).inString && !Scanned(b[..k]).escaped && b[k] == QUOTE
  }

  /** Encodings are compact JSON (sections 2, 4 and 7 of RFC 8259), and open with a key: a quote, and
      then what can't follow a string. */
  ghost predicate Keyed<E(!new)>(c: Codec<E>) {
    && (forall e {:trigger c.enc(e)} :: |c.enc(e)| > 2 && c.enc(e)[1] == QUOTE && !AfterString(c.enc(e)[2]))
    && (forall e, k: nat {:trigger ClosesString(c.enc(e), k)} ::
          k + 1 < |c.enc(e)| && ClosesString(c.enc(e), k) ==> AfterString(c.enc(e)[k + 1]))
  }

  lemma ScannedOn(b: Bytes, k: nat)
    requires k < |b|
    ensures Scanned(b[..k + 1]) == Scanned(b[..k]).Next(b[k])
  {
    assert b[..k + 1][..k] == b[..k];
  }

  /** A brace within a string, and then a quote, which ends it. */
  lemma QuoteCloses(b: Bytes, k: nat)
    requires k + 1 < |b| && Scanned(b[..k]).inString && b[k] == OPEN_BRACE && b[k + 1] == QUOTE
    ensures ClosesString(b, k + 1)
  {
    ScannedOn(b, k);
  }

  /** No encoding is a proper prefix of another. */
  lemma PrefixFree<E(!new)>(c: Codec<E>, e: E, more: Bytes, e': E)
    requires Lawful(c) && c.enc(e) + more <= c.enc(e')
    ensures more == [] && c.enc(e) == c.enc(e')
  {
    var a, b := c.enc(e), c.enc(e');
    assert b[..|a|] == (a + more)[..|a|] == a;
    assert WholeObject(a) && WholeObject(b);
  }

  /** Where the brace structure is outside every string, a whole object adds nothing to its depth. */
  lemma {:induction false} Nested(a: Bytes, b: Bytes)
    requires !Scanned(a).inString && !Scanned(a).escaped
    ensures Scanned(a + b) == Scanned(b).(depth := Scanned(a).depth + Scanned(b).depth)
  {
    if b == [] {
      assert a + b == a;
    } else {
      Nested(a, b[..|b| - 1]);
      assert (a + b)[..|a + b| - 1] == a + b[..|b| - 1];
    }
  }

  /** No encoding is a proper suffix of another. */
  lemma SuffixFree<E(!new)>(c: Codec<E>, t: Bytes, e: E, e': E)
    requires Lawful(c) && Keyed(c) && t != []
    ensures t + c.enc(e) != c.enc(e')
  {
    var (a, b) := (c.enc(e), c.enc(e'));
    if t + a == b {
      assert b[..|t|] == t && b[|t|] == a[0] && b[|t| + 1] == a[1] && b[|t| + 2] == a[2];
      assert WholeObject(a) && WholeObject(b);
      EscapedInString(t);
      if Scanned(t).inString {
        QuoteCloses(b, |t|);
        assert false;
      } else {
        Nested(t, a);
        assert false;
      }
    }
  }

  // ---- One file, one log ---------------------------------------------------------------------

  predicate Ended(b: Bytes) {
    b != [] ==> Last(b) == NL
  }

  /** There is one way to cut bytes after their last newline. */
  lemma OneCut(a: Bytes, x: Bytes, a': Bytes, x': Bytes)
    requires Ended(a) && Ended(a') && NL !in x && NL !in x' && a + x == a' + x'
    ensures a == a' && x == x'
  {
    LastLineOf(a, x, []);
    LastLineOf(a', x', []);
    assert a + x + [] == a + x && a' + x' + [] == a' + x';
    assert |a| + |x| == |a + x| && |a'| + |x'| == |a' + x'|;
    assert (a + x)[..|a|] == a && (a + x)[|a|..] == x;
    assert (a' + x')[..|a'|] == a' && (a' + x')[|a'|..] == x';
  }

  lemma Split<E>(c: Codec<E>, log: seq<E>)
    requires log != []
    ensures Lines(c, log) == Lines(c, log[..|log| - 1]) + c.enc(Last(log)) + [NL]
  {
    LinesSnoc(c, log[..|log| - 1], Last(log));
    assert log[..|log| - 1] + [Last(log)] == log;
  }

  lemma LinesEnded<E>(c: Codec<E>, log: seq<E>)
    ensures Ended(Lines(c, log))
  {
    LinesEnd(c, log);
  }

  /** Lines that end in a newline and a line before it: the last event, and the lines before it. */
  lemma LastOfLines<E(!new)>(c: Codec<E>, log: seq<E>, before: Bytes, line: Bytes)
    requires Lawful(c) && Lines(c, log) == before + line + [NL] && NL !in line && Ended(before)
    ensures log != [] && c.enc(Last(log)) == line && Lines(c, log[..|log| - 1]) == before
  {
    hide Lines;
    LinesEnd(c, log);
    var front := log[..|log| - 1];
    Split(c, log);
    LinesEnded(c, front);
    var (a, b) := (Lines(c, front) + c.enc(Last(log)), before + line);
    assert (a + [NL])[..|a|] == a && (b + [NL])[..|b|] == b && |a| == |b|;
    OneCut(Lines(c, front), c.enc(Last(log)), before, line);
  }

  lemma {:induction false} LinesOneToOne<E(!new)>(c: Codec<E>, log: seq<E>, log': seq<E>)
    requires Lawful(c) && Lines(c, log) == Lines(c, log')
    ensures log == log'
    decreases |log|
  {
    hide Lines;
    LinesEnd(c, log);
    LinesEnd(c, log');
    if log != [] {
      var (front, front') := (log[..|log| - 1], log'[..|log'| - 1]);
      Split(c, log);
      Split(c, log');
      LinesEnded(c, front');
      LastOfLines(c, log, Lines(c, front'), c.enc(Last(log')));
      LinesOneToOne(c, front, front');
      assert c.dec(c.enc(Last(log))) == c.dec(c.enc(Last(log')));
      assert log == front + [Last(log)] && log' == front' + [Last(log')];
    }
  }

  lemma TornIsNoEncoding<E(!new)>(c: Codec<E>, t: Bytes, e: E)
    requires Lawful(c) && Torn(c, t)
    ensures t != c.enc(e)
  {
    TornIsInvalid(c, t);
    assert c.dec(c.enc(e)).Some?;
  }

  lemma LastOfSum(a: Bytes, x: Bytes)
    ensures if x == [] then a + x == a else Last(a + x) == Last(x) && Last(x) in x
  {
  }

  /** A file that ends in a newline is the lines of the log it stands for. */
  lemma EndedIsLines<E(!new)>(c: Codec<E>, b: Bytes, log: seq<E>)
    requires Lawful(c) && Represents(c, b, log) && b != [] && Last(b) == NL
    ensures b == Lines(c, log)
  {
    hide Lines, Torn, Lawful;
    if t :| Torn(c, t) && b == Lines(c, log) + t {
      TornIsInvalid(c, t);
      LastOfSum(Lines(c, log), t);
    } else {
      EncodingEnds(c, Last(log));
      LastOfSum(Lines(c, log[..|log| - 1]), c.enc(Last(log)));
    }
  }

  /** A file stands for one log at most. */
  lemma OneLog<E(!new)>(c: Codec<E>, b: Bytes, log: seq<E>, log': seq<E>)
    requires Lawful(c) && Represents(c, b, log) && Represents(c, b, log')
    ensures log == log'
  {
    RepairsTheLog(c, b, log);
    RepairsTheLog(c, b, log');
    LinesOneToOne(c, log, log');
  }

  lemma LinesPrefix<E>(c: Codec<E>, log: seq<E>, log': seq<E>)
    requires log <= log'
    ensures Lines(c, log) <= Lines(c, log')
  {
    LinesAppend(c, log, log'[|log|..]);
    assert log' == log + log'[|log|..];
  }

  // ---- The calls of an Append ----------------------------------------------------------------

  /** An Append of e under way, and the file as it has read it: about to mend its tail, or to write. */
  datatype Writer<E> = Mending(e: E, seen: Bytes) | Ready(e: E, seen: Bytes)

  /** reported holds the events whose Append returned success, in that order. */
  datatype File<E> = File(bytes: Bytes, writers: map<nat, Writer<E>>, reported: seq<E>)

  datatype Move<E> =
    | Look(w: nat, e: E)                     // read the tail, and check the Seq if it needs no repair
    | Mend(w: nat)                           // end or cut the last line as it was read, and check the Seq
    | Write(w: nat, kept: nat, synced: bool) // append the line, perhaps cut short, and sync
    | Quit(w: nat)                           // crash, or a call that failed with nothing done

  predicate Enabled<E>(f: File<E>, m: Move<E>) {
    match m
    case Look(w, _) => w !in f.writers
    case Mend(w) => w in f.writers && f.writers[w].Mending?
    case Write(w, _, _) => w in f.writers && f.writers[w].Ready?
    case Quit(w) => w in f.writers
  }

  /** File.Truncate, which fills a file that is shorter with zeros. */
  function Resized(b: Bytes, n: nat): Bytes {
    if n <= |b| then b[..n] else b + seq(n - |b|, _ => 0)
  }

  /** What a repair decided on one file does to another: O_APPEND adds the newline where the file now
      ends, and the cut is where the last line then started. */
  function Mended<E>(c: Codec<E>, b: Bytes, seen: Bytes): Bytes {
    var planned := Repair(c, seen);
    if |planned| > |seen| then b + [NL] else Resized(b, |planned|)
  }

  /** The last Seq a tail returns after its repair: of the line it kept, or of the one now before the cut. */
  function MendedNum<E>(c: Codec<E>, b: Bytes, seen: Bytes): Option<int> {
    var planned := Repair(c, seen);
    LastNum(c, if |planned| > |seen| then planned else Mended(c, b, seen))
  }

  function LineOf<E>(c: Codec<E>, e: E): Bytes {
    c.enc(e) + [NL]
  }

  function Cut(line: Bytes, kept: nat): Bytes {
    if kept < |line| then line[..kept] else line
  }

  function Step<E>(c: Codec<E>, f: File<E>, m: Move<E>): File<E>
    requires Enabled(f, m)
  {
    match m
    case Look(w, e) =>
      if Repair(c, f.bytes) != f.bytes then f.(writers := f.writers[w := Mending(e, f.bytes)])
      else if LastNum(c, f.bytes) == Some(c.num(e) - 1) then f.(writers := f.writers[w := Ready(e, f.bytes)])
      else f
    case Mend(w) =>
      var a := f.writers[w];
      if MendedNum(c, f.bytes, a.seen) == Some(c.num(a.e) - 1) then
        f.(bytes := Mended(c, f.bytes, a.seen), writers := f.writers[w := Ready(a.e, a.seen)])
      else f.(bytes := Mended(c, f.bytes, a.seen), writers := f.writers - {w})
    case Write(w, kept, synced) =>
      var e := f.writers[w].e;
      f.(bytes := f.bytes + Cut(LineOf(c, e), kept), writers := f.writers - {w},
         reported := if kept >= |LineOf(c, e)| && synced then f.reported + [e] else f.reported)
    case Quit(w) => f.(writers := f.writers - {w})
  }

  /** What a writer could check before it changes the file: that its repair is the one the file needs now,
      and that the file is as its tail left it. */
  predicate Clear<E>(c: Codec<E>, f: File<E>, m: Move<E>)
    requires Enabled(f, m)
  {
    match m
    case Mend(w) => Mended(c, f.bytes, f.writers[w].seen) == Repair(c, f.bytes)
    case Write(w, _, _) => f.bytes == Repair(c, f.writers[w].seen)
    case _ => true
  }

  // ---- What clear moves keep -----------------------------------------------------------------

  /** The file stands for a numbered log that has lost nothing of the one before. */
  ghost predicate Keeps<E(!new)>(c: Codec<E>, b: Bytes, log: seq<E>) {
    exists log' :: log <= log' && Numbered(c, log') && Represents(c, b, log')
  }

  /** The writer read the file when it stood for the first n events of the log. */
  ghost predicate SawAt<E(!new)>(c: Codec<E>, a: Writer<E>, log: seq<E>, n: nat) {
    n <= |log| && Represents(c, a.seen, log[..n]) && (a.Ready? ==> c.num(a.e) == n + 1)
  }

  ghost predicate Saw<E(!new)>(c: Codec<E>, a: Writer<E>, log: seq<E>) {
    exists n :: SawAt(c, a, log, n)
  }

  /** Each event reported written is in the log under its number, and no number was reported twice. */
  predicate Reports<E(==)>(c: Codec<E>, reported: seq<E>, log: seq<E>) {
    && (forall i :: 0 <= i < |reported| ==> 1 <= c.num(reported[i]) <= |log| && log[c.num(reported[i]) - 1] == reported[i])
    && (forall i, j :: 0 <= i < j < |reported| ==> c.num(reported[i]) < c.num(reported[j]))
  }

  ghost predicate Stands<E(!new)>(c: Codec<E>, f: File<E>, log: seq<E>) {
    && Lawful(c) && Numbered(c, log) && Represents(c, f.bytes, log)
    && (forall w :: w in f.writers ==> Saw(c, f.writers[w], log))
    && Reports(c, f.reported, log)
  }

  lemma SawIsRepair<E(!new)>(c: Codec<E>, a: Writer<E>, log: seq<E>, n: nat)
    requires Lawful(c) && Numbered(c, log) && SawAt(c, a, log, n)
    ensures Repair(c, a.seen) == Lines(c, log[..n]) && LastNum(c, Repair(c, a.seen)) == Some(n)
    ensures Lines(c, log[..n]) <= Lines(c, log)
  {
    RepairsTheLog(c, a.seen, log[..n]);
    LastNumOfLog(c, log[..n]);
    LinesPrefix(c, log[..n], log);
  }

  lemma SawMore<E(!new)>(c: Codec<E>, a: Writer<E>, log: seq<E>, log': seq<E>)
    requires Saw(c, a, log) && log <= log'
    ensures Saw(c, a, log')
  {
    hide Represents;
    var n: nat :| SawAt(c, a, log, n);
    assert log'[..n] == log[..n];
    assert SawAt(c, a, log', n);
  }

  lemma KeepsItself<E(!new)>(c: Codec<E>, b: Bytes, log: seq<E>)
    requires Numbered(c, log) && Represents(c, b, log)
    ensures Keeps(c, b, log)
  {
    assert log <= log;
  }

  // ---- A repair --------------------------------------------------------------------------------

  /** A newline put at the end of a file. */
  lemma NewlineKeeps<E(!new)>(c: Codec<E>, b: Bytes, log: seq<E>)
    requires Lawful(c) && Represents(c, b, log) && Keeps(c, b + [NL], log)
    ensures b + [NL] == Lines(c, log)
  {
    hide Lines, Torn, Lawful;
    var log' :| log <= log' && Numbered(c, log') && Represents(c, b + [NL], log');
    EndedIsLines(c, b + [NL], log');
    if t :| Torn(c, t) && b == Lines(c, log) + t {
      LinesEnded(c, log);
      TornIsInvalid(c, t);
      LastOfLines(c, log', Lines(c, log), t);
      TornIsNoEncoding(c, t, Last(log'));
    } else {
      Split(c, log);
    }
  }

  /** A last line that holds an encoding and more stands for nothing. */
  lemma MoreStandsForNothing<E(!new)>(c: Codec<E>, before: Bytes, z: E, more: Bytes, log: seq<E>)
    requires Lawful(c) && Ended(before) && more != [] && NL !in c.enc(z) + more
    ensures !Represents(c, before + (c.enc(z) + more), log)
  {
    hide Lines, Lawful;
    var b, line := before + (c.enc(z) + more), c.enc(z) + more;
    if t :| Torn(c, t) && b == Lines(c, log) + t {
      LinesEnded(c, log);
      TornIsInvalid(c, t);
      OneCut(before, line, Lines(c, log), t);
      var e :| t < c.enc(e);
      PrefixFree(c, z, more, e);
    } else if log != [] && b == Lines(c, log[..|log| - 1]) + c.enc(Last(log)) {
      var front := log[..|log| - 1];
      LinesEnded(c, front);
      NoNewline(c, Last(log));
      OneCut(before, line, Lines(c, front), c.enc(Last(log)));
      PrefixFree(c, z, more, Last(log));
    }
  }

  lemma NoNewline<E(!new)>(c: Codec<E>, e: E)
    requires Lawful(c)
    ensures NL !in c.enc(e)
  {
  }

  /** A file cut back to the lines of an earlier log. */
  lemma CutKeeps<E(!new)>(c: Codec<E>, b: Bytes, log: seq<E>, n: nat, e: E)
    requires Lawful(c) && Represents(c, b, log) && Numbered(c, log) && n <= |log|
    requires Keeps(c, Resized(b, |Lines(c, log[..n])|), log)
    ensures n == |log| && Resized(b, |Lines(c, log[..n])|) == Lines(c, log)
  {
    hide Lines, Torn, Lawful;
    var lines := Lines(c, log[..n]);
    var b' := Resized(b, |lines|);
    LinesPrefix(c, log[..n], log);
    var log' :| log <= log' && Numbered(c, log') && Represents(c, b', log');
    if t :| Torn(c, t) && b == Lines(c, log) + t {
      assert b' == lines;
      CutToLines(c, lines, log, n, log', e);
    } else {
      CutUnended(c, b, log, n, log', e);
    }
  }

  lemma CutToLines<E(!new)>(c: Codec<E>, b: Bytes, log: seq<E>, n: nat, log': seq<E>, e: E)
    requires Lawful(c) && n <= |log| && b == Lines(c, log[..n]) && log <= log' && Represents(c, b, log')
    ensures n == |log| && b == Lines(c, log)
  {
    hide Lines, Torn, Lawful;
    CleanRepresents(c, log[..n], e);
    OneLog(c, b, log[..n], log');
    assert log[..|log|] == log;
  }

  lemma CutUnended<E(!new)>(c: Codec<E>, b: Bytes, log: seq<E>, n: nat, log': seq<E>, e: E)
    requires Lawful(c) && log != [] && b == Lines(c, log[..|log| - 1]) + c.enc(Last(log)) && n <= |log| && log <= log'
    ensures !Represents(c, Resized(b, |Lines(c, log[..n])|), log')
  {
    hide Lines, Torn, Represents;
    var front, lines, line := log[..|log| - 1], Lines(c, log[..n]), c.enc(Last(log));
    Split(c, log);
    LinesEnded(c, front);
    if n == |log| {
      assert log[..n] == log;
      assert Resized(b, |lines|) == Lines(c, front) + (line + [0]);
      NoNewline(c, Last(log));
      hide Lawful;
      MoreStandsForNothing(c, Lines(c, front), Last(log), [0], log');
    } else {
      hide Lawful;
      assert front[..n] == log[..n];
      LinesPrefix(c, front[..n], front);
      assert Resized(b, |lines|) == lines;
      if Represents(c, lines, log') {
        CutToLines(c, lines, log, n, log', e);
      }
    }
  }

  /** A repair keeps the log exactly when it is the one the file needs now. */
  lemma MendKeeps<E(!new)>(c: Codec<E>, f: File<E>, log: seq<E>, w: nat)
    requires Stands(c, f, log) && Enabled(f, Mend(w))
    ensures Keeps(c, Step(c, f, Mend(w)).bytes, log) <==> Clear(c, f, Mend(w))
    ensures Clear(c, f, Mend(w)) ==> Step(c, f, Mend(w)).bytes == Lines(c, log)
  {
    hide Reports, Represents, Lines;
    var a := f.writers[w];
    var n: nat :| SawAt(c, a, log, n);
    SawIsRepair(c, a, log, n);
    RepairsTheLog(c, f.bytes, log);
    var b' := Mended(c, f.bytes, a.seen);
    hide Lawful, Repair, Numbered;
    CleanRepresents(c, log, a.e);
    if b' == Lines(c, log) {
      KeepsItself(c, b', log);
    }
    if Keeps(c, b', log) {
      if |Repair(c, a.seen)| > |a.seen| {
        NewlineKeeps(c, f.bytes, log);
      } else {
        CutKeeps(c, f.bytes, log, n, a.e);
      }
    }
  }

  // ---- A write ---------------------------------------------------------------------------------

  lemma LineOnTorn<E(!new)>(c: Codec<E>, t: Bytes, log: seq<E>, e: E, log': seq<E>)
    requires Lawful(c) && Keyed(c) && Torn(c, t) && Numbered(c, log')
    requires Lines(c, log') == Lines(c, log) + (t + c.enc(e)) + [NL]
    ensures t == [] && c.num(e) == |log| + 1
  {
    hide Lines, Numbered, Keyed;
    LinesEnded(c, log);
    NoNewline(c, e);
    TornIsInvalid(c, t);
    hide Lawful, Torn;
    LastOfLines(c, log', Lines(c, log), t + c.enc(e));
    if t != [] {
      SuffixFree(c, t, e, Last(log'));
    } else {
      assert [] + c.enc(e) == c.enc(e);
      LinesOneToOne(c, log'[..|log'| - 1], log);
      NextNum(c, log', log);
      SameEvent(c, Last(log'), e);
    }
  }

  lemma LineOnUnended<E(!new)>(c: Codec<E>, front: seq<E>, z: E, e: E, log': seq<E>)
    requires Lawful(c)
    ensures Lines(c, log') != Lines(c, front) + (c.enc(z) + c.enc(e)) + [NL]
  {
    hide Lines;
    LinesEnded(c, front);
    NoNewline(c, z);
    NoNewline(c, e);
    EncodingEnds(c, e);
    hide Lawful;
    if Lines(c, log') == Lines(c, front) + (c.enc(z) + c.enc(e)) + [NL] {
      LastOfLines(c, log', Lines(c, front), c.enc(z) + c.enc(e));
      PrefixFree(c, z, c.enc(e), Last(log'));
    }
  }

  lemma Regroup(a: Bytes, b: Bytes, x: Bytes)
    ensures a + b + (x + [NL]) == a + (b + x) + [NL]
  {
  }

  /** The whole line, on a file that stands for a log, keeps the log only as its next event. */
  lemma LineKeeps<E(!new)>(c: Codec<E>, b: Bytes, log: seq<E>, e: E)
    requires Lawful(c) && Keyed(c) && Represents(c, b, log) && Keeps(c, b + LineOf(c, e), log)
    ensures b == Lines(c, log) && c.num(e) == |log| + 1
  {
    hide Lines, Torn, Lawful, Keyed, Numbered;
    var b' := b + LineOf(c, e);
    var log' :| log <= log' && Numbered(c, log') && Represents(c, b', log');
    EndedIsLines(c, b', log');
    hide Represents;
    CasesOf(c, b, log);
    if t :| Torn(c, t) && b == Lines(c, log) + t {
      Regroup(Lines(c, log), t, c.enc(e));
      LineOnTorn(c, t, log, e, log');
      LastOfSum(Lines(c, log), t);
    } else {
      var front := log[..|log| - 1];
      Regroup(Lines(c, front), c.enc(Last(log)), c.enc(e));
      LineOnUnended(c, front, Last(log), e, log');
    }
  }

  lemma CasesOf<E(!new)>(c: Codec<E>, b: Bytes, log: seq<E>)
    requires Represents(c, b, log)
    ensures (exists t :: Torn(c, t) && b == Lines(c, log) + t)
            || (log != [] && b == Lines(c, log[..|log| - 1]) + c.enc(Last(log)))
  {
  }

  lemma SameEvent<E(!new)>(c: Codec<E>, e: E, e': E)
    requires Lawful(c) && c.enc(e) == c.enc(e')
    ensures e == e'
  {
    assert c.dec(c.enc(e)) == c.dec(c.enc(e'));
  }

  lemma NextNum<E>(c: Codec<E>, log': seq<E>, log: seq<E>)
    requires Numbered(c, log') && log' != [] && log'[..|log'| - 1] == log
    ensures c.num(Last(log')) == |log| + 1
  {
  }

  /** A write keeps the log, wherever it stops, exactly when it finds the file as its tail left it. */
  lemma WriteKeeps<E(!new)>(c: Codec<E>, f: File<E>, log: seq<E>, w: nat)
    requires Keyed(c) && Stands(c, f, log) && w in f.writers && f.writers[w].Ready?
    ensures (forall kept, synced :: Keeps(c, Step(c, f, Write(w, kept, synced)).bytes, log)) <==> f.bytes == Repair(c, f.writers[w].seen)
    ensures f.bytes == Repair(c, f.writers[w].seen) ==> f.bytes == Lines(c, log) && c.num(f.writers[w].e) == |log| + 1
  {
    hide Reports, Represents, Lines, Keyed;
    var a := f.writers[w];
    var n: nat :| SawAt(c, a, log, n);
    SawIsRepair(c, a, log, n);
    hide Lawful, Repair, Numbered;
    assert n == |log| ==> log[..n] == log;
    if f.bytes == Repair(c, a.seen) {
      CleanRepresents(c, log[..n], a.e);
      OneLog(c, f.bytes, log[..n], log);
      forall kept, synced
        ensures Keeps(c, Step(c, f, Write(w, kept, synced)).bytes, log)
      {
        CutWriteKeeps(c, log, a.e, kept);
      }
    } else if forall kept, synced :: Keeps(c, Step(c, f, Write(w, kept, synced)).bytes, log) {
      assert Keeps(c, Step(c, f, Write(w, |LineOf(c, a.e)|, true)).bytes, log);
      LineKeeps(c, f.bytes, log, a.e);
      assert false;
    }
  }

  /** A line cut short adds nothing; all but its newline is the event. */
  lemma CutWriteStands<E(!new)>(c: Codec<E>, log: seq<E>, e: E, kept: nat)
    requires Lawful(c) && Numbered(c, log) && c.num(e) == |log| + 1
    ensures var log' := if kept < |c.enc(e)| then log else log + [e];
            Numbered(c, log') && Represents(c, Lines(c, log) + Cut(LineOf(c, e), kept), log')
  {
    var k := if kept <= |c.enc(e)| + 1 then kept else |c.enc(e)| + 1;
    assert Cut(LineOf(c, e), kept) == (c.enc(e) + [NL])[..k];
    WriteIsAtomic(c, log, e, k);
    hide Represents, Lines, Lawful;
  }

  lemma CutWriteKeeps<E(!new)>(c: Codec<E>, log: seq<E>, e: E, kept: nat)
    requires Lawful(c) && Numbered(c, log) && c.num(e) == |log| + 1
    ensures Keeps(c, Lines(c, log) + Cut(LineOf(c, e), kept), log)
  {
    CutWriteStands(c, log, e, kept);
    hide Represents, Lines, Lawful, Numbered, Cut, LineOf;
    assert log <= log + [e];
  }

  // ---- Histories -------------------------------------------------------------------------------

  lemma SawAll<E(!new)>(c: Codec<E>, f: File<E>, w: nat, a: Writer<E>, log: seq<E>)
    requires Represents(c, a.seen, log) && (a.Ready? ==> c.num(a.e) == |log| + 1)
    ensures Saw(c, a, log)
  {
    assert log[..|log|] == log;
    assert SawAt(c, a, log, |log|);
  }

  lemma LastNumIs<E(!new)>(c: Codec<E>, b: Bytes, log: seq<E>)
    requires Lawful(c) && Numbered(c, log) && Represents(c, b, log) && Repair(c, b) == b
    ensures LastNum(c, b) == Some(|log|)
  {
    RepairsTheLog(c, b, log);
    LastNumOfLog(c, log);
  }

  lemma LookStands<E(!new)>(c: Codec<E>, f: File<E>, log: seq<E>, w: nat, e: E)
    requires Stands(c, f, log) && Enabled(f, Look(w, e))
    ensures Stands(c, Step(c, f, Look(w, e)), log)
  {
    hide Lawful, Numbered, Represents, Reports, Saw, Repair, LastNum;
    if Repair(c, f.bytes) != f.bytes {
      SawAll(c, f, w, Mending(e, f.bytes), log);
    } else {
      LastNumIs(c, f.bytes, log);
      if c.num(e) == |log| + 1 {
        SawAll(c, f, w, Ready(e, f.bytes), log);
      }
    }
  }

  lemma MendSaw<E(!new)>(c: Codec<E>, f: File<E>, log: seq<E>, w: nat)
    requires Stands(c, f, log) && Enabled(f, Mend(w)) && Clear(c, f, Mend(w))
    requires MendedNum(c, f.bytes, f.writers[w].seen) == Some(c.num(f.writers[w].e) - 1)
    ensures Saw(c, Ready(f.writers[w].e, f.writers[w].seen), log)
  {
    var a := f.writers[w];
    MendKeeps(c, f, log, w);
    var n: nat :| SawAt(c, a, log, n);
    SawIsRepair(c, a, log, n);
    LastNumOfLog(c, log);
    hide Lawful, Numbered, Represents, Reports, Lines, LastNum, Repair;
    if |Repair(c, a.seen)| <= |a.seen| {
      CutKeeps(c, f.bytes, log, n, a.e);
    }
    assert SawAt(c, Ready(a.e, a.seen), log, n);
  }

  lemma MendStands<E(!new)>(c: Codec<E>, f: File<E>, log: seq<E>, w: nat)
    requires Stands(c, f, log) && Enabled(f, Mend(w)) && Clear(c, f, Mend(w))
    ensures Stands(c, Step(c, f, Mend(w)), log) && Step(c, f, Mend(w)).bytes == Lines(c, log)
  {
    hide Lawful, Numbered, Represents, Reports, Lines, LastNum, Repair, Saw, MendedNum, Mended;
    var a := f.writers[w];
    MendKeeps(c, f, log, w);
    CleanRepresents(c, log, a.e);
    if MendedNum(c, f.bytes, a.seen) == Some(c.num(a.e) - 1) {
      MendSaw(c, f, log, w);
    }
  }

  lemma ReportsMore<E>(c: Codec<E>, reported: seq<E>, log: seq<E>, e: E)
    requires Reports(c, reported, log) && c.num(e) == |log| + 1
    ensures Reports(c, reported, log + [e]) && Reports(c, reported + [e], log + [e])
  {
  }

  lemma WriteStands<E(!new)>(c: Codec<E>, f: File<E>, log: seq<E>, w: nat, kept: nat, synced: bool) returns (log': seq<E>)
    requires Keyed(c) && Stands(c, f, log) && Enabled(f, Write(w, kept, synced)) && Clear(c, f, Write(w, kept, synced))
    ensures Stands(c, Step(c, f, Write(w, kept, synced)), log')
    ensures log' == if kept < |c.enc(f.writers[w].e)| then log else log + [f.writers[w].e]
    ensures c.num(f.writers[w].e) == |log| + 1 && f.bytes == Lines(c, log)
  {
    hide Lawful, Keyed, Represents, Reports, Lines, Saw, Repair, Numbered, Cut;
    var e := f.writers[w].e;
    WriteKeeps(c, f, log, w);
    CutWriteStands(c, log, e, kept);
    log' := if kept < |c.enc(e)| then log else log + [e];
    ReportsMore(c, f.reported, log, e);
    forall u | u in f.writers && u != w
      ensures Saw(c, f.writers[u], log')
    {
      SawMore(c, f.writers[u], log, log');
    }
  }

  /** A clear move keeps the log, and only a write adds to it. */
  lemma ClearStands<E(!new)>(c: Codec<E>, f: File<E>, log: seq<E>, m: Move<E>) returns (log': seq<E>)
    requires Keyed(c) && Stands(c, f, log) && Enabled(f, m) && Clear(c, f, m)
    ensures log <= log' && Stands(c, Step(c, f, m), log') && (!m.Write? ==> log' == log)
  {
    log' := log;
    match m {
      case Look(w, e) => LookStands(c, f, log, w, e);
      case Mend(w) => MendStands(c, f, log, w);
      case Write(w, kept, synced) => log' := WriteStands(c, f, log, w, kept, synced);
      case Quit(w) => hide Lawful, Numbered, Represents, Reports, Saw;
    }
  }

  /** A series of moves from a file no Append is at work on. */
  ghost predicate Moves<E(!new)>(c: Codec<E>, fs: seq<File<E>>, ms: seq<Move<E>>) {
    && |fs| == |ms| + 1 && fs[0].writers == map[] && fs[0].reported == []
    && forall n :: 0 <= n < |ms| ==> Enabled(fs[n], ms[n]) && fs[n + 1] == Step(c, fs[n], ms[n])
  }

  ghost predicate AllClear<E(!new)>(c: Codec<E>, fs: seq<File<E>>, ms: seq<Move<E>>)
    requires Moves(c, fs, ms)
  {
    forall n :: 0 <= n < |ms| ==> Clear(c, fs[n], ms[n])
  }

  /** Any interleaving of clear moves, with crashes anywhere, leaves a file that stands for one numbered
      log, which extends the log before and holds every event reported written, each under its number. */
  lemma {:induction false} ClearHistoriesStand<E(!new)>(c: Codec<E>, fs: seq<File<E>>, ms: seq<Move<E>>, log: seq<E>)
    returns (log': seq<E>)
    requires Lawful(c) && Keyed(c) && Numbered(c, log) && Moves(c, fs, ms) && AllClear(c, fs, ms)
    requires Represents(c, fs[0].bytes, log)
    ensures log <= log' && Stands(c, Last(fs), log')
    decreases |ms|
  {
    hide Lawful, Keyed, Numbered, Represents, Step, Clear, Enabled, Saw;
    if ms == [] {
      log' := log;
    } else {
      hide Stands;
      var n := |ms| - 1;
      var mid := ClearHistoriesStand(c, fs[..n + 1], ms[..n], log);
      assert Last(fs[..n + 1]) == fs[n];
      log' := ClearStands(c, fs[n], mid, ms[n]);
    }
  }

  /** Whatever becomes of the move, cut short or not, the file keeps the log. */
  ghost predicate KeepsAnyway<E(!new)>(c: Codec<E>, f: File<E>, m: Move<E>, log: seq<E>)
    requires Enabled(f, m)
  {
    match m
    case Write(w, _, _) => forall kept, synced :: Keeps(c, Step(c, f, Write(w, kept, synced)).bytes, log)
    case _ => Keeps(c, Step(c, f, m).bytes, log)
  }

  /** After clear moves, the next one is sure to leave a file that stands for one numbered log, with
      nothing lost, if and only if it is clear. */
  lemma KeepsExactlyWhenClear<E(!new)>(c: Codec<E>, fs: seq<File<E>>, ms: seq<Move<E>>, log: seq<E>, m: Move<E>)
    returns (log': seq<E>)
    requires Lawful(c) && Keyed(c) && Numbered(c, log) && Moves(c, fs, ms) && AllClear(c, fs, ms)
    requires Represents(c, fs[0].bytes, log) && Enabled(Last(fs), m)
    ensures Stands(c, Last(fs), log') && (KeepsAnyway(c, Last(fs), m, log') <==> Clear(c, Last(fs), m))
  {
    log' := ClearHistoriesStand(c, fs, ms, log);
    var f := Last(fs);
    hide Moves, AllClear;
    match m {
      case Look(_, _) => KeepsItself(c, f.bytes, log');
      case Mend(w) => MendKeeps(c, f, log', w);
      case Write(w, _, _) => WriteKeeps(c, f, log', w);
      case Quit(_) => KeepsItself(c, f.bytes, log');
    }
    hide Lawful, Keyed, Numbered, Represents, Reports, Saw, Keeps, Repair;
  }

  // ---- One Store object ------------------------------------------------------------------------

  /** The mutex: at most one Append is at work. */
  predicate Serial<E>(f: File<E>) {
    forall u, w :: u in f.writers && w in f.writers ==> u == w
  }

  /** Each Append under way finds the file as it left it. */
  predicate Undisturbed<E>(c: Codec<E>, f: File<E>) {
    forall w :: w in f.writers ==>
      f.bytes == if f.writers[w].Mending? then f.writers[w].seen else Repair(c, f.writers[w].seen)
  }

  lemma SerialStep<E>(c: Codec<E>, f: File<E>, m: Move<E>)
    requires Undisturbed(c, f) && Enabled(f, m) && Serial(f) && Serial(Step(c, f, m))
    ensures Clear(c, f, m) && Undisturbed(c, Step(c, f, m))
  {
    RepairCases(c, f.bytes);
    hide Repair, LastNum;
  }

  lemma RepairCases<E>(c: Codec<E>, b: Bytes)
    ensures Mended(c, b, b) == Repair(c, b)
  {
  }

  /** Runners that share one Store make only clear moves: the mutex keeps each Append's calls together. */
  lemma {:induction false} SerialIsClear<E(!new)>(c: Codec<E>, fs: seq<File<E>>, ms: seq<Move<E>>)
    requires Moves(c, fs, ms) && forall n :: 0 <= n < |fs| ==> Serial(fs[n])
    ensures AllClear(c, fs, ms) && Undisturbed(c, Last(fs))
    decreases |ms|
  {
    hide Step, Clear, Enabled, Serial, Undisturbed;
    if ms == [] {
      NoneDisturbed(c, fs[0]);
    } else {
      var n := |ms| - 1;
      SerialIsClear(c, fs[..n + 1], ms[..n]);
      assert Last(fs[..n + 1]) == fs[n];
      assert Serial(fs[n + 1]) && Serial(fs[n]);
      SerialStep(c, fs[n], ms[n]);
      forall k | 0 <= k < |ms|
        ensures Clear(c, fs[k], ms[k])
      {
        assert k < n ==> Clear(c, fs[..n + 1][k], ms[..n][k]);
      }
    }
  }

  lemma NoneDisturbed<E>(c: Codec<E>, f: File<E>)
    requires f.writers == map[]
    ensures Undisturbed(c, f)
  {
  }

  /** The fault that a write's end is. */
  function FaultOf<E>(c: Codec<E>, e: E, kept: nat, synced: bool): Fault {
    if kept < |LineOf(c, e)| then WriteStops(kept) else if synced then NoFault else SyncFails
  }

  /** An Append's tail: its calls before the write. */
  function Tailed<E>(c: Codec<E>, f: File<E>, w: nat, e: E): File<E>
    requires w !in f.writers
  {
    var f1 := Step(c, f, Look(w, e));
    if Enabled(f1, Mend(w)) then Step(c, f1, Mend(w)) else f1
  }

  /** An Append's calls, with no other between them. */
  function Alone<E>(c: Codec<E>, f: File<E>, w: nat, e: E, kept: nat, synced: bool): File<E>
    requires w !in f.writers
  {
    var f2 := Tailed(c, f, w, e);
    if Enabled(f2, Write(w, kept, synced)) then Step(c, f2, Write(w, kept, synced)) else f2
  }

  lemma TailedAlone<E>(c: Codec<E>, f: File<E>, w: nat, e: E)
    requires w !in f.writers
    ensures var r := Repair(c, f.bytes);
            Tailed(c, f, w, e) ==
            if LastNum(c, r) == Some(c.num(e) - 1) then f.(bytes := r, writers := f.writers[w := Ready(e, f.bytes)])
            else f.(bytes := r)
  {
    RepairCases(c, f.bytes);
    RepairEither(c, f.bytes);
    hide Repair, LastNum, Mended;
    assert f.writers[w := Mending(e, f.bytes)] - {w} == f.writers;
    assert f.writers[w := Mending(e, f.bytes)][w := Ready(e, f.bytes)] == f.writers[w := Ready(e, f.bytes)];
  }

  lemma RepairEither<E>(c: Codec<E>, b: Bytes)
    ensures |Repair(c, b)| > |b| ==> Repair(c, b) == b + [NL]
  {
  }

  /** Made alone, an Append's calls leave and report what Append does. */
  lemma AloneIsAppend<E>(c: Codec<E>, f: File<E>, w: nat, e: E, kept: nat, synced: bool)
    requires w !in f.writers
    ensures var (b, r) := Append(c, f.bytes, e, FaultOf(c, e, kept, synced));
            Alone(c, f, w, e, kept, synced) == f.(bytes := b, reported := if r == Appended then f.reported + [e] else f.reported)
  {
    hide Repair, LastNum, Tailed;
    TailedAlone(c, f, w, e);
    assert f.writers[w := Ready(e, f.bytes)] - {w} == f.writers;
  }

  // ---- Two processes -----------------------------------------------------------------------------

  lemma LookAtLines<E(!new)>(c: Codec<E>, f: File<E>, log: seq<E>, w: nat, e: E)
    requires Lawful(c) && Numbered(c, log) && f.bytes == Lines(c, log) && c.num(e) == |log| + 1 && w !in f.writers
    ensures Step(c, f, Look(w, e)) == f.(writers := f.writers[w := Ready(e, f.bytes)])
  {
    CleanRepresents(c, log, e);
    RepairsTheLog(c, f.bytes, log);
    LastNumOfLog(c, log);
    hide Lawful, Represents, Lines, Repair, LastNum, Numbered;
  }

  lemma TwiceIsNoLog<E(!new)>(c: Codec<E>, log: seq<E>, e: E, e': E, log': seq<E>)
    requires Lawful(c) && c.num(e') == |log| + 1
    ensures !(Numbered(c, log') && Represents(c, Lines(c, log) + LineOf(c, e) + LineOf(c, e'), log'))
  {
    hide Lines;
    LinesSnoc(c, log, e);
    LinesSnoc(c, log + [e], e');
    var all, b := log + [e] + [e'], Lines(c, log) + LineOf(c, e) + LineOf(c, e');
    assert b == Lines(c, all);
    LinesEnd(c, all);
    hide Lawful, LineOf;
    if Numbered(c, log') && Represents(c, b, log') {
      EndedIsLines(c, b, log');
      LinesOneToOne(c, all, log');
      NumOf(c, all, |log| + 1);
    }
  }

  lemma NumOf<E>(c: Codec<E>, log: seq<E>, i: nat)
    requires Numbered(c, log) && i < |log|
    ensures c.num(log[i]) == i + 1
  {
  }

  /** Two processes that each read the tail before the other writes both report the same Seq written, and
      the file stands for no numbered log any more. */
  lemma TwoWritersCorrupt<E(!new)>(c: Codec<E>, log: seq<E>, e: E, e': E, log': seq<E>)
    requires Lawful(c) && Numbered(c, log) && c.num(e) == c.num(e') == |log| + 1
    ensures var f0 := File(Lines(c, log), map[], []);
            var f2 := Step(c, Step(c, f0, Look(0, e)), Look(1, e'));
            && Enabled(f2, Write(0, |LineOf(c, e)|, true))
            && var f3 := Step(c, f2, Write(0, |LineOf(c, e)|, true));
               && Enabled(f3, Write(1, |LineOf(c, e')|, true))
               && var f4 := Step(c, f3, Write(1, |LineOf(c, e')|, true));
                  f4.reported == [e, e'] && !(Numbered(c, log') && Represents(c, f4.bytes, log'))
  {
    var f0: File<E> := File(Lines(c, log), map[], []);
    LookAtLines(c, f0, log, 0, e);
    LookAtLines(c, Step(c, f0, Look(0, e)), log, 1, e');
    TwiceIsNoLog(c, log, e, e', log');
    hide Lawful, Represents, Lines, Repair, LastNum, Numbered, LineOf;
    assert [] + [e] + [e'] == [e, e'];
  }

  lemma LookAtTorn<E(!new)>(c: Codec<E>, f: File<E>, log: seq<E>, t: Bytes, w: nat, e: E)
    requires Lawful(c) && f.bytes == Lines(c, log) + t && Torn(c, t) && t != [] && w !in f.writers
    ensures Step(c, f, Look(w, e)) == f.(writers := f.writers[w := Mending(e, f.bytes)])
    ensures Repair(c, f.bytes) == Lines(c, log)
  {
    LinesEnded(c, log);
    RepairCuts(c, Lines(c, log), t);
    hide Lawful, Torn, Lines, Repair, LastNum;
    assert |f.bytes| > |Lines(c, log)|;
  }

  lemma MendTorn<E(!new)>(c: Codec<E>, f: File<E>, log: seq<E>, more: Bytes, t: Bytes, w: nat)
    requires Lawful(c) && Numbered(c, log) && f.bytes == Lines(c, log) + more && w in f.writers && f.writers[w].Mending?
    requires f.writers[w].seen == Lines(c, log) + t && Torn(c, t) && t != []
    ensures Mended(c, f.bytes, f.writers[w].seen) == Lines(c, log)
    ensures MendedNum(c, f.bytes, f.writers[w].seen) == Some(|log|)
  {
    LinesEnded(c, log);
    RepairCuts(c, Lines(c, log), t);
    LastNumOfLog(c, log);
    hide Lawful, Torn, Lines, Repair, LastNum, Numbered;
    assert f.bytes[..|Lines(c, log)|] == Lines(c, log);
    assert |f.writers[w].seen| > |Lines(c, log)|;
  }

  /** A repair decided on a torn line before another process wrote cuts an event reported written. */
  lemma RepairLosesAReport<E(!new)>(c: Codec<E>, log: seq<E>, t: Bytes, e: E, e': E)
    requires Lawful(c) && Numbered(c, log) && c.num(e) == |log| + 1 && Torn(c, t) && t != []
    ensures var f0 := File(Lines(c, log) + t, map[], []);
            var f2 := Step(c, Step(c, f0, Look(0, e')), Look(1, e));
            && Enabled(f2, Mend(1))
            && var f3 := Step(c, f2, Mend(1));
               && Enabled(f3, Write(1, |LineOf(c, e)|, true))
               && var f4 := Step(c, f3, Write(1, |LineOf(c, e)|, true));
                  && f4.bytes == Lines(c, log + [e]) && f4.reported == [e]
                  && Enabled(f4, Mend(0)) && Step(c, f4, Mend(0)).bytes == Lines(c, log)
  {
    hide Lawful, Represents, Lines, Repair, LastNum, Numbered, Torn, Mended, MendedNum;
    var f0: File<E> := File(Lines(c, log) + t, map[], []);
    LookAtTorn(c, f0, log, t, 0, e');
    var f1 := Step(c, f0, Look(0, e'));
    LookAtTorn(c, f1, log, t, 1, e);
    var f2 := Step(c, f1, Look(1, e));
    MendTorn(c, f2, log, t, t, 1);
    LinesSnoc(c, log, e);
    var f3 := Step(c, f2, Mend(1));
    assert f3 == f2.(bytes := Lines(c, log), writers := f2.writers[1 := Ready(e, f0.bytes)]);
    var f4 := Step(c, f3, Write(1, |LineOf(c, e)|, true));
    assert f4 == File(Lines(c, log) + LineOf(c, e), f3.writers - {1}, [] + [e]);
    assert f4.writers[0] == Mending(e', f0.bytes);
    Assoc3(Lines(c, log), c.enc(e));
    MendTorn(c, f4, log, LineOf(c, e), t, 0);
    assert [] + [e] == [e];
  }

  lemma Assoc3(a: Bytes, x: Bytes)
    ensures a + (x + [NL]) == a + x + [NL]
  {
  }
}
