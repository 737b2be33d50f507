/** Decimal numerals as strconv writes and reads them, for call ids and stream cursors. */
module Numerals {
  import opened Common

  /** One more than the largest int of the source. */
  const INT_END: int := 0x8000_0000_0000_0000

  predicate IsDigit(c: char) { '0' <= c <= '9' }

  predicate Digits(s: string) {
    forall i :: 0 <= i < |s| ==> IsDigit(s[i])
  }

  function Digit(n: nat): (c: char)
    requires n < 10
    ensures IsDigit(c) && c as int - '0' as int == n
  {
    n as char + '0'
  }

  /** FormatInt in base 10, and %d. */
  function Itoa(n: nat): (s: string)
    ensures s != "" && Digits(s)
  {
    if n < 10 then [Digit(n)] else Itoa(n / 10) + [Digit(n % 10)]
  }

  function Value(s: string): nat
    requires Digits(s)
  {
    if s == "" then 0
    else
      assert IsDigit(Last(s));
      10 * Value(s[..|s| - 1]) + (Last(s) as int - '0' as int)
  }

  /** Atoi: an optional sign, then digits, in the range of a 64-bit int. */
  function Atoi(s: string): (r: Option<int>)
    ensures r.Some? ==> -INT_END <= r.value < INT_END
  {
    var signed := s != "" && (s[0] == '-' || s[0] == '+');
    var digits := if signed then s[1..] else s;
    if digits == "" || !Digits(digits) then None
    else if signed && s[0] == '-' then (if Value(digits) <= INT_END then Some(-(Value(digits) as int)) else None)
    else if Value(digits) < INT_END then Some(Value(digits))
    else None
  }

  lemma {:induction false} ValueOfItoa(n: nat)
    ensures Value(Itoa(n)) == n
  {
    var s := Itoa(n);
    if n >= 10 {
      ValueOfItoa(n / 10);
      assert s[..|s| - 1] == Itoa(n / 10);
    } else {
      assert s[..0] == "";
    }
  }

  lemma ItoaIsOneToOne(m: nat, n: nat)
    requires Itoa(m) == Itoa(n)
    ensures m == n
  {
    ValueOfItoa(m);
    ValueOfItoa(n);
  }

  function Zeros(k: nat): (s: string)
    ensures Digits(s) && |s| == k
  {
    seq(k, _ => '0')
  }

  lemma {:induction false} ValueOfZeros(k: nat, n: nat)
    ensures Digits(Zeros(k) + Itoa(n)) && Value(Zeros(k) + Itoa(n)) == n
  {
    var s := Zeros(k) + Itoa(n);
    if n >= 10 {
      ValueOfZeros(k, n / 10);
      assert s[..|s| - 1] == Zeros(k) + Itoa(n / 10);
    } else {
      ValueOfNothing(k);
      assert s[..|s| - 1] == Zeros(k);
    }
  }

  lemma {:induction false} ValueOfNothing(k: nat)
    ensures Value(Zeros(k)) == 0
  {
    if k > 0 {
      assert Zeros(k)[..k - 1] == Zeros(k - 1);
      ValueOfNothing(k - 1);
    }
  }

  /** Digits are their value's own, after some zeros. */
  lemma {:induction false} DigitsAre(s: string) returns (k: nat)
    requires Digits(s) && s != ""
    ensures s == Zeros(k) + Itoa(Value(s))
  {
    var front := s[..|s| - 1];
    assert s == front + [Last(s)] && IsDigit(Last(s));
    if front == "" {
      k := 0;
      assert Value(front) == 0;
      assert s == Zeros(0) + [Last(s)];
    } else {
      k := DigitsAre(front);
      var v := Value(front);
      if v == 0 {
        assert Zeros(k) + Itoa(0) == Zeros(k + 1);
        k := k + 1;
      } else {
        assert Itoa(Value(s)) == Itoa(v) + [Last(s)];
        assert s == Zeros(k) + (Itoa(v) + [Last(s)]);
      }
    }
  }

  /** n's decimal numeral, perhaps after zeros. */
  ghost predicate IsNumeral(s: string, n: nat) {
    exists k: nat :: s == Zeros(k) + Itoa(n)
  }

  lemma NumeralIs(s: string, n: nat)
    ensures IsNumeral(s, n) <==> s != "" && Digits(s) && Value(s) == n
  {
    hide Itoa, Zeros, Value;
    if k: nat :| s == Zeros(k) + Itoa(n) {
      ValueOfZeros(k, n);
    }
    if s != "" && Digits(s) {
      var k := DigitsAre(s);
    }
  }

  /** A numeral with or without a sign, of which zero alone may have a minus. */
  ghost predicate Names(s: string, n: nat) {
    || IsNumeral(s, n)
    || (s != "" && s[0] == '+' && IsNumeral(s[1..], n))
    || (s != "" && s[0] == '-' && n == 0 && IsNumeral(s[1..], 0))
  }

  /** Atoi gives n for exactly what names n, if the source's int holds it. */
  lemma AtoiIs(s: string, n: nat)
    ensures Atoi(s) == Some(n) <==> n < INT_END && Names(s, n)
  {
    hide IsNumeral, Value;
    NumeralIs(s, n);
    if s != "" {
      NumeralIs(s[1..], n);
      assert Digits(s) ==> IsDigit(s[0]);
    }
  }

  /** Atoi reads back every number the source's int can hold, and no numeral beyond it. */
  lemma AtoiReadsItoa(n: nat)
    ensures Atoi(Itoa(n)) == if n < INT_END then Some(n) else None
  {
    ValueOfItoa(n);
    assert IsDigit(Itoa(n)[0]);
  }
}
