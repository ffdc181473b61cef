/**
 * Decimal text of integers, as Python's `str(int)` and an f-string's `{n}`
 * write them, together with the parser that inverts that rendering.
 */
module Decimal {
  import opened Wrappers

  predicate IsDigit(c: char) { '0' <= c <= '9' }

  predicate AllDigits(s: string)
  {
    forall i :: 0 <= i < |s| ==> IsDigit(s[i])
  }

  function DigitChar(d: nat): (c: char)
    requires d < 10
    ensures IsDigit(c) && c as int - '0' as int == d
  {
    ('0' as int + d) as char
  }

  function DigitValue(c: char): nat
    requires IsDigit(c)
  {
    c as int - '0' as int
  }

  /** The value of a string of decimal digits, most significant digit first. */
  function DigitsValue(s: string): nat
    requires AllDigits(s)
    decreases |s|
  {
    if s == [] then 0 else DigitsValue(s[..|s| - 1]) * 10 + DigitValue(s[|s| - 1])
  }

  /** Digit strings as `str` writes a natural number: non-empty, no leading zero. */
  predicate Canonical(s: string)
  {
    |s| >= 1 && AllDigits(s) && (|s| > 1 ==> s[0] != '0')
  }

  /** `str(n)` for a natural number. */
  function ShowNat(n: nat): (s: string)
    ensures Canonical(s)
    ensures s[0] == '0' <==> n == 0
    decreases n
  {
    if n < 10 then [DigitChar(n)] else ShowNat(n / 10) + [DigitChar(n % 10)]
  }

  /** `str(i)` for any integer: a minus sign before the digits of a negative one. */
  function ShowInt(i: int): (s: string)
    ensures s != [] && (s[0] == '-' <==> i < 0)
  {
    if i < 0 then "-" + ShowNat(-i) else ShowNat(i)
  }

  /** Reads back exactly the strings `ShowNat` writes. */
  function ParseNat(s: string): Option<nat>
  {
    if Canonical(s) then Some(DigitsValue(s)) else None
  }

  /** Reads back exactly the strings `ShowInt` writes (so "-0" is refused). */
  function ParseInt(s: string): Option<int>
  {
    if |s| > 0 && s[0] == '-' then
      match ParseNat(s[1..])
      case Some(n) => if n > 0 then Some(-(n as int)) else None
      case None => None
    else
      match ParseNat(s)
      case Some(n) => Some(n)
      case None => None
  }

  lemma {:induction false} DigitsValueOfShowNat(n: nat)
    ensures DigitsValue(ShowNat(n)) == n
    decreases n
  {
    if n >= 10 {
      var s := ShowNat(n);
      assert s[..|s| - 1] == ShowNat(n / 10);
      DigitsValueOfShowNat(n / 10);
    }
  }

  /** Parsing undoes rendering. */
  lemma ParseShowNat(n: nat)
    ensures ParseNat(ShowNat(n)) == Some(n)
  {
    DigitsValueOfShowNat(n);
  }

  /** Rendering undoes parsing: `ShowNat` is a bijection onto the canonical digit strings. */
  lemma {:induction false} ShowParseNat(s: string)
    requires Canonical(s)
    ensures ShowNat(DigitsValue(s)) == s
    decreases |s|
  {
    var v := DigitsValue(s);
    var last := s[|s| - 1];
    if |s| == 1 {
      assert s[..|s| - 1] == [];
      assert DigitsValue(s[..|s| - 1]) == 0;
      assert v == DigitValue(last) < 10;
      assert [DigitChar(v)] == s;
    } else {
      var p := s[..|s| - 1];
      assert p[0] == s[0];
      ShowParseNat(p);
      var q := DigitsValue(p);
      assert q != 0;
      assert v / 10 == q && v % 10 == DigitValue(last);
      assert DigitChar(v % 10) == last;
      assert p + [last] == s;
    }
  }

  lemma ParseShowInt(i: int)
    ensures ParseInt(ShowInt(i)) == Some(i)
  {
    if i < 0 {
      var s := ShowInt(i);
      assert s[1..] == ShowNat(-i);
      ParseShowNat(-i);
    } else {
      ParseShowNat(i);
    }
  }

  /** Different integers are written differently. */
  lemma ShowIntInjective(i: int, k: int)
    ensures ShowInt(i) == ShowInt(k) <==> i == k
  {
    ParseShowInt(i);
    ParseShowInt(k);
  }
}
