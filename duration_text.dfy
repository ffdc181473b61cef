/**
 * Durations written as space-separated components such as "1h 2m 5s", the
 * form both the activity table and the activity detail view use, and the
 * floor-division split of a second count into hours, minutes and seconds.
 */
module DurationText {
  import opened Wrappers
  import opened Decimal

  /** One component of a duration text: an amount followed by its unit letter. */
  datatype Part = Part(amount: nat, unit: char)

  predicate IsUnit(c: char) { c == 'h' || c == 'm' || c == 's' }

  predicate UnitsOk(parts: seq<Part>)
  {
    forall i :: 0 <= i < |parts| ==> IsUnit(parts[i].unit)
  }

  /** f"{a}{u}" for each component, joined by single spaces. */
  function Render(parts: seq<Part>): string
    decreases |parts|
  {
    if parts == [] then ""
    else
      var head := ShowNat(parts[0].amount) + [parts[0].unit];
      if |parts| == 1 then head else head + " " + Render(parts[1..])
  }

  /** The length of the run of digits that starts `s`. */
  function LeadingDigits(s: string): (k: nat)
    ensures k <= |s| && AllDigits(s[..k])
    ensures k < |s| ==> !IsDigit(s[k])
    decreases |s|
  {
    if s == [] || !IsDigit(s[0]) then 0 else 1 + LeadingDigits(s[1..])
  }

  /** Reads a duration text back into its components; `None` for any other text. */
  function ParseParts(s: string): Option<seq<Part>>
    decreases |s|
  {
    var k := LeadingDigits(s);
    if k == |s| then None
    else
      var amount :- ParseNat(s[..k]);
      if !IsUnit(s[k]) then None
      else if k + 1 == |s| then Some([Part(amount, s[k])])
      else if s[k + 1] != ' ' then None
      else
        var rest :- ParseParts(s[k + 2..]);
        Some([Part(amount, s[k])] + rest)
  }

  lemma {:induction false} LeadingDigitsOfConcat(d: string, rest: string)
    requires AllDigits(d)
    requires rest != [] ==> !IsDigit(rest[0])
    ensures LeadingDigits(d + rest) == |d|
    decreases |d|
  {
    if d != [] {
      assert (d + rest)[1..] == d[1..] + rest;
      LeadingDigitsOfConcat(d[1..], rest);
    }
  }

  /** Parsing undoes rendering, for any non-empty list of components. */
  lemma {:induction false} ParseRender(parts: seq<Part>)
    requires parts != [] && UnitsOk(parts)
    ensures ParseParts(Render(parts)) == Some(parts)
    decreases |parts|
  {
    var d := ShowNat(parts[0].amount);
    var u := parts[0].unit;
    var s := Render(parts);
    var tail: string := if |parts| == 1 then [] else " " + Render(parts[1..]);
    assert s == d + ([u] + tail);
    LeadingDigitsOfConcat(d, [u] + tail);
    assert s[..|d|] == d;
    ParseShowNat(parts[0].amount);
    assert s[|d|] == u;
    assert LeadingDigits(s) == |d| < |s|;
    assert ParseNat(s[..|d|]) == Some(parts[0].amount);
    if |parts| > 1 {
      assert s[|d| + 1] == ' ';
      assert s[|d| + 2..] == Render(parts[1..]);
      ParseRender(parts[1..]);
      assert [parts[0]] + parts[1..] == parts;
    } else {
      assert |s| == |d| + 1;
      assert [parts[0]] == parts;
    }
  }

  /** Two renderings are equal exactly when the components are. */
  lemma RenderInjective(p: seq<Part>, q: seq<Part>)
    requires p != [] && UnitsOk(p)
    requires q != [] && UnitsOk(q)
    ensures Render(p) == Render(q) <==> p == q
  {
    ParseRender(p);
    ParseRender(q);
  }

  /**
   * Python's `t // 3600`, `(t % 3600) // 60` and `t % 60` (floor division by a
   * positive divisor, which Dafny's `/` and `%` agree with): minutes and
   * seconds lie in [0, 60), the three recompose `t`, and hours and minutes
   * depend only on the whole minutes `t // 60`.
   */
  lemma ClockSplit(t: int)
    ensures 0 <= (t % 3600) / 60 < 60 && 0 <= t % 60 < 60
    ensures 3600 * (t / 3600) + 60 * ((t % 3600) / 60) + t % 60 == t
    ensures t / 3600 == (t / 60) / 60 && (t % 3600) / 60 == (t / 60) % 60
  {
    var q, r := t / 3600, t % 3600;
    var a, b := r / 60, r % 60;
    assert r == 60 * a + b;
    assert t == 60 * (60 * q + a) + b;
    assert t / 60 == 60 * q + a && t % 60 == b;
  }
}
