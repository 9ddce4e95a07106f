/** Decimal text: the printed integers, zero-padded fields and two-decimal money that the
    generators put in payload strings, each with a reader that recovers the number. */
module Text {

  function DigitValue(c: char): int {
    c as int - '0' as int
  }

  predicate IsDigit(c: char) {
    '0' <= c <= '9'
  }

  predicate AllDigits(s: string) {
    forall i :: 0 <= i < |s| ==> IsDigit(s[i])
  }

  function Digit(d: nat): (c: char)
    requires d < 10
    ensures IsDigit(c) && DigitValue(c) == d
  {
    ('0' as int + d) as char
  }

  /** The integer a digit string denotes. */
  function Value(s: string): int {
    if s == "" then 0 else Value(s[..|s| - 1]) * 10 + DigitValue(s[|s| - 1])
  }

  /** `str(n)` for a non-negative integer. */
  function Dec(n: nat): (s: string)
    ensures s != "" && AllDigits(s) && Value(s) == n
  {
    if n < 10 then
      assert [Digit(n)][..0] == "";
      [Digit(n)]
    else
      var s := Dec(n / 10) + [Digit(n % 10)];
      assert s[..|s| - 1] == Dec(n / 10);
      s
  }

  lemma {:induction false} ValueOfLeadingZero(s: string)
    ensures Value("0" + s) == Value(s)
  {
    if s == "" {
      assert ("0" + s)[..0] == "";
    } else {
      ValueOfLeadingZero(s[..|s| - 1]);
      assert ("0" + s)[..|s|] == "0" + s[..|s| - 1];
    }
  }

  /** Left-pads with zeros up to a width, as the `0w` format does. */
  function PadTo(s: string, w: nat): (r: string)
    requires AllDigits(s)
    ensures AllDigits(r) && Value(r) == Value(s)
    ensures |r| == if |s| < w then w else |s|
    decreases w - |s|
  {
    if |s| >= w then s else ValueOfLeadingZero(s); PadTo("0" + s, w)
  }

  /** `f"{n:0wd}"`. Reading the field back gives `n`, whatever the width. */
  function Pad(n: nat, w: nat): (r: string)
    ensures AllDigits(r) && Value(r) == n && |r| >= w && r != ""
  {
    PadTo(Dec(n), w)
  }

  lemma {:induction false} DecWidth(n: nat, w: nat)
    requires 1 <= w <= 6
    requires n < [1, 10, 100, 1000, 10000, 100000, 1000000][w]
    ensures |Dec(n)| <= w
    ensures |Pad(n, w)| == w
  {
    if n >= 10 {
      DecWidth(n / 10, w - 1);
    }
  }

  lemma {:induction false} SameDigits(s: string, t: string)
    requires AllDigits(s) && AllDigits(t) && |s| == |t| && Value(s) == Value(t)
    ensures s == t
  {
    if s != "" {
      var n := |s| - 1;
      assert DigitValue(s[n]) == DigitValue(t[n]);
      SameDigits(s[..n], t[..n]);
      assert s == s[..n] + [s[n]] && t == t[..n] + [t[n]];
    }
  }

  lemma {:induction false} ValueBound(s: string, w: nat)
    requires AllDigits(s) && |s| == w <= 6
    ensures 0 <= Value(s) < [1, 10, 100, 1000, 10000, 100000, 1000000][w]
  {
    if w > 0 {
      ValueBound(s[..w - 1], w - 1);
    }
  }

  /** A field of digits is the padded print of its value. */
  lemma PadOfValue(s: string)
    requires AllDigits(s) && 1 <= |s| <= 6
    ensures Value(s) >= 0 && Pad(Value(s), |s|) == s
  {
    ValueBound(s, |s|);
    DecWidth(Value(s), |s|);
    SameDigits(Pad(Value(s), |s|), s);
  }

  lemma DecOfZero(n: nat)
    ensures Dec(n) == "0" <==> n == 0
  {
    assert Value("0") == 0 by { assert "0"[..0] == ""; }
  }

  /** An integer is printed without leading zeros. */
  lemma {:induction false} DecPlain(n: nat)
    ensures Dec(n) == "0" || Dec(n)[0] != '0'
  {
    if n >= 10 {
      DecPlain(n / 10);
      DecOfZero(n / 10);
    }
  }

  // ---------------------------------------------------------------------------
  // Rounding and money
  // ---------------------------------------------------------------------------

  function Abs(x: real): real {
    if x < 0.0 then -x else x
  }

  /** Python's `round(x)`: to the nearest integer, ties to the even one. */
  function Round(x: real): (n: int)
    ensures -0.5 <= n as real - x <= 0.5
    ensures n as real - x == 0.5 || x - n as real == 0.5 ==> n % 2 == 0
  {
    var f := x.Floor;
    var d := x - f as real;
    if d < 0.5 || (d == 0.5 && f % 2 == 0) then f else f + 1
  }

  predicate NearestUnits(n: int, r: real, v: real, unit: real) {
    && r * unit == n as real && -0.5 <= n as real - v * unit <= 0.5
    && (n as real - v * unit == 0.5 || n as real - v * unit == -0.5 ==> n % 2 == 0)
  }

  /** `r` is `v` rounded to the nearest of that many parts of a unit, to the even one of two as near. */
  ghost predicate RoundedTo(r: real, v: real, unit: real) {
    exists n: int :: NearestUnits(n, r, v, unit)
  }

  lemma RoundMonotone(x: real, y: real)
    requires x <= y
    ensures Round(x) <= Round(y)
  {
  }

  /** The absolute number of cents that `money` prints. */
  function CentsPrinted(v: real): nat {
    Round(Abs(v) * 100.0)
  }

  /** The signed number of cents that `money` prints. */
  function Cents(v: real): int {
    var c: int := CentsPrinted(v);
    if v < 0.0 then -c else c
  }

  function Signed(negative: bool, s: string): string {
    if negative then "-" + s else s
  }

  /** `f"{value:.2f}"`: nearest cent, ties to even; a negative value keeps its sign. */
  function Money(v: real): string {
    var c := CentsPrinted(v);
    Signed(v < 0.0, Dec(c / 100) + "." + Pad(c % 100, 2))
  }

  /** What is printed: a minus sign before a negative value, the whole units, a point and two digits. */
  lemma MoneyForm(v: real)
    ensures exists whole: nat, part: nat :: part < 100 && 100 * whole + part == CentsPrinted(v)
              && Money(v) == (if v < 0.0 then "-" else "") + Dec(whole) + "." + Pad(part, 2)
              && |Pad(part, 2)| == 2
  {
    hide Dec, Pad, CentsPrinted;
    var c := CentsPrinted(v);
    DecWidth(c % 100, 2);
    assert "" + Dec(c / 100) == Dec(c / 100);
    assert 100 * (c / 100) + c % 100 == CentsPrinted(v);
    assert Money(v) == (if v < 0.0 then "-" else "") + Dec(c / 100) + "." + Pad(c % 100, 2);
  }

  lemma CentsNearest(v: real)
    ensures Abs(Cents(v) as real / 100.0 - v) <= 0.005
  {
  }

  /** Two amounts at least one unit apart never print the same cents. */
  lemma CentsApart(v: real, w: real)
    requires v + 1.0 <= w
    ensures Cents(v) < Cents(w)
  {
    CentsNearest(v);
    CentsNearest(w);
  }
}
