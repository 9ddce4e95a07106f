/** What Python's `decimal.Decimal(text)` makes of a string: the test behind the
    record models, and the number an oracle reads back from a payload. ASCII digits only. */
module Decimals {
  import opened Text

  datatype Decimal =
    | NotDecimal
    | Special            // infinities and NaNs
    | Finite(value: real)

  predicate IsSpace(c: char) {
    c == ' ' || '\t' <= c <= '\r' || '\U{1c}' <= c <= '\U{1f}' || c == '\U{85}' || c == '\U{a0}'
  }

  function StripLeft(s: string): (r: string)
    ensures r == "" || !IsSpace(r[0])
    ensures s != "" && !IsSpace(s[0]) ==> r == s
  {
    if s != "" && IsSpace(s[0]) then StripLeft(s[1..]) else s
  }

  function StripRight(s: string): (r: string)
    ensures r == "" || !IsSpace(r[|r| - 1])
    ensures s != "" && !IsSpace(s[|s| - 1]) ==> r == s
  {
    if s != "" && IsSpace(s[|s| - 1]) then StripRight(s[..|s| - 1]) else s
  }

  function WithoutUnderscores(s: string): (r: string)
    ensures '_' !in s ==> r == s
    ensures '_' !in r
  {
    if s == "" then ""
    else if s[0] == '_' then WithoutUnderscores(s[1..])
    else [s[0]] + WithoutUnderscores(s[1..])
  }

  function Lower(s: string): (r: string)
    ensures |r| == |s|
  {
    seq(|s|, i requires 0 <= i < |s| => if 'A' <= s[i] <= 'Z' then (s[i] as int + 32) as char else s[i])
  }

  /** How many characters at the front are digits. */
  function LeadingDigits(s: string): (n: nat)
    ensures n <= |s| && AllDigits(s[..n])
    ensures n == |s| || !IsDigit(s[n])
  {
    if s == "" || !IsDigit(s[0]) then 0 else 1 + LeadingDigits(s[1..])
  }

  function Pow10(e: int): (r: real)
    ensures r > 0.0
    decreases if e < 0 then -e else e
  {
    if e == 0 then 1.0 else if e > 0 then 10.0 * Pow10(e - 1) else Pow10(e + 1) / 10.0
  }

  /** Splits off an optional sign: is it negative, and what follows it. */
  function Unsigned(s: string): (bool, string) {
    if s != "" && (s[0] == '-' || s[0] == '+') then (s[0] == '-', s[1..]) else (false, s)
  }

  function ParseExponent(s: string): (e: Decimal) {
    if s == "" then Finite(1.0)
    else if s[0] != 'e' && s[0] != 'E' then NotDecimal
    else
      var (neg, u) := Unsigned(s[1..]);
      if u == "" || LeadingDigits(u) < |u| then NotDecimal
      else Finite(Pow10(if neg then -Value(u) else Value(u)))
  }

  datatype Parts = Parts(whole: string, fraction: string, rest: string)

  function SplitNumber(s: string): Parts {
    var i := LeadingDigits(s);
    var tail := s[i..];
    if tail != "" && tail[0] == '.' then
      var f := LeadingDigits(tail[1..]);
      Parts(s[..i], tail[1..][..f], tail[1..][f..])
    else
      Parts(s[..i], "", tail)
  }

  /** `digits[.digits][E[sign]digits]` or `.digits[E[sign]digits]`. */
  function NumberOf(p: Parts): Decimal {
    if p.whole + p.fraction == "" then NotDecimal
    else
      match ParseExponent(p.rest)
      case Finite(scale) =>
        Finite((Value(p.whole) as real + Value(p.fraction) as real * Pow10(-|p.fraction|)) * scale)
      case other => NotDecimal
  }

  function ParseNumber(s: string): Decimal {
    NumberOf(SplitNumber(s))
  }

  predicate IsSpecial(lower: string) {
    lower == "inf" || lower == "infinity"
    || ("nan" <= lower && AllDigits(lower[3..]))
    || ("snan" <= lower && AllDigits(lower[4..]))
  }

  function Trimmed(text: string): string {
    WithoutUnderscores(StripRight(StripLeft(text)))
  }

  function ParseDecimal(text: string): Decimal {
    var (neg, u) := Unsigned(Trimmed(text));
    if IsSpecial(Lower(u)) then Special
    else
      match ParseNumber(u)
      case Finite(v) => Finite(if neg then -v else v)
      case other => NotDecimal
  }

  /** `float(text)` of a printed amount. */
  function Amount(text: string): real {
    match ParseDecimal(text)
    case Finite(v) => v
    case _ => 0.0
  }

  lemma {:induction false} LeadingDigitsOf(ds: string, rest: string)
    requires AllDigits(ds)
    requires rest == "" || !IsDigit(rest[0])
    ensures LeadingDigits(ds + rest) == |ds|
  {
    if ds == "" {
      assert ds + rest == rest;
    } else {
      LeadingDigitsOf(ds[1..], rest);
      assert (ds + rest)[1..] == ds[1..] + rest;
    }
  }

  lemma SplitPoint(a: string, b: string)
    requires AllDigits(a) && AllDigits(b)
    ensures SplitNumber(a + "." + b) == Parts(a, b, "")
  {
    var u := a + "." + b;
    LeadingDigitsOf(a, "." + b);
    assert u == a + ("." + b);
    assert u[|a|..] == "." + b;
    assert ("." + b)[1..] == b && b + "" == b;
    LeadingDigitsOf(b, "");
    assert b[|b|..] == "";
  }

  lemma SplitDigits(ds: string)
    requires AllDigits(ds)
    ensures SplitNumber(ds) == Parts(ds, "", "")
  {
    LeadingDigitsOf(ds, "");
    assert ds + "" == ds && ds[..|ds|] == ds && ds[|ds|..] == "";
  }

  lemma Plain(s: string)
    requires s != "" && forall i :: 0 <= i < |s| ==> IsDigit(s[i]) || s[i] == '-' || s[i] == '.'
    ensures Trimmed(s) == s
  {
    assert !IsSpace(s[0]) && !IsSpace(s[|s| - 1]);
    assert StripRight(StripLeft(s)) == s;
  }

  lemma NotSpecial(s: string)
    requires s != "" && IsDigit(s[0])
    ensures !IsSpecial(Lower(s))
  {
    assert Lower(s)[0] == s[0];
  }

  lemma SignSplit(neg: bool, u: string)
    requires u != "" && IsDigit(u[0])
    ensures Unsigned(Signed(neg, u)) == (neg, u)
  {
    assert ("-" + u)[1..] == u;
  }

  lemma Assemble(neg: bool, u: string, x: real)
    requires u != "" && IsDigit(u[0]) && forall i :: 0 <= i < |u| ==> IsDigit(u[i]) || u[i] == '.'
    requires ParseNumber(u) == Finite(x)
    ensures ParseDecimal(Signed(neg, u)) == Finite(if neg then -x else x)
  {
    Plain(Signed(neg, u));
    SignSplit(neg, u);
    NotSpecial(u);
  }

  /** A digit string is read as the integer it denotes. */
  lemma ParseDigits(ds: string)
    requires AllDigits(ds) && ds != ""
    ensures ParseDecimal(ds) == Finite(Value(ds) as real)
  {
    SplitDigits(ds);
    Assemble(false, ds, Value(ds) as real);
  }

  lemma TwoPlaces(c: nat, whole: string, fraction: string)
    requires Value(whole) == c / 100 && Value(fraction) == c % 100 && whole != "" && |fraction| == 2
    ensures NumberOf(Parts(whole, fraction, "")) == Finite(c as real / 100.0)
  {
    assert Pow10(-2) == Pow10(-1) / 10.0 == 0.01;
    assert c == 100 * (c / 100) + c % 100;
    assert c as real == 100.0 * (c / 100) as real + (c % 100) as real;
  }

  lemma ParseSigned(neg: bool, a: string, b: string, c: nat)
    requires AllDigits(a) && AllDigits(b) && a != "" && |b| == 2
    requires Value(a) == c / 100 && Value(b) == c % 100
    ensures ParseDecimal(Signed(neg, a + "." + b)) == Finite((if neg then -(c as real) else c as real) / 100.0)
  {
    var u := a + "." + b;
    SplitPoint(a, b);
    TwoPlaces(c, a, b);
    assert u[0] == a[0];
    Assemble(neg, u, c as real / 100.0);
  }

  /** Printing an amount and reading it back gives the printed cents exactly. */
  lemma ParseMoney(v: real)
    ensures ParseDecimal(Money(v)) == Finite(Cents(v) as real / 100.0)
  {
    var c := CentsPrinted(v);
    DecWidth(c % 100, 2);
    ParseSigned(v < 0.0, Dec(c / 100), Pad(c % 100, 2), c);
  }

  lemma Untouched(s: string)
    requires s != "" && !IsSpace(s[0]) && !IsSpace(s[|s| - 1]) && '_' !in s
    ensures Trimmed(s) == s
  {
  }

  lemma DigitsThen(a: string, c: char, b: string)
    requires AllDigits(a) && AllDigits(b) && a != "" && b != "" && !IsDigit(c) && c != '.' && c != '_'
    ensures var s := a + ([c] + b);
            Trimmed(s) == s && Unsigned(s) == (false, s) && !IsSpecial(Lower(s)) && SplitNumber(s) == Parts(a, "", [c] + b)
  {
    var s := a + ([c] + b);
    assert s[0] == a[0] && s[|s| - 1] == b[|b| - 1];
    Untouched(s);
    NotSpecial(s);
    LeadingDigitsOf(a, [c] + b);
  }

  lemma Exponent(b: string)
    requires AllDigits(b) && b != ""
    ensures ParseExponent("e" + b) == Finite(Pow10(Value(b))) && ParseExponent("," + b) == NotDecimal
  {
    assert ("e" + b)[1..] == b;
    LeadingDigitsOf(b, "");
    assert b + "" == b;
  }

  lemma NoFraction(a: string)
    ensures (Value(a) as real + Value("") as real * Pow10(-|""|)) == Value(a) as real && a + "" == a
  {
  }

  /** A number may have an exponent; a comma is not a point. */
  lemma ExponentAndComma(a: string, b: string)
    requires AllDigits(a) && AllDigits(b) && a != "" && b != ""
    ensures ParseDecimal(a + ("e" + b)) == Finite(Value(a) as real * Pow10(Value(b)))
    ensures ParseDecimal(a + ("," + b)) == NotDecimal
  {
    hide Trimmed, Unsigned, IsSpecial, SplitNumber, Value, LeadingDigits, Pow10, ParseExponent;
    DigitsThen(a, 'e', b);
    DigitsThen(a, ',', b);
    Exponent(b);
    NoFraction(a);
  }

  /** Amounts at least one apart print differently. */
  lemma MoneyApart(v: real, w: real)
    requires v + 1.0 <= w
    ensures Money(v) != Money(w)
  {
    hide Money, Cents, ParseDecimal;
    CentsApart(v, w);
    ParseMoney(v);
    ParseMoney(w);
  }

  /** A printed amount reads back within half a cent of it. */
  lemma MoneyReads(v: real)
    ensures ParseDecimal(Money(v)).Finite? && Abs(ParseDecimal(Money(v)).value - v) <= 0.005
  {
    hide Money, ParseDecimal, Cents;
    ParseMoney(v);
    CentsNearest(v);
  }
}
