/** The fabrication helpers the presets share. */
module Fabrication {
  import opened Text
  import Decimals
  import opened Random
  import opened Calendar
  import opened Models
  import opened GroundTruth

  function Counterparties(): (names: seq<string>)
    ensures |names| == 10
  {
    ["Fournitures Nébula SARL", "Client Orion SAS", "Ateliers du Lys", "Distribution Callisto",
     "Services Amarante", "Négoce Périclès", "Imprimerie Boréale", "Transports Zéphyr",
     "Conseil Hélianthe", "Matériaux Cassiopée"]
  }

  function Suffixes(): (names: seq<string>)
    ensures |names| == 5
  {
    ["Holding", "Filiale Nord", "Filiale Sud", "Filiale Export", "Filiale Services"]
  }

  function EntityLabel(target: string, index: nat): string {
    target + (" " + Suffixes()[index % 5])
  }

  lemma SuffixesDiffer(a: nat, b: nat)
    requires a < 5 && b < 5 && Suffixes()[a] == Suffixes()[b]
    ensures a == b
  {
    var s := Suffixes();
    assert |s[0]| == 7 && |s[1]| == 12 && |s[2]| == 11 && |s[3]| == 14 && |s[4]| == 16;
  }

  /** Labels repeat with period five and are otherwise distinct. */
  lemma EntityLabelIdentifies(target: string, i: nat, j: nat)
    ensures EntityLabel(target, i) == EntityLabel(target, j) <==> i % 5 == j % 5
  {
    var a, b := " " + Suffixes()[i % 5], " " + Suffixes()[j % 5];
    if target + a == target + b {
      assert (target + a)[|target|..] == a && (target + b)[|target|..] == b;
      assert a[1..] == Suffixes()[i % 5] && b[1..] == Suffixes()[j % 5];
      SuffixesDiffer(i % 5, j % 5);
    }
  }

  const IBAN_PREFIX := "FR7699999"

  /** The five kinds of entity, in turn. */
  lemma EntityLabelText(target: string, i: nat)
    ensures i % 5 == 0 ==> EntityLabel(target, i) == target + " Holding"
    ensures i % 5 == 1 ==> EntityLabel(target, i) == target + " Filiale Nord"
    ensures i % 5 == 2 ==> EntityLabel(target, i) == target + " Filiale Sud"
    ensures i % 5 == 3 ==> EntityLabel(target, i) == target + " Filiale Export"
    ensures i % 5 == 4 ==> EntityLabel(target, i) == target + " Filiale Services"
  {
    assert " " + "Holding" == " Holding" && " " + "Filiale Nord" == " Filiale Nord";
    assert " " + "Filiale Sud" == " Filiale Sud";
    assert " " + "Filiale Export" == " Filiale Export" && " " + "Filiale Services" == " Filiale Services";
  }

  /** The digits drawn from position `cur`. */
  function DrawnDigits(stream: Stream, cur: nat, n: nat): (s: string)
    ensures |s| == n && AllDigits(s)
  {
    if n == 0 then "" else DrawnDigits(stream, cur, n - 1) + [Digit(IntOf(stream(cur + n - 1), 0, 9))]
  }

  function IbanAt(stream: Stream, cur: nat): string {
    IBAN_PREFIX + DrawnDigits(stream, cur, 18)
  }

  /** A fabricated IBAN from the test range: 18 seeded digits behind a fixed prefix. */
  method TestIban(rng: Rng) returns (iban: string)
    modifies rng
    ensures rng.cursor == old(rng.cursor) + 18
    ensures iban == IbanAt(rng.stream, old(rng.cursor))
  {
    var digits := "";
    for n := 0 to 18
      invariant rng.cursor == old(rng.cursor) + n
      invariant digits == DrawnDigits(rng.stream, old(rng.cursor), n)
    {
      var d := rng.RandInt(0, 9);
      digits := digits + [Digit(d)];
    }
    iban := IBAN_PREFIX + digits;
  }

  lemma IbanAtValid(stream: Stream, cur: nat)
    ensures IsIban(IbanAt(stream, cur))
  {
    var s := IbanAt(stream, cur);
    assert |s| == 27;
    forall i | 2 <= i < |s| ensures IsUpper(s[i]) || IsDigit(s[i]) {
      if i >= 9 { assert s[i] == DrawnDigits(stream, cur, 18)[i - 9]; }
    }
  }

  lemma {:induction false} DigitDrawn(stream: Stream, cur: nat, n: nat, k: nat)
    requires k < n
    ensures DrawnDigits(stream, cur, n)[k] == Digit(IntOf(stream(cur + k), 0, 9))
  {
    if k < n - 1 {
      DigitDrawn(stream, cur, n - 1, k);
    }
  }

  /** The fixed prefix of the test range, then the eighteen drawn digits in order. */
  lemma IbanDigits(stream: Stream, cur: nat)
    ensures |IbanAt(stream, cur)| == 27 && IbanAt(stream, cur)[..9] == "FR7699999"
    ensures forall n :: 9 <= n < 27 ==> IbanAt(stream, cur)[n] == Digit(IntOf(stream(cur + n - 9), 0, 9))
  {
    forall n | 9 <= n < 27 ensures IbanAt(stream, cur)[n] == Digit(IntOf(stream(cur + n - 9), 0, 9)) {
      assert IbanAt(stream, cur)[n] == DrawnDigits(stream, cur, 18)[n - 9];
      DigitDrawn(stream, cur, 18, n - 9);
    }
  }

  /** Every amount the presets print is a decimal string. */
  lemma MoneyIsDecimal(v: real)
    ensures IsDecimal(Money(v))
  {
    Decimals.ParseMoney(v);
  }

  lemma RoundWhole(n: int)
    ensures Round(n as real) == n
  {
  }

  /** `round(n * ratio)`: never more than `n`, and no less for a larger ratio. */
  function Share(n: nat, ratio: real): (k: nat)
    requires 0.0 <= ratio <= 1.0
    ensures k <= n
  {
    PartRange(n as real, ratio);
    RoundMonotone(0.0, Part(n as real, ratio));
    RoundMonotone(Part(n as real, ratio), n as real);
    RoundWhole(0);
    RoundWhole(n);
    Round(Part(n as real, ratio))
  }

  lemma NearestOf(v: real)
    ensures -0.5 <= Round(v) as real - v <= 0.5
    ensures Round(v) as real - v == 0.5 || Round(v) as real - v == -0.5 ==> Round(v) % 2 == 0
  {
  }

  /** The share is the nearest whole number, the even one of two as near. */
  lemma ShareNearest(n: nat, ratio: real)
    requires 0.0 <= ratio <= 1.0
    ensures var off := Share(n, ratio) as real - n as real * ratio;
            -0.5 <= off <= 0.5 && (off == 0.5 || off == -0.5 ==> Share(n, ratio) % 2 == 0)
  {
    var exact := n as real * ratio;
    assert Part(n as real, ratio) == exact;
    assert Share(n, ratio) == Round(Part(n as real, ratio));
    NearestOf(Part(n as real, ratio));
  }

  lemma ShareMonotone(n: nat, ratio: real, more: real)
    requires 0.0 <= ratio <= more <= 1.0
    ensures Share(n, ratio) <= Share(n, more)
  {
    PartMonotone(n as real, ratio, more);
    RoundMonotone(Part(n as real, ratio), Part(n as real, more));
  }

  // ---------------------------------------------------------------------------
  // Currencies
  // ---------------------------------------------------------------------------

  datatype Currency = Eur | Usd | Gbp | Chf

  function Code(c: Currency): (s: string)
    ensures IsCurrency(s)
  {
    match c
    case Eur => "EUR"
    case Usd => "USD"
    case Gbp => "GBP"
    case Chf => "CHF"
  }

  function Codes(): seq<string> {
    [Code(Eur), Code(Usd), Code(Gbp), Code(Chf)]
  }

  function ReadCurrency(s: string): Currency {
    if s == Code(Eur) then Eur else if s == Code(Usd) then Usd else if s == Code(Gbp) then Gbp else Chf
  }

  /** The four codes. */
  lemma CodeTexts()
    ensures Code(Eur) == "EUR" && Code(Usd) == "USD" && Code(Gbp) == "GBP" && Code(Chf) == "CHF"
    ensures Codes() == ["EUR", "USD", "GBP", "CHF"]
  {
  }

  lemma CodeRead(name: string)
    requires name in Codes()
    ensures Code(ReadCurrency(name)) == name
  {
  }

  lemma EveryCode(c: Currency)
    ensures Code(c) in Codes()
  {
    assert Codes()[0] == Code(Eur) && Codes()[1] == Code(Usd) && Codes()[2] == Code(Gbp) && Codes()[3] == Code(Chf);
  }

  lemma ReadCode(c: Currency)
    ensures ReadCurrency(Code(c)) == c
  {
    assert Code(Eur)[0] == 'E' && Code(Usd)[0] == 'U' && Code(Gbp)[0] == 'G' && Code(Chf)[0] == 'C';
  }

  function ReadCurrencies(names: seq<string>): (cs: seq<Currency>)
    ensures |cs| == |names|
  {
    seq(|names|, i requires 0 <= i < |names| => ReadCurrency(names[i]))
  }

  // ---------------------------------------------------------------------------
  // What every preset starts from
  // ---------------------------------------------------------------------------

  /** What a run depends on besides its parameters: the seed's draws, the label and the day. */
  datatype Inputs = Inputs(stream: Stream, target: string, today: Day)

  /** The day leaves room for the longest history window before it and three days after it. */
  predicate ValidInputs(x: Inputs) {
    1000 <= x.today <= MAX_DAY - 3
  }

  /** The single account of the presets that have one. */
  function AccountOf(iban: string, target: string, balance: real): BankAccount {
    BankAccount(iban, "Compte courant 1", "EUR", EntityLabel(target, 0), Money(balance))
  }

  lemma AccountOfValid(stream: Stream, cur: nat, target: string, balance: real)
    ensures ValidAccount(AccountOf(IbanAt(stream, cur), target, balance))
  {
    hide IbanAt, Money;
    IbanAtValid(stream, cur);
    MoneyIsDecimal(balance);
  }

  /** The batch a generator fills, when no payload dictionary is shared or edited. */
  class GeneratedBatch {
    var records: seq<Record>
    var groundTruth: Node

    constructor ()
      ensures records == [] && groundTruth == NDict(map[])
    {
      records, groundTruth := [], NDict(map[]);
    }

    method Append(r: Record)
      modifies this
      ensures records == old(records) + [r] && groundTruth == old(groundTruth)
    {
      records := records + [r];
    }
  }
}
