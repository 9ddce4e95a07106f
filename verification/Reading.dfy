/** What an observer looks for in a cash flow read back from a payload. */
module Reading {
  import opened Options
  import opened Text
  import opened Decimals
  import opened Models

  /** An amount between the bounds as printed, its sign the flow's direction. */
  predicate SignedBetween(f: CashFlow, lo: real, hi: real, positive: bool) {
    && ParseDecimal(f.amount).Finite?
    && var v := ParseDecimal(f.amount).value;
       lo - 0.005 <= Abs(v) <= hi + 0.005 && (v > 0.0 <==> positive) && (f.direction == Credit <==> positive)
  }

  /** A prefix and a number of six digits. */
  ghost predicate Numbered(ref: Option<string>, prefix: string) {
    exists n: nat :: 100000 <= n <= 999999 && ref == Some(prefix + Dec(n))
  }

  lemma NumberedWith(ref: Option<string>, prefix: string, n: nat)
    requires 100000 <= n <= 999999 && ref == Some(prefix + Dec(n))
    ensures Numbered(ref, prefix)
  {
  }
}
