/** The consolidation figures read back from the emitted records. */
module ConsolidationTruth {
  import opened Options
  import opened Text
  import opened Decimals
  import opened Random
  import opened Models
  import opened Fabrication
  import opened Sequences
  import opened GroundTruth
  import opened Consolidation

  // ---------------------------------------------------------------------------
  // The total
  // ---------------------------------------------------------------------------

  /** The fixed rates by currency code. */
  function RateOf(code: string): real {
    if code == "EUR" then 1.0 else if code == "USD" then 0.92 else if code == "GBP" then 1.17 else 1.05
  }

  lemma RateOfCode(c: Currency)
    ensures RateOf(Code(c)) == Rate(c)
  {
    assert "EUR"[0] == 'E' && "USD"[0] == 'U' && "GBP"[0] == 'G' && "CHF"[0] == 'C';
  }

  /** A record's balance in euros: its amount parsed, at the rate of the currency it names. */
  function EurosOf(r: Record): real {
    match (r.kind, TextField(r.payload, "currency"), TextField(r.payload, "balance"))
    case (BankAccountKind, Some(code), Some(balance)) => Part(RateOf(code), Amount(balance))
    case _ => 0.0
  }

  /** What the batch's accounts add up to. */
  function WeightedSum(rs: seq<Record>): real {
    if rs == [] then 0.0 else WeightedSum(rs[..|rs| - 1]) + EurosOf(rs[|rs| - 1])
  }

  lemma {:induction false} WeightedSumConcat(rs: seq<Record>, ss: seq<Record>)
    ensures WeightedSum(rs + ss) == WeightedSum(rs) + WeightedSum(ss)
  {
    hide EurosOf;
    if ss == [] {
      assert rs + ss == rs;
    } else {
      var n := |ss| - 1;
      WeightedSumConcat(rs, ss[..n]);
      assert (rs + ss)[..|rs + ss| - 1] == rs + ss[..n];
    }
  }

  lemma AccountEuros(p: ConsParams, x: Inputs, e: nat, j: nat)
    requires ValidParams(p)
    ensures EurosOf(AccountRecord(p, x, e, j)) == InEuros(p, x, j)
  {
    hide DumpAccount, Iban, Money, EntityLabel, Code, Amount, CurrencyAt, Rate, RateOf, Balance;
    AccountFields(AccountNumber(p, x, e, j));
    RateOfCode(CurrencyAt(p, j));
  }

  lemma {:induction false} FlowsWeighNothing(p: ConsParams, x: Inputs, j: nat, n: nat)
    requires ValidParams(p) && ValidInputs(x)
    ensures WeightedSum(FlowsUpTo(p, x, j, n)) == 0.0
  {
    hide DumpFlow, FlowNumber;
    if n > 0 {
      FlowsWeighNothing(p, x, j, n - 1);
    }
  }

  lemma BlockEuros(p: ConsParams, x: Inputs, e: nat, j: nat)
    requires ValidParams(p) && ValidInputs(x)
    ensures WeightedSum([AccountRecord(p, x, e, j)] + FlowsUpTo(p, x, j, FLOWS_PER_ACCOUNT)) == InEuros(p, x, j)
  {
    hide AccountRecord, FlowsUpTo, InEuros, EurosOf;
    var account := AccountRecord(p, x, e, j);
    WeightedSumConcat([account], FlowsUpTo(p, x, j, FLOWS_PER_ACCOUNT));
    FlowsWeighNothing(p, x, j, FLOWS_PER_ACCOUNT);
    AccountEuros(p, x, e, j);
    assert [account][..0] == [];
  }

  lemma {:induction false} SumUpTo(p: ConsParams, x: Inputs, e: nat, a: nat)
    requires ValidParams(p) && ValidInputs(x) && a <= p.perEntity
    ensures WeightedSum(RecordsUpTo(p, x, e, a)) == Total(p, x, AccountIndex(p, e, a))
    decreases e, a
  {
    hide AccountRecord, FlowsUpTo, InEuros, EurosOf;
    if a > 0 {
      var j := AccountIndex(p, e, a - 1);
      SumUpTo(p, x, e, a - 1);
      BlockEuros(p, x, e, j);
      WeightedSumConcat(RecordsUpTo(p, x, e, a - 1), [AccountRecord(p, x, e, j)] + FlowsUpTo(p, x, j, FLOWS_PER_ACCOUNT));
    } else if e > 0 {
      SumUpTo(p, x, e - 1, p.perEntity);
      AccountIndices(p, e - 1);
    } else {
      AccountIndices(p, 0);
    }
  }

  /** The total is that of the batch's accounts, read back and converted. */
  lemma TotalIsSum(p: ConsParams, x: Inputs)
    requires ValidParams(p) && ValidInputs(x)
    ensures Total(p, x, p.entities * p.perEntity) == WeightedSum(Records(p, x))
  {
    hide RecordsUpTo, Total, WeightedSum;
    SumUpTo(p, x, p.entities, 0);
  }

  lemma RoundTo2Near(v: real)
    ensures Abs(RoundTo2(v) - v) <= 0.005 && RoundedTo(RoundTo2(v), v, 100.0)
  {
    assert NearestUnits(Round(v * 100.0), RoundTo2(v), v, 100.0);
  }

  /** The total of the balances as drawn, before printing. */
  function Drawn(p: ConsParams, x: Inputs, n: nat): real
    requires ValidParams(p)
  {
    if n == 0 then 0.0 else Drawn(p, x, n - 1) + Part(Rate(CurrencyAt(p, n - 1)), Balance(x, n - 1))
  }

  lemma ScaleBound(rate: real, d: real)
    requires 0.0 <= rate <= 1.17 && -0.005 <= d <= 0.005
    ensures -0.00585 <= rate * d <= 0.00585
  {
    Product(rate, 0.005 - d);
    Product(rate, 0.005 + d);
    assert rate * (0.005 - d) == rate * 0.005 - rate * d;
    assert rate * (0.005 + d) == rate * 0.005 + rate * d;
  }

  lemma PartApart(rate: real, u: real, v: real)
    requires 0.0 <= rate <= 1.17 && Abs(u - v) <= 0.005
    ensures Abs(Part(rate, u) - Part(rate, v)) <= 0.00585
  {
    ScaleBound(rate, u - v);
    assert rate * (u - v) == rate * u - rate * v;
  }

  lemma PrintedNear(v: real)
    ensures Abs(Amount(Money(v)) - v) <= 0.005
  {
    hide Money, ParseDecimal, Cents;
    ParseMoney(v);
    CentsNearest(v);
  }

  /** Printing the balances costs at most half a cent each, at the account's rate. */
  lemma {:induction false} PrintingIsCheap(p: ConsParams, x: Inputs, n: nat)
    requires ValidParams(p)
    ensures Abs(Total(p, x, n) - Drawn(p, x, n)) <= 0.00585 * n as real
  {
    hide Money, Amount, Part, Balance, CurrencyAt;
    if n > 0 {
      PrintingIsCheap(p, x, n - 1);
      PrintedNear(Balance(x, n - 1));
      PartApart(Rate(CurrencyAt(p, n - 1)), Amount(Money(Balance(x, n - 1))), Balance(x, n - 1));
    }
  }

  // ---------------------------------------------------------------------------
  // The entities
  // ---------------------------------------------------------------------------

  /** The entities the batch's accounts name. */
  ghost function EntitiesIn(rs: seq<Record>): set<string> {
    set r | r in rs && r.kind == BankAccountKind && TextField(r.payload, "entity").Some? :: TextField(r.payload, "entity").value
  }

  lemma EntitiesConcat(rs: seq<Record>, ss: seq<Record>)
    ensures EntitiesIn(rs + ss) == EntitiesIn(rs) + EntitiesIn(ss)
  {
    forall name ensures name in EntitiesIn(rs + ss) <==> name in EntitiesIn(rs) || name in EntitiesIn(ss) {
      if name in EntitiesIn(rs) {
        var r :| r in rs && r.kind == BankAccountKind && TextField(r.payload, "entity") == Some(name);
        assert r in rs + ss;
      }
      if name in EntitiesIn(ss) {
        var r :| r in ss && r.kind == BankAccountKind && TextField(r.payload, "entity") == Some(name);
        assert r in rs + ss;
      }
    }
  }

  lemma {:induction false} FlowsNameNone(p: ConsParams, x: Inputs, j: nat, n: nat)
    requires ValidParams(p) && ValidInputs(x)
    ensures forall r :: r in FlowsUpTo(p, x, j, n) ==> r.kind == CashFlowKind
  {
    hide DumpFlow, FlowNumber;
    if n > 0 {
      FlowsNameNone(p, x, j, n - 1);
    }
  }

  lemma BlockEntity(p: ConsParams, x: Inputs, e: nat, j: nat)
    requires ValidParams(p) && ValidInputs(x)
    ensures EntitiesIn([AccountRecord(p, x, e, j)] + FlowsUpTo(p, x, j, FLOWS_PER_ACCOUNT)) == {EntityLabel(x.target, e)}
  {
    hide DumpAccount, FlowsUpTo, Iban, Money, EntityLabel, Code, CurrencyAt;
    var account, flows := AccountRecord(p, x, e, j), FlowsUpTo(p, x, j, FLOWS_PER_ACCOUNT);
    FlowsNameNone(p, x, j, FLOWS_PER_ACCOUNT);
    AccountFields(AccountNumber(p, x, e, j));
    EntitiesConcat([account], flows);
    assert account in [account];
    assert TextField(account.payload, "entity") == Some(EntityLabel(x.target, e));
    assert EntityLabel(x.target, e) in EntitiesIn([account]);
    assert EntitiesIn([account]) == {EntityLabel(x.target, e)};
    assert EntitiesIn(flows) == {};
  }

  /** The first `n` entity labels. */
  ghost function Labels(target: string, n: nat): set<string> {
    if n == 0 then {} else Labels(target, n - 1) + {EntityLabel(target, n - 1)}
  }

  lemma {:induction false} LabelIn(target: string, n: nat, i: nat)
    ensures EntityLabel(target, i) in Labels(target, n) <==> i % 5 < n
  {
    hide EntityLabel;
    if n > 0 {
      LabelIn(target, n - 1, i);
      EntityLabelIdentifies(target, n - 1, i);
    }
  }

  lemma Remainder5(n: nat)
    ensures n % 5 < n <==> n >= 5
  {
  }

  lemma {:induction false} LabelCount(target: string, n: nat)
    ensures |Labels(target, n)| == if n < 5 then n else 5
  {
    hide EntityLabel;
    if n > 0 {
      LabelCount(target, n - 1);
      LabelIn(target, n - 1, n - 1);
      Remainder5(n - 1);
      var before, next := Labels(target, n - 1), EntityLabel(target, n - 1);
      if n <= 5 {
        assert next !in before && Labels(target, n) == before + {next};
      } else {
        assert Labels(target, n) == before;
      }
    }
  }

  lemma {:induction false} EntitiesUpTo(p: ConsParams, x: Inputs, e: nat, a: nat)
    requires ValidParams(p) && ValidInputs(x) && a <= p.perEntity
    ensures EntitiesIn(RecordsUpTo(p, x, e, a)) == Labels(x.target, if a > 0 then e + 1 else e)
    decreases e, a
  {
    hide AccountRecord, FlowsUpTo, EntityLabel, AccountIndex;
    if a > 0 {
      var j := AccountIndex(p, e, a - 1);
      EntitiesUpTo(p, x, e, a - 1);
      BlockEntity(p, x, e, j);
      EntitiesConcat(RecordsUpTo(p, x, e, a - 1), [AccountRecord(p, x, e, j)] + FlowsUpTo(p, x, j, FLOWS_PER_ACCOUNT));
    } else if e > 0 {
      EntitiesUpTo(p, x, e - 1, p.perEntity);
    } else {
      assert EntitiesIn([]) == {};
    }
  }

  /** There are only five suffixes, so the accounts name as many entities as the manifest expects
      exactly when it expects five or fewer. */
  lemma EntitiesAreTrueUpToFive(p: ConsParams, x: Inputs)
    requires ValidParams(p) && ValidInputs(x)
    ensures |EntitiesIn(Records(p, x))| == if p.entities < 5 then p.entities else 5
    ensures |EntitiesIn(Records(p, x))| == p.entities <==> p.entities <= 5
  {
    hide RecordsUpTo, EntitiesIn, Labels;
    EntitiesUpTo(p, x, p.entities, 0);
    LabelCount(x.target, p.entities);
  }

  // ---------------------------------------------------------------------------
  // Extent and validity
  // ---------------------------------------------------------------------------

  lemma {:induction false} SizeUpTo(p: ConsParams, x: Inputs, e: nat, a: nat)
    requires ValidParams(p) && ValidInputs(x) && a <= p.perEntity
    ensures |RecordsUpTo(p, x, e, a)| == 6 * AccountIndex(p, e, a)
    decreases e, a
  {
    hide AccountRecord, FlowsUpTo;
    if a > 0 {
      SizeUpTo(p, x, e, a - 1);
    } else if e > 0 {
      SizeUpTo(p, x, e - 1, p.perEntity);
      AccountIndices(p, e - 1);
    } else {
      AccountIndices(p, 0);
    }
  }

  lemma {:induction false} AtMost(e: nat, a: nat)
    requires e <= 15 && a <= 10
    ensures e * a <= 10 * e
  {
    if e > 0 {
      AtMost(e - 1, a);
      assert e * a == (e - 1) * a + a;
    }
  }

  lemma RecordsSize(p: ConsParams, x: Inputs)
    requires ValidParams(p) && ValidInputs(x)
    ensures |Records(p, x)| == 6 * (p.entities * p.perEntity) <= 900
  {
    hide RecordsUpTo;
    SizeUpTo(p, x, p.entities, 0);
    AtMost(p.entities, p.perEntity);
  }

  lemma {:induction false} SameFlows(p: ConsParams, q: ConsParams, x: Inputs, j: nat, n: nat)
    requires ValidParams(p) && ValidParams(q) && ValidInputs(x) && q.currencies == p.currencies
    ensures FlowsUpTo(p, x, j, n) == FlowsUpTo(q, x, j, n)
  {
    hide DumpFlow, SettledFlow, Iban, FlowAmount, ChoiceOf, Counterparties;
    if n > 0 {
      SameFlows(p, q, x, j, n - 1);
    }
  }

  lemma {:induction false} SameRecords(p: ConsParams, q: ConsParams, x: Inputs, e: nat, a: nat)
    requires ValidParams(p) && ValidParams(q) && ValidInputs(x) && a <= p.perEntity
    requires q.currencies == p.currencies && q.perEntity == p.perEntity
    ensures RecordsUpTo(p, x, e, a) == RecordsUpTo(q, x, e, a)
    decreases e, a
  {
    hide FlowsUpTo, DumpAccount, AccountFor, Iban, EntityLabel, Balance;
    if a > 0 {
      SameRecords(p, q, x, e, a - 1);
      SameFlows(p, q, x, AccountIndex(p, e, a - 1), FLOWS_PER_ACCOUNT);
    } else if e > 0 {
      SameRecords(p, q, x, e - 1, p.perEntity);
    }
  }

  lemma {:induction false} RecordsGrow(p: ConsParams, x: Inputs, e: nat, d: nat, b: nat)
    requires ValidParams(p) && ValidInputs(x) && b <= p.perEntity
    ensures RecordsUpTo(p, x, e, 0) <= RecordsUpTo(p, x, e + d, b)
    decreases d, b
  {
    hide AccountRecord, FlowsUpTo, AccountIndex;
    if b > 0 {
      RecordsGrow(p, x, e, d, b - 1);
    } else if d > 0 {
      RecordsGrow(p, x, e, d - 1, p.perEntity);
    }
  }

  /** Raising the number of entities only adds records at the end. */
  lemma MoreEntitiesExtend(p: ConsParams, q: ConsParams, x: Inputs)
    requires ValidParams(p) && ValidParams(q) && ValidInputs(x)
    requires q == p.(entities := q.entities) && p.entities <= q.entities
    ensures Records(p, x) <= Records(q, x)
  {
    hide RecordsUpTo;
    SameRecords(p, q, x, p.entities, 0);
    RecordsGrow(q, x, p.entities, q.entities - p.entities, 0);
  }

  lemma AccountValid(p: ConsParams, x: Inputs, e: nat, j: nat)
    requires ValidParams(p)
    ensures Validate(AccountRecord(p, x, e, j)) == Some(AccountRecord(p, x, e, j))
  {
    hide DumpAccount, ReadAccount, IbanAt, Money, EntityLabel, Code, CurrencyAt, Balance;
    IbanAtValid(x.stream, CursorAt(j) + 1);
    MoneyIsDecimal(Balance(x, j));
    AccountRoundTrip(AccountNumber(p, x, e, j));
  }

  lemma FlowValid(p: ConsParams, x: Inputs, j: nat, f: nat)
    requires ValidParams(p) && ValidInputs(x)
    ensures var r := Record(CashFlowKind, DumpFlow(FlowNumber(p, x, j, f))); Validate(r) == Some(r)
  {
    hide DumpFlow, ReadFlow, IbanAt, Money, Code, CurrencyAt, FlowAmount, ChoiceOf, Counterparties;
    IbanAtValid(x.stream, CursorAt(j) + 1);
    MoneyIsDecimal(FlowAmount(x, FlowCursor(j, f)));
    FlowRoundTrip(FlowNumber(p, x, j, f));
  }

  lemma {:induction false} FlowsValid(p: ConsParams, x: Inputs, j: nat, n: nat)
    requires ValidParams(p) && ValidInputs(x)
    ensures forall r :: r in FlowsUpTo(p, x, j, n) ==> Validate(r) == Some(r)
  {
    hide DumpFlow, FlowNumber, Validate;
    if n > 0 {
      FlowsValid(p, x, j, n - 1);
      FlowValid(p, x, j, n - 1);
    }
  }

  /** Every record of the batch passes the record models unchanged. */
  lemma {:induction false} RecordsValid(p: ConsParams, x: Inputs, e: nat, a: nat)
    requires ValidParams(p) && ValidInputs(x) && a <= p.perEntity
    ensures forall r :: r in RecordsUpTo(p, x, e, a) ==> Validate(r) == Some(r)
    decreases e, a
  {
    hide AccountRecord, FlowsUpTo, AccountIndex, Validate;
    if a > 0 {
      var j := AccountIndex(p, e, a - 1);
      RecordsValid(p, x, e, a - 1);
      AccountValid(p, x, e, j);
      FlowsValid(p, x, j, FLOWS_PER_ACCOUNT);
    } else if e > 0 {
      RecordsValid(p, x, e - 1, p.perEntity);
    }
  }

  // ---------------------------------------------------------------------------
  // The manifest
  // ---------------------------------------------------------------------------

  lemma FlowsAreNoAccounts(p: ConsParams, x: Inputs, e: nat, j: nat)
    requires ValidParams(p) && ValidInputs(x)
    ensures Tally([AccountRecord(p, x, e, j)] + FlowsUpTo(p, x, j, FLOWS_PER_ACCOUNT), IsAccount) == 1
  {
    hide FlowsUpTo, DumpAccount, AccountNumber;
    var account, flows := AccountRecord(p, x, e, j), FlowsUpTo(p, x, j, FLOWS_PER_ACCOUNT);
    FlowsNameNone(p, x, j, FLOWS_PER_ACCOUNT);
    TallyConcat([account], flows, IsAccount);
    TallyAll([account], IsAccount, true);
    TallyAll(flows, IsAccount, false);
  }

  lemma {:induction false} AccountsUpTo(p: ConsParams, x: Inputs, e: nat, a: nat)
    requires ValidParams(p) && ValidInputs(x) && a <= p.perEntity
    ensures Tally(RecordsUpTo(p, x, e, a), IsAccount) == AccountIndex(p, e, a)
    decreases e, a
  {
    hide AccountRecord, FlowsUpTo, IsAccount;
    if a > 0 {
      var j := AccountIndex(p, e, a - 1);
      AccountsUpTo(p, x, e, a - 1);
      FlowsAreNoAccounts(p, x, e, j);
      TallyConcat(RecordsUpTo(p, x, e, a - 1), [AccountRecord(p, x, e, j)] + FlowsUpTo(p, x, j, FLOWS_PER_ACCOUNT), IsAccount);
    } else if e > 0 {
      AccountsUpTo(p, x, e - 1, p.perEntity);
      AccountIndices(p, e - 1);
    } else {
      AccountIndices(p, 0);
    }
  }

  lemma NumberOfAccounts(p: ConsParams, x: Inputs)
    requires ValidParams(p) && ValidInputs(x)
    ensures Tally(Records(p, x), IsAccount) == p.entities * p.perEntity
  {
    hide RecordsUpTo, IsAccount;
    AccountsUpTo(p, x, p.entities, 0);
  }

  /** What the manifest of a run says, against what an observer reads back from its records: the
      number of accounts, the total to half a cent, and the number of entities if and only if
      there are no more than five. */
  lemma ManifestIsTrue(p: ConsParams, x: Inputs)
    requires ValidParams(p) && ValidInputs(x)
    ensures var m, rs := Manifest(p, Total(p, x, p.entities * p.perEntity)), Records(p, x);
            && m.NDict? && "expected_accounts" in m.entries && "expected_total_eur_approx" in m.entries
            && "expected_entities" in m.entries
            && m.entries["expected_accounts"] == NInt(Tally(rs, IsAccount))
            && m.entries["expected_total_eur_approx"].NFloat?
            && RoundedTo(m.entries["expected_total_eur_approx"].r, WeightedSum(rs), 100.0)
            && Abs(m.entries["expected_total_eur_approx"].r - WeightedSum(rs)) <= 0.005
            && (m.entries["expected_entities"] == NInt(|EntitiesIn(rs)|) <==> p.entities <= 5)
  {
    hide Records, Total, WeightedSum, EntitiesIn, IsAccount, RoundTo2, RoundedTo;
    TotalIsSum(p, x);
    NumberOfAccounts(p, x);
    RoundTo2Near(Total(p, x, p.entities * p.perEntity));
    EntitiesAreTrueUpToFive(p, x);
  }

  /** Six entities, of which the accounts name five. */
  lemma SixEntitiesExample(x: Inputs)
    requires ValidInputs(x)
    ensures var p := ConsParams(6, 1, [Eur]);
            var m := Manifest(p, Total(p, x, 6));
            && ValidParams(p) && |EntitiesIn(Records(p, x))| == 5
            && m.NDict? && "expected_entities" in m.entries && m.entries["expected_entities"] == NInt(6)
  {
    hide Records, EntitiesIn, Total, RoundTo2;
    EntitiesAreTrueUpToFive(ConsParams(6, 1, [Eur]), x);
  }
}
