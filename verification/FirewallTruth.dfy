/** The firewall preset's manifest is true: a deduplicator finds its duplicates and a validator
    its quarantined records, for every seed and every parameter value. */
module FirewallTruth {
  import opened Options
  import opened Text
  import opened Random
  import opened Decimals
  import opened CanonicalJson
  import opened Calendar
  import opened Models
  import opened Fabrication
  import opened Sequences
  import opened GroundTruth
  import opened Firewall
  import Emitter
  import Idempotency

  // ---------------------------------------------------------------------------
  // References
  // ---------------------------------------------------------------------------

  lemma RefsDiffer(n: nat, k: nat)
    ensures GoodRef(n) != BadRef(k)
  {
    assert GoodRef(n)[3] == Dec(n)[0];
    assert BadRef(k)[3] == 'B';
  }

  lemma BadRefIdentifies(k: nat, l: nat)
    ensures BadRef(k) == BadRef(l) <==> k == l
  {
    if BadRef(k) == BadRef(l) {
      assert BadRef(k)[7..] == Pad(k, 4) && BadRef(l)[7..] == Pad(l, 4);
    }
  }

  /** The reference in a payload, if it has one. */
  function RefOf(p: Payload): Option<string> {
    TextField(p, "ref")
  }

  lemma GoodPayloadRef(x: Inputs, j: nat) returns (n: nat)
    requires ValidInputs(x)
    ensures RefOf(GoodPayload(x, j)) == Some(GoodRef(n))
  {
    hide DumpFlow, GoodRef;
    FlowKeyFields(GoodFlow(x, j));
    n := IntOf(x.stream(19 + 5 * j + 4), 100000, 999999);
  }

  lemma SpoiledRef(base: Payload, defect: Defect, k: nat)
    requires defect != DupSourceHash
    ensures RefOf(Spoil(base, defect, k)) == Some(BadRef(k))
  {
    hide BadRef, BadAmount;
  }

  lemma BadPayloadRef(p: FirewallParams, x: Inputs, k: nat)
    requires ValidParams(p) && ValidInputs(x) && DefectAt(p, k) != DupSourceHash
    ensures RefOf(BadPayload(p, x, k)) == Some(BadRef(k))
  {
    hide GoodPayload, Spoil, RefOf;
    SpoiledRef(GoodPayload(x, SourceOf(p, x, k)), DefectAt(p, k), k);
  }

  lemma AccountHasNoRef(x: Inputs)
    ensures RefOf(DumpAccount(Account(x))) == None
  {
    hide Account;
  }

  lemma DuplicateIsCopy(p: FirewallParams, x: Inputs, k: nat)
    requires ValidParams(p) && ValidInputs(x) && DefectAt(p, k) == DupSourceHash
    ensures BadPayload(p, x, k) == GoodPayload(x, SourceOf(p, x, k))
  {
    hide GoodPayload;
  }

  /** A defective record other than a duplicate is unlike every other record of the batch. */
  lemma DefectiveIsUnique(p: FirewallParams, x: Inputs, k: nat, i: nat)
    requires ValidParams(p) && ValidInputs(x) && k < BadCount(p) && DefectAt(p, k) != DupSourceHash
    requires i < Size(p) && i != 1 + p.baseFlows + k
    ensures PayloadAt(p, x, i) != BadPayload(p, x, k)
  {
    hide DumpAccount, Account, GoodPayload, BadPayload, RefOf, BadRef, GoodRef;
    BadPayloadRef(p, x, k);
    if i == 0 {
      AccountHasNoRef(x);
    } else if i <= p.baseFlows {
      var n := GoodPayloadRef(x, i - 1);
      RefsDiffer(n, k);
    } else {
      var l := i - 1 - p.baseFlows;
      if DefectAt(p, l) == DupSourceHash {
        var n := GoodPayloadRef(x, SourceOf(p, x, l));
        DuplicateIsCopy(p, x, l);
        RefsDiffer(n, k);
      } else {
        BadPayloadRef(p, x, l);
        BadRefIdentifies(k, l);
      }
    }
  }

  // ---------------------------------------------------------------------------
  // Deduplication
  // ---------------------------------------------------------------------------

  function GoodPayloads(p: FirewallParams, x: Inputs): (ps: seq<Payload>)
    requires ValidInputs(x)
    ensures |ps| == p.baseFlows
  {
    seq(p.baseFlows, j requires 0 <= j < p.baseFlows => GoodPayload(x, j))
  }

  lemma RepeatsAmongGood(p: FirewallParams, x: Inputs)
    requires ValidParams(p) && ValidInputs(x)
    ensures Repeats(Records(p, x)[..1 + p.baseFlows]) == Repeats(GoodPayloads(p, x))
  {
    hide Records, GoodPayload, DumpAccount, Account;
    var rs := Records(p, x);
    var flows := rs[1..1 + p.baseFlows];
    AccountRecord(p, x);
    forall j | 0 <= j < p.baseFlows ensures flows[j] == Record(CashFlowKind, GoodPayload(x, j)) {
      GoodRecord(p, x, j);
    }
    assert rs[..1 + p.baseFlows] == [rs[0]] + flows;
    RepeatsAfterUnique(rs[0], flows);
    RepeatsAlike(flows, GoodPayloads(p, x));
  }

  lemma OneMoreBad(p: FirewallParams, x: Inputs, k: nat)
    requires ValidParams(p) && ValidInputs(x) && k < BadCount(p)
    ensures var rs := Records(p, x);
            rs[1 + p.baseFlows + k] in rs[..1 + p.baseFlows + k] <==> DefectAt(p, k) == DupSourceHash
  {
    hide GoodPayload, BadPayload, PayloadAt;
    var rs := Records(p, x);
    var n := 1 + p.baseFlows + k;
    BadRecord(p, x, k);
    if DefectAt(p, k) == DupSourceHash {
      var j := SourceOf(p, x, k);
      DuplicateIsCopy(p, x, k);
      GoodRecord(p, x, j);
      assert rs[..n][1 + j] == rs[n];
    } else {
      forall i | 0 <= i < n ensures rs[i] != rs[n] {
        DefectiveIsUnique(p, x, k, i);
      }
    }
  }

  lemma {:induction false} RepeatsUpTo(p: FirewallParams, x: Inputs, n: nat)
    requires ValidParams(p) && ValidInputs(x) && n <= BadCount(p)
    ensures Repeats(Records(p, x)[..1 + p.baseFlows + n]) == Repeats(GoodPayloads(p, x)) + CountBelow(n, IsDuplicate(p))
  {
    hide Records, GoodPayloads;
    if n == 0 {
      RepeatsAmongGood(p, x);
    } else {
      RepeatsUpTo(p, x, n - 1);
      OneMoreBad(p, x, n - 1);
      var part := Records(p, x)[..1 + p.baseFlows + n];
      assert part[..|part| - 1] == Records(p, x)[..1 + p.baseFlows + n - 1];
    }
  }

  /** For every random stream: the records to which the emitter gives an earlier record's message
      id number exactly `expected_duplicates` plus the accidental repeats among the good flows. */
  lemma DuplicatesAreTrue(p: FirewallParams, x: Inputs, format: string, prov: Emitter.Provenance, sha: Emitter.Hasher)
    requires ValidParams(p) && ValidInputs(x)
    ensures Repeats(Emitter.MessageIds(Emitter.Stamped(Records(p, x), format, prov, sha)))
            == CountBelow(BadCount(p), IsDuplicate(p)) + (p.baseFlows - |Distinct(GoodPayloads(p, x))|)
  {
    hide Records, GoodPayloads, Emitter.Stamped;
    Emitter.RepeatedIds(Records(p, x), format, prov, sha);
    RepeatsUpTo(p, x, BadCount(p));
    RepeatsAndDistinct(GoodPayloads(p, x));
    assert Records(p, x)[..1 + p.baseFlows + BadCount(p)] == Records(p, x);
  }

  // ---------------------------------------------------------------------------
  // Quarantine
  // ---------------------------------------------------------------------------

  /** A firewall: the record model, and for cash flows a bound on the amount. */
  predicate Passes(r: Record, bound: real) {
    && Validate(r).Some?
    && (r.kind == CashFlowKind ==> AmountField(r.payload).Finite? && -bound <= AmountField(r.payload).value <= bound)
  }

  lemma SignedRange(x: Inputs, j: nat)
    ensures Abs(SignedAmount(x, j)) <= 15000.0
  {
    UniformRange(x.stream(19 + 5 * j), 50.0, 15000.0);
  }

  lemma CentsBounded(v: real)
    requires Abs(v) <= 15000.0
    ensures -15000.0 <= Cents(v) as real / 100.0 <= 15000.0
  {
    RoundMonotone(Abs(v) * 100.0, 1500000.0);
    RoundWhole(1500000);
  }

  lemma GoodFlowValid(x: Inputs, j: nat)
    requires ValidInputs(x)
    ensures ValidFlow(GoodFlow(x, j))
  {
    hide IbanAt, Money, Counterparties, GoodRef;
    IbanAtValid(x.stream, 0);
    MoneyIsDecimal(SignedAmount(x, j));
  }

  lemma GoodAmount(x: Inputs, j: nat)
    requires ValidInputs(x)
    ensures AmountField(GoodPayload(x, j)).Finite? && -15000.0 <= AmountField(GoodPayload(x, j)).value <= 15000.0
  {
    hide DumpFlow, Money, ParseDecimal, IbanAt;
    FlowKeyFields(GoodFlow(x, j));
    SignedRange(x, j);
    CentsBounded(SignedAmount(x, j));
    ParseMoney(SignedAmount(x, j));
  }

  lemma GoodPasses(x: Inputs, j: nat, bound: real)
    requires ValidInputs(x) && bound >= 15000.0
    ensures Passes(Record(CashFlowKind, GoodPayload(x, j)), bound)
  {
    hide DumpFlow, GoodFlow, AmountField, ReadFlow, ValidFlow;
    GoodFlowValid(x, j);
    FlowRoundTrip(GoodFlow(x, j));
    GoodAmount(x, j);
  }

  lemma WithoutUnderscoresFirst(s: string)
    requires |s| >= 2 && s[0] != '_' && s[1] != '_'
    ensures |WithoutUnderscores(s)| >= 2
    ensures WithoutUnderscores(s)[0] == s[0] && WithoutUnderscores(s)[1] == s[1]
  {
    assert s[1..][0] == s[1];
    assert WithoutUnderscores(s) == [s[0]] + WithoutUnderscores(s[1..]);
  }

  lemma NotSpecialNorNumber(t: string)
    requires |t| >= 2 && t[0] == 'N' && t[1] == 'O'
    ensures !IsSpecial(Lower(t)) && ParseNumber(t) == NotDecimal && Unsigned(t) == (false, t)
  {
    assert Lower(t)[0] == 'n' && Lower(t)[1] == 'o';
    assert t[..0] == "" && t[0..] == t;
  }

  lemma NotANumber(s: string)
    requires |s| >= 2 && s[0] == 'N' && s[1] == 'O' && s[|s| - 1] == 'R'
    ensures ParseDecimal(s) == NotDecimal
  {
    assert StripRight(StripLeft(s)) == s;
    WithoutUnderscoresFirst(s);
    NotSpecialNorNumber(Trimmed(s));
  }

  function TenTo(n: nat): nat {
    if n == 0 then 1 else 10 * TenTo(n - 1)
  }

  /** A row of nines denotes the next power of ten, less one. */
  lemma {:induction false} Nines(s: string)
    requires forall i :: 0 <= i < |s| ==> s[i] == '9'
    ensures Text.Value(s) == TenTo(|s|) - 1
  {
    if s != "" {
      Nines(s[..|s| - 1]);
    }
  }

  lemma AbsurdAmount(s: string)
    requires |s| == 15 && forall i :: 0 <= i < |s| ==> s[i] == '9'
    ensures ParseDecimal(s) == Finite(999999999999999.0)
  {
    ParseDigits(s);
    Nines(s);
    assert TenTo(15) == 1000000000000000;
  }

  lemma BadAmounts(k: nat)
    ensures ParseDecimal(BadAmount(k)) == if k % 2 == 0 then NotDecimal else Finite(999999999999999.0)
  {
    hide ParseDecimal;
    if k % 2 == 0 {
      NotANumber(BadAmount(k));
    } else {
      AbsurdAmount(BadAmount(k));
    }
  }

  lemma SpoiledFields(base: Payload, defect: Defect, k: nat)
    ensures defect == MissingField ==> TextField(Spoil(base, defect, k), "currency") == None
    ensures defect == IncoherentAmount ==> TextField(Spoil(base, defect, k), "amount") == Some(BadAmount(k))
    ensures defect == IncoherentAmount ==>
              forall key :: key != "ref" && key != "amount" ==> TextField(Spoil(base, defect, k), key) == TextField(base, key)
  {
    hide BadRef, BadAmount;
  }

  lemma NoCurrencyNoFlow(q: Payload)
    requires TextField(q, "currency") == None
    ensures ReadFlow(q) == None
  {
  }

  lemma NotDecimalNoFlow(q: Payload, amount: string)
    requires TextField(q, "amount") == Some(amount) && ParseDecimal(amount) == NotDecimal
    ensures ReadFlow(q) == None
  {
    hide ParseDecimal;
  }

  /** The fields a cash flow is read from, apart from the amount and the reference. */
  ghost predicate SameOtherFields(q: Payload, base: Payload) {
    forall key :: key != "ref" && key != "amount" ==> TextField(q, key) == TextField(base, key)
  }

  lemma OtherKeys()
    ensures "account_iban" != "ref" && "account_iban" != "amount" && "currency" != "ref" && "currency" != "amount"
    ensures "value_date" != "ref" && "value_date" != "amount" && "booked_at" != "ref" && "booked_at" != "amount"
    ensures "direction" != "ref" && "direction" != "amount" && "counterparty" != "ref" && "counterparty" != "amount"
    ensures "label" != "ref" && "label" != "amount" && "category_hint" != "ref" && "category_hint" != "amount"
  {
  }

  lemma FlowWithOtherAmount(q: Payload, base: Payload, amount: string)
    requires SameOtherFields(q, base) && ReadFlow(base).Some?
    requires TextField(q, "amount") == Some(amount) && ParseDecimal(amount) != NotDecimal
    ensures ReadFlow(q).Some?
  {
    hide ParseDecimal, IsIban, IsCurrency, ParseIso, ParseMoment, TextField;
    OtherKeys();
  }

  /** Whether record `k` is let through by the record models alone, and by the firewall. */
  lemma SpoiledVerdict(base: Payload, defect: Defect, k: nat, bound: real)
    requires ReadFlow(base).Some? && Passes(Record(CashFlowKind, base), bound) && bound < 999999999999999.0
    ensures var r := Record(CashFlowKind, Spoil(base, defect, k));
            && (Passes(r, bound) <==> defect == DupSourceHash)
            && (Validate(r).Some? <==> defect == DupSourceHash || (defect == IncoherentAmount && k % 2 == 1))
  {
    hide ReadFlow, ParseDecimal, DumpFlow, BadAmount;
    var q := Spoil(base, defect, k);
    SpoiledFields(base, defect, k);
    match defect
    case DupSourceHash =>
    case MissingField => NoCurrencyNoFlow(q);
    case IncoherentAmount =>
      BadAmounts(k);
      if k % 2 == 0 {
        NotDecimalNoFlow(q, BadAmount(k));
      } else {
        FlowWithOtherAmount(q, base, BadAmount(k));
      }
  }

  lemma AccountPasses(x: Inputs, bound: real)
    ensures Passes(Record(BankAccountKind, DumpAccount(Account(x))), bound)
  {
    hide IbanAt, Money, DumpAccount, ReadAccount;
    IbanAtValid(x.stream, 0);
    MoneyIsDecimal(UniformOf(x.stream(18), 10000.0, 200000.0));
    AccountRoundTrip(Account(x));
  }

  /** Index `i` of a batch holds a bad record that the manifest counts as quarantined. */
  predicate Quarantined(p: FirewallParams, i: nat)
    requires ValidParams(p)
  {
    i > p.baseFlows && DefectAt(p, i - 1 - p.baseFlows) != DupSourceHash
  }

  /** The record the manifest calls an incoherent amount whose amount is nevertheless a number. */
  predicate AbsurdButNumeric(p: FirewallParams, i: nat)
    requires ValidParams(p)
  {
    i > p.baseFlows && DefectAt(p, i - 1 - p.baseFlows) == IncoherentAmount && (i - 1 - p.baseFlows) % 2 == 1
  }

  lemma VerdictOnBad(p: FirewallParams, x: Inputs, k: nat, bound: real)
    requires ValidParams(p) && ValidInputs(x) && k < BadCount(p)
    requires 15000.0 <= bound < 999999999999999.0
    ensures var r := Record(CashFlowKind, BadPayload(p, x, k));
            && (Passes(r, bound) <==> DefectAt(p, k) == DupSourceHash)
            && (Validate(r).Some? <==> DefectAt(p, k) == DupSourceHash || (DefectAt(p, k) == IncoherentAmount && k % 2 == 1))
  {
    hide GoodPayload, Spoil, AmountField, ReadFlow, DumpFlow;
    var base := GoodPayload(x, SourceOf(p, x, k));
    GoodPasses(x, SourceOf(p, x, k), bound);
    SpoiledVerdict(base, DefectAt(p, k), k, bound);
  }

  /** For any amount bound between the good amounts and the absurd one, the firewall rejects
      exactly the records the manifest quarantines. Without the bound, the absurd but numeric
      amounts get through: the incoherent records with odd `k`, and no others. */
  lemma FirewallVerdict(p: FirewallParams, x: Inputs, i: nat, bound: real)
    requires ValidParams(p) && ValidInputs(x) && i < Size(p)
    requires 15000.0 <= bound < 999999999999999.0
    ensures Passes(Records(p, x)[i], bound) <==> !Quarantined(p, i)
    ensures Validate(Records(p, x)[i]).Some? <==> !Quarantined(p, i) || AbsurdButNumeric(p, i)
  {
    hide Records, GoodPayload, BadPayload, Account, DumpAccount, AmountField, Validate;
    if i == 0 {
      AccountRecord(p, x);
      AccountPasses(x, bound);
    } else if i <= p.baseFlows {
      GoodRecord(p, x, i - 1);
      GoodPasses(x, i - 1, bound);
    } else {
      BadRecord(p, x, i - 1 - p.baseFlows);
      VerdictOnBad(p, x, i - 1 - p.baseFlows, bound);
    }
  }

  ghost function Firewalled(bound: real): Emitter.Rejects {
    (r: Record) => !Passes(r, bound)
  }

  /** A Core behind such a firewall rejects as many records as the manifest expects quarantined. */
  lemma QuarantineIsTrue(p: FirewallParams, x: Inputs, format: string, prov: Emitter.Provenance, sha: Emitter.Hasher, bound: real)
    requires ValidParams(p) && ValidInputs(x)
    requires 15000.0 <= bound < 999999999999999.0
    ensures Emitter.CountRejected(Emitter.Stamped(Records(p, x), format, prov, sha), Firewalled(bound))
            == CountBelow(BadCount(p), IsQuarantined(p))
    ensures CountBelow(BadCount(p), IsQuarantined(p)) + CountBelow(BadCount(p), IsDuplicate(p)) == BadCount(p)
  {
    hide Records, Passes, Validate, Emitter.Stamped;
    var out := Emitter.Stamped(Records(p, x), format, prov, sha);
    var at := (i: nat) => Quarantined(p, i);
    forall i: nat | i < |out| ensures at(i) == Firewalled(bound)(out[i].record) {
      FirewallVerdict(p, x, i, bound);
      Emitter.StampedRecord(Records(p, x), i, format, prov, sha);
    }
    Emitter.CountRejectedAt(out, Firewalled(bound), at);
    CountShift(1 + p.baseFlows, BadCount(p), at, IsQuarantined(p));
    CountComplement(BadCount(p), IsQuarantined(p), IsDuplicate(p));
  }

  lemma DecIdentifies(m: nat, n: nat)
    ensures Dec(m) == Dec(n) <==> m == n
  {
    assert Text.Value(Dec(m)) == m && Text.Value(Dec(n)) == n;
  }

  /** The manifest names every bad record by its index, with its defect. */
  lemma {:induction false} ReasonAt(p: FirewallParams, n: nat, k: nat)
    requires ValidParams(p) && k < n
    ensures var key := Dec(1 + p.baseFlows + k);
            key in Reasons(p, n) && Reasons(p, n)[key] == NText(DefectName(DefectAt(p, k)))
  {
    hide DefectName, DefectAt, Dec;
    if k < n - 1 {
      ReasonAt(p, n - 1, k);
      DecIdentifies(p.baseFlows + n, 1 + p.baseFlows + k);
    }
  }

  /** And it names nothing else. */
  lemma {:induction false} ReasonIsBad(p: FirewallParams, n: nat, key: string) returns (k: nat)
    requires ValidParams(p) && key in Reasons(p, n)
    ensures k < n && key == Dec(1 + p.baseFlows + k)
  {
    hide DefectName, DefectAt, Dec;
    if key == Dec(p.baseFlows + n) {
      k := n - 1;
    } else {
      k := ReasonIsBad(p, n - 1, key);
    }
  }

  // ---------------------------------------------------------------------------
  // What Core ends up with
  // ---------------------------------------------------------------------------

  /** The payloads a batch contributes: the account's and the distinct good flows'. */
  ghost function Kept(p: FirewallParams, x: Inputs): set<Payload>
    requires ValidParams(p) && ValidInputs(x)
  {
    {DumpAccount(Account(x))} + Distinct(GoodPayloads(p, x))
  }

  lemma NotQuarantinedIsKept(p: FirewallParams, x: Inputs, i: nat)
    requires ValidParams(p) && ValidInputs(x) && i < Size(p) && !Quarantined(p, i)
    ensures Records(p, x)[i].payload in Kept(p, x)
  {
    hide Records, GoodPayload, BadPayload, DumpAccount, Account, DefectAt;
    var goods := GoodPayloads(p, x);
    if i == 0 {
      AccountRecord(p, x);
    } else if i <= p.baseFlows {
      GoodRecord(p, x, i - 1);
      assert goods[i - 1] in goods;
    } else {
      var k := i - 1 - p.baseFlows;
      BadRecord(p, x, k);
      DuplicateIsCopy(p, x, k);
      assert goods[SourceOf(p, x, k)] in goods;
    }
  }

  lemma KeptComesFrom(p: FirewallParams, x: Inputs, q: Payload) returns (i: nat)
    requires ValidParams(p) && ValidInputs(x) && q in Kept(p, x)
    ensures i < Size(p) && !Quarantined(p, i) && Records(p, x)[i].payload == q
  {
    hide Records, GoodPayload, DumpAccount, Account, DefectAt;
    var goods := GoodPayloads(p, x);
    if q in goods {
      var j :| 0 <= j < |goods| && goods[j] == q;
      i := 1 + j;
      GoodRecord(p, x, j);
    } else {
      i := 0;
      AccountRecord(p, x);
    }
  }

  lemma AccountIsNoFlow(p: FirewallParams, x: Inputs)
    requires ValidParams(p) && ValidInputs(x)
    ensures |Kept(p, x)| == 1 + |Distinct(GoodPayloads(p, x))|
  {
    hide DumpAccount, Account, GoodPayload, RefOf;
    AccountHasNoRef(x);
    var goods := GoodPayloads(p, x);
    forall j | 0 <= j < |goods| ensures goods[j] != DumpAccount(Account(x)) {
      var n := GoodPayloadRef(x, j);
    }
    assert DumpAccount(Account(x)) !in Distinct(goods);
  }

  lemma StoredHash(p: FirewallParams, x: Inputs, format: string, prov: Emitter.Provenance,
                   sha: Emitter.Hasher, bound: real, h: string)
    requires ValidParams(p) && ValidInputs(x)
    requires 15000.0 <= bound < 999999999999999.0
    ensures h in Emitter.Deliver(map[], Emitter.Stamped(Records(p, x), format, prov, sha), Firewalled(bound))
            <==> exists q :: q in Kept(p, x) && h == Emitter.HashOf(sha, q)
  {
    hide Records, Passes, Kept, Emitter.Stamped, Canonical, Validate;
    var rs := Records(p, x);
    var out := Emitter.Stamped(rs, format, prov, sha);
    Idempotency.StoreContents(map[], out, Firewalled(bound), h);
    if h in Emitter.Deliver(map[], out, Firewalled(bound)) {
      var i :| 0 <= i < |out| && out[i].meta.sourceHash == h && !Firewalled(bound)(out[i].record);
      Emitter.StampedRecord(rs, i, format, prov, sha);
      FirewallVerdict(p, x, i, bound);
      NotQuarantinedIsKept(p, x, i);
    }
    if exists q :: q in Kept(p, x) && h == Emitter.HashOf(sha, q) {
      var q :| q in Kept(p, x) && h == Emitter.HashOf(sha, q);
      var i := KeptComesFrom(p, x, q);
      FirewallVerdict(p, x, i, bound);
      Emitter.StampedRecord(rs, i, format, prov, sha);
      assert out[i].meta.sourceHash == h && !Firewalled(bound)(out[i].record);
    }
  }

  /** Behind the firewall and the deduplication, an empty Core ends up with one record for the
      account and one for each distinct good flow, whatever was spoiled or sent twice. */
  lemma CoreEndsWithDistinctGood(p: FirewallParams, x: Inputs, format: string, prov: Emitter.Provenance,
                                 sha: Emitter.Hasher, bound: real)
    requires ValidParams(p) && ValidInputs(x) && Emitter.Injective(sha)
    requires 15000.0 <= bound < 999999999999999.0
    ensures |Emitter.Deliver(map[], Emitter.Stamped(Records(p, x), format, prov, sha), Firewalled(bound))|
            == 1 + |Distinct(GoodPayloads(p, x))|
  {
    hide Records, Passes, Kept, Emitter.Stamped, Canonical, Validate;
    var store := Emitter.Deliver(map[], Emitter.Stamped(Records(p, x), format, prov, sha), Firewalled(bound));
    var hash := (q: Payload) => Emitter.HashOf(sha, q);
    var hashes := set q | q in Kept(p, x) :: hash(q);
    forall h ensures h in store <==> h in hashes {
      StoredHash(p, x, format, prov, sha, bound, h);
    }
    assert store.Keys == hashes;
    forall a, b | hash(a) == hash(b) ensures a == b {
      CanonicalInjective(a, b);
    }
    ImageSize(Kept(p, x), hash, hashes);
    AccountIsNoFlow(p, x);
  }

  // ---------------------------------------------------------------------------
  // Two runs
  // ---------------------------------------------------------------------------

  /** Raising the bad ratio only appends records: every earlier one stays as it is. */
  lemma MoreBadExtends(p: FirewallParams, ratio: real, x: Inputs)
    requires ValidParams(p) && ValidInputs(x) && p.badRatio <= ratio <= 1.0
    ensures Records(p, x) <= Records(p.(badRatio := ratio), x)
  {
    hide GoodPayload, DumpAccount, Account, Spoil;
    ShareMonotone(p.baseFlows, p.badRatio, ratio);
    var q := p.(badRatio := ratio);
    forall i | 0 <= i < Size(p) ensures PayloadAt(p, x, i) == PayloadAt(q, x, i) {
    }
  }

  // ---------------------------------------------------------------------------
  // The manifest
  // ---------------------------------------------------------------------------

  /** What the manifest of a run says, against what happens to its records: the rejected ones, the
      ones that reuse an earlier message id (beyond accidental repeats among the good flows), and
      the ones added to the good batch. */
  lemma ManifestIsTrue(p: FirewallParams, x: Inputs, format: string, prov: Emitter.Provenance, sha: Emitter.Hasher, bound: real)
    requires ValidParams(p) && ValidInputs(x)
    requires 15000.0 <= bound < 999999999999999.0
    ensures var m := Manifest(CountBelow(BadCount(p), IsQuarantined(p)), CountBelow(BadCount(p), IsDuplicate(p)),
                              BadCount(p), Reasons(p, BadCount(p)));
            var out := Emitter.Stamped(Records(p, x), format, prov, sha);
            && m.NDict? && "expected_quarantined" in m.entries && "expected_duplicates" in m.entries
            && "expected_bad" in m.entries
            && m.entries["expected_quarantined"] == NInt(Emitter.CountRejected(out, Firewalled(bound)))
            && m.entries["expected_duplicates"]
               == NInt(Repeats(Emitter.MessageIds(out)) - (p.baseFlows - |Distinct(GoodPayloads(p, x))|))
            && m.entries["expected_bad"] == NInt(|Records(p, x)| - 1 - p.baseFlows)
  {
    hide Records, GoodPayloads, Passes, CountBelow, BadCount, Reasons, Emitter.Stamped, Emitter.MessageIds,
         Emitter.CountRejected, Repeats;
    DuplicatesAreTrue(p, x, format, prov, sha);
    QuarantineIsTrue(p, x, format, prov, sha, bound);
  }

  /** With the default defects and ten flows all spoiled, the second bad record is quarantined in the
      manifest and accepted by the record model. */
  lemma AcceptedIncoherentExample(x: Inputs)
    requires ValidInputs(x)
    ensures var p := FirewallParams(10, 1.0, [MissingField, IncoherentAmount, DupSourceHash]);
            && ValidParams(p) && |Records(p, x)| == 21 && Quarantined(p, 12)
            && Validate(Records(p, x)[12]).Some? && !Passes(Records(p, x)[12], 15000.0)
  {
    hide Records, Validate, Passes;
    var p := FirewallParams(10, 1.0, [MissingField, IncoherentAmount, DupSourceHash]);
    assert Part(10.0, 1.0) == 10.0;
    RoundWhole(10);
    assert BadCount(p) == 10;
    FirewallVerdict(p, x, 12, 15000.0);
  }
}
