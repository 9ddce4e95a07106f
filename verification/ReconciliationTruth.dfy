/** The reconciliation preset's manifest is true: a matcher on reference, amount and date pairs up
    exactly the pairs the manifest does not list, and the rounded rate gives their number back. */
module ReconciliationTruth {
  import opened Options
  import opened Text
  import opened Random
  import opened Decimals
  import opened Calendar
  import opened Models
  import opened Fabrication
  import opened Sequences
  import opened GroundTruth
  import opened Reconciliation
  import Emitter
  import Dispatch

  // ---------------------------------------------------------------------------
  // Where the records are
  // ---------------------------------------------------------------------------

  lemma {:induction false} RecordsExtend(p: ReconParams, x: Inputs, m: nat, n: nat)
    requires ValidParams(p) && ValidInputs(x) && m <= n
    ensures RecordsUpTo(p, x, m) <= RecordsUpTo(p, x, n)
    decreases n
  {
    hide AccountRecord, PairRecords;
    if m < n {
      RecordsExtend(p, x, m, n - 1);
    }
  }

  /** Pair `i`'s bank flow is at its offset, its leg, if any, right behind. */
  lemma PairAt(p: ReconParams, x: Inputs, i: nat)
    requires ValidParams(p) && ValidInputs(x) && i < p.pairs
    ensures var rs := Records(p, x);
            && Offset(p, i) < |rs| && rs[Offset(p, i)] == BankRecord(p, x, i)
            && (MismatchOf(p, i) != Some(MissingLeg) ==>
                  Offset(p, i) + 1 < |rs| && rs[Offset(p, i) + 1] == LegRecord(p, x, i))
  {
    hide AccountRecord, BankRecord, LegRecord, MismatchOf;
    RecordsLength(p, x, i);
    RecordsExtend(p, x, i + 1, p.pairs);
    assert RecordsUpTo(p, x, i + 1) == RecordsUpTo(p, x, i) + PairRecords(p, x, i);
  }

  /** Every index past the account belongs to a pair. */
  lemma {:induction false} OwnerOf(p: ReconParams, n: nat, a: nat) returns (i: nat)
    requires ValidParams(p) && 1 <= a < Offset(p, n)
    ensures i < n && (a == Offset(p, i) || (a == Offset(p, i) + 1 && MismatchOf(p, i) != Some(MissingLeg)))
  {
    hide MismatchOf;
    if a >= Offset(p, n - 1) {
      i := n - 1;
    } else {
      i := OwnerOf(p, n - 1, a);
    }
  }

  lemma RecordsSize(p: ReconParams, x: Inputs)
    requires ValidParams(p) && ValidInputs(x)
    ensures |Records(p, x)| == Offset(p, p.pairs) <= 4001
    ensures Records(p, x)[0] == AccountRecord(x)
  {
    hide AccountRecord, PairRecords;
    RecordsLength(p, x, p.pairs);
    RecordsExtend(p, x, 0, p.pairs);
  }

  // ---------------------------------------------------------------------------
  // The matcher
  // ---------------------------------------------------------------------------

  /** A bank flow and an ERP leg with the same reference, printed amount and date. */
  predicate Matches(flow: Record, leg: Record) {
    && flow.kind == CashFlowKind && leg.kind == ErpEntryKind
    && TextField(flow.payload, "ref").Some? && TextField(flow.payload, "ref") == TextField(leg.payload, "ref")
    && TextField(flow.payload, "amount").Some? && TextField(flow.payload, "amount") == TextField(leg.payload, "amount")
    && TextField(flow.payload, "value_date").Some?
    && TextField(flow.payload, "value_date") == TextField(leg.payload, "entry_date")
  }

  /** Record `a` is a bank flow with a matching leg somewhere in the batch. */
  ghost predicate Matched(rs: seq<Record>, a: nat)
    requires a < |rs|
  {
    exists b :: 0 <= b < |rs| && Matches(rs[a], rs[b])
  }

  lemma MatchFields(f: CashFlow, e: ErpEntry)
    ensures Matches(Record(CashFlowKind, DumpFlow(f)), Record(ErpEntryKind, DumpErp(e)))
            <==> f.ref == Some(e.ref) && f.amount == e.amount && f.valueDate == e.entryDate
  {
    hide DumpFlow, DumpErp;
    FlowKeyFields(f);
    ErpFields(e);
    IsoIdentifies(f.valueDate, e.entryDate);
  }

  lemma PairRefIdentifies(i: nat, j: nat)
    ensures PairRef(i) == PairRef(j) <==> i == j
  {
    assert PairRef(i)[6..] == Pad(i, 5) && PairRef(j)[6..] == Pad(j, 5);
  }

  lemma DeltaRange(p: ReconParams, x: Inputs, i: nat)
    requires ValidParams(p)
    ensures Delta(p, x, i) >= 1.0
  {
    UniformRange(x.stream(CursorAt(p, i) + 3), 1.0, 50.0);
  }

  /** A leg matches a flow when they are of the same, unbroken pair. */
  lemma LegMatches(p: ReconParams, x: Inputs, i: nat, j: nat)
    requires ValidParams(p) && ValidInputs(x) && MismatchOf(p, j) != Some(MissingLeg)
    ensures Matches(BankRecord(p, x, i), LegRecord(p, x, j)) <==> i == j && MismatchOf(p, i) == None
  {
    hide DumpFlow, DumpErp, Matches, PairRef, IbanAt, Money, PairName, PairAmount, PairDay, MismatchCount, Delta;
    var f, e := BankFlow(p, x, i), ErpLeg(p, x, j);
    MatchFields(f, e);
    PairRefIdentifies(i, j);
    assert f.ref == Some(PairRef(i)) && e.ref == PairRef(j);
    assert f.amount == Money(-PairAmount(p, x, i)) && e.amount == Money(-LegAmount(p, x, j));
    assert f.valueDate == PairDay(p, x, i) && e.entryDate == LegDay(p, x, j);
    match MismatchOf(p, j)
    case None =>
    case Some(WrongAmount) =>
      DeltaRange(p, x, j);
      MoneyApart(-LegAmount(p, x, j), -PairAmount(p, x, j));
    case Some(WrongDate) =>
  }

  lemma KindsAt(p: ReconParams, x: Inputs, i: nat)
    requires ValidParams(p) && ValidInputs(x)
    ensures BankRecord(p, x, i).kind == CashFlowKind && LegRecord(p, x, i).kind == ErpEntryKind
    ensures AccountRecord(x).kind == BankAccountKind
  {
    hide DumpFlow, DumpErp, DumpAccount, BankFlow, ErpLeg, Account;
  }

  lemma OnlyFlowsMatch(flow: Record, leg: Record)
    ensures Matches(flow, leg) ==> flow.kind == CashFlowKind && leg.kind == ErpEntryKind
  {
  }

  lemma PartnerIsOwnLeg(p: ReconParams, x: Inputs, i: nat, b: nat)
    requires ValidParams(p) && ValidInputs(x) && i < p.pairs && b < |Records(p, x)|
    requires Matches(BankRecord(p, x, i), Records(p, x)[b])
    ensures MismatchOf(p, i) == None && b == Offset(p, i) + 1
  {
    hide Records, BankRecord, LegRecord, AccountRecord, Matches, MismatchOf, Offset;
    RecordsSize(p, x);
    KindsAt(p, x, i);
    OnlyFlowsMatch(BankRecord(p, x, i), Records(p, x)[b]);
    var j := OwnerOf(p, p.pairs, b);
    PairAt(p, x, j);
    KindsAt(p, x, j);
    LegMatches(p, x, i, j);
  }

  /** The matcher finds a partner for pair `i`'s bank flow exactly when the pair is not listed as
      mismatched. */
  lemma MatcherFindsUnbroken(p: ReconParams, x: Inputs, i: nat)
    requires ValidParams(p) && ValidInputs(x) && i < p.pairs
    ensures Offset(p, i) < |Records(p, x)|
    ensures Matched(Records(p, x), Offset(p, i)) <==> i >= MismatchCount(p)
  {
    hide Records, BankRecord, LegRecord, AccountRecord, Matches, MismatchCount, Offset;
    var rs := Records(p, x);
    PairAt(p, x, i);
    RecordsSize(p, x);
    KindsAt(p, x, i);
    if i >= MismatchCount(p) {
      LegMatches(p, x, i, i);
      assert Matches(rs[Offset(p, i)], rs[Offset(p, i) + 1]);
    }
    forall b | 0 <= b < |rs| && Matches(rs[Offset(p, i)], rs[b]) ensures i >= MismatchCount(p) {
      PartnerIsOwnLeg(p, x, i, b);
    }
  }

  lemma OthersUnmatched(p: ReconParams, x: Inputs, i: nat)
    requires ValidParams(p) && ValidInputs(x) && i < p.pairs
    ensures 0 < |Records(p, x)| && !Matched(Records(p, x), 0)
    ensures MismatchOf(p, i) != Some(MissingLeg) ==>
              Offset(p, i) + 1 < |Records(p, x)| && !Matched(Records(p, x), Offset(p, i) + 1)
  {
    hide Records, BankRecord, LegRecord, AccountRecord, Matches, MismatchOf, Offset;
    var rs := Records(p, x);
    RecordsSize(p, x);
    PairAt(p, x, i);
    KindsAt(p, x, i);
    forall b | 0 <= b < |rs| ensures !Matches(rs[0], rs[b]) {
      OnlyFlowsMatch(rs[0], rs[b]);
    }
    if MismatchOf(p, i) != Some(MissingLeg) {
      forall b | 0 <= b < |rs| ensures !Matches(rs[Offset(p, i) + 1], rs[b]) {
        OnlyFlowsMatch(rs[Offset(p, i) + 1], rs[b]);
      }
    }
  }

  // ---------------------------------------------------------------------------
  // Counting the matches
  // ---------------------------------------------------------------------------

  ghost function MatchedIn(rs: seq<Record>): nat -> bool {
    (a: nat) => a < |rs| && Matched(rs, a)
  }

  lemma {:induction false} MatchedUpTo(p: ReconParams, x: Inputs, n: nat)
    requires ValidParams(p) && ValidInputs(x) && n <= p.pairs
    ensures CountBelow(Offset(p, n), MatchedIn(Records(p, x))) == if n < MismatchCount(p) then 0 else n - MismatchCount(p)
  {
    hide Records, Matched, MismatchCount;
    var at := MatchedIn(Records(p, x));
    if n == 0 {
      OthersUnmatched(p, x, 0);
      assert CountBelow(0, at) == 0;
    } else {
      MatchedUpTo(p, x, n - 1);
      MatcherFindsUnbroken(p, x, n - 1);
      OthersUnmatched(p, x, n - 1);
      assert CountBelow(Offset(p, n - 1) + 1, at) == CountBelow(Offset(p, n - 1), at) + if at(Offset(p, n - 1)) then 1 else 0;
    }
  }

  /** Over the whole batch the matcher matches as many bank flows as there are unbroken pairs. */
  lemma MatchesAreTrue(p: ReconParams, x: Inputs)
    requires ValidParams(p) && ValidInputs(x)
    ensures CountBelow(|Records(p, x)|, MatchedIn(Records(p, x))) == p.pairs - MismatchCount(p)
  {
    hide Records, MatchedIn;
    RecordsSize(p, x);
    MatchedUpTo(p, x, p.pairs);
  }

  lemma Quotient(m: real, n: real)
    requires n >= 1.0
    ensures m / n * n == m
  {
  }

  lemma SmallError(n: real, e: real)
    requires 0.0 <= n <= 2000.0 && -0.00005 <= e <= 0.00005
    ensures -0.1 <= n * e <= 0.1
  {
    Product(n, 0.00005 - e);
    Product(n, e + 0.00005);
    assert n * (0.00005 - e) == n * 0.00005 - n * e;
    assert n * (e + 0.00005) == n * e + n * 0.00005;
  }

  lemma RoundNear(v: real, m: int)
    requires -0.1 <= v - m as real <= 0.1
    ensures Round(v) == m
  {
  }

  lemma RoundTo4Near(q: real)
    ensures -0.00005 <= RoundTo4(q) - q <= 0.00005
    ensures RoundedTo(RoundTo4(q), q, 10000.0)
  {
    assert NearestUnits(Round(q * 10000.0), RoundTo4(q), q, 10000.0);
  }

  lemma ScaledRate(q: real, rate: real, n: real, m: real)
    requires q * n == m
    ensures rate * n == m + n * (rate - q)
  {
    assert n * (rate - q) == n * rate - n * q;
  }

  lemma RateGivesMatches(p: ReconParams, x: Inputs, rate: real)
    requires ValidParams(p) && ValidInputs(x) && rate == MatchRate(p)
    ensures Round(Part(p.pairs as real, rate)) == CountBelow(|Records(p, x)|, MatchedIn(Records(p, x)))
    ensures RoundedTo(rate, CountBelow(|Records(p, x)|, MatchedIn(Records(p, x))) as real / p.pairs as real, 10000.0)
  {
    hide Records, MatchedIn, RoundTo4, MismatchCount, Round, CountBelow, RoundedTo;
    MatchesAreTrue(p, x);
    var n, m := p.pairs as real, p.pairs - MismatchCount(p);
    var q := m as real / n;
    Quotient(m as real, n);
    RoundTo4Near(q);
    SmallError(n, rate - q);
    ScaledRate(q, rate, n, m as real);
    RoundNear(Part(n, rate), m);
  }

  /** The published rate is the share of pairs matched, rounded to four places, and nevertheless gives
      the number of matches back. */
  lemma RateIsTrue(p: ReconParams, x: Inputs)
    requires ValidParams(p) && ValidInputs(x)
    ensures var m, rs := Manifest(p), Records(p, x);
            && m.NDict? && "expected_auto_match_rate" in m.entries && m.entries["expected_auto_match_rate"].NFloat?
            && RoundedTo(m.entries["expected_auto_match_rate"].r, CountBelow(|rs|, MatchedIn(rs)) as real / p.pairs as real, 10000.0)
            && Round(Part(p.pairs as real, m.entries["expected_auto_match_rate"].r)) == CountBelow(|rs|, MatchedIn(rs))
  {
    hide Records, MatchedIn, MatchRate, Round, CountBelow, Entries, Part, RoundedTo;
    RateGivesMatches(p, x, Manifest(p).entries["expected_auto_match_rate"].r);
  }

  // ---------------------------------------------------------------------------
  // The listed pairs
  // ---------------------------------------------------------------------------

  /** Entry `i` of the enriched manifest. */
  ghost function ListedEntry(p: ReconParams, x: Inputs, i: nat, sha: Emitter.Hasher): Option<Node>
    requires ValidParams(p) && ValidInputs(x)
  {
    Follow(Enrich(Manifest(p), Dispatch.PayloadHashes(Records(p, x), sha)), [Key("mismatched_pairs"), Position(i)])
  }

  lemma ListedEntryOf(p: ReconParams, x: Inputs, i: nat, sha: Emitter.Hasher)
    requires ValidParams(p) && ValidInputs(x) && i < MismatchCount(p)
    ensures ListedEntry(p, x, i, sha) == Some(Enrich(EntryOf(p, i), Dispatch.PayloadHashes(Records(p, x), sha)))
  {
    hide EntryOf, Records, Enrich, MatchRate, MismatchCount, Dispatch.PayloadHashes;
    assert |"mismatched_pairs"| == 16 && |HASH| == 11 && |HASHES| == 13;
    FollowTwo(Manifest(p).entries, "mismatched_pairs", i);
    EnrichAt(Manifest(p), [Key("mismatched_pairs"), Position(i)], Dispatch.PayloadHashes(Records(p, x), sha));
  }

  lemma EntryIndex(p: ReconParams, i: nat)
    requires ValidParams(p) && i < MismatchCount(p) && MismatchOf(p, i) != Some(MissingLeg)
    ensures var e := EntryOf(p, i); e.NDict? && INDEX in e.entries && e.entries[INDEX] == NInt(Offset(p, i) + 1)
  {
    hide MismatchName, PairRef, Offset, MismatchCount;
    match MismatchOf(p, i)
    case Some(m) =>
  }

  lemma LegHasRef(p: ReconParams, x: Inputs, i: nat)
    requires ValidParams(p) && ValidInputs(x)
    ensures TextField(LegRecord(p, x, i).payload, "ref") == Some(PairRef(i))
  {
    hide DumpErp, IbanAt, Money, PairRef, LegAmount, LegDay, PairName;
    ErpFields(ErpLeg(p, x, i));
  }

  /** Every entry that lists a record index names that pair's ERP leg, however many legs were left
      out before it: same reference as the pair, no match for its bank flow, and after enrichment
      the hash of that very leg. */
  lemma ListedLegIsTrue(p: ReconParams, x: Inputs, i: nat, sha: Emitter.Hasher)
    requires ValidParams(p) && ValidInputs(x) && i < MismatchCount(p) && MismatchOf(p, i) != Some(MissingLeg)
    ensures var rs := Records(p, x);
            var entry := ListedEntry(p, x, i, sha);
            && Offset(p, i) + 1 < |rs| && rs[Offset(p, i) + 1].kind == ErpEntryKind
            && TextField(rs[Offset(p, i) + 1].payload, "ref") == Some(PairRef(i))
            && !Matches(rs[Offset(p, i)], rs[Offset(p, i) + 1])
            && entry.Some? && entry.value.NDict? && HASH in entry.value.entries
            && entry.value.entries[HASH] == NText(Emitter.HashOf(sha, rs[Offset(p, i) + 1].payload))
  {
    hide Records, BankRecord, LegRecord, Matches, Enrich, MismatchCount, MismatchName, PairRef, Offset,
         Emitter.HashOf, TextField, EntryOf, ListedEntry;
    PairAt(p, x, i);
    KindsAt(p, x, i);
    LegMatches(p, x, i, i);
    LegHasRef(p, x, i);
    ListedEntryOf(p, x, i, sha);
    var hashes := Dispatch.PayloadHashes(Records(p, x), sha);
    EntryIndex(p, i);
    EnrichIndexed(EntryOf(p, i).entries, hashes, Offset(p, i) + 1);
  }

  /** Pairs listed without an index have no ERP leg at all. */
  lemma MissingLegIsMissing(p: ReconParams, x: Inputs, i: nat, b: nat)
    requires ValidParams(p) && ValidInputs(x) && i < p.pairs && MismatchOf(p, i) == Some(MissingLeg)
    requires b < |Records(p, x)| && Records(p, x)[b].kind == ErpEntryKind
    ensures TextField(Records(p, x)[b].payload, "ref") != Some(PairRef(i))
  {
    hide Records, BankRecord, LegRecord, AccountRecord, PairRef, Offset, TextField, MismatchOf;
    RecordsSize(p, x);
    KindsAt(p, x, i);
    var j := OwnerOf(p, p.pairs, b);
    PairAt(p, x, j);
    KindsAt(p, x, j);
    LegHasRef(p, x, j);
    PairRefIdentifies(i, j);
  }

  // ---------------------------------------------------------------------------
  // Validity
  // ---------------------------------------------------------------------------

  lemma PairValid(p: ReconParams, x: Inputs, i: nat)
    requires ValidParams(p) && ValidInputs(x)
    ensures ValidFlow(BankFlow(p, x, i)) && ValidErp(ErpLeg(p, x, i))
  {
    hide IbanAt, Money, PairRef, PairName, PairAmount, LegAmount, MismatchOf, IsDecimal;
    IbanAtValid(x.stream, 0);
    MoneyIsDecimal(-PairAmount(p, x, i));
    MoneyIsDecimal(-LegAmount(p, x, i));
  }

  /** Every record of the batch, broken pairs included, passes the record models unchanged. */
  lemma EveryRecordValid(p: ReconParams, x: Inputs, b: nat)
    requires ValidParams(p) && ValidInputs(x) && b < |Records(p, x)|
    ensures Validate(Records(p, x)[b]) == Some(Records(p, x)[b])
  {
    hide Records, DumpFlow, DumpErp, DumpAccount, ReadFlow, ReadErp, ReadAccount, BankFlow, ErpLeg, ValidFlow;
    hide ValidErp;
    hide AccountOf, UniformOf, IbanAt, MismatchOf, Offset;
    RecordsSize(p, x);
    if b == 0 {
      AccountOfValid(x.stream, 0, x.target, UniformOf(x.stream(18), 50000.0, 300000.0));
      AccountRoundTrip(Account(x));
    } else {
      var i := OwnerOf(p, p.pairs, b);
      PairAt(p, x, i);
      PairValid(p, x, i);
      FlowRoundTrip(BankFlow(p, x, i));
      ErpRoundTrip(ErpLeg(p, x, i));
    }
  }

  // ---------------------------------------------------------------------------
  // No accidental repeats
  // ---------------------------------------------------------------------------

  lemma BankHasRef(p: ReconParams, x: Inputs, i: nat)
    requires ValidParams(p) && ValidInputs(x)
    ensures TextField(BankRecord(p, x, i).payload, "ref") == Some(PairRef(i))
  {
    hide DumpFlow, IbanAt, Money, PairRef, PairAmount, PairDay, PairName;
    FlowKeyFields(BankFlow(p, x, i));
  }

  lemma RecordsDiffer(p: ReconParams, x: Inputs, a: nat, b: nat)
    requires ValidParams(p) && ValidInputs(x) && a < b < |Records(p, x)|
    ensures Records(p, x)[a] != Records(p, x)[b]
  {
    hide Records, BankRecord, LegRecord, AccountRecord, PairRef, Offset, TextField, MismatchOf;
    RecordsSize(p, x);
    var j := OwnerOf(p, p.pairs, b);
    PairAt(p, x, j);
    KindsAt(p, x, j);
    BankHasRef(p, x, j);
    LegHasRef(p, x, j);
    if a > 0 {
      var i := OwnerOf(p, p.pairs, a);
      PairAt(p, x, i);
      KindsAt(p, x, i);
      BankHasRef(p, x, i);
      LegHasRef(p, x, i);
      PairRefIdentifies(i, j);
    }
  }

  /** No record is given an earlier one's message id and, with an injective hash, none an earlier
      one's source hash. */
  lemma NothingRepeats(p: ReconParams, x: Inputs, format: string, prov: Emitter.Provenance, sha: Emitter.Hasher)
    requires ValidParams(p) && ValidInputs(x)
    ensures var out := Emitter.Stamped(Records(p, x), format, prov, sha);
            && Repeats(Emitter.MessageIds(out)) == 0
            && (Emitter.Injective(sha) ==> Repeats(Emitter.SourceHashes(out)) == 0)
  {
    hide Records, Emitter.Stamped, Emitter.Injective, Validate;
    var rs := Records(p, x);
    forall a, b | 0 <= a < b < |rs| ensures rs[a] != rs[b] {
      RecordsDiffer(p, x, a, b);
    }
    RepeatsZero(rs);
    Emitter.RepeatedIds(rs, format, prov, sha);
    if Emitter.Injective(sha) {
      forall b | 0 <= b < |rs| ensures Validate(rs[b]) == Some(rs[b]) {
        EveryRecordValid(p, x, b);
      }
      Emitter.RepeatedHashesOfValid(rs, format, prov, sha);
    }
  }
}
