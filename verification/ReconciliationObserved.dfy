/** The reconciliation batch as an observer sees it: which parameters it was made for, what the listed
    types say of the pairs, what is in each record. */
module ReconciliationObserved {
  import opened Options
  import opened Text
  import opened Decimals
  import opened Random
  import opened Models
  import opened Fabrication
  import opened GroundTruth
  import opened Params
  import opened CoercionTruth
  import opened Reconciliation
  import opened ReconciliationTruth

  // ---------------------------------------------------------------------------
  // Parameters
  // ---------------------------------------------------------------------------

  /** The kinds of mismatch asked for, all three unless some are listed. */
  function TypesSent(params: map<string, Param>): seq<string> {
    var all := ["amount", "date", "missing_leg"];
    ListSent(params, "mismatch_types", all, all)
  }

  /** Which text asks for which mismatch. */
  predicate Names(name: string, m: Mismatch) {
    match m
    case WrongAmount => name == "amount"
    case WrongDate => name == "date"
    case MissingLeg => name == "missing_leg"
  }

  lemma ReadMismatchNames(name: string)
    requires name in MismatchNames()
    ensures Names(name, ReadMismatch(name))
  {
    assert |"amount"| == 6 && |"date"| == 4 && |"missing_leg"| == 11;
  }

  lemma TypesSentAreNames(params: map<string, Param>)
    ensures TypesSent(params) != [] && forall s :: s in TypesSent(params) ==> s in MismatchNames()
    ensures TypesSent(params) == ListSent(params, "mismatch_types", MismatchNames(), MismatchNames())
  {
    hide OptionsIn;
    if "mismatch_types" in params && params["mismatch_types"].PList? {
      SentAreOptions(params["mismatch_types"].items, MismatchNames());
    }
  }

  /** What a run is made for: the pairs and the ratio sent, or 100 and 0.15, and the mismatches asked for
      in their order. */
  lemma ParamsAreSent(params: map<string, Param>, p: ReconParams)
    requires CoercedFrom(params, p)
    ensures p.pairs == WholeSent(params, "pairs", 100, 1, 2000)
    ensures RatioSent(params, "mismatch_ratio", 0.15) == Fin(p.mismatchRatio)
    ensures |p.types| == |TypesSent(params)|
    ensures forall i :: 0 <= i < |p.types| ==> Names(TypesSent(params)[i], p.types[i])
  {
    hide IntSpec, FloatSpec, MultiSpec, CoercesTo, IntOr, RealOf, ListOf, WholeSent, RatioSent, ListSent;
    hide MismatchNames;
    hide TypesSent, Names, ReadMismatch, WellFormed;
    var out :| CoercesTo(Schema(), params, out) && ReadParams(out) == Some(p);
    WholeIsSent(Schema(), params, out, 0, "pairs", 100, 1, 2000, 1);
    RatioIsSent(Schema(), params, out, 1, "mismatch_ratio", 0.15, NaN);
    ListIsSent(Schema(), params, out, 2, "mismatch_types", MismatchNames(), MismatchNames());
    TypesSentAreNames(params);
    CoercedInt(Schema(), params, out, 0, "pairs", 100, 1, 2000, 1);
    forall i | 0 <= i < |p.types| ensures Names(TypesSent(params)[i], p.types[i]) {
      ReadMismatchNames(TypesSent(params)[i]);
    }
  }

  /** A request without parameters. */
  lemma DefaultParams(p: ReconParams)
    requires CoercedFrom(map[], p)
    ensures p == ReconParams(100, 0.15, [WrongAmount, WrongDate, MissingLeg])
  {
    hide CoercedFrom, ToInt;
    ParamsAreSent(map[], p);
    var names := ["amount", "date", "missing_leg"];
    assert TypesSent(map[]) == names;
    assert |"amount"| == 6 && |"date"| == 4 && |"missing_leg"| == 11;
    assert Names(names[0], p.types[0]) && Names(names[1], p.types[1]) && Names(names[2], p.types[2]);
    assert p.types == [WrongAmount, WrongDate, MissingLeg];
  }

  // ---------------------------------------------------------------------------
  // The manifest
  // ---------------------------------------------------------------------------

  /** The pairs the manifest lists. */
  function ListedPairs(p: ReconParams): seq<Node>
    requires ValidParams(p)
  {
    match Manifest(p)
    case NDict(d) =>
      if "mismatched_pairs" in d && d["mismatched_pairs"].NList? then d["mismatched_pairs"].items else []
    case _ => []
  }

  /** They number the asked share of the pairs rounded to the nearest, to the even one of two as near. */
  lemma ListedIsRoundedShare(p: ReconParams)
    requires ValidParams(p)
    ensures var off := |ListedPairs(p)| as real - p.pairs as real * p.mismatchRatio;
            -0.5 <= off <= 0.5 && (off == 0.5 || off == -0.5 ==> |ListedPairs(p)| % 2 == 0)
  {
    hide Share, MatchRate, EntryOf;
    ShareNearest(p.pairs, p.mismatchRatio);
  }

  /** An entry of the list: the reference and the type, with or without a record index. */
  ghost predicate Says(entry: Node, ref: string, name: string) {
    && entry.NDict? && "ref" in entry.entries && "type" in entry.entries
    && entry.entries["ref"] == NText(ref) && entry.entries["type"] == NText(name)
  }

  lemma EntrySays(p: ReconParams, i: nat)
    requires ValidParams(p) && i < MismatchCount(p)
    ensures Says(EntryOf(p, i), PairRef(i), MismatchName(MismatchOf(p, i).value))
    ensures "record_index" in EntryOf(p, i).entries <==> MismatchOf(p, i).value != MissingLeg
    ensures "record_index" in EntryOf(p, i).entries ==> EntryOf(p, i).entries["record_index"] == NInt(Offset(p, i) + 1)
  {
    hide MismatchName, PairRef, MismatchCount, Offset;
    assert |"ref"| == 3 && |"type"| == 4 && |"record_index"| == 12;
  }

  lemma NameOfMismatch(name: string, m: Mismatch)
    requires Names(name, m)
    ensures MismatchName(m) == name
  {
  }

  /** Entry `i` is about pair `i` and says the text that was sent, in turn. */
  lemma TypeIsSent(params: map<string, Param>, p: ReconParams, i: nat)
    requires CoercedFrom(params, p) && ValidParams(p) && i < |ListedPairs(p)|
    ensures TypesSent(params) != []
    ensures Says(ListedPairs(p)[i], "RECON-" + Pad(i, 5), TypesSent(params)[i % |TypesSent(params)|])
  {
    hide CoercedFrom, TypesSent, MatchRate, EntryOf, MismatchName, MismatchCount, Says, Pad;
    ParamsAreSent(params, p);
    EntrySays(p, i);
    NameOfMismatch(TypesSent(params)[i % |p.types|], p.types[i % |p.types|]);
  }

  // ---------------------------------------------------------------------------
  // The records
  // ---------------------------------------------------------------------------

  lemma PairAmountRange(p: ReconParams, x: Inputs, i: nat)
    requires ValidParams(p)
    ensures 100.0 <= PairAmount(p, x, i) <= 20000.0
    ensures 1.0 <= Delta(p, x, i) <= 50.0
  {
    UniformRange(x.stream(CursorAt(p, i)), 100.0, 20000.0);
    UniformRange(x.stream(CursorAt(p, i) + 3), 1.0, 50.0);
  }

  /** What an observer reads in a bank flow: a debit in euros on the account, of the pair's reference,
      dated within the last thirty days. */
  lemma BankFlowReads(p: ReconParams, x: Inputs, i: nat)
    requires ValidParams(p) && ValidInputs(x)
    ensures var r := BankRecord(p, x, i);
            && r.kind == CashFlowKind && ReadFlow(r.payload).Some?
            && var f := ReadFlow(r.payload).value;
               && f.accountIban == IbanAt(x.stream, 0) && f.currency == "EUR" && f.direction == Debit
               && -20000.005 <= Amount(f.amount) <= -99.995
               && x.today - 30 < f.valueDate <= x.today && f.bookedAt == None && f.categoryHint == None
               && f.counterparty in Counterparties() && f.caption == "Règlement " + f.counterparty
               && f.ref == Some("RECON-" + Pad(i, 5))
  {
    hide IbanAt, Money, Counterparties, DumpFlow, ReadFlow, Pad, ParseDecimal, PairAmount, CursorAt;
    PairValid(p, x, i);
    FlowRoundTrip(BankFlow(p, x, i));
    PairAmountRange(p, x, i);
    MoneyReads(-PairAmount(p, x, i));
  }

  /** What an observer reads in an ERP leg: the pair's reference again, and how it differs from the bank
      flow. */
  lemma LegReads(p: ReconParams, x: Inputs, i: nat)
    requires ValidParams(p) && ValidInputs(x)
    ensures var r := LegRecord(p, x, i);
            && ReadFlow(BankRecord(p, x, i).payload).Some? && r.kind == ErpEntryKind && ReadErp(r.payload).Some?
            && var f, e := ReadFlow(BankRecord(p, x, i).payload).value, ReadErp(r.payload).value;
               && e.ref == "RECON-" + Pad(i, 5) && e.currency == "EUR" && e.matchesIban == Some(f.accountIban)
               && e.caption == "Écriture " + f.counterparty
               && match MismatchOf(p, i)
                  case Some(WrongAmount) => 0.99 <= Amount(f.amount) - Amount(e.amount) <= 50.01 && e.entryDate == f.valueDate
                  case Some(WrongDate) => e.amount == f.amount && e.entryDate == f.valueDate + 3
                  case _ => e.amount == f.amount && e.entryDate == f.valueDate
  {
    hide IbanAt, Money, PairName, DumpFlow, DumpErp, ReadFlow, ReadErp, Pad, ParseDecimal, PairAmount, PairDay;
    hide Delta, MismatchOf;
    PairValid(p, x, i);
    FlowRoundTrip(BankFlow(p, x, i));
    ErpRoundTrip(ErpLeg(p, x, i));
    PairAmountRange(p, x, i);
    MoneyReads(-PairAmount(p, x, i));
    MoneyReads(-LegAmount(p, x, i));
  }

  /** The leg says one to fifty more than the flow, on the same date. */
  predicate OffInAmount(flow: Record, leg: Record) {
    && ReadFlow(flow.payload).Some? && ReadErp(leg.payload).Some?
    && var f, e := ReadFlow(flow.payload).value, ReadErp(leg.payload).value;
       0.99 <= Amount(f.amount) - Amount(e.amount) <= 50.01 && e.entryDate == f.valueDate
  }

  /** The leg says the same amount three days later. */
  predicate OffInDate(flow: Record, leg: Record) {
    && ReadFlow(flow.payload).Some? && ReadErp(leg.payload).Some?
    && var f, e := ReadFlow(flow.payload).value, ReadErp(leg.payload).value;
       e.amount == f.amount && e.entryDate == f.valueDate + 3
  }

  /** The entry's record index is the pair's leg. */
  ghost predicate IndexedLeg(p: ReconParams, x: Inputs, i: nat, entry: Node)
    requires ValidParams(p) && ValidInputs(x)
  {
    && entry.NDict? && "record_index" in entry.entries && entry.entries["record_index"].NInt?
    && var b := entry.entries["record_index"].i;
       0 <= b < |Records(p, x)| && Records(p, x)[b] == LegRecord(p, x, i)
  }

  lemma NamesOfMismatches()
    ensures MismatchName(WrongAmount) == "amount" && MismatchName(WrongDate) == "date" && MismatchName(MissingLeg) == "missing_leg"
    ensures "amount" != "date" && "date" != "missing_leg" && "amount" != "missing_leg"
  {
    assert |"amount"| == 6 && |"date"| == 4 && |"missing_leg"| == 11;
  }

  lemma LegIsOff(p: ReconParams, x: Inputs, i: nat)
    requires ValidParams(p) && ValidInputs(x)
    ensures MismatchOf(p, i) == Some(WrongAmount) ==> OffInAmount(BankRecord(p, x, i), LegRecord(p, x, i))
    ensures MismatchOf(p, i) == Some(WrongDate) ==> OffInDate(BankRecord(p, x, i), LegRecord(p, x, i))
  {
    hide BankRecord, LegRecord, Pad, ReadFlow, ReadErp, Amount, MismatchOf;
    LegReads(p, x, i);
  }

  /** No ERP record has the pair's reference. */
  ghost predicate Legless(rs: seq<Record>, i: nat) {
    forall b :: 0 <= b < |rs| && rs[b].kind == ErpEntryKind ==> TextField(rs[b].payload, "ref") != Some("RECON-" + Pad(i, 5))
  }

  lemma LegIsMissing(p: ReconParams, x: Inputs, i: nat)
    requires ValidParams(p) && ValidInputs(x) && i < p.pairs && MismatchOf(p, i) == Some(MissingLeg)
    ensures Legless(Records(p, x), i)
  {
    hide Records, TextField, MismatchOf;
    forall b | 0 <= b < |Records(p, x)| && Records(p, x)[b].kind == ErpEntryKind
      ensures TextField(Records(p, x)[b].payload, "ref") != Some("RECON-" + Pad(i, 5))
    {
      MissingLegIsMissing(p, x, i, b);
    }
  }

  /** What the type listed for pair `i` says of its records: no ERP leg at all; or a leg, at the listed
      index, one to fifty off in amount and on the same date; or of the same amount and three days
      late. */
  lemma TypeShows(p: ReconParams, x: Inputs, i: nat)
    requires ValidParams(p) && ValidInputs(x) && i < |ListedPairs(p)|
    ensures var rs, entry := Records(p, x), ListedPairs(p)[i];
            && entry.NDict? && "type" in entry.entries && Offset(p, i) < |rs| && rs[Offset(p, i)] == BankRecord(p, x, i)
            && (entry.entries["type"] == NText("missing_leg") ==> "record_index" !in entry.entries && Legless(rs, i))
            && (entry.entries["type"] == NText("amount") ==>
                  IndexedLeg(p, x, i, entry) && OffInAmount(BankRecord(p, x, i), LegRecord(p, x, i)))
            && (entry.entries["type"] == NText("date") ==>
                  IndexedLeg(p, x, i, entry) && OffInDate(BankRecord(p, x, i), LegRecord(p, x, i)))
  {
    hide Records, MatchRate, EntryOf, MismatchName, MismatchCount, Offset, BankRecord, LegRecord, OffInAmount;
    hide OffInDate, Legless;
    EntrySays(p, i);
    NamesOfMismatches();
    PairAt(p, x, i);
    LegIsOff(p, x, i);
    if MismatchOf(p, i) == Some(MissingLeg) {
      LegIsMissing(p, x, i);
    }
  }

  /** What an observer reads in the first record: the account. */
  lemma AccountReads(p: ReconParams, x: Inputs)
    requires ValidParams(p) && ValidInputs(x)
    ensures Records(p, x) != []
    ensures var r := Records(p, x)[0];
            && r.kind == BankAccountKind && ReadAccount(r.payload).Some?
            && var a := ReadAccount(r.payload).value;
               && a.iban == IbanAt(x.stream, 0) && a.currency == "EUR" && a.caption == "Compte courant 1"
               && a.entity == x.target + " Holding" && 49999.995 <= Amount(a.balance) <= 300000.005
  {
    hide Records, IbanAt, Money, DumpAccount, ReadAccount, ParseDecimal, UniformOf;
    RecordsSize(p, x);
    AccountOfValid(x.stream, 0, x.target, UniformOf(x.stream(18), 50000.0, 300000.0));
    AccountRoundTrip(Account(x));
    UniformRange(x.stream(18), 50000.0, 300000.0);
    MoneyReads(UniformOf(x.stream(18), 50000.0, 300000.0));
    EntityLabelText(x.target, 0);
  }
}
