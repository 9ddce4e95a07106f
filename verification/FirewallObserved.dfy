/** The firewall batch as an observer sees it: which parameters it was made for, what the labels say,
    what is in each record. */
module FirewallObserved {
  import opened Options
  import opened Text
  import opened Decimals
  import opened Random
  import opened CanonicalJson
  import opened Models
  import opened Fabrication
  import opened Sequences
  import opened GroundTruth
  import opened Params
  import opened CoercionTruth
  import opened Reading
  import opened Firewall
  import opened FirewallTruth

  // ---------------------------------------------------------------------------
  // Parameters
  // ---------------------------------------------------------------------------

  /** The defect types asked for, all three unless some are listed. */
  function DefectsSent(params: map<string, Param>): seq<string> {
    var all := ["missing_field", "incoherent_amount", "dup_source_hash"];
    ListSent(params, "defect_types", all, all)
  }

  /** Which text asks for which defect. */
  predicate Names(name: string, defect: Defect) {
    match defect
    case MissingField => name == "missing_field"
    case IncoherentAmount => name == "incoherent_amount"
    case DupSourceHash => name == "dup_source_hash"
  }

  lemma ReadDefectNames(name: string)
    requires name in DefectNames()
    ensures Names(name, ReadDefect(name)) && DefectName(ReadDefect(name)) == name
  {
    assert |"missing_field"| == 13 && |"incoherent_amount"| == 17 && |"dup_source_hash"| == 15;
  }

  lemma DefectsSentAreNames(params: map<string, Param>)
    ensures DefectsSent(params) != [] && forall s :: s in DefectsSent(params) ==> s in DefectNames()
    ensures DefectsSent(params) == ListSent(params, "defect_types", DefectNames(), DefectNames())
  {
    hide OptionsIn;
    if "defect_types" in params && params["defect_types"].PList? {
      SentAreOptions(params["defect_types"].items, DefectNames());
    }
  }

  /** What a run is made for: the flows and the ratio sent, or 50 and 0.3, and the defects asked for in
      their order. */
  lemma ParamsAreSent(params: map<string, Param>, p: FirewallParams)
    requires CoercedFrom(params, p)
    ensures p.baseFlows == WholeSent(params, "base_flows", 50, 1, 2000)
    ensures RatioSent(params, "bad_ratio", 0.3) == Fin(p.badRatio)
    ensures |p.defects| == |DefectsSent(params)|
    ensures forall i :: 0 <= i < |p.defects| ==> Names(DefectsSent(params)[i], p.defects[i])
  {
    hide IntSpec, FloatSpec, MultiSpec, CoercesTo, IntOr, RealOf, ListOf, WholeSent, RatioSent, ListSent;
    hide DefectNames, DefectsSent;
    hide Names, ReadDefect, WellFormed;
    var out :| CoercesTo(Schema(), params, out) && ReadParams(out) == Some(p);
    WholeIsSent(Schema(), params, out, 0, "base_flows", 50, 1, 2000, 1);
    RatioIsSent(Schema(), params, out, 1, "bad_ratio", 0.3, NaN);
    ListIsSent(Schema(), params, out, 2, "defect_types", DefectNames(), DefectNames());
    DefectsSentAreNames(params);
    CoercedInt(Schema(), params, out, 0, "base_flows", 50, 1, 2000, 1);
    forall i | 0 <= i < |p.defects| ensures Names(DefectsSent(params)[i], p.defects[i]) {
      ReadDefectNames(DefectsSent(params)[i]);
    }
  }

  /** A request without parameters. */
  lemma DefaultParams(p: FirewallParams)
    requires CoercedFrom(map[], p)
    ensures p == FirewallParams(50, 0.3, [MissingField, IncoherentAmount, DupSourceHash])
  {
    hide CoercedFrom, ToInt;
    ParamsAreSent(map[], p);
    var names := ["missing_field", "incoherent_amount", "dup_source_hash"];
    assert DefectsSent(map[]) == names;
    assert |"missing_field"| == 13 && |"incoherent_amount"| == 17 && |"dup_source_hash"| == 15;
    assert Names(names[0], p.defects[0]) && Names(names[1], p.defects[1]) && Names(names[2], p.defects[2]);
    assert p.defects == [MissingField, IncoherentAmount, DupSourceHash];
  }

  // ---------------------------------------------------------------------------
  // The manifest
  // ---------------------------------------------------------------------------

  /** The manifest of a run. */
  function ManifestOf(p: FirewallParams): Node
    requires ValidParams(p)
  {
    Manifest(CountBelow(BadCount(p), IsQuarantined(p)), CountBelow(BadCount(p), IsDuplicate(p)), BadCount(p), Reasons(p, BadCount(p)))
  }

  /** The number of bad records is the asked share of the flows rounded to the nearest, to the even one
      of two as near. */
  lemma BadIsRoundedShare(p: FirewallParams)
    requires ValidParams(p)
    ensures var m := ManifestOf(p);
            && m.NDict? && "expected_bad" in m.entries && m.entries["expected_bad"].NInt?
            && var off := m.entries["expected_bad"].i as real - p.baseFlows as real * p.badRatio;
               && -0.5 <= off <= 0.5 && (off == 0.5 || off == -0.5 ==> m.entries["expected_bad"].i % 2 == 0)
  {
    hide CountBelow, Reasons, IsQuarantined, IsDuplicate, Share;
    ShareNearest(p.baseFlows, p.badRatio);
  }

  lemma NameOfDefect(name: string, defect: Defect)
    requires Names(name, defect)
    ensures DefectName(defect) == name
  {
  }

  /** The reason recorded for a bad record is the text that was sent, in turn. */
  lemma ReasonIsSent(params: map<string, Param>, p: FirewallParams, k: nat)
    requires CoercedFrom(params, p) && ValidParams(p) && k < BadCount(p)
    ensures var m, names := ManifestOf(p), DefectsSent(params);
            && m.NDict? && "per_record_reason" in m.entries && m.entries["per_record_reason"].NDict?
            && var reasons := m.entries["per_record_reason"].entries;
               var index := Dec(1 + p.baseFlows + k);
               index in reasons && names != [] && reasons[index] == NText(names[k % |names|])
  {
    hide CoercedFrom, CountBelow, Reasons, IsQuarantined, IsDuplicate, DefectsSent, Dec, DefectName, BadCount;
    ParamsAreSent(params, p);
    ReasonAt(p, BadCount(p), k);
    NameOfDefect(DefectsSent(params)[k % |p.defects|], DefectAt(p, k));
  }

  lemma SpoiledShows(base: Payload, defect: Defect, k: nat)
    ensures var q := Spoil(base, defect, k);
            && (defect == MissingField ==> "currency" !in q && TextField(q, "ref") == Some("FW-BAD-" + Pad(k, 4)))
            && (defect == IncoherentAmount ==>
                  && TextField(q, "amount") == Some(if k % 2 == 0 then "NOT_A_NUMBER" else "999999999999999")
                  && TextField(q, "ref") == Some("FW-BAD-" + Pad(k, 4)))
            && (defect == DupSourceHash ==> q == base)
  {
    hide Pad;
    assert |"ref"| == 3 && |"amount"| == 6 && |"currency"| == 8;
  }

  /** What the recorded reason says of the record: no currency; one of two absurd amounts in turn; or a
      good record's payload over again. A reference of its own tells the first two from the good ones. */
  lemma ReasonShows(p: FirewallParams, x: Inputs, k: nat)
    requires ValidParams(p) && ValidInputs(x) && k < BadCount(p)
    ensures var rs := Records(p, x);
            var i := 1 + p.baseFlows + k;
            && Reasons(p, BadCount(p)).Keys >= {Dec(i)} && i < |rs|
            && var r, reason := rs[i], Reasons(p, BadCount(p))[Dec(i)];
               && r.kind == CashFlowKind
               && (reason == NText("missing_field") ==>
                     "currency" !in r.payload && TextField(r.payload, "ref") == Some("FW-BAD-" + Pad(k, 4)))
               && (reason == NText("incoherent_amount") ==>
                     && TextField(r.payload, "amount") == Some(if k % 2 == 0 then "NOT_A_NUMBER" else "999999999999999")
                     && TextField(r.payload, "ref") == Some("FW-BAD-" + Pad(k, 4)))
               && (reason == NText("dup_source_hash") ==> exists j :: 1 <= j <= p.baseFlows && rs[j] == r)
  {
    hide Records, BadCount, Dec, Pad, GoodPayload, Reasons, DumpFlow;
    ReasonAt(p, BadCount(p), k);
    BadRecord(p, x, k);
    GoodRecord(p, x, SourceOf(p, x, k));
    SpoiledShows(GoodPayload(x, SourceOf(p, x, k)), DefectAt(p, k), k);
    assert |"missing_field"| == 13 && |"incoherent_amount"| == 17 && |"dup_source_hash"| == 15;
    assert Records(p, x)[1 + SourceOf(p, x, k)].payload == GoodPayload(x, SourceOf(p, x, k));
  }

  // ---------------------------------------------------------------------------
  // The records
  // ---------------------------------------------------------------------------

  lemma AmountSigned(x: Inputs, j: nat)
    requires ValidInputs(x)
    ensures SignedBetween(GoodFlow(x, j), 50.0, 15000.0, x.stream(19 + 5 * j + 1) < 0.5)
  {
    hide Money, UniformOf, ParseDecimal, IbanAt, ChoiceOf, Counterparties, GoodRef;
    UniformRange(x.stream(19 + 5 * j), 50.0, 15000.0);
    MoneyReads(SignedAmount(x, j));
  }

  /** What an observer reads in a good record: a flow in euros on the account, dated within the last
      thirty days, with a fabricated counterparty and a numbered reference. */
  lemma GoodFlowReads(p: FirewallParams, x: Inputs, j: nat)
    requires ValidParams(p) && ValidInputs(x) && j < p.baseFlows
    ensures var r := Records(p, x)[1 + j];
            && r.kind == CashFlowKind && ReadFlow(r.payload).Some?
            && var f := ReadFlow(r.payload).value;
               && SignedBetween(f, 50.0, 15000.0, x.stream(19 + 5 * j + 1) < 0.5)
               && f.accountIban == IbanAt(x.stream, 0) && f.currency == "EUR"
               && x.today - 30 < f.valueDate <= x.today && f.bookedAt == None
               && f.counterparty in Counterparties() && f.caption == "Règlement" && f.categoryHint == None
               && Numbered(f.ref, "FW-")
  {
    hide Records, IbanAt, Money, Counterparties, SignedBetween, DumpFlow, ReadFlow, Dec, SignedAmount;
    GoodRecord(p, x, j);
    GoodFlowValid(x, j);
    FlowRoundTrip(GoodFlow(x, j));
    AmountSigned(x, j);
    assert GoodFlow(x, j).ref == Some("FW-" + Dec(IntOf(x.stream(19 + 5 * j + 4), 100000, 999999)));
  }

  /** What an observer reads in the first record: the account. */
  lemma AccountReads(p: FirewallParams, x: Inputs)
    requires ValidParams(p) && ValidInputs(x)
    ensures var r := Records(p, x)[0];
            && r.kind == BankAccountKind && ReadAccount(r.payload).Some?
            && var a := ReadAccount(r.payload).value;
               && a.iban == IbanAt(x.stream, 0) && a.currency == "EUR" && a.caption == "Compte courant 1"
               && a.entity == x.target + " Holding"
               && ParseDecimal(a.balance).Finite? && 9999.995 <= ParseDecimal(a.balance).value <= 200000.005
  {
    hide Records, IbanAt, Money, DumpAccount, ReadAccount, ParseDecimal, UniformOf;
    AccountRecord(p, x);
    AccountOfValid(x.stream, 0, x.target, UniformOf(x.stream(18), 10000.0, 200000.0));
    AccountRoundTrip(Account(x));
    UniformRange(x.stream(18), 10000.0, 200000.0);
    MoneyReads(UniformOf(x.stream(18), 10000.0, 200000.0));
    EntityLabelText(x.target, 0);
  }
}
