/** The consolidation batch as an observer sees it: which parameters it was made for, where its records
    are, and what is in each of them. */
module ConsolidationObserved {
  import opened Options
  import opened Text
  import opened Decimals
  import opened Random
  import opened Models
  import opened Fabrication
  import opened Params
  import opened CoercionTruth
  import opened Reading
  import opened Consolidation
  import opened ConsolidationTruth

  // ---------------------------------------------------------------------------
  // Parameters
  // ---------------------------------------------------------------------------

  /** The currencies asked for, euros and dollars unless some of the four are listed. */
  function CurrenciesSent(params: map<string, Param>): seq<string> {
    ListSent(params, "currencies", ["EUR", "USD"], ["EUR", "USD", "GBP", "CHF"])
  }

  lemma CurrenciesSentAreCodes(params: map<string, Param>)
    ensures CurrenciesSent(params) != [] && forall s :: s in CurrenciesSent(params) ==> s in Codes()
    ensures CurrenciesSent(params) == ListSent(params, "currencies", [Code(Eur), Code(Usd)], Codes())
  {
    hide OptionsIn, Code, Codes;
    CodeTexts();
    EveryCode(Eur);
    EveryCode(Usd);
    if "currencies" in params && params["currencies"].PList? {
      SentAreOptions(params["currencies"].items, Codes());
    }
  }

  /** What a run is made for: the numbers sent, or four entities of two accounts, and the currencies asked
      for in their order. */
  lemma ParamsAreSent(params: map<string, Param>, p: ConsParams)
    requires CoercedFrom(params, p)
    ensures p.entities == WholeSent(params, "entities", 4, 1, 15)
    ensures p.perEntity == WholeSent(params, "accounts_per_entity", 2, 1, 10)
    ensures |p.currencies| == |CurrenciesSent(params)|
    ensures forall i :: 0 <= i < |p.currencies| ==> Code(p.currencies[i]) == CurrenciesSent(params)[i]
  {
    hide IntSpec, MultiSpec, CoercesTo, IntOr, ListOf, WholeSent, ListSent, CurrenciesSent, Code, Codes;
    hide ReadCurrency, WellFormed;
    var out :| CoercesTo(Schema(), params, out) && ReadParams(out) == p;
    WholeIsSent(Schema(), params, out, 0, "entities", 4, 1, 15, 1);
    WholeIsSent(Schema(), params, out, 1, "accounts_per_entity", 2, 1, 10, 1);
    ListIsSent(Schema(), params, out, 2, "currencies", [Code(Eur), Code(Usd)], Codes());
    CurrenciesSentAreCodes(params);
    CoercedInt(Schema(), params, out, 0, "entities", 4, 1, 15, 1);
    CoercedInt(Schema(), params, out, 1, "accounts_per_entity", 2, 1, 10, 1);
    forall i | 0 <= i < |p.currencies| ensures Code(p.currencies[i]) == CurrenciesSent(params)[i] {
      CodeRead(CurrenciesSent(params)[i]);
    }
  }

  /** A request without parameters. */
  lemma DefaultParams(p: ConsParams)
    requires CoercedFrom(map[], p)
    ensures p == ConsParams(4, 2, [Eur, Usd])
  {
    hide CoercedFrom, ToInt;
    ParamsAreSent(map[], p);
    assert CurrenciesSent(map[]) == ["EUR", "USD"];
    assert Code(p.currencies[0]) == "EUR" && Code(p.currencies[1]) == "USD";
    ReadCode(p.currencies[0]);
    ReadCode(p.currencies[1]);
    ReadCode(Eur);
    ReadCode(Usd);
    assert p.currencies == [Eur, Usd];
  }

  // ---------------------------------------------------------------------------
  // Where the records are
  // ---------------------------------------------------------------------------

  lemma {:induction false} AccountsGrow(p: ConsParams, x: Inputs, e: nat, a: nat, b: nat)
    requires ValidParams(p) && ValidInputs(x) && a <= b <= p.perEntity
    ensures RecordsUpTo(p, x, e, a) <= RecordsUpTo(p, x, e, b)
    decreases b
  {
    hide AccountRecord, FlowsUpTo, AccountIndex;
    if a < b {
      AccountsGrow(p, x, e, a, b - 1);
    }
  }

  /** Account `a` of entity `e` and its flows stand together. */
  lemma BlockAt(p: ConsParams, x: Inputs, e: nat, a: nat)
    requires ValidParams(p) && ValidInputs(x) && e < p.entities && a < p.perEntity
    ensures var j := AccountIndex(p, e, a);
            6 * j + 6 <= |Records(p, x)|
            && Records(p, x)[6 * j..6 * j + 6] == [AccountRecord(p, x, e, j)] + FlowsUpTo(p, x, j, 5)
  {
    hide AccountRecord, FlowsUpTo;
    var j := AccountIndex(p, e, a);
    SizeUpTo(p, x, e, a);
    SizeUpTo(p, x, e, a + 1);
    AccountsGrow(p, x, e, a + 1, p.perEntity);
    RecordsGrow(p, x, e + 1, p.entities - e - 1, 0);
    assert RecordsUpTo(p, x, e + 1, 0) == RecordsUpTo(p, x, e, p.perEntity);
    var block := [AccountRecord(p, x, e, j)] + FlowsUpTo(p, x, j, FLOWS_PER_ACCOUNT);
    assert RecordsUpTo(p, x, e, a + 1) == RecordsUpTo(p, x, e, a) + block;
    assert RecordsUpTo(p, x, e, a + 1) <= Records(p, x);
  }

  // ---------------------------------------------------------------------------
  // What they say
  // ---------------------------------------------------------------------------

  lemma AccountIsValid(p: ConsParams, x: Inputs, e: nat, j: nat)
    requires ValidParams(p)
    ensures ValidAccount(AccountNumber(p, x, e, j))
  {
    hide IbanAt, Money, EntityLabel, Code, CurrencyAt, Balance;
    IbanAtValid(x.stream, CursorAt(j) + 1);
    MoneyIsDecimal(Balance(x, j));
  }

  /** What an observer reads in account `j`, one of entity `e`: the currencies in turn, the entity's
      label. */
  lemma AccountReads(params: map<string, Param>, p: ConsParams, x: Inputs, e: nat, j: nat)
    requires CoercedFrom(params, p) && ValidParams(p)
    ensures CurrenciesSent(params) != []
    ensures var r, names := AccountRecord(p, x, e, j), CurrenciesSent(params);
            && r.kind == BankAccountKind && ReadAccount(r.payload).Some?
            && var a := ReadAccount(r.payload).value;
               && a.currency == names[j % |names|] && a.caption == "Compte " + (a.currency + (" " + Dec(j + 1)))
               && a.iban == Iban(x, j) && a.entity == EntityLabel(x.target, e)
               && 19999.995 <= Amount(a.balance) <= 800000.005
  {
    hide CoercedFrom, CurrenciesSent, DumpAccount, ReadAccount, Code, ParseDecimal, Money, UniformOf, Dec;
    hide EntityLabel, IbanAt;
    ParamsAreSent(params, p);
    AccountIsValid(p, x, e, j);
    AccountRoundTrip(AccountNumber(p, x, e, j));
    UniformRange(x.stream(CursorAt(j)), 20000.0, 800000.0);
    MoneyReads(Balance(x, j));
  }

  lemma AmountSigned(p: ConsParams, x: Inputs, j: nat, f: nat)
    requires ValidParams(p) && ValidInputs(x)
    ensures SignedBetween(FlowNumber(p, x, j, f), 100.0, 20000.0, x.stream(44 * j + 19 + 5 * f + 1) < 0.6)
  {
    hide Money, UniformOf, ParseDecimal, IbanAt, ChoiceOf, Counterparties, Code, CurrencyAt, Dec;
    UniformRange(x.stream(FlowCursor(j, f)), 100.0, 20000.0);
    MoneyReads(FlowAmount(x, FlowCursor(j, f)));
  }

  lemma ChosenName(u: Unit)
    ensures ChoiceOf(u, Counterparties()) in Counterparties()
  {
  }

  lemma FlowIsValid(p: ConsParams, x: Inputs, j: nat, f: nat)
    requires ValidParams(p) && ValidInputs(x)
    ensures ValidFlow(FlowNumber(p, x, j, f))
  {
    hide IbanAt, Money, Code, CurrencyAt, FlowAmount, ChoiceOf, Counterparties;
    IbanAtValid(x.stream, CursorAt(j) + 1);
    MoneyIsDecimal(FlowAmount(x, FlowCursor(j, f)));
  }

  lemma {:induction false} FlowAtPlace(p: ConsParams, x: Inputs, j: nat, n: nat, f: nat)
    requires ValidParams(p) && ValidInputs(x) && f < n
    ensures FlowsUpTo(p, x, j, n)[f] == Record(CashFlowKind, DumpFlow(FlowNumber(p, x, j, f)))
  {
    hide DumpFlow, FlowNumber;
    if f < n - 1 {
      FlowAtPlace(p, x, j, n - 1, f);
    }
  }

  /** What an observer reads in flow `f` of account `j`: a settled flow of the last thirty days on that
      account and in its currency, six in ten of them credits. */
  lemma FlowReads(p: ConsParams, x: Inputs, e: nat, j: nat, f: nat)
    requires ValidParams(p) && ValidInputs(x) && f < 5
    ensures var r := FlowsUpTo(p, x, j, 5)[f];
            && r.kind == CashFlowKind && ReadFlow(r.payload).Some? && ReadAccount(AccountRecord(p, x, e, j).payload).Some?
            && var c, a := ReadFlow(r.payload).value, ReadAccount(AccountRecord(p, x, e, j).payload).value;
               && SignedBetween(c, 100.0, 20000.0, x.stream(44 * j + 19 + 5 * f + 1) < 0.6)
               && c.accountIban == a.iban && c.currency == a.currency
               && x.today - 30 < c.valueDate <= x.today && c.bookedAt == None && c.categoryHint == None
               && c.counterparty in Counterparties() && c.caption == "Règlement consolidé" && Numbered(c.ref, "CONS-")
  {
    hide DumpFlow, DumpAccount, ReadFlow, ReadAccount, IbanAt, Money, Code, CurrencyAt, FlowAmount, ChoiceOf;
    hide Counterparties, Dec;
    hide SignedBetween, Numbered, EntityLabel;
    FlowAtPlace(p, x, j, 5, f);
    AccountIsValid(p, x, e, j);
    AccountRoundTrip(AccountNumber(p, x, e, j));
    FlowIsValid(p, x, j, f);
    FlowRoundTrip(FlowNumber(p, x, j, f));
    AmountSigned(p, x, j, f);
    NumberedWith(FlowNumber(p, x, j, f).ref, "CONS-", IntOf(x.stream(FlowCursor(j, f) + 4), 100000, 999999));
    ChosenName(x.stream(FlowCursor(j, f) + 3));
  }
}
