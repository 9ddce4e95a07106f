/** The ingestion batch as an observer sees it: which parameters it was made for and what is in each
    record. */
module IngestionObserved {
  import opened Options
  import opened Text
  import opened Decimals
  import opened Random
  import opened Calendar
  import opened Models
  import opened Fabrication
  import opened Params
  import opened CoercionTruth
  import opened Reading
  import opened Ingestion

  // ---------------------------------------------------------------------------
  // Parameters
  // ---------------------------------------------------------------------------

  /** The currencies asked for, euros unless some of the four are listed. */
  function CurrenciesSent(params: map<string, Param>): seq<string> {
    ListSent(params, "currencies", ["EUR"], ["EUR", "USD", "GBP", "CHF"])
  }

  /** The format asked for, `psd2` unless one of the four is named. */
  function FormatSent(params: map<string, Param>): string {
    OptionSent(params, "source_format", "psd2", ["psd2", "camt053", "mt940", "odata"])
  }

  lemma CurrenciesSentAreCodes(params: map<string, Param>)
    ensures CurrenciesSent(params) != [] && forall s :: s in CurrenciesSent(params) ==> s in Codes()
    ensures CurrenciesSent(params) == ListSent(params, "currencies", [Code(Eur)], Codes())
  {
    hide OptionsIn, Code, Codes;
    CodeTexts();
    EveryCode(Eur);
    if "currencies" in params && params["currencies"].PList? {
      SentAreOptions(params["currencies"].items, Codes());
    }
  }

  /** What a run is made for: the numbers sent, or three accounts of thirty flows over ninety days, the
      currencies in their order and the format. */
  lemma ParamsAreSent(params: map<string, Param>, p: IngestParams)
    requires CoercedFrom(params, p)
    ensures p.accounts == WholeSent(params, "accounts", 3, 1, 20)
    ensures p.flows == WholeSent(params, "flows_per_account", 30, 1, 500)
    ensures p.window == DaysSent(params, "date_range", 90, 1, 365)
    ensures p.format == FormatSent(params)
    ensures |p.currencies| == |CurrenciesSent(params)|
    ensures forall i :: 0 <= i < |p.currencies| ==> Code(p.currencies[i]) == CurrenciesSent(params)[i]
  {
    hide IntSpec, MultiSpec, WindowSpec, EnumSpec, CoercesTo, IntOr, ListOf, TextOf, WholeSent, DaysSent;
    hide ListSent, OptionSent;
    hide CurrenciesSent, Code, Codes, ReadCurrency, WellFormed;
    var out :| CoercesTo(Schema(), params, out) && ReadParams(out) == p;
    WholeIsSent(Schema(), params, out, 0, "accounts", 3, 1, 20, 1);
    WholeIsSent(Schema(), params, out, 1, "flows_per_account", 30, 1, 500, 1);
    DaysAreSent(Schema(), params, out, 2, "date_range", 90, 1, 365, 1);
    ListIsSent(Schema(), params, out, 3, "currencies", [Code(Eur)], Codes());
    OptionIsSent(Schema(), params, out, 4, "source_format", "psd2", Formats());
    CurrenciesSentAreCodes(params);
    CoercedInt(Schema(), params, out, 0, "accounts", 3, 1, 20, 1);
    CoercedInt(Schema(), params, out, 1, "flows_per_account", 30, 1, 500, 1);
    CoercedWindow(Schema(), params, out, 2, "date_range", 90, 1, 365, 1);
    forall i | 0 <= i < |p.currencies| ensures Code(p.currencies[i]) == CurrenciesSent(params)[i] {
      CodeRead(CurrenciesSent(params)[i]);
    }
  }

  /** A request without parameters. */
  lemma DefaultParams(p: IngestParams)
    requires CoercedFrom(map[], p)
    ensures p == IngestParams(3, 30, 90, [Eur], "psd2")
  {
    hide CoercedFrom, ToInt, DaysOf;
    ParamsAreSent(map[], p);
    assert CurrenciesSent(map[]) == ["EUR"];
    assert Code(p.currencies[0]) == "EUR";
    ReadCode(p.currencies[0]);
    ReadCode(Eur);
    assert p.currencies == [Eur];
  }

  // ---------------------------------------------------------------------------
  // The records
  // ---------------------------------------------------------------------------

  lemma AccountIsValid(p: IngestParams, x: Inputs, i: nat)
    requires ValidParams(p)
    ensures ValidAccount(AccountNumber(p, x, i))
  {
    hide IbanAt, Money, EntityLabel, Code, CurrencyAt, UniformOf;
    IbanAtValid(x.stream, 19 * i);
    MoneyIsDecimal(UniformOf(x.stream(19 * i + 18), 10000.0, 500000.0));
  }

  /** What an observer reads in account `i`: the currencies in turn; one entity for a single account, two
      in turn for more. */
  lemma AccountReads(params: map<string, Param>, p: IngestParams, x: Inputs, i: nat)
    requires CoercedFrom(params, p) && ValidParams(p) && ValidInputs(x) && i < p.accounts
    ensures CurrenciesSent(params) != [] && i < |Records(p, x)|
    ensures var r, names := Records(p, x)[i], CurrenciesSent(params);
            && r.kind == BankAccountKind && ReadAccount(r.payload).Some?
            && var a := ReadAccount(r.payload).value;
               && a.iban == Iban(x, i) && a.currency == names[i % |names|] && a.caption == "Compte courant " + Dec(i + 1)
               && a.entity == x.target + (if i % 2 == 0 then " Holding" else " Filiale Nord")
               && 9999.995 <= Amount(a.balance) <= 500000.005
  {
    hide CoercedFrom, CurrenciesSent, FlowsUpTo, DumpAccount, ReadAccount, Code, ParseDecimal, Money, UniformOf;
    hide Dec, EntityLabel, IbanAt;
    hide ValidAccount;
    ParamsAreSent(params, p);
    AccountIsValid(p, x, i);
    AccountRoundTrip(AccountNumber(p, x, i));
    UniformRange(x.stream(19 * i + 18), 10000.0, 500000.0);
    MoneyReads(UniformOf(x.stream(19 * i + 18), 10000.0, 500000.0));
    EntityLabelText(x.target, i % Entities(p));
    assert Records(p, x)[i] == AccountRecords(p, x, p.accounts)[i];
  }

  lemma AmountSigned(p: IngestParams, x: Inputs, i: nat, n: nat)
    requires ValidParams(p) && ValidInputs(x)
    ensures SignedBetween(FlowNumber(p, x, i, n), 50.0, 25000.0, x.stream(19 * p.accounts + 6 * n + 1) < 0.5)
  {
    hide Money, UniformOf, ParseDecimal, IbanAt, ChoiceOf, Counterparties, Wordings, Code, CurrencyAt, Dec;
    UniformRange(x.stream(FlowCursor(p, n)), 50.0, 25000.0);
    MoneyReads(FlowAmount(x, FlowCursor(p, n)));
  }

  lemma FlowIsValid(p: IngestParams, x: Inputs, i: nat, n: nat)
    requires ValidParams(p) && ValidInputs(x)
    ensures ValidFlow(FlowNumber(p, x, i, n))
  {
    hide IbanAt, Money, Code, CurrencyAt, FlowAmount, ChoiceOf, Counterparties, Wordings;
    IbanAtValid(x.stream, 19 * i);
    MoneyIsDecimal(FlowAmount(x, FlowCursor(p, n)));
  }

  /** The five wordings. */
  function Captions(): seq<string> {
    ["Virement", "Prélèvement", "Facture", "Règlement", "Encaissement"]
  }

  lemma ChosenTexts(u: Unit, v: Unit)
    ensures ChoiceOf(u, Counterparties()) in Counterparties() && ChoiceOf(v, Wordings()) in Captions()
  {
  }

  /** A flow on that account and in its currency, dated within the window, with the texts and the number
      the preset uses. */
  ghost predicate Says(c: CashFlow, a: BankAccount, window: nat, today: Day) {
    && c.accountIban == a.iban && c.currency == a.currency
    && today - window < c.valueDate <= today && c.bookedAt == None && c.categoryHint == None
    && c.counterparty in Counterparties() && c.caption in Captions() && Numbered(c.ref, "ING-")
  }

  lemma FlowSays(p: IngestParams, x: Inputs, i: nat, n: nat)
    requires ValidParams(p) && ValidInputs(x)
    ensures Says(FlowNumber(p, x, i, n), AccountNumber(p, x, i), p.window, x.today)
  {
    hide IbanAt, Money, Code, CurrencyAt, FlowAmount, ChoiceOf, Counterparties, Wordings, Dec, Numbered;
    hide EntityLabel, Captions;
    NumberedWith(FlowNumber(p, x, i, n).ref, "ING-", IntOf(x.stream(FlowCursor(p, n) + 5), 100000, 999999));
    ChosenTexts(x.stream(FlowCursor(p, n) + 3), x.stream(FlowCursor(p, n) + 4));
  }

  /** What an observer reads in a flow of account `i`, number `n` of the batch: credits and debits
      alike. */
  lemma FlowReads(p: IngestParams, x: Inputs, i: nat, n: nat)
    requires ValidParams(p) && ValidInputs(x) && i < p.accounts
    ensures var r := FlowRecord(p, x, i, n);
            && r.kind == CashFlowKind && ReadFlow(r.payload).Some? && ReadAccount(AccountRecord(p, x, i).payload).Some?
            && var c, a := ReadFlow(r.payload).value, ReadAccount(AccountRecord(p, x, i).payload).value;
               && SignedBetween(c, 50.0, 25000.0, x.stream(19 * p.accounts + 6 * n + 1) < 0.5)
               && Says(c, a, p.window, x.today)
  {
    hide DumpFlow, DumpAccount, ReadFlow, ReadAccount, SignedBetween, Says, FlowNumber, AccountNumber;
    hide ValidFlow, ValidAccount;
    AccountIsValid(p, x, i);
    AccountRoundTrip(AccountNumber(p, x, i));
    FlowIsValid(p, x, i, n);
    FlowRoundTrip(FlowNumber(p, x, i, n));
    AmountSigned(p, x, i, n);
    FlowSays(p, x, i, n);
  }

  /** The flows of an account stand together, behind all accounts. */
  lemma {:induction false} FlowPlace(p: IngestParams, x: Inputs, i: nat, f: nat, j: nat, g: nat)
    requires ValidParams(p) && ValidInputs(x) && f <= p.flows && g < p.flows && (j < i || (j == i && g < f))
    ensures FlowIndex(p, j, g) < |FlowsUpTo(p, x, i, f)|
    ensures FlowsUpTo(p, x, i, f)[FlowIndex(p, j, g)] == FlowRecord(p, x, j, FlowIndex(p, j, g))
    decreases i, f
  {
    hide FlowRecord, FlowIndex;
    if f > 0 {
      FlowsSize(p, x, i, f - 1);
      if !(j == i && g == f - 1) {
        FlowPlace(p, x, i, f - 1, j, g);
      }
    } else {
      FlowPlace(p, x, i - 1, p.flows, j, g);
    }
  }
}
