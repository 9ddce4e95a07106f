/** The record models: what a well-formed record is, how a payload dictionary is validated into
    one, and the dictionary it is dumped to. Validation is the manual-mode contract and the
    yardstick for what the presets emit. */
module Models {
  import opened Options
  import opened Text
  import opened Decimals
  import opened CanonicalJson
  import opened Calendar

  /** A record type: one of the three with a model, or any other name. */
  datatype Kind = BankAccountKind | CashFlowKind | ErpEntryKind | OtherKind(name: string)

  /** One entry of a batch: a record type and a payload dictionary. */
  datatype Record = Record(kind: Kind, payload: Payload)

  predicate IsAccount(r: Record) { r.kind == BankAccountKind }

  predicate IsFlow(r: Record) { r.kind == CashFlowKind }

  datatype Direction = Credit | Debit

  /** A date and time on a whole minute. */
  datatype Moment = Moment(day: Day, hour: nat, minute: nat)

  datatype BankAccount = BankAccount(iban: string, caption: string, currency: string, entity: string, balance: string)

  datatype CashFlow = CashFlow(
    accountIban: string, amount: string, currency: string, valueDate: Day, bookedAt: Option<Moment>,
    direction: Direction, counterparty: string, caption: string, ref: Option<string>, categoryHint: Option<string>)

  datatype ErpEntry = ErpEntry(
    ref: string, amount: string, currency: string, entryDate: Day, caption: string, matchesIban: Option<string>)

  // ---------------------------------------------------------------------------
  // Field rules
  // ---------------------------------------------------------------------------

  predicate IsUpper(c: char) { 'A' <= c <= 'Z' }

  /** Two capitals, then 12 to 30 capitals or digits. */
  predicate IsIban(s: string) {
    14 <= |s| <= 32 && IsUpper(s[0]) && IsUpper(s[1]) && forall i :: 2 <= i < |s| ==> IsUpper(s[i]) || IsDigit(s[i])
  }

  predicate IsCurrency(s: string) {
    |s| == 3 && IsUpper(s[0]) && IsUpper(s[1]) && IsUpper(s[2])
  }

  predicate IsDecimal(s: string) {
    ParseDecimal(s) != NotDecimal
  }

  predicate IsDay(n: Day) { n <= MAX_DAY }

  predicate IsMoment(t: Moment) { IsDay(t.day) && t.hour < 24 && t.minute < 60 }

  predicate ValidAccount(a: BankAccount) {
    IsIban(a.iban) && IsCurrency(a.currency) && IsDecimal(a.balance)
  }

  predicate ValidFlow(f: CashFlow) {
    IsIban(f.accountIban) && IsDecimal(f.amount) && IsCurrency(f.currency) && IsDay(f.valueDate)
    && (f.bookedAt.Some? ==> IsMoment(f.bookedAt.value))
  }

  predicate ValidErp(e: ErpEntry) {
    IsDecimal(e.amount) && IsCurrency(e.currency) && IsDay(e.entryDate)
  }

  /** An IBAN as the pattern spells it: two capitals, then 12 to 30 capitals or digits. */
  ghost predicate IbanPattern(s: string) {
    exists country, account ::
      && s == country + account && |country| == 2 && 12 <= |account| <= 30
      && (forall c :: c in country ==> 'A' <= c <= 'Z')
      && (forall c :: c in account ==> 'A' <= c <= 'Z' || '0' <= c <= '9')
  }

  lemma IbanMatches(s: string)
    ensures IsIban(s) <==> IbanPattern(s)
  {
    if IsIban(s) {
      assert s == s[..2] + s[2..];
      assert forall c :: c in s[..2] ==> c == s[0] || c == s[1];
    }
    if IbanPattern(s) {
      var country, account :| s == country + account && |country| == 2 && 12 <= |account| <= 30
        && (forall c :: c in country ==> 'A' <= c <= 'Z')
        && (forall c :: c in account ==> 'A' <= c <= 'Z' || '0' <= c <= '9');
      assert s[0] == country[0] && country[0] in country && s[1] == country[1] && country[1] in country;
      assert forall i :: 2 <= i < |s| ==> s[i] == account[i - 2] && s[i] in account;
    }
  }

  predicate CurrencyPattern(s: string) {
    |s| == 3 && forall c :: c in s ==> 'A' <= c <= 'Z'
  }

  lemma CurrencyMatches(s: string)
    ensures IsCurrency(s) <==> CurrencyPattern(s)
  {
    if |s| == 3 {
      assert s[0] in s && s[1] in s && s[2] in s;
    }
  }

  // ---------------------------------------------------------------------------
  // `model_dump(mode="json")`
  // ---------------------------------------------------------------------------

  function Optional(o: Option<string>): Value {
    match o
    case None => Null
    case Some(s) => Str(s)
  }

  function MomentText(t: Moment): string {
    IsoTime(t.day, t.hour, t.minute)
  }

  function DirectionText(d: Direction): string {
    if d == Credit then "credit" else "debit"
  }

  function MomentValue(o: Option<Moment>): Value {
    match o
    case None => Null
    case Some(t) => Str(MomentText(t))
  }

  function DumpAccount(a: BankAccount): Payload {
    map["iban" := Str(a.iban),
        "label" := Str(a.caption),
        "currency" := Str(a.currency),
        "entity" := Str(a.entity),
        "balance" := Str(a.balance)]
  }

  function DumpFlow(f: CashFlow): Payload {
    map["account_iban" := Str(f.accountIban),
        "amount" := Str(f.amount),
        "currency" := Str(f.currency),
        "value_date" := Str(Iso(f.valueDate)),
        "booked_at" := MomentValue(f.bookedAt),
        "direction" := Str(DirectionText(f.direction)),
        "counterparty" := Str(f.counterparty),
        "label" := Str(f.caption),
        "ref" := Optional(f.ref),
        "category_hint" := Optional(f.categoryHint)]
  }

  function DumpErp(e: ErpEntry): Payload {
    map["ref" := Str(e.ref),
        "amount" := Str(e.amount),
        "currency" := Str(e.currency),
        "entry_date" := Str(Iso(e.entryDate)),
        "label" := Str(e.caption),
        "matches_iban" := Optional(e.matchesIban)]
  }

  lemma AccountFields(a: BankAccount)
    ensures var p := DumpAccount(a);
            && "iban" in p && "label" in p && "currency" in p && "entity" in p && "balance" in p
            && p["iban"] == Str(a.iban) && p["label"] == Str(a.caption) && p["currency"] == Str(a.currency)
            && p["entity"] == Str(a.entity) && p["balance"] == Str(a.balance)
  {
  }

  /** The fields that detection, matching and the firewall look at. */
  lemma FlowKeyFields(f: CashFlow)
    ensures var p := DumpFlow(f);
            && "amount" in p && "currency" in p && "value_date" in p && "booked_at" in p && "ref" in p
            && p["amount"] == Str(f.amount) && p["currency"] == Str(f.currency)
            && p["value_date"] == Str(Iso(f.valueDate)) && p["booked_at"] == MomentValue(f.bookedAt)
            && p["ref"] == Optional(f.ref)
  {
  }

  lemma FlowOtherFields(f: CashFlow)
    ensures var p := DumpFlow(f);
            && "account_iban" in p && "direction" in p && "counterparty" in p && "label" in p && "category_hint" in p
            && p["account_iban"] == Str(f.accountIban) && p["direction"] == Str(DirectionText(f.direction))
            && p["counterparty"] == Str(f.counterparty) && p["label"] == Str(f.caption)
            && p["category_hint"] == Optional(f.categoryHint)
  {
  }

  lemma ErpFields(e: ErpEntry)
    ensures var p := DumpErp(e);
            && "ref" in p && "amount" in p && "currency" in p && "entry_date" in p && "label" in p && "matches_iban" in p
            && p["ref"] == Str(e.ref) && p["amount"] == Str(e.amount) && p["currency"] == Str(e.currency)
            && p["entry_date"] == Str(Iso(e.entryDate)) && p["label"] == Str(e.caption)
            && p["matches_iban"] == Optional(e.matchesIban)
  {
  }

  // ---------------------------------------------------------------------------
  // `model_validate`
  // ---------------------------------------------------------------------------

  /** A text field's content: nothing when it is absent or null. */
  function TextField(p: Payload, k: string): Option<string> {
    if k in p && p[k].Str? then Some(p[k].s) else None
  }

  /** The amount a payload states, as a number. */
  function AmountField(p: Payload): Decimal {
    match TextField(p, "amount")
    case None => NotDecimal
    case Some(s) => ParseDecimal(s)
  }

  function ReadDirection(s: string): Option<Direction> {
    if s == "credit" then Some(Credit) else if s == "debit" then Some(Debit) else None
  }

  /** Reads `YYYY-MM-DDTHH:MM:00`. */
  function ParseMoment(s: string): (r: Option<Moment>)
  {
    if |s| != 19 || s[10] != 'T' || s[13] != ':' || s[16..] != ":00" then None
    else
      match (ParseIso(s[..10]), ReadField(s[11..13], 2), ReadField(s[14..16], 2))
      case (Some(day), Some(h), Some(m)) =>
        if h < 24 && m < 60 then Some(Moment(day, h, m)) else None
      case _ => None
  }

  /** The outcome of `booked_at`: `Some(None)` when absent or null. */
  function ReadBookedAt(p: Payload): Option<Option<Moment>> {
    match TextField(p, "booked_at")
    case None => Some(None)
    case Some(s) =>
      match ParseMoment(s)
      case None => None
      case Some(t) => Some(Some(t))
  }

  function ReadAccount(p: Payload): (r: Option<BankAccount>)
    ensures r.Some? ==> ValidAccount(r.value)
  {
    match (TextField(p, "iban"), TextField(p, "label"), TextField(p, "currency"), TextField(p, "entity"), TextField(p, "balance"))
    case (Some(iban), Some(caption), Some(currency), Some(entity), Some(balance)) =>
      var a := BankAccount(iban, caption, currency, entity, balance);
      if ValidAccount(a) then Some(a) else None
    case _ => None
  }

  function ReadDay(p: Payload, k: string): Option<Day> {
    match TextField(p, k)
    case None => None
    case Some(s) => ParseIso(s)
  }

  function ReadDirectionField(p: Payload): Option<Direction> {
    match TextField(p, "direction")
    case None => None
    case Some(s) => ReadDirection(s)
  }

  function ReadFlow(p: Payload): (r: Option<CashFlow>)
    ensures r.Some? ==> ValidFlow(r.value)
  {
    match (TextField(p, "account_iban"), TextField(p, "amount"), TextField(p, "currency"), ReadDay(p, "value_date"), ReadBookedAt(p))
    case (Some(iban), Some(amount), Some(currency), Some(day), Some(bookedAt)) => (
      match (ReadDirectionField(p), TextField(p, "counterparty"), TextField(p, "label"))
      case (Some(direction), Some(counterparty), Some(caption)) =>
        var f := CashFlow(iban, amount, currency, day, bookedAt, direction, counterparty, caption,
                          TextField(p, "ref"), TextField(p, "category_hint"));
        if ValidFlow(f) then Some(f) else None
      case _ => None)
    case _ => None
  }

  function ReadErp(p: Payload): (r: Option<ErpEntry>)
    ensures r.Some? ==> ValidErp(r.value)
  {
    match (TextField(p, "ref"), TextField(p, "amount"), TextField(p, "currency"), ReadDay(p, "entry_date"), TextField(p, "label"))
    case (Some(ref), Some(amount), Some(currency), Some(day), Some(caption)) =>
      var e := ErpEntry(ref, amount, currency, day, caption, TextField(p, "matches_iban"));
      if ValidErp(e) then Some(e) else None
    case _ => None
  }

  /** A date of the calendar's range, as the dumper prints one. */
  ghost predicate IsDate(s: string) {
    exists n: Day :: n <= MAX_DAY && s == Iso(n)
  }

  ghost predicate IsTime(s: string) {
    exists n: Day, hour: nat, minute: nat :: n <= MAX_DAY && hour < 24 && minute < 60 && s == IsoTime(n, hour, minute)
  }

  /** An account is accepted exactly when all five fields are texts, the IBAN and the currency fit
      their patterns and the balance is a decimal. */
  lemma AccountAccepted(p: Payload)
    ensures ReadAccount(p).Some? <==>
              && TextField(p, "label").Some? && TextField(p, "entity").Some?
              && TextField(p, "iban").Some? && IbanPattern(TextField(p, "iban").value)
              && TextField(p, "currency").Some? && CurrencyPattern(TextField(p, "currency").value)
              && TextField(p, "balance").Some? && ParseDecimal(TextField(p, "balance").value) != NotDecimal
  {
    hide IsIban, IsCurrency, IbanPattern, CurrencyPattern;
    if TextField(p, "iban").Some? { IbanMatches(TextField(p, "iban").value); }
    if TextField(p, "currency").Some? { CurrencyMatches(TextField(p, "currency").value); }
  }

  lemma DirectionWords(s: string)
    ensures DirectionText(Credit) == "credit" && DirectionText(Debit) == "debit"
    ensures ReadDirection(s).Some? <==> s == "credit" || s == "debit"
    ensures ReadDirection(s).Some? ==> DirectionText(ReadDirection(s).value) == s
  {
  }

  lemma DateReads(s: string)
    ensures ParseIso(s).Some? <==> IsDate(s)
    ensures ParseIso(s).Some? ==> ParseIso(s).value <= MAX_DAY
  {
    if ParseIso(s).Some? { ParseIsoOnly(s); }
    if IsDate(s) {
      var n: Day :| n <= MAX_DAY && s == Iso(n);
      ParseIsoOf(n);
    }
  }

  lemma ReadMoment(d: string, h: string, m: string, s: string, t: Moment)
    requires |d| == 10 && |h| == 2 && |m| == 2 && IsMoment(t)
    requires s == d + ("T" + h + (":" + m) + ":00")
    requires ParseIso(d) == Some(t.day) && ReadField(h, 2) == Some(t.hour) && ReadField(m, 2) == Some(t.minute)
    ensures ParseMoment(s) == Some(t)
  {
    assert s[..10] == d && s[11..13] == h && s[14..16] == m && s[16..] == ":00";
  }

  lemma ParseMomentOf(t: Moment)
    requires IsMoment(t)
    ensures ParseMoment(MomentText(t)) == Some(t)
  {
    ParseIsoOf(t.day);
    ReadFieldOf(t.hour);
    ReadFieldOf(t.minute);
    ReadMoment(Iso(t.day), Pad(t.hour, 2), Pad(t.minute, 2), MomentText(t), t);
  }

  /** Only what a moment prints as is read as that moment. */
  lemma ParseMomentOnly(s: string)
    requires ParseMoment(s).Some?
    ensures IsMoment(ParseMoment(s).value) && MomentText(ParseMoment(s).value) == s
  {
    hide ParseIso, Iso, Pad, Text.Value;
    ParseIsoOnly(s[..10]);
    PadOfValue(s[11..13]);
    PadOfValue(s[14..16]);
    assert s == s[..10] + ("T" + s[11..13] + (":" + s[14..16]) + ":00");
  }

  lemma TimeReads(s: string)
    ensures ParseMoment(s).Some? && IsMoment(ParseMoment(s).value) <==> IsTime(s)
  {
    hide ParseMoment, IsoTime;
    if ParseMoment(s).Some? {
      ParseMomentOnly(s);
    }
    if IsTime(s) {
      var n: Day, hour: nat, minute: nat :| n <= MAX_DAY && hour < 24 && minute < 60 && s == IsoTime(n, hour, minute);
      ParseMomentOf(Moment(n, hour, minute));
    }
  }

  /** A flow is accepted exactly when its required fields are texts, the patterns fit, the amount is a
      decimal, the direction is one of the two words, the date is one and so is the time if there is any. */
  lemma FlowAccepted(p: Payload)
    ensures ReadFlow(p).Some? <==>
              && TextField(p, "counterparty").Some? && TextField(p, "label").Some?
              && TextField(p, "account_iban").Some? && IbanPattern(TextField(p, "account_iban").value)
              && TextField(p, "currency").Some? && CurrencyPattern(TextField(p, "currency").value)
              && TextField(p, "amount").Some? && ParseDecimal(TextField(p, "amount").value) != NotDecimal
              && TextField(p, "direction") in {Some("credit"), Some("debit")}
              && TextField(p, "value_date").Some? && IsDate(TextField(p, "value_date").value)
              && (TextField(p, "booked_at").Some? ==> IsTime(TextField(p, "booked_at").value))
  {
    hide IsIban, IsCurrency, IbanPattern, CurrencyPattern, ParseIso, ParseMoment, IsDate, IsTime, ParseDecimal;
    if TextField(p, "account_iban").Some? { IbanMatches(TextField(p, "account_iban").value); }
    if TextField(p, "currency").Some? { CurrencyMatches(TextField(p, "currency").value); }
    if TextField(p, "direction").Some? { DirectionWords(TextField(p, "direction").value); }
    if TextField(p, "value_date").Some? { DateReads(TextField(p, "value_date").value); }
    if TextField(p, "booked_at").Some? { TimeReads(TextField(p, "booked_at").value); }
  }

  lemma ErpAccepted(p: Payload)
    ensures ReadErp(p).Some? <==>
              && TextField(p, "ref").Some? && TextField(p, "label").Some?
              && TextField(p, "currency").Some? && CurrencyPattern(TextField(p, "currency").value)
              && TextField(p, "amount").Some? && ParseDecimal(TextField(p, "amount").value) != NotDecimal
              && TextField(p, "entry_date").Some? && IsDate(TextField(p, "entry_date").value)
  {
    hide IsCurrency, CurrencyPattern, ParseIso, IsDate;
    if TextField(p, "currency").Some? { CurrencyMatches(TextField(p, "currency").value); }
    if TextField(p, "entry_date").Some? { DateReads(TextField(p, "entry_date").value); }
  }

  /** A valid model survives the trip through its dictionary. */
  lemma AccountRoundTrip(a: BankAccount)
    requires ValidAccount(a)
    ensures ReadAccount(DumpAccount(a)) == Some(a)
  {
    AccountFields(a);
  }

  lemma ReadFlowFrom(p: Payload, f: CashFlow)
    requires ValidFlow(f)
    requires TextField(p, "account_iban") == Some(f.accountIban) && TextField(p, "amount") == Some(f.amount)
    requires TextField(p, "currency") == Some(f.currency) && ReadDay(p, "value_date") == Some(f.valueDate)
    requires ReadBookedAt(p) == Some(f.bookedAt) && ReadDirectionField(p) == Some(f.direction)
    requires TextField(p, "counterparty") == Some(f.counterparty) && TextField(p, "label") == Some(f.caption)
    requires TextField(p, "ref") == f.ref && TextField(p, "category_hint") == f.categoryHint
    ensures ReadFlow(p) == Some(f)
  {
  }

  lemma FlowReads(f: CashFlow, p: Payload)
    requires p == DumpFlow(f) && ValidFlow(f)
    ensures TextField(p, "amount") == Some(f.amount) && TextField(p, "currency") == Some(f.currency)
    ensures ReadDay(p, "value_date") == Some(f.valueDate) && ReadBookedAt(p) == Some(f.bookedAt)
    ensures TextField(p, "ref") == f.ref
  {
    FlowKeyFields(f);
    ParseIsoOf(f.valueDate);
    if f.bookedAt.Some? { ParseMomentOf(f.bookedAt.value); }
  }

  lemma FlowReadsMore(f: CashFlow, p: Payload)
    requires p == DumpFlow(f)
    ensures TextField(p, "account_iban") == Some(f.accountIban) && ReadDirectionField(p) == Some(f.direction)
    ensures TextField(p, "counterparty") == Some(f.counterparty) && TextField(p, "label") == Some(f.caption)
    ensures TextField(p, "category_hint") == f.categoryHint
  {
    FlowOtherFields(f);
  }

  lemma FlowRoundTrip(f: CashFlow)
    requires ValidFlow(f)
    ensures ReadFlow(DumpFlow(f)) == Some(f)
  {
    var p := DumpFlow(f);
    FlowReads(f, p);
    FlowReadsMore(f, p);
    ReadFlowFrom(p, f);
  }

  lemma ReadErpFrom(p: Payload, e: ErpEntry)
    requires ValidErp(e)
    requires TextField(p, "ref") == Some(e.ref) && TextField(p, "amount") == Some(e.amount)
    requires TextField(p, "currency") == Some(e.currency) && ReadDay(p, "entry_date") == Some(e.entryDate)
    requires TextField(p, "label") == Some(e.caption) && TextField(p, "matches_iban") == e.matchesIban
    ensures ReadErp(p) == Some(e)
  {
  }

  lemma ErpRoundTrip(e: ErpEntry)
    requires ValidErp(e)
    ensures ReadErp(DumpErp(e)) == Some(e)
  {
    var p := DumpErp(e);
    ErpFields(e);
    ParseIsoOf(e.entryDate);
    ReadErpFrom(p, e);
  }

  /** `SIM_MODELS[kind].model_validate(payload)` followed by `model_dump`: the accepted
      dictionary in full, or nothing when the type is unknown or the payload invalid. */
  function Validate(r: Record): Option<Record> {
    match r.kind
    case BankAccountKind => (
      match ReadAccount(r.payload) case None => None case Some(a) => Some(Record(r.kind, DumpAccount(a))))
    case CashFlowKind => (
      match ReadFlow(r.payload) case None => None case Some(f) => Some(Record(r.kind, DumpFlow(f))))
    case ErpEntryKind => (
      match ReadErp(r.payload) case None => None case Some(e) => Some(Record(r.kind, DumpErp(e))))
    case OtherKind(_) => None
  }

  /** What validation accepts it accepts again unchanged. */
  lemma ValidateIdempotent(r: Record)
    requires Validate(r).Some?
    ensures Validate(Validate(r).value) == Validate(r)
  {
    match r.kind
    case BankAccountKind => AccountRoundTrip(ReadAccount(r.payload).value);
    case CashFlowKind => FlowRoundTrip(ReadFlow(r.payload).value);
    case ErpEntryKind => ErpRoundTrip(ReadErp(r.payload).value);
  }

  lemma AccountKeys(a: BankAccount)
    ensures var p := DumpAccount(a); "iban" in p && "account_iban" !in p && "entry_date" !in p
  {
    assert |"iban"| == 4 && |"label"| == 5 && |"currency"| == 8 && |"entity"| == 6 && |"balance"| == 7;
    assert |"account_iban"| == 12 && |"entry_date"| == 10;
  }

  lemma FlowKeys(f: CashFlow)
    ensures var p := DumpFlow(f); "iban" !in p && "account_iban" in p && "entry_date" !in p
  {
    hide Iso, MomentValue, Optional, DirectionText;
    assert |"iban"| == 4 && |"amount"| == 6 && |"currency"| == 8 && |"booked_at"| == 9 && |"direction"| == 9;
    assert |"label"| == 5;
    assert |"ref"| == 3 && |"category_hint"| == 13 && |"counterparty"| == 12 && |"account_iban"| == 12;
    assert |"entry_date"| == 10 && "value_date"[0] == 'v' && "entry_date"[0] == 'e';
  }

  lemma ErpKeys(e: ErpEntry)
    ensures var p := DumpErp(e); "iban" !in p && "account_iban" !in p && "entry_date" in p
  {
    hide Iso, MomentValue, Optional, DirectionText;
    assert |"iban"| == 4 && |"ref"| == 3 && |"amount"| == 6 && |"currency"| == 8 && |"entry_date"| == 10;
    assert |"label"| == 5;
    assert "account_iban"[0] == 'a' && "matches_iban"[0] == 'm' && |"account_iban"| == 12;
  }

  lemma KindByKeys(r: Record)
    requires Validate(r) == Some(r)
    ensures r.kind == BankAccountKind <==> "iban" in r.payload
    ensures r.kind == CashFlowKind <==> "account_iban" in r.payload
    ensures r.kind == ErpEntryKind <==> "entry_date" in r.payload
  {
    hide DumpAccount, DumpFlow, DumpErp, ReadAccount, ReadFlow, ReadErp;
    match r.kind
    case BankAccountKind => AccountKeys(ReadAccount(r.payload).value);
    case CashFlowKind => FlowKeys(ReadFlow(r.payload).value);
    case ErpEntryKind => ErpKeys(ReadErp(r.payload).value);
  }

  lemma KindKnown(r: Record)
    requires Validate(r) == Some(r)
    ensures !r.kind.OtherKind?
  {
  }

  /** The payload of a valid record shows its type. */
  lemma PayloadShowsKind(r: Record, s: Record)
    requires Validate(r) == Some(r) && Validate(s) == Some(s) && r.payload == s.payload
    ensures r == s
  {
    hide Validate;
    KindByKeys(r);
    KindByKeys(s);
    KindKnown(r);
    KindKnown(s);
  }
}
