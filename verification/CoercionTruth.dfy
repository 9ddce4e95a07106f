/** What coercion makes of a parameter, said without its own terms: the default when nothing usable was
    sent, otherwise what was sent, brought between the bounds or cut down to the options. */
module CoercionTruth {
  import opened Options
  import opened Text
  import opened Decimals
  import opened Params

  // ---------------------------------------------------------------------------
  // Reference definitions
  // ---------------------------------------------------------------------------

  function Between(lo: int, hi: int, i: int): int {
    if i < lo then lo else if hi < i then hi else i
  }

  /** A whole number: the default when none was sent or `int` refuses what was. */
  function WholeSent(params: map<string, Param>, name: string, default: int, lo: int, hi: int): int {
    if name !in params || !ToInt(params[name]).IntOk? then default else Between(lo, hi, ToInt(params[name]).i)
  }

  /** A number between 0 and 1; a NaN stays one. */
  function RatioSent(params: map<string, Param>, name: string, default: real): Float {
    if name !in params then Fin(default)
    else
      match ToFloat(params[name])
      case FloatOk(NaN) => NaN
      case FloatOk(PosInf) => Fin(1.0)
      case FloatOk(NegInf) => Fin(0.0)
      case FloatOk(Fin(r)) => Fin(if r < 0.0 then 0.0 else if 1.0 < r then 1.0 else r)
      case _ => Fin(default)
  }

  /** A day count: the default when none was sent or it spells none. */
  function DaysSent(params: map<string, Param>, name: string, default: int, lo: int, hi: int): int {
    if name !in params || !DaysOf(params[name]).IntOk? then default else Between(lo, hi, DaysOf(params[name]).i)
  }

  /** The options in a list, in the order listed. */
  function OptionsIn(items: seq<Param>, options: seq<string>): seq<string> {
    if items == [] then []
    else
      var last := items[|items| - 1];
      OptionsIn(items[..|items| - 1], options) + if last.PStr? && last.s in options then [last.s] else []
  }

  /** A choice of options: the default when no list was sent or no option is in it. */
  function ListSent(params: map<string, Param>, name: string, default: seq<string>, options: seq<string>): seq<string> {
    if name in params && params[name].PList? && OptionsIn(params[name].items, options) != []
    then OptionsIn(params[name].items, options)
    else default
  }

  function OptionSent(params: map<string, Param>, name: string, default: string, options: seq<string>): string {
    if name in params && params[name].PStr? && params[name].s in options then params[name].s else default
  }

  // ---------------------------------------------------------------------------
  // Any schema
  // ---------------------------------------------------------------------------

  lemma CoercedEntry(schema: seq<ParamSpec>, params: map<string, Param>, out: map<string, Param>, at: nat)
    requires WellFormed(schema) && CoercesTo(schema, params, out) && at < |schema|
    ensures schema[at].name in out && CoerceOne(schema[at], params) == Ok(out[schema[at].name])
  {
    assert schema[at].name in Names(schema, |schema|);
  }

  /** An entry that was not sent keeps the schema's default, a window its default as days. */
  lemma AbsentKeepsDefault(schema: seq<ParamSpec>, params: map<string, Param>, out: map<string, Param>, at: nat)
    requires WellFormed(schema) && CoercesTo(schema, params, out) && at < |schema| && schema[at].name !in params
    ensures schema[at].name in out
    ensures schema[at].ty != WindowType ==> out[schema[at].name] == schema[at].default
    ensures schema[at].ty == WindowType ==> out[schema[at].name] == PInt(ClampInt(DaysOf(schema[at].default).i, schema[at]))
  {
    CoercedEntry(schema, params, out, at);
  }

  ghost predicate NamesAnOption(v: Param, spec: ParamSpec) {
    v.PList? && exists x :: x in v.items && x.PStr? && x.s in spec.options
  }

  lemma {:induction false} KeptNone(items: seq<Param>, options: seq<string>)
    requires forall x :: x in items ==> !(x.PStr? && x.s in options)
    ensures Kept(items, options) == []
  {
    if items != [] {
      assert items == [items[0]] + items[1..];
      KeptNone(items[1..], options);
    }
  }

  /** So does an entry whose value cannot be used. */
  lemma UnusableKeepsDefault(schema: seq<ParamSpec>, params: map<string, Param>, out: map<string, Param>, at: nat)
    requires WellFormed(schema) && CoercesTo(schema, params, out) && at < |schema| && schema[at].name in params
    ensures var spec := schema[at];
            var v := params[spec.name];
            && spec.name in out
            && (spec.ty == IntType && ToInt(v).Refused? ==> out[spec.name] == spec.default)
            && (spec.ty == FloatType && ToFloat(v).FloatRefused? ==> out[spec.name] == spec.default)
            && (spec.ty == EnumType && !(v.PStr? && v.s in spec.options) ==> out[spec.name] == spec.default)
            && (spec.ty == MultiType && !NamesAnOption(v, spec) ==> out[spec.name] == spec.default)
  {
    CoercedEntry(schema, params, out, at);
    var v := params[schema[at].name];
    if v.PList? && !NamesAnOption(v, schema[at]) {
      KeptNone(v.items, schema[at].options);
    }
  }

  lemma ClampBetween(i: int, spec: ParamSpec, lo: int, hi: int)
    requires spec.min == Some(lo as real) && spec.max == Some(hi as real) && lo <= hi
    ensures ClampInt(i, spec) == Between(lo, hi, i)
  {
    TruncateWhole(lo as real);
    TruncateWhole(hi as real);
    TruncateWhole(i as real);
  }

  lemma WholeIsSent(schema: seq<ParamSpec>, params: map<string, Param>, out: map<string, Param>, at: nat,
                    name: string, default: int, lo: int, hi: int, otherwise: int)
    requires WellFormed(schema) && CoercesTo(schema, params, out) && at < |schema|
    requires schema[at] == IntSpec(name, default, lo, hi) && lo <= hi
    ensures IntOr(out, name, otherwise) == WholeSent(params, name, default, lo, hi)
  {
    CoercedEntry(schema, params, out, at);
    if name in params && ToInt(params[name]).IntOk? {
      ClampBetween(ToInt(params[name]).i, schema[at], lo, hi);
    }
  }

  lemma RatioIsSent(schema: seq<ParamSpec>, params: map<string, Param>, out: map<string, Param>, at: nat,
                    name: string, default: real, otherwise: Float)
    requires WellFormed(schema) && CoercesTo(schema, params, out) && at < |schema|
    requires schema[at] == FloatSpec(name, default, 0.0, 1.0)
    ensures FloatOr(out, name, otherwise) == RatioSent(params, name, default)
    ensures RealOf(out, name) == match RatioSent(params, name, default) { case Fin(r) => Some(r) case _ => None }
  {
    CoercedEntry(schema, params, out, at);
  }

  lemma DaysAreSent(schema: seq<ParamSpec>, params: map<string, Param>, out: map<string, Param>, at: nat,
                    name: string, days: nat, lo: int, hi: int, otherwise: int)
    requires WellFormed(schema) && CoercesTo(schema, params, out) && at < |schema|
    requires schema[at] == WindowSpec(name, days, lo, hi) && lo <= days <= hi && days < 1000000
    ensures IntOr(out, name, otherwise) == DaysSent(params, name, days, lo, hi)
  {
    CoercedEntry(schema, params, out, at);
    DaysOfWindow(days);
    ClampBetween(days, schema[at], lo, hi);
    assert CoerceWindow(schema[at].default, schema[at]) == Ok(PInt(days));
    if name in params && DaysOf(params[name]).IntOk? {
      ClampBetween(DaysOf(params[name]).i, schema[at], lo, hi);
    }
  }

  function KeptItem(v: Param, options: seq<string>): seq<Param> {
    if v.PStr? && v.s in options then [v] else []
  }

  lemma KeptFirst(items: seq<Param>, options: seq<string>)
    requires items != []
    ensures Kept(items, options) == KeptItem(items[0], options) + Kept(items[1..], options)
  {
  }

  lemma KeptEmpty(options: seq<string>)
    ensures Kept([], options) == []
  {
  }

  lemma {:induction false} KeptLast(items: seq<Param>, last: Param, options: seq<string>)
    ensures Kept(items + [last], options) == Kept(items, options) + KeptItem(last, options)
  {
    hide Kept, KeptItem;
    KeptFirst(items + [last], options);
    KeptEmpty(options);
    if items == [] {
      assert ([] + [last])[1..] == [];
    } else {
      KeptFirst(items, options);
      KeptLast(items[1..], last, options);
      assert (items + [last])[1..] == items[1..] + [last];
    }
  }

  lemma TextsConcat(a: seq<Param>, b: seq<Param>)
    ensures Texts(a + b) == Texts(a) + Texts(b)
  {
  }

  lemma TextsOfItem(v: Param, options: seq<string>)
    ensures Texts(KeptItem(v, options)) == if v.PStr? && v.s in options then [v.s] else []
  {
  }

  lemma {:induction false} KeptAreOptions(items: seq<Param>, options: seq<string>)
    ensures Texts(Kept(items, options)) == OptionsIn(items, options)
  {
    hide Kept, Texts, KeptItem;
    if items == [] {
      KeptEmpty(options);
      TextsOfItem(POther, options);
      TextsConcat([], []);
    } else {
      var init, last := items[..|items| - 1], items[|items| - 1];
      KeptAreOptions(init, options);
      KeptLast(init, last, options);
      TextsConcat(Kept(init, options), KeptItem(last, options));
      TextsOfItem(last, options);
      assert items == init + [last];
    }
  }

  lemma {:induction false} SentAreOptions(items: seq<Param>, options: seq<string>)
    ensures forall s :: s in OptionsIn(items, options) ==> s in options
  {
    if items != [] {
      SentAreOptions(items[..|items| - 1], options);
    }
  }

  lemma ListIsSent(schema: seq<ParamSpec>, params: map<string, Param>, out: map<string, Param>, at: nat,
                   name: string, default: seq<string>, options: seq<string>)
    requires WellFormed(schema) && CoercesTo(schema, params, out) && at < |schema|
    requires schema[at] == MultiSpec(name, default, options)
    ensures ListOf(out, name) == ListSent(params, name, default, options)
  {
    hide Kept, OptionsIn;
    CoercedEntry(schema, params, out, at);
    assert Texts(schema[at].default.items) == default;
    if name in params && params[name].PList? {
      KeptAreOptions(params[name].items, options);
    }
  }

  lemma OptionIsSent(schema: seq<ParamSpec>, params: map<string, Param>, out: map<string, Param>, at: nat,
                     name: string, default: string, options: seq<string>)
    requires WellFormed(schema) && CoercesTo(schema, params, out) && at < |schema|
    requires schema[at] == EnumSpec(name, default, options)
    ensures TextOf(out, name) == OptionSent(params, name, default, options)
  {
    CoercedEntry(schema, params, out, at);
  }

  // ---------------------------------------------------------------------------
  // Python's int() and float()
  // ---------------------------------------------------------------------------

  /** `int` on a float drops what is behind the point; lists and objects are refused, and so is a NaN. */
  lemma IntConverts(i: int, r: real, items: seq<Param>)
    ensures ToInt(PInt(i)) == IntOk(i)
    ensures ToInt(PBool(true)) == IntOk(1) && ToInt(PBool(false)) == IntOk(0)
    ensures var t := ToInt(PFloat(Fin(r)));
            && t.IntOk? && (0.0 <= r ==> 0.0 <= t.i as real <= r < t.i as real + 1.0)
            && (r <= 0.0 ==> t.i as real - 1.0 < r <= t.i as real <= 0.0)
    ensures ToInt(PFloat(NaN)) == ToInt(PList(items)) == ToInt(POther) == Refused
    ensures ToInt(PFloat(PosInf)) == ToInt(PFloat(NegInf)) == Overflow
  {
  }

  lemma LimitIsLarge()
    ensures 1000001 < FLOAT_LIMIT
  {
  }

  /** No space, underscore or letter is in a printed amount. */
  lemma MoneyLooks(v: real)
    ensures var s := Money(v);
            && StripRight(StripLeft(s)) == s && '_' !in s && Unsigned(s).1 != "" && '.' in Unsigned(s).1
            && (forall c :: c in s ==> IsDigit(c) || c == '.' || c == '-')
  {
    hide Dec, Pad, CentsPrinted;
    var c := CentsPrinted(v);
    var s, whole, part := Money(v), Dec(c / 100), Pad(c % 100, 2);
    assert s[|s| - 1] == part[|part| - 1] && !IsSpace(s[|s| - 1]) && !IsSpace(s[0]);
    assert Unsigned(s).1 == whole + "." + part;
    assert (whole + "." + part)[|whole|] == '.';
  }

  /** `float` keeps finite numbers; lists and objects are refused. */
  lemma FloatConverts(i: int, f: Float, items: seq<Param>)
    ensures -1000000 <= i <= 1000000 ==> ToFloat(PInt(i)) == FloatOk(Fin(i as real))
    ensures ToFloat(PFloat(f)) == FloatOk(f)
    ensures ToFloat(PBool(true)) == FloatOk(Fin(1.0)) && ToFloat(PBool(false)) == FloatOk(Fin(0.0))
    ensures ToFloat(PList(items)) == ToFloat(POther) == FloatRefused
  {
  }

  lemma PointIsNoWord(u: string)
    requires '.' in u
    ensures Lower(u) != "inf" && Lower(u) != "infinity" && Lower(u) != "nan"
  {
    var i :| 0 <= i < |u| && u[i] == '.';
    assert Lower(u)[i] == '.';
    assert '.' !in "inf" && '.' !in "infinity" && '.' !in "nan";
  }

  lemma UnsignedPart(t: string)
    requires '_' !in t
    ensures '_' !in Unsigned(t).1
  {
  }

  lemma FloatOfPlain(t: string, r: real)
    requires StripRight(StripLeft(t)) == t && '_' !in t && '.' in Unsigned(t).1 && ParseDecimal(t) == Finite(r)
    requires -1000001.0 <= r <= 1000001.0
    ensures FloatOfText(t) == FloatOk(Fin(r))
  {
    hide ParseDecimal, FLOAT_LIMIT, StripRight, StripLeft, Lower, Unsigned;
    UnsignedPart(t);
    PointIsNoWord(Unsigned(t).1);
    LimitIsLarge();
  }

  /** A printed amount is read as that amount. */
  lemma FloatReads(v: real)
    requires -1000000.0 <= v <= 1000000.0
    ensures ToFloat(PStr(Money(v))) == FloatOk(Fin(Cents(v) as real / 100.0))
  {
    hide ParseDecimal, Cents, Money, FloatOfText;
    MoneyLooks(v);
    ParseMoney(v);
    CentsNearest(v);
    FloatOfPlain(Money(v), Cents(v) as real / 100.0);
  }

  lemma NotLast(n: nat)
    ensures !("last-" <= Dec(n))
  {
    assert IsDigit(Dec(n)[0]) && "last-"[0] == 'l';
  }

  lemma SignedText(s: string, ds: string)
    requires AllDigits(ds) && ds != "" && s == "-" + ds
    ensures StripRight(StripLeft(s)) == s && Unsigned(s) == (true, ds)
    ensures '_' !in ds && WithoutUnderscores(ds) == ds
  {
    assert s[|s| - 1] == ds[|ds| - 1];
    assert !IsSpace(s[0]) && !IsSpace(s[|s| - 1]);
    assert s[1..] == ds;
  }

  lemma IntReadsNegative(ds: string)
    requires AllDigits(ds) && ds != "" && |ds| <= MAX_DIGITS
    ensures IntOfText("-" + ds) == IntOk(-Value(ds))
  {
    hide Value, StripLeft, StripRight, WithoutUnderscores, Unsigned;
    SignedText("-" + ds, ds);
  }

  /** `int` reads the digits of a text, signed or not; a window also reads `last-<N>d`. */
  lemma IntReads(n: nat)
    requires n < 1000000
    ensures ToInt(PStr(Dec(n))) == IntOk(n) && ToInt(PStr("-" + Dec(n))) == IntOk(-(n as int))
    ensures DaysOf(PStr(Dec(n))) == DaysOf(PStr("last-" + Dec(n) + "d")) == IntOk(n)
  {
    hide IntOfText, Dec;
    DecWidth(n, 6);
    IntOfDigits(Dec(n));
    DaysOfWindow(n);
    IntReadsNegative(Dec(n));
    NotLast(n);
  }
}
