/** Parameter coercion against a preset's schema: unknown keys dropped, values clamped, invalid
    values replaced by the default. */
module Params {
  import opened Options
  import opened Text
  import opened Decimals

  /** A float, with the values no arithmetic on reals has. */
  datatype Float = Fin(r: real) | PosInf | NegInf | NaN

  /** A parameter value as it arrives from JSON, or as it leaves coercion. */
  datatype Param =
    | PInt(i: int)
    | PFloat(f: Float)
    | PBool(b: bool)
    | PStr(s: string)
    | PList(items: seq<Param>)
    | POther                     // null, an object

  datatype ParamType = IntType | FloatType | EnumType | MultiType | WindowType

  datatype ParamSpec = ParamSpec(
    name: string, ty: ParamType, default: Param, min: Option<real>, max: Option<real>, options: seq<string>)

  // ---------------------------------------------------------------------------
  // Python's int() and float()
  // ---------------------------------------------------------------------------

  /** A conversion's outcome: a number, a TypeError or ValueError, or an OverflowError. */
  datatype IntResult = IntOk(i: int) | Refused | Overflow

  datatype FloatResult = FloatOk(f: Float) | FloatRefused | FloatOverflow

  function Truncate(r: real): int {
    if r < 0.0 then -((-r).Floor) else r.Floor
  }

  /** Underscores stand between digits only. */
  predicate UnderscoresBetweenDigits(s: string) {
    forall i :: 0 <= i < |s| && s[i] == '_' ==> 0 < i < |s| - 1 && IsDigit(s[i - 1]) && IsDigit(s[i + 1])
  }

  /** The longest digit string `int` converts. */
  const MAX_DIGITS := 4300

  /** `int(text)`. */
  function IntOfText(s: string): IntResult {
    var (neg, u) := Unsigned(StripRight(StripLeft(s)));
    var ds := WithoutUnderscores(u);
    if ds == "" || |ds| > MAX_DIGITS || !AllDigits(ds) || !UnderscoresBetweenDigits(u) then Refused
    else IntOk(if neg then -Value(ds) else Value(ds))
  }

  /** `int(value)`. */
  function ToInt(v: Param): IntResult {
    match v
    case PInt(i) => IntOk(i)
    case PBool(b) => IntOk(if b then 1 else 0)
    case PFloat(Fin(r)) => IntOk(Truncate(r))
    case PFloat(NaN) => Refused
    case PFloat(_) => Overflow
    case PStr(s) => IntOfText(s)
    case _ => Refused
  }

  const TWO_64 := 0x1_0000_0000_0000_0000
  const TWO_256 := TWO_64 * TWO_64 * TWO_64 * TWO_64
  const TWO_970 := TWO_256 * TWO_256 * TWO_256 * TWO_64 * TWO_64 * TWO_64 * 0x400

  /** 2^1024 - 2^970: the least magnitude that does not round to a finite float. */
  const FLOAT_LIMIT := TWO_970 * 0x3F_FFFF_FFFF_FFFF

  /** The float nearest to a number read from text, which may be infinite. */
  function Nearest(r: real): Float {
    if r >= FLOAT_LIMIT as real then PosInf else if r <= -FLOAT_LIMIT as real then NegInf else Fin(r)
  }

  /** `float(text)`. */
  function FloatOfText(s: string): FloatResult {
    var t := StripRight(StripLeft(s));
    var (neg, u) := Unsigned(t);
    if !UnderscoresBetweenDigits(u) then FloatRefused
    else if Lower(u) == "inf" || Lower(u) == "infinity" then FloatOk(if neg then NegInf else PosInf)
    else if Lower(u) == "nan" then FloatOk(NaN)
    else
      match ParseDecimal(t)
      case Finite(r) => FloatOk(Nearest(r))
      case _ => FloatRefused
  }

  /** An integer no float is near to. */
  predicate TooLarge(v: Param) {
    v.PInt? && !(-FLOAT_LIMIT < v.i < FLOAT_LIMIT)
  }

  /** `float(value)`: an integer out of range raises, where text becomes an infinity. */
  function ToFloat(v: Param): FloatResult {
    match v
    case PInt(i) => if TooLarge(v) then FloatOverflow else FloatOk(Fin(i as real))
    case PBool(b) => FloatOk(Fin(if b then 1.0 else 0.0))
    case PFloat(f) => FloatOk(f)
    case PStr(s) => FloatOfText(s)
    case _ => FloatRefused
  }

  // ---------------------------------------------------------------------------
  // Clamping
  // ---------------------------------------------------------------------------

  /** IEEE order against a finite bound: every comparison with NaN is false. */
  predicate Below(f: Float, bound: real) {
    f == NegInf || (f.Fin? && f.r < bound)
  }

  predicate Above(f: Float, bound: real) {
    f == PosInf || (f.Fin? && f.r > bound)
  }

  /** `max(value, min)` then `min(value, max)`: each keeps its first argument unless the bound
      compares strictly beyond it. */
  function Clamp(f: Float, spec: ParamSpec): Float {
    var lifted := if spec.min.Some? && Below(f, spec.min.value) then Fin(spec.min.value) else f;
    if spec.max.Some? && Above(lifted, spec.max.value) then Fin(spec.max.value) else lifted
  }

  function ClampInt(i: int, spec: ParamSpec): int {
    match Clamp(Fin(i as real), spec)
    case Fin(r) => Truncate(r)
    case _ => i
  }

  predicate InRange(f: Float, spec: ParamSpec) {
    f != NaN
    && (spec.min.Some? ==> !Below(f, spec.min.value))
    && (spec.max.Some? ==> !Above(f, spec.max.value))
  }

  // ---------------------------------------------------------------------------
  // Coercion
  // ---------------------------------------------------------------------------

  datatype Coerced = Ok(value: Param) | Raised

  /** The day count a window value spells: `last-<N>d`, or anything `int` takes. */
  function DaysOf(v: Param): IntResult {
    match v
    case PStr(s) => if "last-" <= s && s[|s| - 1] == 'd' then IntOfText(s[5..|s| - 1]) else IntOfText(s)
    case _ => ToInt(v)
  }

  /** Recurs on the default, which therefore has to spell a day count itself. */
  function CoerceWindow(v: Param, spec: ParamSpec): (r: Coerced)
    requires DaysOf(spec.default).IntOk?
    ensures r.Ok? ==> r.value.PInt?
    decreases if DaysOf(v).Refused? then 1 else 0
  {
    match DaysOf(v)
    case IntOk(n) => Ok(PInt(ClampInt(n, spec)))
    case Refused => CoerceWindow(spec.default, spec)
    case Overflow => Raised
  }

  /** The listed values that are options. */
  function Kept(items: seq<Param>, options: seq<string>): (r: seq<Param>)
    ensures forall v :: v in r ==> v.PStr? && v.s in options
    ensures (forall v :: v in items ==> v.PStr? && v.s in options) ==> r == items
  {
    if items == [] then []
    else
      var v := items[0];
      assert items == [v] + items[1..];
      (if v.PStr? && v.s in options then [v] else []) + Kept(items[1..], options)
  }

  predicate WholeBounds(spec: ParamSpec) {
    (spec.min.Some? ==> spec.min.value.Floor as real == spec.min.value)
    && (spec.max.Some? ==> spec.max.value.Floor as real == spec.max.value)
  }

  predicate WellFormedSpec(spec: ParamSpec) {
    && (spec.min.Some? && spec.max.Some? ==> spec.min.value <= spec.max.value)
    && match spec.ty
       case IntType => WholeBounds(spec) && spec.default.PInt? && InRange(Fin(spec.default.i as real), spec)
       case FloatType => spec.default.PFloat? && InRange(spec.default.f, spec)
       case EnumType => spec.default.PStr? && spec.default.s in spec.options
       case MultiType => spec.default.PList? && spec.default.items != []
                         && forall v :: v in spec.default.items ==> v.PStr? && v.s in spec.options
       case WindowType => WholeBounds(spec) && DaysOf(spec.default).IntOk?
  }

  ghost predicate WellFormed(schema: seq<ParamSpec>) {
    (forall i :: 0 <= i < |schema| ==> WellFormedSpec(schema[i]))
    && forall i, j :: 0 <= i < j < |schema| ==> schema[i].name != schema[j].name
  }

  function CoerceInt(v: Param, spec: ParamSpec): Coerced {
    match ToInt(v)
    case IntOk(i) => Ok(PInt(ClampInt(i, spec)))
    case Refused => Ok(spec.default)
    case Overflow => Raised
  }

  function CoerceFloat(v: Param, spec: ParamSpec): Coerced {
    match ToFloat(v)
    case FloatOk(f) => Ok(PFloat(Clamp(f, spec)))
    case FloatRefused => Ok(spec.default)
    case FloatOverflow => Raised
  }

  function CoerceMulti(v: Param, spec: ParamSpec): Coerced {
    if v.PList? && Kept(v.items, spec.options) != [] then Ok(PList(Kept(v.items, spec.options)))
    else Ok(spec.default)
  }

  /** What a sent value is coerced to. */
  function CoerceValue(v: Param, spec: ParamSpec): Coerced
    requires WellFormedSpec(spec)
  {
    match spec.ty
    case IntType => CoerceInt(v, spec)
    case FloatType => CoerceFloat(v, spec)
    case EnumType => Ok(if v.PStr? && v.s in spec.options then v else spec.default)
    case MultiType => CoerceMulti(v, spec)
    case WindowType => CoerceWindow(v, spec)
  }

  /** What one schema entry contributes. A window's default is normalised to days. */
  function CoerceOne(spec: ParamSpec, params: map<string, Param>): Coerced
    requires WellFormedSpec(spec)
  {
    if spec.name in params then CoerceValue(params[spec.name], spec)
    else if spec.ty == WindowType then CoerceWindow(spec.default, spec)
    else Ok(spec.default)
  }

  datatype Outcome = Done(out: map<string, Param>) | OverflowError

  ghost function Names(schema: seq<ParamSpec>, n: nat): set<string>
    requires n <= |schema|
  {
    set i | 0 <= i < n :: schema[i].name
  }

  /** The first `n` entries are coerced, the others still at some value. */
  ghost predicate CoercedUpTo(schema: seq<ParamSpec>, params: map<string, Param>, out: map<string, Param>, n: nat)
    requires WellFormed(schema) && n <= |schema|
  {
    && out.Keys == Names(schema, |schema|)
    && (forall i :: 0 <= i < n ==> CoerceOne(schema[i], params) == Ok(out[schema[i].name]))
  }

  ghost predicate CoercesTo(schema: seq<ParamSpec>, params: map<string, Param>, out: map<string, Param>)
    requires WellFormed(schema)
  {
    CoercedUpTo(schema, params, out, |schema|)
  }

  lemma CoercedStep(schema: seq<ParamSpec>, params: map<string, Param>, out: map<string, Param>, n: nat, v: Param)
    requires WellFormed(schema) && n < |schema| && CoercedUpTo(schema, params, out, n)
    requires CoerceOne(schema[n], params) == Ok(v)
    ensures CoercedUpTo(schema, params, out[schema[n].name := v], n + 1)
  {
    hide CoerceOne, WellFormedSpec;
    assert schema[n].name in Names(schema, |schema|);
    assert forall j :: 0 <= j < n ==> schema[j].name != schema[n].name;
  }

  /** `defaults(schema)`. */
  method Defaults(schema: seq<ParamSpec>) returns (out: map<string, Param>)
    requires WellFormed(schema)
    ensures out.Keys == Names(schema, |schema|)
    ensures forall j :: 0 <= j < |schema| ==> out[schema[j].name] == schema[j].default
  {
    out := map[];
    for i := 0 to |schema|
      invariant out.Keys == Names(schema, i)
      invariant forall j :: 0 <= j < i ==> out[schema[j].name] == schema[j].default
    {
      out := out[schema[i].name := schema[i].default];
    }
  }

  /** `coerce_params`: starts from the defaults and overwrites entry by entry; an infinite number
      where a whole one is wanted raises an error the code does not catch. */
  method CoerceParams(schema: seq<ParamSpec>, params: map<string, Param>) returns (r: Outcome)
    requires WellFormed(schema)
    ensures r.Done? ==> CoercesTo(schema, params, r.out)
    ensures r.OverflowError? <==> exists i :: 0 <= i < |schema| && CoerceOne(schema[i], params) == Raised
  {
    var out := Defaults(schema);
    for i := 0 to |schema|
      invariant CoercedUpTo(schema, params, out, i)
    {
      var c := CoerceOne(schema[i], params);
      if c.Raised? {
        return OverflowError;
      }
      CoercedStep(schema, params, out, i, c.value);
      out := out[schema[i].name := c.value];
    }
    r := Done(out);
  }

  // ---------------------------------------------------------------------------
  // What coercion guarantees
  // ---------------------------------------------------------------------------

  /** A value a generator can rely on. */
  predicate Accepted(spec: ParamSpec, v: Param) {
    match spec.ty
    case IntType => v.PInt? && InRange(Fin(v.i as real), spec)
    case FloatType => v.PFloat? && InRange(v.f, spec)
    case EnumType => v.PStr? && v.s in spec.options
    case MultiType => v.PList? && v.items != [] && forall x :: x in v.items ==> x.PStr? && x.s in spec.options
    case WindowType => v.PInt? && InRange(Fin(v.i as real), spec)
  }

  /** NaN slips through the clamp. */
  predicate SendsNaN(spec: ParamSpec, params: map<string, Param>) {
    spec.ty == FloatType && spec.name in params && ToFloat(params[spec.name]) == FloatOk(NaN)
  }

  predicate IsInfinite(v: Param) {
    v == PFloat(PosInf) || v == PFloat(NegInf)
  }

  /** What the conversion of an entry's type overflows on: `int()` on an infinity, `float()` on an
      integer out of a float's range. */
  predicate OverflowsOn(ty: ParamType, v: Param) {
    match ty
    case IntType => IsInfinite(v)
    case WindowType => IsInfinite(v)
    case FloatType => TooLarge(v)
    case _ => false
  }

  predicate SendsOverflow(spec: ParamSpec, params: map<string, Param>) {
    spec.name in params && OverflowsOn(spec.ty, params[spec.name])
  }

  lemma TruncateWhole(r: real)
    requires r.Floor as real == r
    ensures Truncate(r) as real == r
  {
    var n := r.Floor;
    assert -r == (-n) as real;
    assert (-r).Floor == -n;
  }

  lemma ClampIntInRange(i: int, spec: ParamSpec)
    requires WholeBounds(spec)
    requires spec.min.Some? && spec.max.Some? ==> spec.min.value <= spec.max.value
    ensures InRange(Fin(ClampInt(i, spec) as real), spec)
    ensures InRange(Fin(i as real), spec) ==> ClampInt(i, spec) == i
  {
    var f := Clamp(Fin(i as real), spec);
    assert (i as real).Floor == i;
    TruncateWhole(f.r);
  }

  lemma ClampInRange(f: Float, spec: ParamSpec)
    requires spec.min.Some? && spec.max.Some? ==> spec.min.value <= spec.max.value
    ensures InRange(Clamp(f, spec), spec) <==> f != NaN
    ensures InRange(f, spec) || f == NaN ==> Clamp(f, spec) == f
  {
  }

  lemma OverflowsOnInfinityOnly(v: Param)
    ensures DaysOf(v).Overflow? <==> IsInfinite(v)
    ensures ToInt(v).Overflow? <==> IsInfinite(v)
  {
  }

  lemma WindowAccepted(v: Param, spec: ParamSpec)
    requires WellFormedSpec(spec) && spec.ty == WindowType
    ensures CoerceWindow(v, spec) == Raised <==> IsInfinite(v)
    ensures CoerceWindow(v, spec).Ok? ==> Accepted(spec, CoerceWindow(v, spec).value)
  {
    OverflowsOnInfinityOnly(v);
    ClampIntInRange(DaysOf(spec.default).i, spec);
    if DaysOf(v).IntOk? { ClampIntInRange(DaysOf(v).i, spec); }
  }

  lemma ValueAccepted(v: Param, spec: ParamSpec)
    requires WellFormedSpec(spec)
    ensures CoerceValue(v, spec) == Raised <==> OverflowsOn(spec.ty, v)
    ensures CoerceValue(v, spec).Ok? ==>
              (Accepted(spec, CoerceValue(v, spec).value) <==> !(spec.ty == FloatType && ToFloat(v) == FloatOk(NaN)))
  {
    match spec.ty
    case IntType =>
      OverflowsOnInfinityOnly(v);
      if ToInt(v).IntOk? { ClampIntInRange(ToInt(v).i, spec); }
    case FloatType =>
      if ToFloat(v).FloatOk? { ClampInRange(ToFloat(v).f, spec); }
    case WindowType => WindowAccepted(v, spec);
    case _ =>
  }

  /** Coercion raises exactly on an infinity for a whole-number entry and on an integer out of range
      for a float entry; otherwise the result is acceptable to the generator exactly when the entry
      was not sent a NaN. */
  lemma CoerceOneAccepted(spec: ParamSpec, params: map<string, Param>)
    requires WellFormedSpec(spec)
    ensures CoerceOne(spec, params) == Raised <==> SendsOverflow(spec, params)
    ensures CoerceOne(spec, params).Ok? ==> (Accepted(spec, CoerceOne(spec, params).value) <==> !SendsNaN(spec, params))
  {
    if spec.name in params {
      ValueAccepted(params[spec.name], spec);
    } else if spec.ty == WindowType {
      WindowAccepted(spec.default, spec);
    }
  }

  /** An acceptable value, or a NaN that got through, is coerced to itself. */
  lemma ValueUnchanged(v: Param, spec: ParamSpec)
    requires WellFormedSpec(spec)
    requires Accepted(spec, v) || (spec.ty == FloatType && v == PFloat(NaN))
    ensures CoerceValue(v, spec) == Ok(v)
  {
    match spec.ty
    case IntType => ClampIntInRange(v.i, spec);
    case WindowType => ClampIntInRange(v.i, spec);
    case FloatType => ClampInRange(v.f, spec);
    case _ =>
  }

  /** Coercing an already coerced value changes nothing, NaN included. */
  lemma CoerceOneIdempotent(spec: ParamSpec, params: map<string, Param>, out: map<string, Param>)
    requires WellFormedSpec(spec)
    requires spec.name in out && CoerceOne(spec, params) == Ok(out[spec.name])
    ensures CoerceOne(spec, out) == CoerceOne(spec, params)
  {
    CoerceOneAccepted(spec, params);
    ValueUnchanged(out[spec.name], spec);
  }

  /** Whatever the parameters: the result has exactly the schema's names, every value acceptable
      unless its entry was sent a NaN, and coercing it again gives it back. */
  lemma CoerceParamsSound(schema: seq<ParamSpec>, params: map<string, Param>, out: map<string, Param>)
    requires WellFormed(schema) && CoercesTo(schema, params, out)
    ensures out.Keys == Names(schema, |schema|)
    ensures forall i :: 0 <= i < |schema| ==>
              (Accepted(schema[i], out[schema[i].name]) <==> !SendsNaN(schema[i], params))
    ensures CoercesTo(schema, out, out)
  {
    forall i | 0 <= i < |schema|
      ensures Accepted(schema[i], out[schema[i].name]) <==> !SendsNaN(schema[i], params)
      ensures CoerceOne(schema[i], out) == Ok(out[schema[i].name])
    {
      CoerceOneAccepted(schema[i], params);
      CoerceOneIdempotent(schema[i], params, out);
    }
  }

  predicate SameEntry(name: string, p: map<string, Param>, q: map<string, Param>) {
    (name in p <==> name in q) && (name in p ==> p[name] == q[name])
  }

  /** Only the schema's names are read: keys it does not list make no difference. */
  lemma UnknownKeysIgnored(schema: seq<ParamSpec>, p: map<string, Param>, q: map<string, Param>, out: map<string, Param>)
    requires WellFormed(schema) && CoercesTo(schema, p, out)
    requires forall i :: 0 <= i < |schema| ==> SameEntry(schema[i].name, p, q)
    ensures CoercesTo(schema, q, out)
    ensures forall other :: CoercesTo(schema, q, other) ==> other == out
  {
    forall i | 0 <= i < |schema| ensures CoerceOne(schema[i], q) == CoerceOne(schema[i], p) {
      assert SameEntry(schema[i].name, p, q);
    }
    forall other | CoercesTo(schema, q, other) ensures other == out {
      forall k | k in out ensures other[k] == out[k] {
        var i :| 0 <= i < |schema| && schema[i].name == k;
        assert CoerceOne(schema[i], q) == Ok(other[k]);
      }
    }
  }

  // ---------------------------------------------------------------------------
  // Reading coerced values
  // ---------------------------------------------------------------------------

  /** The int entry `name`, or a given number when there is none. */
  function IntOr(out: map<string, Param>, name: string, otherwise: int): int {
    if name in out && out[name].PInt? then out[name].i else otherwise
  }

  /** The float entry `name`, or a given one when there is none. */
  function FloatOr(out: map<string, Param>, name: string, otherwise: Float): Float {
    if name in out && out[name].PFloat? then out[name].f else otherwise
  }

  /** The float entry `name`, when it is a number. */
  function RealOf(out: map<string, Param>, name: string): Option<real> {
    if name in out && out[name].PFloat? && out[name].f.Fin? then Some(out[name].f.r) else None
  }

  function Texts(items: seq<Param>): (ss: seq<string>)
    ensures |ss| == |items|
    ensures forall i :: 0 <= i < |items| && items[i].PStr? ==> ss[i] == items[i].s
  {
    seq(|items|, i requires 0 <= i < |items| => if items[i].PStr? then items[i].s else "")
  }

  /** The listed strings of the multi entry `name`. */
  function ListOf(out: map<string, Param>, name: string): seq<string> {
    if name in out && out[name].PList? then Texts(out[name].items) else []
  }

  function IntSpec(name: string, default: int, min: int, max: int): ParamSpec {
    ParamSpec(name, IntType, PInt(default), Some(min as real), Some(max as real), [])
  }

  function FloatSpec(name: string, default: real, min: real, max: real): ParamSpec {
    ParamSpec(name, FloatType, PFloat(Fin(default)), Some(min), Some(max), [])
  }

  function MultiSpec(name: string, default: seq<string>, options: seq<string>): ParamSpec {
    ParamSpec(name, MultiType, PList(seq(|default|, i requires 0 <= i < |default| => PStr(default[i]))), None, None, options)
  }

  lemma IntSpecWellFormed(name: string, default: int, min: int, max: int)
    requires min <= default <= max
    ensures WellFormedSpec(IntSpec(name, default, min, max))
  {
  }

  lemma MultiSpecWellFormed(name: string, default: seq<string>, options: seq<string>)
    requires default != [] && forall s :: s in default ==> s in options
    ensures WellFormedSpec(MultiSpec(name, default, options))
  {
  }

  /** What coercion leaves in an int entry: a number in its range. */
  lemma CoercedInt(schema: seq<ParamSpec>, params: map<string, Param>, out: map<string, Param>, at: nat,
                   name: string, default: int, min: int, max: int, otherwise: int)
    requires WellFormed(schema) && CoercesTo(schema, params, out) && at < |schema|
    requires schema[at] == IntSpec(name, default, min, max)
    ensures min <= IntOr(out, name, otherwise) <= max
  {
    CoerceParamsSound(schema, params, out);
    assert name in Names(schema, |schema|);
  }

  /** In a float entry: a number in its range, unless a NaN was sent. */
  lemma CoercedFloat(schema: seq<ParamSpec>, params: map<string, Param>, out: map<string, Param>, at: nat,
                     name: string, default: real, min: real, max: real)
    requires WellFormed(schema) && CoercesTo(schema, params, out) && at < |schema|
    requires schema[at] == FloatSpec(name, default, min, max)
    ensures RealOf(out, name).Some? <==> !SendsNaN(schema[at], params)
    ensures RealOf(out, name).Some? ==> min <= RealOf(out, name).value <= max
  {
    CoerceParamsSound(schema, params, out);
    assert name in Names(schema, |schema|);
    CoerceOneAccepted(schema[at], params);
  }

  /** A NaN sent for a float entry is what coercion leaves there. */
  lemma CoercedFloatOrNaN(schema: seq<ParamSpec>, params: map<string, Param>, out: map<string, Param>, at: nat,
                          name: string, default: real, min: real, max: real)
    requires WellFormed(schema) && CoercesTo(schema, params, out) && at < |schema|
    requires schema[at] == FloatSpec(name, default, min, max)
    ensures var f := FloatOr(out, name, NaN);
            && (f == NaN <==> SendsNaN(schema[at], params))
            && (f != NaN ==> f.Fin? && min <= f.r <= max)
  {
    CoerceParamsSound(schema, params, out);
    assert name in Names(schema, |schema|);
    CoerceOneAccepted(schema[at], params);
  }

  /** In a multi entry: at least one string, all of them options. */
  lemma CoercedMulti(schema: seq<ParamSpec>, params: map<string, Param>, out: map<string, Param>, at: nat,
                     name: string, default: seq<string>, options: seq<string>)
    requires WellFormed(schema) && CoercesTo(schema, params, out) && at < |schema|
    requires schema[at] == MultiSpec(name, default, options)
    ensures ListOf(out, name) != [] && forall i :: 0 <= i < |ListOf(out, name)| ==> ListOf(out, name)[i] in options
  {
    CoerceParamsSound(schema, params, out);
    assert name in Names(schema, |schema|);
  }

  function EnumSpec(name: string, default: string, options: seq<string>): ParamSpec {
    ParamSpec(name, EnumType, PStr(default), None, None, options)
  }

  /** A trailing window with a default of the form `last-<N>d`. */
  function WindowSpec(name: string, days: nat, min: int, max: int): ParamSpec {
    ParamSpec(name, WindowType, PStr("last-" + Dec(days) + "d"), Some(min as real), Some(max as real), [])
  }

  lemma EnumSpecWellFormed(name: string, default: string, options: seq<string>)
    requires default in options
    ensures WellFormedSpec(EnumSpec(name, default, options))
  {
  }

  lemma IntOfDigits(ds: string)
    requires AllDigits(ds) && ds != "" && |ds| <= MAX_DIGITS
    ensures IntOfText(ds) == IntOk(Value(ds))
  {
    hide Value;
    Plain(ds);
    assert !IsSpace(ds[0]) && !IsSpace(ds[|ds| - 1]);
    assert StripRight(StripLeft(ds)) == ds && Unsigned(ds) == (false, ds);
    assert '_' !in ds && WithoutUnderscores(ds) == ds;
    hide StripLeft, StripRight, WithoutUnderscores, Trimmed, Unsigned;
  }

  lemma DaysOfWindow(days: nat)
    requires days < 1000000
    ensures DaysOf(PStr("last-" + Dec(days) + "d")) == IntOk(days)
  {
    var s := "last-" + Dec(days) + "d";
    assert s[5..|s| - 1] == Dec(days);
    assert "last-" == s[..5];
    DecWidth(days, 6);
    IntOfDigits(Dec(days));
  }

  lemma WindowSpecWellFormed(name: string, days: nat, min: int, max: int)
    requires min <= max && days < 1000000
    ensures WellFormedSpec(WindowSpec(name, days, min, max))
  {
    DaysOfWindow(days);
  }

  /** The enum entry `name`. */
  function TextOf(out: map<string, Param>, name: string): string {
    if name in out && out[name].PStr? then out[name].s else ""
  }

  /** In an enum entry: one of the options. */
  lemma CoercedEnum(schema: seq<ParamSpec>, params: map<string, Param>, out: map<string, Param>, at: nat,
                    name: string, default: string, options: seq<string>)
    requires WellFormed(schema) && CoercesTo(schema, params, out) && at < |schema|
    requires schema[at] == EnumSpec(name, default, options)
    ensures TextOf(out, name) in options
  {
    CoerceParamsSound(schema, params, out);
    assert name in Names(schema, |schema|);
  }

  /** In a window entry: a day count in its range, the default when the one sent spells none. */
  lemma CoercedWindow(schema: seq<ParamSpec>, params: map<string, Param>, out: map<string, Param>, at: nat,
                      name: string, days: nat, min: int, max: int, otherwise: int)
    requires WellFormed(schema) && CoercesTo(schema, params, out) && at < |schema|
    requires schema[at] == WindowSpec(name, days, min, max) && days < 1000000
    ensures min <= IntOr(out, name, otherwise) <= max
    ensures min <= days <= max && (name in params ==> DaysOf(params[name]).Refused?) ==> IntOr(out, name, otherwise) == days
  {
    CoerceParamsSound(schema, params, out);
    assert name in Names(schema, |schema|);
    DaysOfWindow(days);
    if min <= days <= max && (name in params ==> DaysOf(params[name]).Refused?) {
      ClampIntInRange(days, schema[at]);
      assert CoerceWindow(schema[at].default, schema[at]) == Ok(PInt(days));
      assert CoerceOne(schema[at], params) == Ok(PInt(days));
    }
  }

  /** Some entry was sent what its conversion overflows on. */
  ghost predicate Overflows(schema: seq<ParamSpec>, params: map<string, Param>) {
    exists i :: 0 <= i < |schema| && SendsOverflow(schema[i], params)
  }

  /** Coercion raises exactly then. */
  lemma RaisesOnOverflow(schema: seq<ParamSpec>, params: map<string, Param>)
    requires WellFormed(schema)
    ensures (exists i :: 0 <= i < |schema| && CoerceOne(schema[i], params) == Raised) <==> Overflows(schema, params)
  {
    hide CoerceOne, SendsOverflow;
    forall i | 0 <= i < |schema| ensures CoerceOne(schema[i], params) == Raised <==> SendsOverflow(schema[i], params) {
      CoerceOneAccepted(schema[i], params);
    }
  }

  // ---------------------------------------------------------------------------
  // Inputs at the edges
  // ---------------------------------------------------------------------------

  /** The text `nan`, sent for a ratio, comes out as a NaN. */
  lemma NaNExample(name: string)
    ensures CoerceOne(FloatSpec(name, 0.3, 0.0, 1.0), map[name := PStr("nan")]) == Ok(PFloat(NaN))
  {
    var s := "nan";
    assert !IsSpace(s[0]) && !IsSpace(s[2]) && '_' !in s;
    assert StripRight(StripLeft(s)) == s && Unsigned(s) == (false, s) && Lower(s) == s;
    assert |"inf"| == 3 && s[0] != "inf"[0] && |"infinity"| == 8;
  }

  /** The largest integer a float holds is clamped; the next one raises. */
  lemma OverflowExample(name: string)
    ensures CoerceOne(FloatSpec(name, 0.3, 0.0, 1.0), map[name := PInt(FLOAT_LIMIT - 1)]) == Ok(PFloat(Fin(1.0)))
    ensures CoerceOne(FloatSpec(name, 0.3, 0.0, 1.0), map[name := PInt(FLOAT_LIMIT)]) == Raised
    ensures CoerceOne(IntSpec(name, 50, 1, 2000), map[name := PInt(FLOAT_LIMIT)]) == Ok(PInt(2000))
    ensures CoerceOne(IntSpec(name, 50, 1, 2000), map[name := PFloat(PosInf)]) == Raised
  {
    var i := FLOAT_LIMIT;
    assert (2000 as real).Floor == 2000;
  }
}
