/** The canonical JSON that source hashes are computed over: a flat object of strings and nulls,
    keys sorted by code point, no blanks, everything outside printable ASCII escaped
    (RFC 8259, section 7). A parser that undoes the printer makes the printer injective. */
module CanonicalJson {

  import opened Options

  datatype Value = Null | Str(s: string)

  /** A payload as a mapping: what Python's `==` on dictionaries compares. */
  type Payload = map<string, Value>

  /** A dictionary entry; a dictionary in insertion order is a sequence of entries. */
  datatype Item = Item(key: string, value: Value)

  ghost predicate NoDupKeys(items: seq<Item>) {
    forall i, j :: 0 <= i < j < |items| ==> items[i].key != items[j].key
  }

  function AsMap(items: seq<Item>): Payload {
    if items == [] then map[] else AsMap(items[..|items| - 1])[items[|items| - 1].key := items[|items| - 1].value]
  }

  lemma {:induction false} AsMapEntry(items: seq<Item>, x: Item)
    requires NoDupKeys(items)
    ensures x in items <==> x.key in AsMap(items) && AsMap(items)[x.key] == x.value
  {
    if items != [] {
      var init, last := items[..|items| - 1], items[|items| - 1];
      AsMapEntry(init, x);
      assert items == init + [last];
      assert x in items <==> x in init || x == last;
      if x in init {
        assert x.key != last.key;
      }
    }
  }

  lemma AsMapEntries(items: seq<Item>)
    requires NoDupKeys(items)
    ensures forall x :: x in items <==> x.key in AsMap(items) && AsMap(items)[x.key] == x.value
  {
    forall x ensures x in items <==> x.key in AsMap(items) && AsMap(items)[x.key] == x.value {
      AsMapEntry(items, x);
    }
  }

  // ---------------------------------------------------------------------------
  // Key order
  // ---------------------------------------------------------------------------

  /** Python's order on strings: lexicographic by code point. */
  predicate Less(a: string, b: string) {
    b != "" && (a == "" || a[0] < b[0] || (a[0] == b[0] && Less(a[1..], b[1..])))
  }

  lemma {:induction false} LessTrichotomy(a: string, b: string)
    ensures a == b || Less(a, b) || Less(b, a)
  {
    if a != "" && b != "" && a[0] == b[0] {
      LessTrichotomy(a[1..], b[1..]);
      assert a == [a[0]] + a[1..] && b == [b[0]] + b[1..];
    }
  }

  lemma {:induction false} LessTransitive(a: string, b: string, c: string)
    requires Less(a, b) && Less(b, c)
    ensures Less(a, c)
  {
    if a != "" && a[0] == b[0] == c[0] {
      LessTransitive(a[1..], b[1..], c[1..]);
    }
  }

  lemma {:induction false} LessIrreflexive(a: string)
    ensures !Less(a, a)
  {
    if a != "" {
      LessIrreflexive(a[1..]);
    }
  }

  /** At position `n`, up to which the strings agree, `a` has ended or has the smaller code point. */
  ghost predicate SmallerAt(a: string, b: string, n: nat) {
    n <= |a| && n < |b| && a[..n] == b[..n] && (n == |a| || a[n] as int < b[n] as int)
  }

  ghost predicate Before(a: string, b: string) {
    exists n: nat :: SmallerAt(a, b, n)
  }

  lemma HeadsAgree(a: string, b: string, n: nat)
    requires n > 0 && SmallerAt(a, b, n)
    ensures a != "" && b != "" && a[0] == b[0]
  {
    assert a[..n][0] == a[0] && b[..n][0] == b[0];
  }

  lemma SmallerBehind(a: string, b: string, n: nat)
    requires a != "" && b != "" && a[0] == b[0]
    ensures SmallerAt(a, b, n + 1) <==> SmallerAt(a[1..], b[1..], n)
  {
    if n < |a| && n < |b| - 1 {
      assert a[..n + 1] == [a[0]] + a[1..][..n] && b[..n + 1] == [b[0]] + b[1..][..n];
      assert a[..n + 1][1..] == a[1..][..n] && b[..n + 1][1..] == b[1..][..n];
    }
  }

  /** What the order means: a proper prefix comes first, otherwise the smaller code point at the first
      position where the strings differ decides. */
  lemma {:induction false} LessByPosition(a: string, b: string)
    ensures Less(a, b) <==> Before(a, b)
  {
    if a == "" || b == "" || a[0] != b[0] {
      assert SmallerAt(a, b, 0) <==> Less(a, b);
      forall n: nat | SmallerAt(a, b, n) ensures n == 0 {
        if n > 0 { HeadsAgree(a, b, n); }
      }
    } else {
      LessByPosition(a[1..], b[1..]);
      forall n: nat | SmallerAt(a[1..], b[1..], n) ensures SmallerAt(a, b, n + 1) {
        SmallerBehind(a, b, n);
      }
      forall n: nat | SmallerAt(a, b, n) ensures n > 0 && SmallerAt(a[1..], b[1..], n - 1) {
        if n > 0 { SmallerBehind(a, b, n - 1); }
      }
    }
  }

  ghost predicate Sorted(items: seq<Item>) {
    forall i, j :: 0 <= i < j < |items| ==> Less(items[i].key, items[j].key)
  }

  /** Inserts an entry whose key is new into a sorted sequence. */
  function Insert(x: Item, items: seq<Item>): (r: seq<Item>)
    ensures multiset(r) == multiset(items) + multiset{x}
  {
    if items == [] then [x]
    else if Less(x.key, items[0].key) then [x] + items
    else
      assert items == [items[0]] + items[1..];
      [items[0]] + Insert(x, items[1..])
  }

  /** `sorted(d.items())`. */
  function Sort(items: seq<Item>): (r: seq<Item>)
    ensures multiset(r) == multiset(items)
  {
    if items == [] then []
    else
      assert items == [items[0]] + items[1..];
      Insert(items[0], Sort(items[1..]))
  }

  lemma SameElements(p: seq<Item>, q: seq<Item>)
    requires multiset(p) == multiset(q)
    ensures forall x :: x in p <==> x in q
  {
    forall x ensures x in p <==> x in q {
      assert x in p <==> x in multiset(p);
      assert x in q <==> x in multiset(q);
    }
  }

  lemma {:induction false} InsertSorted(x: Item, items: seq<Item>)
    requires Sorted(items) && forall y :: y in items ==> y.key != x.key
    ensures Sorted(Insert(x, items))
  {
    if items != [] {
      LessTrichotomy(x.key, items[0].key);
      if Less(x.key, items[0].key) {
        forall j | 0 < j < |items| ensures Less(x.key, items[j].key) {
          LessTransitive(x.key, items[0].key, items[j].key);
        }
      } else {
        InsertSorted(x, items[1..]);
        var r := Insert(x, items[1..]);
        SameElements(r, items[1..] + [x]);
        forall j | 0 <= j < |r| ensures Less(items[0].key, r[j].key) {
          assert r[j] in items[1..] + [x];
        }
      }
    }
  }

  lemma {:induction false} SortSorted(items: seq<Item>)
    requires NoDupKeys(items)
    ensures Sorted(Sort(items))
  {
    if items != [] {
      SortSorted(items[1..]);
      SameElements(Sort(items[1..]), items[1..]);
      InsertSorted(items[0], Sort(items[1..]));
    }
  }

  lemma EmptyTogether(p: seq<Item>, q: seq<Item>)
    requires forall x :: x in p <==> x in q
    ensures p == [] <==> q == []
  {
    if p != [] { assert p[0] in q; }
    if q != [] { assert q[0] in p; }
  }

  lemma TailLacksHead(p: seq<Item>)
    requires p != [] && Sorted(p)
    ensures p[0] !in p[1..]
  {
    LessIrreflexive(p[0].key);
  }

  lemma LessHeadsAgree(p: seq<Item>, q: seq<Item>)
    requires Sorted(p) && Sorted(q) && p != [] && q != []
    requires p[0] in q && q[0] in p
    ensures p[0] == q[0]
  {
    var i :| 0 <= i < |q| && q[i] == p[0];
    var j :| 0 <= j < |p| && p[j] == q[0];
    if i != 0 && j != 0 {
      LessTransitive(p[0].key, q[0].key, p[0].key);
      LessIrreflexive(p[0].key);
    }
  }

  lemma {:induction false} SortedUnique(p: seq<Item>, q: seq<Item>)
    requires Sorted(p) && Sorted(q)
    requires forall x :: x in p <==> x in q
    ensures p == q
  {
    EmptyTogether(p, q);
    if p != [] {
      assert p[0] in q && q != [] && q[0] in p;
      LessHeadsAgree(p, q);
      forall x ensures x in p[1..] <==> x in q[1..] {
        if x in p[1..] { TailLacksHead(p); assert x in q; }
        if x in q[1..] { TailLacksHead(q); assert x in p; }
      }
      SortedUnique(p[1..], q[1..]);
      assert p == [p[0]] + p[1..] && q == [q[0]] + q[1..];
    }
  }

  // ---------------------------------------------------------------------------
  // Printer
  // ---------------------------------------------------------------------------

  function HexValue(c: char): (r: Option<nat>)
    ensures r.Some? ==> r.value < 16
  {
    if '0' <= c <= '9' then Some(c as int - '0' as int)
    else if 'a' <= c <= 'f' then Some(c as int - 'a' as int + 10)
    else None
  }

  function HexDigit(n: nat): (c: char)
    requires n < 16
    ensures HexValue(c) == Some(n)
    ensures ' ' <= c <= '~' && c != '"'
  {
    if n < 10 then ('0' as int + n) as char else ('a' as int + n - 10) as char
  }

  function Hex4(n: nat): (s: string)
    requires n < 0x10000
    ensures |s| == 4
  {
    [HexDigit(n / 0x1000), HexDigit(n / 0x100 % 0x10), HexDigit(n / 0x10 % 0x10), HexDigit(n % 0x10)]
  }

  function EscapeUnit(n: nat): (s: string)
    requires n < 0x10000
    ensures |s| == 6
  {
    "\\u" + Hex4(n)
  }

  /** A surrogate pair for the code point `0x10000 + n`. */
  function EscapePair(n: nat): (s: string)
    requires n < 0x100000
    ensures |s| == 12 && s[0] == '\\'
  {
    EscapeUnit(0xd800 + n / 0x400) + EscapeUnit(0xdc00 + n % 0x400)
  }

  /** The two-character escapes. */
  function ShortEscape(c: char): Option<char> {
    match c
    case '"' => Some('"')
    case '\\' => Some('\\')
    case '\n' => Some('n')
    case '\r' => Some('r')
    case '\t' => Some('t')
    case '\U{0c}' => Some('f')
    case '\U{08}' => Some('b')
    case _ => None
  }

  function EscapeChar(c: char): (s: string)
    ensures s != "" && s[0] != '"'
  {
    if ShortEscape(c).Some? then ['\\', ShortEscape(c).value]
    else if ' ' <= c <= '~' then [c]
    else if c as int < 0x10000 then EscapeUnit(c as int)
    else EscapePair(c as int - 0x10000)
  }

  /** The escaped characters and the closing quote. */
  function QuoteRest(s: string): string {
    if s == "" then "\"" else EscapeChar(s[0]) + QuoteRest(s[1..])
  }

  function Quote(s: string): string {
    "\"" + QuoteRest(s)
  }

  function PrintValue(v: Value): string {
    match v
    case Null => "null"
    case Str(s) => Quote(s)
  }

  function PrintItem(x: Item): string {
    Quote(x.key) + ":" + PrintValue(x.value)
  }

  /** The first entry, the others behind a comma each, and the closing brace. */
  function PrintMembers(items: seq<Item>): string
    requires items != []
    decreases items, 1
  {
    PrintItem(items[0]) + PrintRest(items[1..])
  }

  function PrintRest(items: seq<Item>): string
    decreases items, 2
  {
    if items == [] then "}" else "," + PrintMembers(items)
  }

  function PrintItems(items: seq<Item>): string {
    if items == [] then "{}" else "{" + PrintMembers(items)
  }

  /** `json.dumps(d, sort_keys=True, separators=(",", ":"))` of a dictionary in insertion order. */
  function CanonicalBytes(dict: seq<Item>): string {
    PrintItems(Sort(dict))
  }

  // ---------------------------------------------------------------------------
  // Parser
  // ---------------------------------------------------------------------------

  function ReadHex4(s: string): (r: Option<nat>)
    ensures r.Some? ==> r.value < 0x10000
  {
    if |s| < 4 then None
    else
      match (HexValue(s[0]), HexValue(s[1]), HexValue(s[2]), HexValue(s[3]))
      case (Some(a), Some(b), Some(c), Some(d)) => Some(a * 0x1000 + b * 0x100 + c * 0x10 + d)
      case _ => None
  }

  /** Reads `\uXXXX`. */
  function ReadUnit(s: string): Option<nat>
  {
    if |s| < 6 || s[0] != '\\' || s[1] != 'u' then None else ReadHex4(s[2..6])
  }

  /** A `\u` escape, or two when the first is a high surrogate. */
  function ReadUnicode(s: string): (r: Option<(char, nat)>)
    ensures r.Some? ==> 0 < r.value.1 <= |s|
  {
    match ReadUnit(s)
    case None => None
    case Some(hi) =>
      if hi < 0xd800 || hi >= 0xe000 then Some((hi as char, 6))
      else if hi >= 0xdc00 then None
      else
        match ReadUnit(s[6..])
        case None => None
        case Some(lo) =>
          if 0xdc00 <= lo < 0xe000
          then Some(((0x10000 + (hi - 0xd800) * 0x400 + (lo - 0xdc00)) as char, 12))
          else None
  }

  /** Reads one character of a string literal: the character and how much it took. */
  function ReadChar(s: string): (r: Option<(char, nat)>)
    ensures r.Some? ==> 0 < r.value.1 <= |s|
  {
    if s == "" || s[0] == '"' then None
    else if s[0] != '\\' then Some((s[0], 1))
    else if |s| < 2 then None
    else
      match s[1]
      case '"' => Some(('"', 2))
      case '\\' => Some(('\\', 2))
      case 'n' => Some(('\n', 2))
      case 'r' => Some(('\r', 2))
      case 't' => Some(('\t', 2))
      case 'f' => Some(('\U{0c}', 2))
      case 'b' => Some(('\U{08}', 2))
      case 'u' => ReadUnicode(s)
      case _ => None
  }

  /** Reads up to and including the closing quote: the text and what follows. */
  function ReadChars(s: string): (r: Option<(string, string)>)
    ensures r.Some? ==> |r.value.1| < |s|
    decreases |s|
  {
    if s == "" then None
    else if s[0] == '"' then Some(("", s[1..]))
    else
      match ReadChar(s)
      case None => None
      case Some((c, n)) =>
        match ReadChars(s[n..])
        case None => None
        case Some((cs, rest)) => Some(([c] + cs, rest))
  }

  function ReadQuoted(s: string): (r: Option<(string, string)>)
    ensures r.Some? ==> |r.value.1| < |s|
  {
    if s != "" && s[0] == '"' then ReadChars(s[1..]) else None
  }

  function ReadValue(s: string): (r: Option<(Value, string)>)
    ensures r.Some? ==> |r.value.1| < |s|
  {
    if "null" <= s then Some((Null, s[4..]))
    else
      match ReadQuoted(s)
      case None => None
      case Some((t, rest)) => Some((Str(t), rest))
  }

  function ReadItem(s: string): (r: Option<(Item, string)>)
    ensures r.Some? ==> |r.value.1| < |s|
  {
    match ReadQuoted(s)
    case None => None
    case Some((key, rest)) =>
      if rest == "" || rest[0] != ':' then None
      else
        match ReadValue(rest[1..])
        case None => None
        case Some((v, rest')) => Some((Item(key, v), rest'))
  }

  function ReadMembers(s: string): Option<seq<Item>>
    decreases |s|, 1
  {
    match ReadItem(s)
    case None => None
    case Some((x, rest)) =>
      match ReadRest(rest)
      case None => None
      case Some(xs) => Some([x] + xs)
  }

  function ReadRest(s: string): Option<seq<Item>>
    decreases |s|, 0
  {
    if s == "}" then Some([])
    else if s == "" || s[0] != ',' then None
    else ReadMembers(s[1..])
  }

  function Parse(s: string): Option<seq<Item>> {
    if s == "{}" then Some([])
    else if s == "" || s[0] != '{' then None
    else ReadMembers(s[1..])
  }

  // ---------------------------------------------------------------------------
  // The parser undoes the printer
  // ---------------------------------------------------------------------------

  lemma HexPlaces(n: nat)
    requires n < 0x10000
    ensures n == n / 0x1000 * 0x1000 + n / 0x100 % 0x10 * 0x100 + n / 0x10 % 0x10 * 0x10 + n % 0x10
  {
    assert n / 0x10 / 0x10 == n / 0x100 && n / 0x100 / 0x10 == n / 0x1000;
  }

  lemma HexRoundTrip(n: nat)
    requires n < 0x10000
    ensures ReadHex4(Hex4(n)) == Some(n)
  {
    HexPlaces(n);
  }

  lemma UnitRoundTrip(n: nat, rest: string)
    requires n < 0x10000
    ensures ReadUnit(EscapeUnit(n) + rest) == Some(n)
  {
    HexRoundTrip(n);
    assert (EscapeUnit(n) + rest)[2..6] == Hex4(n);
  }

  /** A character of the basic plane outside printable ASCII. */
  lemma BasicRoundTrip(c: char, rest: string)
    requires c as int < 0x10000
    ensures ReadChar(EscapeUnit(c as int) + rest) == Some((c, 6))
  {
    UnitRoundTrip(c as int, rest);
  }

  /** A character beyond the basic plane, as a surrogate pair. */
  lemma {:induction false} PairRoundTrip(hi: nat, lo: nat, rest: string)
    requires 0xd800 <= hi < 0xdc00 <= lo < 0xe000
    ensures ReadChar(EscapeUnit(hi) + EscapeUnit(lo) + rest)
            == Some(((0x10000 + (hi - 0xd800) * 0x400 + (lo - 0xdc00)) as char, 12))
  {
    var s := EscapeUnit(hi) + EscapeUnit(lo) + rest;
    assert s == EscapeUnit(hi) + (EscapeUnit(lo) + rest);
    UnitRoundTrip(hi, EscapeUnit(lo) + rest);
    assert s[6..] == EscapeUnit(lo) + rest;
    UnitRoundTrip(lo, rest);
  }

  lemma BeyondBasicRoundTrip(n: nat, rest: string)
    requires n < 0x100000
    ensures ReadChar(EscapePair(n) + rest) == Some(((0x10000 + n) as char, 12))
  {
    assert n / 0x400 * 0x400 + n % 0x400 == n;
    PairRoundTrip(0xd800 + n / 0x400, 0xdc00 + n % 0x400, rest);
  }

  lemma PrintableRoundTrip(c: char, rest: string)
    requires ShortEscape(c).Some? || ' ' <= c <= '~'
    ensures ReadChar(EscapeChar(c) + rest) == Some((c, |EscapeChar(c)|))
  {
  }

  /** Every character is read back whole, whatever follows it. */
  lemma CharRoundTrip(c: char, rest: string)
    ensures ReadChar(EscapeChar(c) + rest) == Some((c, |EscapeChar(c)|))
  {
    if ShortEscape(c).Some? || ' ' <= c <= '~' {
      PrintableRoundTrip(c, rest);
    } else if c as int < 0x10000 {
      BasicRoundTrip(c, rest);
    } else {
      BeyondBasicRoundTrip(c as int - 0x10000, rest);
    }
  }

  lemma {:induction false} CharsRoundTrip(s: string, rest: string)
    ensures ReadChars(QuoteRest(s) + rest) == Some((s, rest))
  {
    var e := QuoteRest(s) + rest;
    if s == "" {
      assert e[1..] == rest;
    } else {
      var tail := QuoteRest(s[1..]) + rest;
      var n := |EscapeChar(s[0])|;
      assert e == EscapeChar(s[0]) + tail;
      assert e[0] == EscapeChar(s[0])[0];
      CharRoundTrip(s[0], tail);
      assert e[n..] == tail;
      CharsRoundTrip(s[1..], rest);
      assert s == [s[0]] + s[1..];
    }
  }

  lemma {:induction false} OpenQuote(tail: string, r: (string, string))
    requires ReadChars(tail) == Some(r)
    ensures ReadQuoted("\"" + tail) == Some(r)
  {
    assert ("\"" + tail)[1..] == tail;
  }

  lemma Concat(a: string, b: string, c: string)
    ensures a + b + c == a + (b + c)
  {
  }

  lemma {:induction false} QuotedRoundTrip(s: string, rest: string)
    ensures ReadQuoted(Quote(s) + rest) == Some((s, rest))
  {
    var t := QuoteRest(s);
    CharsRoundTrip(s, rest);
    OpenQuote(t + rest, (s, rest));
    Concat("\"", t, rest);
  }

  lemma {:induction false} ValueRoundTrip(v: Value, rest: string)
    ensures ReadValue(PrintValue(v) + rest) == Some((v, rest))
  {
    match v
    case Null => assert ("null" + rest)[4..] == rest;
    case Str(s) =>
      QuotedRoundTrip(s, rest);
      assert (Quote(s) + rest)[0] == '"';
  }

  lemma {:induction false} ItemRoundTrip(x: Item, rest: string)
    ensures ReadItem(PrintItem(x) + rest) == Some((x, rest))
  {
    var tail := PrintValue(x.value) + rest;
    assert PrintItem(x) + rest == Quote(x.key) + (":" + tail);
    QuotedRoundTrip(x.key, ":" + tail);
    assert (":" + tail)[1..] == tail;
    ValueRoundTrip(x.value, rest);
  }

  lemma {:induction false} MembersRoundTrip(items: seq<Item>)
    requires items != []
    ensures ReadMembers(PrintMembers(items)) == Some(items)
    decreases items, 1
  {
    ItemRoundTrip(items[0], PrintRest(items[1..]));
    RestRoundTrip(items[1..]);
    assert items == [items[0]] + items[1..];
  }

  lemma {:induction false} RestRoundTrip(items: seq<Item>)
    ensures ReadRest(PrintRest(items)) == Some(items)
    decreases items, 2
  {
    if items != [] {
      MembersRoundTrip(items);
      assert PrintRest(items)[1..] == PrintMembers(items);
    }
  }

  /** Parsing what was printed gives the entries back. */
  lemma ParsePrint(items: seq<Item>)
    ensures Parse(PrintItems(items)) == Some(items)
  {
    if items != [] {
      var body := PrintMembers(items);
      MembersRoundTrip(items);
      assert body[0] == '"';
      assert ("{" + body)[1..] == body;
    }
  }

  lemma SameItemsSameMap(p: seq<Item>, q: seq<Item>)
    requires NoDupKeys(p) && NoDupKeys(q)
    requires forall x :: x in p <==> x in q
    ensures AsMap(p) == AsMap(q)
  {
    AsMapEntries(p);
    AsMapEntries(q);
    var m, n := AsMap(p), AsMap(q);
    forall k ensures k in m <==> k in n {
      if k in m { assert Item(k, m[k]) in p; }
      if k in n { assert Item(k, n[k]) in q; }
    }
    forall k | k in m ensures m[k] == n[k] {
      assert Item(k, m[k]) in p;
    }
  }

  /** Two dictionaries have the same canonical bytes exactly when they are equal as mappings,
      whatever order their entries were inserted in. */
  lemma CanonicalBytesIdentify(p: seq<Item>, q: seq<Item>)
    requires NoDupKeys(p) && NoDupKeys(q)
    ensures CanonicalBytes(p) == CanonicalBytes(q) <==> AsMap(p) == AsMap(q)
  {
    SameElements(Sort(p), p);
    SameElements(Sort(q), q);
    if CanonicalBytes(p) == CanonicalBytes(q) {
      ParsePrint(Sort(p));
      ParsePrint(Sort(q));
      assert forall x :: x in p <==> x in q;
      SameItemsSameMap(p, q);
    }
    if AsMap(p) == AsMap(q) {
      AsMapEntries(p);
      AsMapEntries(q);
      SortSorted(p);
      SortSorted(q);
      SortedUnique(Sort(p), Sort(q));
    }
  }

  // ---------------------------------------------------------------------------
  // Payloads as mappings
  // ---------------------------------------------------------------------------

  /** Some insertion order of a mapping's entries; by `CanonicalBytesIdentify` it does not
      matter which. */
  ghost function ItemsOf(m: Payload): (items: seq<Item>)
    ensures NoDupKeys(items)
    ensures forall x :: x in items <==> x.key in m && m[x.key] == x.value
    decreases |m|
  {
    if m == map[] then []
    else
      var k :| k in m;
      ItemsOf(m - {k}) + [Item(k, m[k])]
  }

  lemma AsMapItemsOf(m: Payload)
    ensures AsMap(ItemsOf(m)) == m
  {
    var items := ItemsOf(m);
    AsMapEntries(items);
    var n := AsMap(items);
    forall k ensures k in n <==> k in m {
      if k in m { assert Item(k, m[k]) in items; }
      if k in n { assert Item(k, n[k]) in items; }
    }
    forall k | k in m ensures n[k] == m[k] {
      assert Item(k, m[k]) in items;
    }
  }

  /** The canonical bytes of a payload. */
  ghost function Canonical(m: Payload): string {
    CanonicalBytes(ItemsOf(m))
  }

  /** Identical payload if and only if identical bytes. */
  lemma CanonicalInjective(m: Payload, n: Payload)
    ensures Canonical(m) == Canonical(n) <==> m == n
  {
    CanonicalBytesIdentify(ItemsOf(m), ItemsOf(n));
    AsMapItemsOf(m);
    AsMapItemsOf(n);
  }

  // ---------------------------------------------------------------------------
  // The text is ASCII, so encoding it as UTF-8 maps each character to one byte
  // ---------------------------------------------------------------------------

  ghost predicate Ascii(s: string) {
    forall i :: 0 <= i < |s| ==> ' ' <= s[i] <= '~'
  }

  lemma UnitAscii(n: nat)
    requires n < 0x10000
    ensures Ascii(EscapeUnit(n))
  {
  }

  lemma PairAscii(n: nat)
    requires n < 0x100000
    ensures Ascii(EscapePair(n))
  {
    UnitAscii(0xd800 + n / 0x400);
    UnitAscii(0xdc00 + n % 0x400);
  }

  lemma {:induction false} CharAscii(c: char)
    ensures Ascii(EscapeChar(c))
  {
    if ShortEscape(c).None? && !(' ' <= c <= '~') {
      if c as int < 0x10000 {
        UnitAscii(c as int);
      } else {
        PairAscii(c as int - 0x10000);
      }
    }
  }

  lemma {:induction false} EscapeAscii(s: string)
    ensures Ascii(QuoteRest(s))
  {
    if s != "" {
      CharAscii(s[0]);
      EscapeAscii(s[1..]);
    }
  }

  lemma ItemAscii(x: Item)
    ensures Ascii(PrintItem(x))
  {
    EscapeAscii(x.key);
    if x.value.Str? { EscapeAscii(x.value.s); }
  }

  lemma {:induction false} RestAscii(items: seq<Item>)
    ensures Ascii(PrintRest(items))
  {
    if items != [] {
      ItemAscii(items[0]);
      RestAscii(items[1..]);
    }
  }

  lemma CanonicalAscii(dict: seq<Item>)
    ensures Ascii(CanonicalBytes(dict))
  {
    var items := Sort(dict);
    if items != [] {
      ItemAscii(items[0]);
      RestAscii(items[1..]);
    }
  }

  // ---------------------------------------------------------------------------
  // What the text looks like
  // ---------------------------------------------------------------------------

  lemma SortedNoDup(items: seq<Item>)
    requires Sorted(items)
    ensures NoDupKeys(items)
  {
    forall i, j | 0 <= i < j < |items| ensures items[i].key != items[j].key {
      LessIrreflexive(items[i].key);
    }
  }

  /** Keys ascending by code point. */
  ghost predicate Ascending(items: seq<Item>) {
    forall i, j :: 0 <= i < j < |items| ==> Before(items[i].key, items[j].key)
  }

  lemma SortedAscends(items: seq<Item>)
    requires Sorted(items)
    ensures Ascending(items)
  {
    hide Less, Before;
    forall i, j | 0 <= i < j < |items| ensures Before(items[i].key, items[j].key) {
      LessByPosition(items[i].key, items[j].key);
    }
  }

  /** The text, parsed, lists exactly the payload's entries, keys ascending by code point. */
  ghost predicate ListsInOrder(text: string, m: Payload) {
    exists items: seq<Item> :: Parse(text) == Some(items) && NoDupKeys(items) && AsMap(items) == m && Ascending(items)
  }

  /** So does the canonical text. */
  lemma CanonicalAscends(m: Payload)
    ensures ListsInOrder(Canonical(m), m)
  {
    hide Less, Parse, PrintItems, AsMap, Sort, ItemsOf, Ascending, Sorted, NoDupKeys;
    var dict := ItemsOf(m);
    var items := Sort(dict);
    ParsePrint(items);
    SortSorted(dict);
    SortedNoDup(items);
    SortedAscends(items);
    SameElements(items, dict);
    SameItemsSameMap(items, dict);
    AsMapItemsOf(m);
  }

  /** Reads a lower-case hexadecimal digit. */
  predicate LowerHex(c: char, n: nat) {
    n < 16 && c == "0123456789abcdef"[n]
  }

  /** `\u` and the four digits of `n`. */
  ghost predicate UnitText(s: string, n: nat) {
    && |s| == 6 && s[0] == '\\' && s[1] == 'u'
    && exists a: nat, b: nat, c: nat, d: nat ::
         LowerHex(s[2], a) && LowerHex(s[3], b) && LowerHex(s[4], c) && LowerHex(s[5], d)
         && n == a * 0x1000 + b * 0x100 + c * 0x10 + d
  }

  lemma DigitForm(n: nat)
    requires n < 16
    ensures LowerHex(HexDigit(n), n)
  {
  }

  lemma UnitForm(n: nat)
    requires n < 0x10000
    ensures UnitText(EscapeUnit(n), n)
  {
    hide HexDigit, LowerHex;
    var a, b, c, d := n / 0x1000, n / 0x100 % 0x10, n / 0x10 % 0x10, n % 0x10;
    DigitForm(a);
    DigitForm(b);
    DigitForm(c);
    DigitForm(d);
    HexPlaces(n);
    var s := EscapeUnit(n);
    assert LowerHex(s[2], a) && LowerHex(s[3], b) && LowerHex(s[4], c) && LowerHex(s[5], d);
  }

  /** How a character is escaped: the seven short escapes, itself when it is printable ASCII, else
      `\u` and four lower-case hexadecimal digits, or two of these as a surrogate pair. */
  lemma EscapeForm(c: char)
    ensures c == '"' ==> EscapeChar(c) == "\\\""
    ensures c == '\\' ==> EscapeChar(c) == "\\\\"
    ensures c == '\n' ==> EscapeChar(c) == "\\n"
    ensures c == '\r' ==> EscapeChar(c) == "\\r"
    ensures c == '\t' ==> EscapeChar(c) == "\\t"
    ensures c as int == 12 ==> EscapeChar(c) == "\\f"
    ensures c as int == 8 ==> EscapeChar(c) == "\\b"
    ensures 32 <= c as int <= 126 && c != '"' && c != '\\' ==> EscapeChar(c) == [c]
    ensures (c as int < 32 && c as int !in {8, 9, 10, 12, 13}) || 126 < c as int < 0x10000 ==>
              UnitText(EscapeChar(c), c as int)
    ensures c as int >= 0x10000 ==>
              && |EscapeChar(c)| == 12
              && UnitText(EscapeChar(c)[..6], 0xd800 + (c as int - 0x10000) / 0x400)
              && UnitText(EscapeChar(c)[6..], 0xdc00 + (c as int - 0x10000) % 0x400)
  {
    hide EscapeUnit;
    if c as int >= 0x10000 {
      var n := c as int - 0x10000;
      UnitForm(0xd800 + n / 0x400);
      UnitForm(0xdc00 + n % 0x400);
    } else {
      UnitForm(c as int);
    }
  }

  lemma PrintTwo(x: Item, y: Item)
    ensures PrintItems([x, y]) == "{" + (PrintItem(x) + ("," + (PrintItem(y) + "}")))
  {
    hide PrintItem;
    assert [x, y][1..] == [y] && [y][1..] == [];
    assert PrintMembers([y]) == PrintItem(y) + "}";
    assert PrintRest([y]) == "," + PrintMembers([y]);
    assert PrintMembers([x, y]) == PrintItem(x) + PrintRest([y]);
  }

  lemma TwoItems(x: Item, y: Item)
    requires Less(x.key, y.key)
    ensures Sort([x, y]) == [x, y] && NoDupKeys([x, y])
    ensures AsMap([x, y]) == map[x.key := x.value][y.key := y.value]
  {
    LessIrreflexive(x.key);
    assert [x, y][1..] == [y] && [y][1..] == [];
    assert [x, y][..1] == [x] && [x][..0] == [];
    assert AsMap([x]) == map[x.key := x.value];
  }

  lemma QuoteExample()
    ensures Quote("a") == "\"a\"" && Quote("b") == "\"b\"" && Quote("\"x") == "\"\\\"x\""
  {
    assert "a"[1..] == "" && "b"[1..] == "" && "\"x"[1..] == "x" && "x"[1..] == "";
  }

  /** A payload with its exact text. */
  lemma CanonicalExample()
    ensures Canonical(map["b" := Null, "a" := Str("\"x")]) == "{\"a\":\"\\\"x\",\"b\":null}"
  {
    hide Sort, AsMap, PrintItems, Quote, ItemsOf, NoDupKeys;
    var m: Payload := map["b" := Null, "a" := Str("\"x")];
    var x, y := Item("a", Str("\"x")), Item("b", Null);
    AsMapItemsOf(m);
    TwoItems(x, y);
    assert AsMap([x, y]) == m;
    CanonicalBytesIdentify(ItemsOf(m), [x, y]);
    PrintTwo(x, y);
    QuoteExample();
  }
}
