/** The ground-truth manifest as a JSON tree, and its enrichment: wherever a node names record
    indices, the source hashes at those indices are added beside them. */
module GroundTruth {
  import opened Options

  datatype Node =
    | NDict(entries: map<string, Node>)
    | NList(items: seq<Node>)
    | NInt(i: int)
    | NBool(b: bool)
    | NText(s: string)
    | NFloat(r: real)
    | NNull

  const INDEX := "record_index"
  const INDICES := "record_indices"
  const HASH := "source_hash"
  const HASHES := "source_hashes"

  /** `isinstance(node, int)`: in Python a boolean is an integer. */
  function AsInt(n: Node): Option<int> {
    match n
    case NInt(i) => Some(i)
    case NBool(b) => Some(if b then 1 else 0)
    case _ => None
  }

  predicate IndexInto(n: Node, hashes: seq<string>) {
    AsInt(n).Some? && 0 <= AsInt(n).value < |hashes|
  }

  /** The hashes at those of the items that index into the batch. */
  function HashesAt(items: seq<Node>, hashes: seq<string>): seq<Node> {
    if items == [] then []
    else (if IndexInto(items[0], hashes) then [NText(hashes[AsInt(items[0]).value])] else []) + HashesAt(items[1..], hashes)
  }

  /** Adds the hashes a dictionary's own indices call for. */
  function Resolve(d: map<string, Node>, hashes: seq<string>): map<string, Node> {
    var one := if INDEX in d && IndexInto(d[INDEX], hashes) then d[HASH := NText(hashes[AsInt(d[INDEX]).value])] else d;
    if INDICES in d && d[INDICES].NList? then one[HASHES := NList(HashesAt(d[INDICES].items, hashes))] else one
  }

  /** `enrich_ground_truth`. */
  function Enrich(n: Node, hashes: seq<string>): Node {
    match n
    case NDict(d) => NDict(Resolve(map k | k in d :: Enrich(d[k], hashes), hashes))
    case NList(items) => NList(seq(|items|, i requires 0 <= i < |items| => Enrich(items[i], hashes)))
    case other => other
  }

  /** The tree without any source hashes. */
  function Erase(n: Node): Node {
    match n
    case NDict(d) => NDict(map k | k in d && k != HASH && k != HASHES :: Erase(d[k]))
    case NList(items) => NList(seq(|items|, i requires 0 <= i < |items| => Erase(items[i])))
    case other => other
  }

  lemma KeysDiffer()
    ensures INDEX != HASH && INDEX != HASHES && INDICES != HASH && INDICES != HASHES && INDEX != INDICES && HASH != HASHES
  {
    assert |INDEX| == 12 && |INDICES| == 14 && |HASH| == 11 && |HASHES| == 13;
  }

  /** Enrichment leaves integers alone, so it does not matter whether indices are read before or
      after it. */
  lemma AsIntEnriched(n: Node, hashes: seq<string>)
    ensures AsInt(Enrich(n, hashes)) == AsInt(n)
    ensures Enrich(n, hashes).NList? <==> n.NList?
  {
  }

  lemma {:induction false} HashesAtEnriched(items: seq<Node>, other: seq<Node>, hashes: seq<string>)
    requires |items| == |other| && forall i :: 0 <= i < |items| ==> AsInt(items[i]) == AsInt(other[i])
    ensures HashesAt(items, hashes) == HashesAt(other, hashes)
  {
    if items != [] {
      HashesAtEnriched(items[1..], other[1..], hashes);
    }
  }

  /** Entry `k` of the enriched dictionary is just the enriched entry, if there is one. */
  ghost predicate Carried(k: string, d: map<string, Node>, e: map<string, Node>, hashes: seq<string>) {
    (k in e <==> k in d) && (k in d ==> e[k] == Enrich(d[k], hashes))
  }

  /** What a dictionary becomes: its indices' hashes beside them, every other entry enriched in
      its own right, and nothing else. */
  lemma EnrichDict(d: map<string, Node>, hashes: seq<string>)
    ensures var e := Enrich(NDict(d), hashes).entries;
            && (forall k :: k in e && k != "source_hash" && k != "source_hashes" ==> k in d)
            && (forall k :: k in d && k != "source_hash" && k != "source_hashes" ==> k in e && e[k] == Enrich(d[k], hashes))
            && (if "record_index" in d && IndexInto(d["record_index"], hashes)
                then "source_hash" in e && e["source_hash"] == NText(hashes[AsInt(d["record_index"]).value])
                else Carried("source_hash", d, e, hashes))
            && (if "record_indices" in d && d["record_indices"].NList?
                then "source_hashes" in e && e["source_hashes"] == NList(HashesAt(d["record_indices"].items, hashes))
                else Carried("source_hashes", d, e, hashes))
  {
    KeysDiffer();
    if INDEX in d { AsIntEnriched(d[INDEX], hashes); }
    if INDICES in d && d[INDICES].NList? {
      var items := d[INDICES].items;
      var after := Enrich(d[INDICES], hashes).items;
      forall i | 0 <= i < |items| ensures AsInt(items[i]) == AsInt(after[i]) {
        AsIntEnriched(items[i], hashes);
      }
      HashesAtEnriched(items, after, hashes);
    }
  }

  /** Each item that indexes into the batch contributes its hash, in order, a boolean counting as 0 or 1;
      any other item contributes nothing. */
  lemma {:induction false} HashesAtLast(items: seq<Node>, last: Node, hashes: seq<string>)
    ensures HashesAt(items + [last], hashes) == HashesAt(items, hashes) +
              match last
              case NInt(i) => if 0 <= i < |hashes| then [NText(hashes[i])] else []
              case NBool(b) =>
                if b && |hashes| > 1 then [NText(hashes[1])] else if !b && |hashes| > 0 then [NText(hashes[0])] else []
              case _ => []
  {
    if items == [] {
      assert ([] + [last])[1..] == [];
    } else {
      HashesAtLast(items[1..], last, hashes);
      assert (items + [last])[1..] == items[1..] + [last];
    }
  }

  lemma EnrichedDict(d: map<string, Node>, hashes: seq<string>)
    ensures Enrich(NDict(d), hashes).NDict?
  {
  }

  lemma EnrichIndexed(d: map<string, Node>, hashes: seq<string>, i: nat)
    requires INDEX in d && d[INDEX] == NInt(i) && i < |hashes|
    ensures var e := Enrich(NDict(d), hashes);
            e.NDict? && HASH in e.entries && e.entries[HASH] == NText(hashes[i])
  {
    hide Enrich;
    EnrichDict(d, hashes);
    EnrichedDict(d, hashes);
  }

  lemma EnrichIndices(d: map<string, Node>, hashes: seq<string>, items: seq<Node>)
    requires INDICES in d && d[INDICES] == NList(items)
    ensures var e := Enrich(NDict(d), hashes);
            e.NDict? && HASHES in e.entries && e.entries[HASHES] == NList(HashesAt(items, hashes))
  {
    hide Enrich, HashesAt;
    EnrichDict(d, hashes);
    EnrichedDict(d, hashes);
  }

  lemma EraseDict(d: map<string, Node>, e: map<string, Node>)
    requires forall k :: k in e && k != HASH && k != HASHES ==> k in d
    requires forall k :: k in d && k != HASH && k != HASHES ==> k in e && Erase(e[k]) == Erase(d[k])
    ensures Erase(NDict(e)) == Erase(NDict(d))
  {
    assert Erase(NDict(e)).entries == Erase(NDict(d)).entries;
  }

  /** Enrichment only adds hashes. */
  lemma {:induction false} EnrichOnlyAdds(n: Node, hashes: seq<string>)
    ensures Erase(Enrich(n, hashes)) == Erase(n)
  {
    match n
    case NDict(d) =>
      EnrichDict(d, hashes);
      forall k | k in d ensures Erase(Enrich(d[k], hashes)) == Erase(d[k]) {
        EnrichOnlyAdds(d[k], hashes);
      }
      EraseDict(d, Enrich(n, hashes).entries);
    case NList(items) =>
      forall i | 0 <= i < |items| ensures Erase(Enrich(items[i], hashes)) == Erase(items[i]) {
        EnrichOnlyAdds(items[i], hashes);
      }
      assert Erase(Enrich(n, hashes)).items == Erase(n).items;
    case _ =>
  }

  /** A step into a tree. */
  datatype Step = Key(k: string) | Position(i: nat)

  function Follow(n: Node, path: seq<Step>): Option<Node>
    decreases path
  {
    if path == [] then Some(n)
    else
      match (n, path[0])
      case (NDict(d), Key(k)) => if k in d then Follow(d[k], path[1..]) else None
      case (NList(items), Position(i)) => if i < |items| then Follow(items[i], path[1..]) else None
      case _ => None
  }

  lemma FollowOne(n: Node, step: Step)
    ensures Follow(n, [step]) == match (n, step)
              case (NDict(d), Key(k)) => if k in d then Some(d[k]) else None
              case (NList(items), Position(i)) => if i < |items| then Some(items[i]) else None
              case _ => None
  {
    assert [step][1..] == [];
  }

  /** Entry `i` of the list under a key. */
  lemma FollowTwo(d: map<string, Node>, key: string, i: nat)
    requires key in d && d[key].NList? && i < |d[key].items|
    ensures Follow(NDict(d), [Key(key), Position(i)]) == Some(d[key].items[i])
  {
    var path := [Key(key), Position(i)];
    assert path[1..] == [Position(i)];
    FollowOne(d[key], Position(i));
  }

  predicate AvoidsHashes(path: seq<Step>) {
    forall s :: s in path && s.Key? ==> s.k != HASH && s.k != HASHES
  }

  /** However deep a node lies, the enriched tree holds there that node enriched. */
  lemma {:induction false} EnrichAt(n: Node, path: seq<Step>, hashes: seq<string>)
    requires AvoidsHashes(path)
    ensures Follow(Enrich(n, hashes), path)
            == match Follow(n, path) { case None => None case Some(m) => Some(Enrich(m, hashes)) }
    decreases path
  {
    if path != [] {
      match (n, path[0])
      case (NDict(d), Key(k)) =>
        assert path[0] in path;
        EnrichDict(d, hashes);
        if k in d { EnrichAt(d[k], path[1..], hashes); }
      case (NList(items), Position(i)) =>
        if i < |items| { EnrichAt(items[i], path[1..], hashes); }
      case _ =>
    }
  }
}
