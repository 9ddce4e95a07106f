/** Counting over sequences: repeats, distinct elements, positions that satisfy a condition. */
module Sequences {

  /** How many elements are equal to an earlier one. */
  ghost function Repeats<T>(xs: seq<T>): nat {
    if xs == [] then 0
    else Repeats(xs[..|xs| - 1]) + if xs[|xs| - 1] in xs[..|xs| - 1] then 1 else 0
  }

  lemma TakeStep<T>(s: seq<T>, i: nat)
    requires i < |s|
    ensures s[..i + 1] == s[..i] + [s[i]]
  {
  }

  ghost function Distinct<T(!new)>(xs: seq<T>): set<T> {
    set x | x in xs
  }

  lemma WithElement<T>(s: set<T>, x: T)
    ensures |s + {x}| == |s| + if x in s then 0 else 1
  {
    if x in s {
      assert s + {x} == s;
    }
  }

  /** Every element is either the first of its value or a repeat. */
  lemma {:induction false} RepeatsAndDistinct<T(!new)>(xs: seq<T>)
    ensures Repeats(xs) + |Distinct(xs)| == |xs|
  {
    if xs != [] {
      var init, last := xs[..|xs| - 1], xs[|xs| - 1];
      RepeatsAndDistinct(init);
      assert xs == init + [last];
      assert Distinct(xs) == Distinct(init) + {last};
      assert last in init <==> last in Distinct(init);
      WithElement(Distinct(init), last);
      assert Repeats(xs) == Repeats(init) + if last in init then 1 else 0;
    }
  }

  /** An element that occurs nowhere else changes nothing. */
  lemma {:induction false} RepeatsAfterUnique<T>(a: T, xs: seq<T>)
    requires a !in xs
    ensures Repeats([a] + xs) == Repeats(xs)
  {
    var ys := [a] + xs;
    if xs == [] {
      assert ys[..0] == [];
    } else {
      var n := |xs| - 1;
      RepeatsAfterUnique(a, xs[..n]);
      assert ys[..|ys| - 1] == [a] + xs[..n];
    }
  }

  /** Two sequences whose elements coincide at the same pairs of positions repeat equally often. */
  lemma {:induction false} RepeatsAlike<S, T>(xs: seq<S>, ys: seq<T>)
    requires |xs| == |ys|
    requires forall i, j :: 0 <= i < |xs| && 0 <= j < |xs| ==> (xs[i] == xs[j] <==> ys[i] == ys[j])
    ensures Repeats(xs) == Repeats(ys)
  {
    if xs != [] {
      var n := |xs| - 1;
      RepeatsAlike(xs[..n], ys[..n]);
      if xs[n] in xs[..n] {
        var i :| 0 <= i < n && xs[i] == xs[n];
        assert ys[i] == ys[n];
      }
      if ys[n] in ys[..n] {
        var i :| 0 <= i < n && ys[i] == ys[n];
        assert xs[i] == xs[n];
      }
    }
  }

  ghost function IndexOf<T>(xs: seq<T>, x: T): (j: nat)
    requires x in xs
    ensures j < |xs|
  {
    if xs[0] == x then 0 else 1 + IndexOf(xs[1..], x)
  }

  /** The first position holding the element at position `i`. */
  ghost function FirstIndex<T>(xs: seq<T>, i: nat): (j: nat)
    requires i < |xs|
    ensures j <= i
  {
    if i == 0 then 0
    else if xs[i] in xs[..i] then IndexOf(xs[..i], xs[i])
    else i
  }

  lemma {:induction false} IndexOfFirst<T>(xs: seq<T>, x: T)
    requires x in xs
    ensures xs[IndexOf(xs, x)] == x && forall k :: 0 <= k < IndexOf(xs, x) ==> xs[k] != x
  {
    if xs[0] != x {
      IndexOfFirst(xs[1..], x);
    }
  }

  lemma FirstIndexFirst<T>(xs: seq<T>, i: nat)
    requires i < |xs|
    ensures xs[FirstIndex(xs, i)] == xs[i]
    ensures forall k :: 0 <= k < FirstIndex(xs, i) ==> xs[k] != xs[i]
  {
    if xs[i] in xs[..i] {
      IndexOfFirst(xs[..i], xs[i]);
    }
  }

  lemma FirstIndexShared<T>(xs: seq<T>, i: nat, j: nat)
    requires i < |xs| && j < |xs|
    ensures FirstIndex(xs, i) == FirstIndex(xs, j) <==> xs[i] == xs[j]
  {
    FirstIndexFirst(xs, i);
    FirstIndexFirst(xs, j);
  }

  lemma FirstIndexAlike<S, T>(xs: seq<S>, ys: seq<T>, i: nat)
    requires |xs| == |ys| && i < |xs|
    requires forall k :: 0 <= k < |xs| ==> (xs[k] == xs[i] <==> ys[k] == ys[i])
    ensures FirstIndex(xs, i) == FirstIndex(ys, i)
  {
    FirstIndexFirst(xs, i);
    FirstIndexFirst(ys, i);
    var a, b := FirstIndex(xs, i), FirstIndex(ys, i);
    assert ys[a] == ys[i] && xs[b] == xs[i];
  }

  /** A first-seen index: it holds exactly the first `n` keys, each with the id its first
      occurrence was given. */
  ghost predicate SeenIn<K(!new), V>(firstSeen: map<K, V>, keys: seq<K>, n: nat, idOf: nat -> V)
    requires n <= |keys|
  {
    && (forall i :: 0 <= i < n ==> keys[i] in firstSeen && firstSeen[keys[i]] == idOf(FirstIndex(keys, i)))
    && (forall key :: key in firstSeen ==> exists i :: 0 <= i < n && keys[i] == key)
  }

  /** `setdefault` on the index gives key `n` the id of its first occurrence, and keeps the index
      right. */
  lemma Lookup<K(!new), V>(firstSeen: map<K, V>, keys: seq<K>, n: nat, idOf: nat -> V)
    requires n < |keys| && SeenIn(firstSeen, keys, n, idOf)
    ensures var id := if keys[n] in firstSeen then firstSeen[keys[n]] else idOf(n);
            id == idOf(FirstIndex(keys, n)) && SeenIn(firstSeen[keys[n] := id], keys, n + 1, idOf)
  {
    FirstIndexFirst(keys, n);
    if keys[n] in firstSeen {
      var i :| 0 <= i < n && keys[i] == keys[n];
      FirstIndexShared(keys, i, n);
    }
    forall i | 0 <= i < n && keys[i] == keys[n] ensures FirstIndex(keys, i) == FirstIndex(keys, n) {
      FirstIndexShared(keys, i, n);
    }
  }

  /** How many positions below `n` satisfy `p`. */
  function CountBelow(n: nat, p: nat -> bool): (c: nat)
    ensures c <= n
  {
    if n == 0 then 0 else CountBelow(n - 1, p) + if p(n - 1) then 1 else 0
  }

  /** Positions below `n` that fail count for nothing. */
  lemma {:induction false} CountShift(n: nat, m: nat, p: nat -> bool, q: nat -> bool)
    requires forall i: nat :: i < n ==> !p(i)
    requires forall k: nat :: k < m ==> p(n + k) == q(k)
    ensures CountBelow(n + m, p) == CountBelow(m, q)
    decreases n + m
  {
    if m > 0 {
      CountShift(n, m - 1, p, q);
      assert p(n + (m - 1)) == q(m - 1);
    } else if n > 0 {
      CountShift(n - 1, 0, p, q);
    }
  }

  lemma {:induction false} CountComplement(n: nat, p: nat -> bool, q: nat -> bool)
    requires forall i: nat :: i < n ==> p(i) == !q(i)
    ensures CountBelow(n, p) + CountBelow(n, q) == n
  {
    if n > 0 {
      CountComplement(n - 1, p, q);
    }
  }

  /** An injective image has as many elements. */
  lemma {:induction false} ImageSize<S(!new), T(!new)>(xs: set<S>, f: S -> T, ys: set<T>)
    requires forall a, b :: a in xs && b in xs && f(a) == f(b) ==> a == b
    requires ys == set x | x in xs :: f(x)
    ensures |ys| == |xs|
  {
    if xs != {} {
      var a :| a in xs;
      ImageSize(xs - {a}, f, ys - {f(a)});
    }
  }

  lemma {:induction false} RepeatsZero<T>(xs: seq<T>)
    ensures Repeats(xs) == 0 <==> forall i, j :: 0 <= i < j < |xs| ==> xs[i] != xs[j]
  {
    if xs != [] {
      var n := |xs| - 1;
      RepeatsZero(xs[..n]);
      if xs[n] in xs[..n] {
        var i :| 0 <= i < n && xs[..n][i] == xs[n];
        assert xs[i] == xs[n];
      }
    }
  }

  lemma {:induction false} CountBelowFewer(n: nat, p: nat -> bool, q: nat -> bool)
    requires forall i: nat :: i < n && p(i) ==> q(i)
    ensures CountBelow(n, p) <= CountBelow(n, q)
  {
    if n > 0 {
      CountBelowFewer(n - 1, p, q);
    }
  }

  lemma {:induction false} CountBelowGrows(m: nat, n: nat, p: nat -> bool)
    requires m <= n
    ensures CountBelow(m, p) <= CountBelow(n, p)
    decreases n
  {
    if m < n {
      CountBelowGrows(m, n - 1, p);
    }
  }

  /** How many elements satisfy `p`. */
  function Tally<T>(xs: seq<T>, p: T -> bool): (c: nat)
    ensures c <= |xs|
  {
    if xs == [] then 0 else Tally(xs[..|xs| - 1], p) + if p(xs[|xs| - 1]) then 1 else 0
  }

  lemma {:induction false} TallyConcat<T>(xs: seq<T>, ys: seq<T>, p: T -> bool)
    ensures Tally(xs + ys, p) == Tally(xs, p) + Tally(ys, p)
  {
    if ys == [] {
      assert xs + ys == xs;
    } else {
      var n := |ys| - 1;
      TallyConcat(xs, ys[..n], p);
      assert (xs + ys)[..|xs + ys| - 1] == xs + ys[..n];
    }
  }

  lemma {:induction false} TallyAll<T>(xs: seq<T>, p: T -> bool, all: bool)
    requires forall i :: 0 <= i < |xs| ==> p(xs[i]) == all
    ensures Tally(xs, p) == if all then |xs| else 0
  {
    if xs != [] {
      TallyAll(xs[..|xs| - 1], p, all);
    }
  }

  /** A conditional append. */
  lemma TallyAppend<T>(xs: seq<T>, c: bool, x: T, p: T -> bool)
    ensures Tally(xs + if c then [x] else [], p) == Tally(xs, p) + if c && p(x) then 1 else 0
  {
    if c {
      assert (xs + [x])[..|xs|] == xs;
    } else {
      assert xs + [] == xs;
    }
  }

  /** Sequences that share no element repeat independently. */
  lemma {:induction false} RepeatsDisjoint<T>(xs: seq<T>, ys: seq<T>)
    requires forall y :: y in ys ==> y !in xs
    ensures Repeats(xs + ys) == Repeats(xs) + Repeats(ys)
  {
    if ys == [] {
      assert xs + ys == xs;
    } else {
      var n := |ys| - 1;
      RepeatsDisjoint(xs, ys[..n]);
      assert (xs + ys)[..|xs + ys| - 1] == xs + ys[..n];
      assert ys[n] !in xs;
      assert ys[n] in xs + ys[..n] <==> ys[n] in ys[..n];
    }
  }

  lemma {:induction false} TallyZero<T>(xs: seq<T>, p: T -> bool)
    requires Tally(xs, p) == 0
    ensures forall x :: x in xs ==> !p(x)
  {
    if xs != [] {
      var n := |xs| - 1;
      TallyZero(xs[..n], p);
      assert xs == xs[..n] + [xs[n]];
    }
  }

  lemma FewRepeatNot<T>(xs: seq<T>)
    requires |xs| <= 1
    ensures Repeats(xs) == 0
  {
    if |xs| == 1 { assert xs[..0] == []; }
  }
}
