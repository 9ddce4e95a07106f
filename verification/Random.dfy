/** A seeded generator as a cursor over an arbitrary stream of draws. A seed fixes the stream;
    nothing is known of a draw except the range it is asked for. */
module Random {

  /** One draw, in [0, 1). */
  type Unit = u: real | 0.0 <= u < 1.0 witness 0.0

  /** What a seed determines: the draws in order. */
  type Stream = nat -> Unit

  function Part(width: real, u: real): real {
    width * u
  }

  /** `uniform(lo, hi)`. */
  function UniformOf(u: Unit, lo: real, hi: real): real {
    lo + Part(hi - lo, u)
  }

  lemma ScaledFloor(u: Unit, n: int)
    requires n > 0
    ensures 0 <= (u * n as real).Floor < n
  {
    assert 0.0 <= u * n as real < 1.0 * n as real;
  }

  /** `randint(lo, hi)`, both ends included. */
  function IntOf(u: Unit, lo: int, hi: int): (r: int)
    requires lo <= hi
    ensures lo <= r <= hi
  {
    ScaledFloor(u, hi - lo + 1);
    lo + (u * (hi - lo + 1) as real).Floor
  }

  lemma ShareBelowOne(a: real, b: real)
    requires 0.0 <= a < b
    ensures 0.0 <= a / b < 1.0 && a / b * b == a
  {
  }

  /** Every integer of the range can be drawn. */
  lemma IntReaches(lo: int, hi: int, k: int)
    requires lo <= k <= hi
    ensures exists u: Unit :: IntOf(u, lo, hi) == k
  {
    var n := hi - lo + 1;
    var u := (k - lo) as real / n as real;
    assert (k - lo) as real < n as real;
    ShareBelowOne((k - lo) as real, n as real);
    assert u * n as real == (k - lo) as real;
    assert IntOf(u, lo, hi) == k;
  }

  /** An integer draw is the drawn share of the range, rounded down. */
  lemma IntAtShare(u: Unit, lo: int, hi: int)
    requires lo <= hi
    ensures var drawn := lo as real + u * (hi - lo + 1) as real;
            IntOf(u, lo, hi) as real <= drawn < IntOf(u, lo, hi) as real + 1.0
  {
  }

  /** `choice(xs)`. */
  function ChoiceOf<T>(u: Unit, xs: seq<T>): (x: T)
    requires xs != []
    ensures x in xs
  {
    xs[IntOf(u, 0, |xs| - 1)]
  }

  /** Every item can be chosen. */
  lemma ChoiceReaches<T>(xs: seq<T>, k: nat)
    requires k < |xs|
    ensures exists u: Unit :: ChoiceOf(u, xs) == xs[k]
  {
    IntReaches(0, |xs| - 1, k);
    var u: Unit :| IntOf(u, 0, |xs| - 1) == k;
    assert ChoiceOf(u, xs) == xs[k];
  }

  lemma Product(a: real, b: real)
    requires 0.0 <= a && 0.0 <= b
    ensures 0.0 <= a * b
  {
  }

  lemma PartRange(width: real, u: real)
    requires 0.0 <= width && 0.0 <= u <= 1.0
    ensures 0.0 <= Part(width, u) <= width
  {
    Product(width, u);
    Product(width, 1.0 - u);
    assert width * (1.0 - u) == width - width * u;
  }

  lemma PartMonotone(width: real, u: real, v: real)
    requires 0.0 <= width && u <= v
    ensures Part(width, u) <= Part(width, v)
  {
    Product(width, v - u);
    assert width * (v - u) == width * v - width * u;
  }

  lemma UniformRange(u: Unit, lo: real, hi: real)
    requires lo <= hi
    ensures lo <= UniformOf(u, lo, hi) <= hi
  {
    PartRange(hi - lo, u);
  }

  /** A uniform draw lies at the drawn share of the way from one bound to the other. */
  lemma UniformAtShare(u: Unit, lo: real, hi: real)
    ensures UniformOf(0.0, lo, hi) == lo
    ensures UniformOf(u, lo, hi) - lo == u * (hi - lo)
  {
  }

  class Rng {
    const stream: Stream
    var cursor: nat

    /** `random.Random(seed)`: the start of the seed's stream. */
    constructor (stream: Stream)
      ensures this.stream == stream && cursor == 0
    {
      this.stream := stream;
      cursor := 0;
    }

    method Random() returns (u: Unit)
      modifies this
      ensures cursor == old(cursor) + 1 && u == stream(old(cursor))
    {
      u := stream(cursor);
      cursor := cursor + 1;
    }

    method Uniform(lo: real, hi: real) returns (r: real)
      modifies this
      ensures cursor == old(cursor) + 1 && r == UniformOf(stream(old(cursor)), lo, hi)
    {
      var u := Random();
      r := UniformOf(u, lo, hi);
    }

    method RandInt(lo: int, hi: int) returns (r: int)
      requires lo <= hi
      modifies this
      ensures cursor == old(cursor) + 1 && r == IntOf(stream(old(cursor)), lo, hi)
    {
      var u := Random();
      r := IntOf(u, lo, hi);
    }

    method Choice<T>(xs: seq<T>) returns (x: T)
      requires xs != []
      modifies this
      ensures cursor == old(cursor) + 1 && x == ChoiceOf(stream(old(cursor)), xs)
    {
      var u := Random();
      x := ChoiceOf(u, xs);
    }
  }
}
