/** The shared pseudorandom stream of the generators, as a caller-supplied
    sequence of raw draws read through a cursor. Each numpy call takes the next
    raw draw and maps it to its distribution. */
module Draws {
  import opened Rounding

  /** A value computed from the draws, with the index of the next unread draw. */
  datatype Drawn<T> = Drawn(value: T, next: nat)

  /** The distribution of one numpy draw, by its parameters. */
  datatype Dist =
    | Normal(loc: real, scale: real)    // np.random.normal(loc, scale)
    | Uniform(low: real, high: real)    // np.random.uniform(low, high)
    | Exponential(scale: real)          // np.random.exponential(scale)

  /** The value `dist` yields for the raw draw x: a standard-normal z for Normal,
      a unit value u in [0, 1) for Uniform, a standard-exponential e for Exponential. */
  function Sample(dist: Dist, x: real): real
  {
    match dist
    case Normal(loc, scale) => loc + scale * x
    case Uniform(low, high) => low + (high - low) * x
    case Exponential(scale) => scale * x
  }

  /** The mean of the distribution. */
  function Mean(dist: Dist): real
  {
    match dist
    case Normal(loc, _) => loc
    case Uniform(low, high) => (low + high) / 2.0
    case Exponential(scale) => scale
  }

  lemma MulNonNegative(a: real, b: real)
    requires 0.0 <= a && 0.0 <= b
    ensures 0.0 <= a * b
  {
  }

  lemma UniformSampleWithin(low: real, high: real, u: real)
    requires low <= high && 0.0 <= u < 1.0
    ensures low <= Sample(Uniform(low, high), u) <= high
  {
    MulNonNegative(high - low, u);
    MulNonNegative(high - low, 1.0 - u);
  }

  /** np.random.choice over k equally likely options, decided by the unit draw u:
      option i covers [i / k, (i + 1) / k); a draw outside [0, 1) is clamped. */
  function UniformIndex(k: nat, u: real): (i: nat)
    requires k > 0
    ensures i < k
  {
    var j := (u * k as real).Floor;
    if j < 0 then 0 else if j >= k then k - 1 else j
  }

  lemma ScaledBounds(k: nat, i: nat, u: real)
    requires 0 < k && i < k
    requires i as real / k as real <= u < (i + 1) as real / k as real
    ensures i as real <= u * k as real < (i + 1) as real
  {
    var kr := k as real;
    var lo, hi := i as real / kr, (i + 1) as real / kr;
    assert lo * kr == i as real && hi * kr == (i + 1) as real;
    MulNonNegative(u - lo, kr);
    assert (hi - u) * kr > 0.0;
  }

  lemma UniformIndexInverse(k: nat, i: nat, u: real)
    requires 0 < k && i < k
    requires i as real / k as real <= u < (i + 1) as real / k as real
    ensures UniformIndex(k, u) == i
  {
    ScaledBounds(k, i, u);
  }

  /** The n draws of d from index `at` on, and the index after them. */
  function Window(d: nat -> real, at: nat, n: nat): (r: Drawn<seq<real>>)
    ensures |r.value| == n && r.next == at + n
    ensures forall i :: 0 <= i < n ==> r.value[i] == d(at + i)
  {
    Drawn(seq(n, i requires 0 <= i < n => d(at + i)), at + n)
  }

  class Stream {
    /** The raw draws of the generator, in the order they are produced. */
    const source: nat -> real
    /** The index of the next unread draw. */
    var cursor: nat

    constructor (source: nat -> real, start: nat)
      ensures this.source == source && cursor == start
    {
      this.source := source;
      cursor := start;
    }

    /** The next raw draw; np.random.random() returns it as it is. */
    method Next() returns (u: real)
      modifies this
      ensures u == source(old(cursor)) && cursor == old(cursor) + 1
    {
      u := source(cursor);
      cursor := cursor + 1;
    }

    /** One draw from `dist`. */
    method Draw(dist: Dist) returns (x: real)
      modifies this
      ensures x == Sample(dist, source(old(cursor))) && cursor == old(cursor) + 1
    {
      x := Sample(dist, source(cursor));
      cursor := cursor + 1;
    }

    /** np.random.choice over k equally likely options: the index chosen. */
    method Choice(k: nat) returns (i: nat)
      requires k > 0
      modifies this
      ensures i == UniformIndex(k, source(old(cursor))) && cursor == old(cursor) + 1
    {
      i := UniformIndex(k, source(cursor));
      cursor := cursor + 1;
    }

    /** n raw draws at once, as np.random.choice(options, n) takes them. */
    method NextMany(n: nat) returns (us: seq<real>)
      modifies this
      ensures Drawn(us, cursor) == Window(source, old(cursor), n)
    {
      var src, start := source, cursor;
      us := seq(n, i requires 0 <= i < n => src(start + i));
      cursor := cursor + n;
    }
  }
}
