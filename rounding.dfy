/** Exact-real stand-ins for the numeric helpers the generators use: Python's
    abs/max/min and round(x, places), which on exact reals
    gives the nearest multiple of 10^-places, a tie going to the even neighbour. */
module Rounding {

  /** Python's abs on an exact real. */
  function Abs(x: real): (r: real)
    ensures r >= 0.0 && (r == x || r == -x)
  {
    if x < 0.0 then -x else x
  }

  /** Python's max of two values, and the Arduino max macro on model_utils.h's reals. */
  function Max(a: real, b: real): (r: real)
    ensures r >= a && r >= b && (r == a || r == b)
  {
    if a >= b then a else b
  }

  /** Python's min of two values. */
  function Min(a: real, b: real): (r: real)
    ensures r <= a && r <= b && (r == a || r == b)
  {
    if a <= b then a else b
  }

  /** The integer nearest to y; a tie goes to the even neighbour (numpy's rint). */
  function RoundHalfEven(y: real): (n: int)
    ensures y - 0.5 <= n as real <= y + 0.5
  {
    var f := y.Floor;
    var frac := y - f as real;
    if frac < 0.5 then f
    else if frac > 0.5 then f + 1
    else if f % 2 == 0 then f
    else f + 1
  }

  /** x has at most `places` decimals. */
  predicate HasDecimals(x: real, places: nat)
    decreases places
  {
    if places == 0 then x.Floor as real == x
    else HasDecimals(x * 10.0, places - 1)
  }

  /** 10^n */
  function Pow10(n: nat): (p: real)
    ensures 1.0 <= p
  {
    if n == 0 then 1.0 else 10.0 * Pow10(n - 1)
  }

  /** round(x, places) on exact reals: the nearest multiple of 10^-places, a tie
      going to the even neighbour; the scaling is taken one decimal at a time. */
  function Round(x: real, places: nat): (r: real)
    ensures 0.0 <= x ==> 0.0 <= r
    decreases places
  {
    if places == 0 then RoundHalfEven(x) as real
    else Round(x * 10.0, places - 1) / 10.0
  }

  /** The rounded value has at most `places` decimals. */
  lemma {:induction false} RoundHasDecimals(x: real, places: nat)
    ensures HasDecimals(Round(x, places), places)
    decreases places
  {
    if places > 0 {
      RoundHasDecimals(x * 10.0, places - 1);
      assert Round(x, places) * 10.0 == Round(x * 10.0, places - 1);
    }
  }

  /** The rounded value lies within half a unit of the last kept decimal of x. */
  lemma {:induction false} RoundNear(x: real, places: nat)
    ensures x - 0.5 / Pow10(places) <= Round(x, places) <= x + 0.5 / Pow10(places)
    decreases places
  {
    if places > 0 {
      RoundNear(x * 10.0, places - 1);
      var e := 0.5 / Pow10(places - 1);
      assert 0.5 / Pow10(places) == e / 10.0;
    }
  }

  lemma RoundHalfEvenMonotone(x: real, y: real)
    requires x <= y
    ensures RoundHalfEven(x) <= RoundHalfEven(y)
  {
    var fx, fy := x.Floor, y.Floor;
    if fx < fy {
      assert RoundHalfEven(x) <= fx + 1 <= fy <= RoundHalfEven(y);
    }
  }

  lemma {:induction false} RoundMonotone(x: real, y: real, places: nat)
    requires x <= y
    ensures Round(x, places) <= Round(y, places)
    decreases places
  {
    if places == 0 {
      RoundHalfEvenMonotone(x, y);
    } else {
      RoundMonotone(x * 10.0, y * 10.0, places - 1);
    }
  }

  /** Rounding leaves a value that already has the requested precision unchanged. */
  lemma {:induction false} RoundFixes(x: real, places: nat)
    requires HasDecimals(x, places)
    ensures Round(x, places) == x
    decreases places
  {
    if places > 0 {
      RoundFixes(x * 10.0, places - 1);
    }
  }

  lemma RoundAtLeast(x: real, bound: real, places: nat)
    requires HasDecimals(bound, places) && bound <= x
    ensures bound <= Round(x, places)
  {
    RoundFixes(bound, places);
    RoundMonotone(bound, x, places);
  }

  lemma RoundAtMost(x: real, bound: real, places: nat)
    requires HasDecimals(bound, places) && x <= bound
    ensures Round(x, places) <= bound
  {
    RoundFixes(bound, places);
    RoundMonotone(x, bound, places);
  }
}
