/** The magnitude encoders of static/js/logic.js: getColor, the strict-greater-than threshold ladder
    from a magnitude to one of six fill colours, and getRadius, the linear scaling of a magnitude to
    a circle radius in metres. Magnitudes are modelled as exact reals; JavaScript's NaN, which every
    comparison of the ladder rejects so that getColor(NaN) is the lightest colour, has no counterpart. */
module Encoder {

  /** The six fill colours, from the lowest magnitude bucket (index 0) to the highest (index 5). */
  const Ladder: seq<string> := ["#ffcca5", "#ffb37e", "#ff9143", "#ff6f08", "#cc5500", "#a54500"]

  /** getColor: the first threshold, from the highest down, that the magnitude strictly exceeds. */
  function Color(d: real): (c: string)
    ensures c in Ladder
  {
    if d > 5.0 then "#a54500"
    else if d > 4.0 then "#cc5500"
    else if d > 3.0 then "#ff6f08"
    else if d > 2.0 then "#ff9143"
    else if d > 1.0 then "#ffb37e"
    else "#ffcca5"
  }

  /** The least integer not below x. */
  function Ceiling(x: real): (n: int)
    ensures (n as real) - 1.0 < x <= n as real
  {
    -((-x).Floor)
  }

  /** Bucket k as an interval of magnitudes: (-inf, 1] for k = 0, (k, k + 1] for 1 <= k <= 4, and
      (5, +inf) for k = 5. */
  predicate InBucket(k: nat, d: real) {
    && k < |Ladder|
    && (k > 0 ==> (k as real) < d)
    && (k < |Ladder| - 1 ==> d <= (k + 1) as real)
  }

  /** The bucket of a magnitude, defined independently of the ladder: one below the ceiling of the
      magnitude, clamped to the six buckets. */
  function Bucket(d: real): (k: nat)
    ensures InBucket(k, d)
  {
    var c := Ceiling(d);
    if c <= 1 then 0 else if c >= 6 then 5 else c - 1
  }

  /** The six colours are distinct, so a colour names its bucket. */
  lemma LadderDistinct()
    ensures forall i, j :: 0 <= i < j < |Ladder| ==> Ladder[i] != Ladder[j]
  {
  }

  /** getColor gives the colour of the bucket the magnitude lies in. */
  lemma ColorOfBucket(d: real)
    ensures Color(d) == Ladder[Bucket(d)]
  {
  }

  /** The six intervals are disjoint and cover the real line: a magnitude lies in bucket k exactly
      when k is its bucket, and then getColor gives exactly colour k. */
  lemma BucketsPartition(d: real, k: nat)
    ensures InBucket(k, d) <==> k == Bucket(d)
    ensures InBucket(k, d) <==> k < |Ladder| && Color(d) == Ladder[k]
  {
  }

  /** Boundary values belong to the lower bucket, because every test of the ladder is strict. */
  lemma ColorBoundaries()
    ensures Color(5.0) == "#cc5500" && Color(4.0) == "#ff6f08" && Color(3.0) == "#ff9143"
    ensures Color(2.0) == "#ffb37e" && Color(1.0) == "#ffcca5"
    ensures Color(5.1) == "#a54500" && Color(1.1) == "#ffb37e" && Color(-3.0) == "#ffcca5"
  {
  }

  /** Every magnitude up to 1, zero and negatives included, gets the lightest colour, and every
      magnitude above 5 the darkest. */
  lemma ColorTails(d: real)
    ensures d <= 1.0 ==> Color(d) == Ladder[0]
    ensures d > 5.0 ==> Color(d) == Ladder[|Ladder| - 1]
  {
  }

  /** The colour is monotone in magnitude: a larger magnitude never gets a lower rung of the ladder. */
  lemma ColorMonotone(a: real, b: real, i: nat, j: nat)
    requires a <= b
    requires i < |Ladder| && j < |Ladder|
    requires Color(a) == Ladder[i] && Color(b) == Ladder[j]
    ensures i <= j
  {
  }

  /** Between two consecutive integers the colour does not change: every threshold of the ladder is
      an integer and every test strict, so (g, g + 1] lies inside one bucket. */
  lemma ColorConstantBetweenIntegers(g: int, m: real)
    requires (g as real) < m <= (g + 1) as real
    ensures Color(m) == Color((g + 1) as real)
  {
    if g >= 5 {
    } else if g <= 0 {
    } else {
      assert 1 <= g <= 4;
    }
  }

  /** Metres of radius per unit of magnitude. */
  const RadiusPerMagnitude: real := 25000.0

  /** getRadius: the magnitude scaled by 25000, with no clamping. */
  function Radius(value: real): (r: real)
    ensures r / RadiusPerMagnitude == value
    ensures r < 0.0 <==> value < 0.0
    ensures r == 0.0 <==> value == 0.0
  {
    value * RadiusPerMagnitude
  }

  /** The radius is proportional to the magnitude: additive and homogeneous. */
  lemma RadiusLinear(a: real, b: real, t: real)
    ensures Radius(a + b) == Radius(a) + Radius(b)
    ensures Radius(t * a) == t * Radius(a)
  {
  }

  /** The radius is strictly increasing in the magnitude. */
  lemma RadiusStrictlyIncreasing(a: real, b: real)
    requires a < b
    ensures Radius(a) < Radius(b)
  {
  }
}
