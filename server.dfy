/**
 * Where the server places a newly spawned marble: `max` lanes of equal width
 * across the strip from `-4.5` to `4.5`, and the `i`-th marble at the centre
 * of the `i`-th lane.
 */
module Server {

  /** The type of the player counters. */
  type U8 = n: int | 0 <= n < 256

  /** An `f32` result that is either finite or, after a division by zero,
      positive infinity. */
  datatype Extended = Finite(value: real) | PositiveInfinity

  const RANGE_START: real := -4.5
  const RANGE_END: real := 4.5

  /** The centre of lane `i` of `max`.  With `max == 0` the lane width is
      `9 / 0`, positive infinity, and so is the result. */
  function DistributeSpace(max: U8, i: U8): (r: Extended)
    ensures r.PositiveInfinity? <==> max == 0
  {
    if max == 0 then PositiveInfinity
    else
      var rangeWidth := RANGE_END - RANGE_START;
      var subdivisionWidth := rangeWidth / (max as real);
      Finite(RANGE_START + (i as real + 0.5) * subdivisionWidth)
  }

  /** Every one of the `max` lanes lies strictly inside the strip. */
  lemma LanesInsideStrip(max: U8, i: U8)
    requires i < max
    ensures var r := DistributeSpace(max, i);
      r.Finite? && RANGE_START < r.value < RANGE_END
  {
    var w := 9.0 / (max as real);
    assert w * (max as real) == 9.0;
    assert (i as real + 0.5) * w > 0.0;
    assert (i as real + 0.5) * w < (max as real) * w;
  }

  /** Neighbouring lanes are exactly one lane width apart. */
  lemma LanesEvenlySpaced(max: U8, i: U8)
    requires max > 0 && i < 255
    ensures DistributeSpace(max, i + 1).value - DistributeSpace(max, i).value == 9.0 / (max as real)
  {
  }

  /** Placement is strictly increasing in the marble's number. */
  lemma LanesIncreasing(max: U8, i: U8, j: U8)
    requires max > 0 && i < j
    ensures DistributeSpace(max, i).value < DistributeSpace(max, j).value
  {
    var w := 9.0 / (max as real);
    assert w > 0.0;
    assert (j as real + 0.5) * w - (i as real + 0.5) * w == (j - i) as real * w;
  }

  /** The lanes are symmetric about the middle of the strip; a single lane
      sits in the middle. */
  lemma LanesSymmetric(max: U8, i: U8)
    requires i < max
    ensures DistributeSpace(max, i).value == -DistributeSpace(max, max - 1 - i).value
    ensures max == 1 ==> DistributeSpace(max, i).value == 0.0
  {
    var w := 9.0 / (max as real);
    assert w * (max as real) == 9.0;
    assert (i as real + 0.5) * w + ((max - 1 - i) as real + 0.5) * w == (max as real) * w;
  }
}
