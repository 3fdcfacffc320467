/** The read-time estimate: `round(wordCount / 225)` minutes, computed exactly
    in integers. */
module ReadTime {

  /** Reading speed the plugins assume, in words per minute. */
  const WordsPerMinute: nat := 225

  /** round(wordCount / 225) as the integer (wordCount + 112) / 225. */
  function Minutes(wordCount: nat): (m: nat)
    ensures -(WordsPerMinute as int) < 2 * (wordCount - WordsPerMinute * m) < WordsPerMinute
  {
    (wordCount + 112) / WordsPerMinute
  }

  /** PHP's `round` on a non-negative number: halves go away from zero. */
  function RoundHalfUp(x: real): int
    requires x >= 0.0
  {
    (x + 0.5).Floor
  }

  lemma FloorIs(x: real, k: int)
    requires k as real <= x < k as real + 1.0
    ensures x.Floor == k
  {
  }

  /** The integer formula agrees with rounding the exact quotient. */
  lemma MinutesIsRounding(wordCount: nat)
    ensures Minutes(wordCount) == RoundHalfUp(wordCount as real / 225.0)
  {
    var m := Minutes(wordCount);
    var x := wordCount as real / 225.0;
    assert 225 * m <= wordCount + 112 < 225 * m + 225;
    assert (225 * m) as real <= wordCount as real + 112.0;
    assert wordCount as real + 112.0 <= (225 * m) as real + 224.0;
    assert x + 0.5 == (wordCount as real + 112.5) / 225.0;
    FloorIs(x + 0.5, m);
  }

  /** The quotient is never exactly halfway between two integers, so every
      rounding policy (half up, half even, half away from zero) gives the same
      read time. */
  lemma NoTie(wordCount: nat, k: int)
    ensures wordCount as real / 225.0 != k as real + 0.5
  {
    var d := wordCount - WordsPerMinute * k;
    assert 2 * d != 225;
    assert HalfwayMeansOdd: wordCount as real / 225.0 == k as real + 0.5 ==> (2 * d) as real == 225.0 by {
      var x := wordCount as real / 225.0;
      assert wordCount as real == 225.0 * x;
      assert (2 * d) as real == 2.0 * wordCount as real - 450.0 * k as real;
    }
  }

  /** The estimate is the unique integer nearest to wordCount / 225. */
  lemma MinutesIsNearest(wordCount: nat, k: int)
    requires k != Minutes(wordCount)
    ensures Abs(wordCount - WordsPerMinute * k) > Abs(wordCount - WordsPerMinute * Minutes(wordCount))
  {
  }

  function Abs(x: int): nat {
    if x < 0 then -x else x
  }

  /** More words never mean a shorter estimate. */
  lemma {:induction false} MinutesMonotone(a: nat, b: nat)
    requires a <= b
    ensures Minutes(a) <= Minutes(b)
  {
    assert (a + 112) / 225 <= (b + 112) / 225 by {
      var qa, qb := (a + 112) / 225, (b + 112) / 225;
      assert 225 * qa <= a + 112 <= b + 112 < 225 * qb + 225;
    }
  }

  /** Boundary values: nothing up to 112 words, one minute at 113 and at 225
      words, two minutes from 338 words. */
  lemma MinutesBoundaries(wordCount: nat)
    ensures wordCount <= 112 ==> Minutes(wordCount) == 0
    ensures 113 <= wordCount <= 337 ==> Minutes(wordCount) == 1
    ensures Minutes(225) == 1 && Minutes(0) == 0 && Minutes(338) == 2
  {
  }
}
