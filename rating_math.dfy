/**
 * The arithmetic of the average-rating epics:
 * `arr.reduce((avg, cur) => avg + cur) / arr.length`. Ratings are exact reals here.
 * `reduce` without an initial value throws on an empty array, so the average of no
 * ratings is absent.
 */
module RatingMath {
  import opened Wrappers

  /** The left fold of `+` over the ratings, as `reduce` computes it. */
  function Sum(rs: seq<real>): real
  {
    if rs == [] then 0.0 else Sum(rs[..|rs| - 1]) + rs[|rs| - 1]
  }

  /** `getAverage(arr)`; `None` where `reduce` throws. */
  function Average(rs: seq<real>): (avg: Option<real>)
    ensures avg.None? <==> rs == []
    ensures avg.Some? ==> avg.value * (|rs| as real) == Sum(rs)
  {
    if rs == [] then None else Some(Sum(rs) / (|rs| as real))
  }

  /** The sum of a concatenation is the sum of the parts. */
  lemma {:induction false} SumAppend(a: seq<real>, b: seq<real>)
    ensures Sum(a + b) == Sum(a) + Sum(b)
    decreases |b|
  {
    if b == [] {
      assert a + b == a;
    } else {
      var init := b[..|b| - 1];
      assert (a + b)[..|a + b| - 1] == a + init;
      SumAppend(a, init);
    }
  }

  /** Reordering the ratings does not change their sum. */
  lemma {:induction false} SumPermutation(a: seq<real>, b: seq<real>)
    requires multiset(a) == multiset(b)
    ensures Sum(a) == Sum(b)
    decreases |a|
  {
    if a == [] {
      assert |b| == |multiset(b)| == 0;
    } else {
      var last := a[|a| - 1];
      var init := a[..|a| - 1];
      assert a == init + [last];
      assert last in multiset(b);
      var j :| 0 <= j < |b| && b[j] == last;
      var rest := b[..j] + b[j + 1..];
      assert b == b[..j] + [last] + b[j + 1..];
      assert multiset(a) == multiset(init) + multiset{last};
      assert multiset(b) == multiset(rest) + multiset{last};
      assert multiset(init) == multiset(a) - multiset{last} == multiset(b) - multiset{last} == multiset(rest);
      SumPermutation(init, rest);
      SumAppend(b[..j] + [last], b[j + 1..]);
      SumAppend(b[..j], [last]);
      SumAppend(b[..j], b[j + 1..]);
      assert Sum([last]) == last by {
        assert [last][..0] == [];
      }
    }
  }

  /** Every rating between `lo` and `hi` bounds the sum by `n * lo` and `n * hi`. */
  lemma {:induction false} SumBounds(rs: seq<real>, lo: real, hi: real)
    requires forall i :: 0 <= i < |rs| ==> lo <= rs[i] <= hi
    ensures (|rs| as real) * lo <= Sum(rs) <= (|rs| as real) * hi
  {
    if rs != [] {
      SumBounds(rs[..|rs| - 1], lo, hi);
    }
  }

  /** The average lies between the smallest and the largest admissible rating. */
  lemma AverageBounds(rs: seq<real>, lo: real, hi: real)
    requires rs != []
    requires forall i :: 0 <= i < |rs| ==> lo <= rs[i] <= hi
    ensures lo <= Average(rs).value <= hi
  {
    SumBounds(rs, lo, hi);
    var n := |rs| as real;
    var avg := Average(rs).value;
    assert (avg - lo) * n >= 0.0 && (hi - avg) * n >= 0.0;
  }

  /** The average does not depend on the order in which the ratings were collected. */
  lemma AverageIgnoresOrder(a: seq<real>, b: seq<real>)
    requires multiset(a) == multiset(b)
    ensures Average(a) == Average(b)
  {
    SumPermutation(a, b);
    assert |a| == |multiset(a)| == |multiset(b)| == |b|;
  }

  /**
   * The average of a concatenation weighs each part's average by its length: the mean
   * over several pages is the mean of all their ratings together.
   */
  lemma AverageOfConcat(a: seq<real>, b: seq<real>)
    requires a != [] && b != []
    ensures Average(a + b).value * ((|a| + |b|) as real)
         == Average(a).value * (|a| as real) + Average(b).value * (|b| as real)
  {
    SumAppend(a, b);
  }

  /** Collecting the same ratings twice leaves the average unchanged. */
  lemma AverageOfRepeat(rs: seq<real>)
    ensures Average(rs + rs) == Average(rs)
  {
    if rs != [] {
      SumAppend(rs, rs);
      var n := |rs| as real;
      var s := Sum(rs);
      assert Sum(rs + rs) == 2.0 * s;
      assert |rs + rs| as real == 2.0 * n;
      assert (2.0 * s) / (2.0 * n) == s / n;
    }
  }
}
