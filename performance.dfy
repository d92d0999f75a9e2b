/**
 * Performance histories and difficulty levels, shared by the quiz engine and
 * the adaptive-difficulty helper. Scores are `real`s; floating-point rounding
 * is not modelled.
 */
module Performance {

  /** The three difficulty levels, ordered by `Rank`. */
  datatype Level = Beginner | Intermediate | Advanced {

    /** The name the application uses for the level. */
    function Name(): (r: string)
      ensures r == "Beginner" <==> this == Beginner
      ensures r == "Intermediate" <==> this == Intermediate
      ensures r == "Advanced" <==> this == Advanced
    {
      match this
      case Beginner => "Beginner"
      case Intermediate => "Intermediate"
      case Advanced => "Advanced"
    }

    /** Position in the order Beginner < Intermediate < Advanced. */
    function Rank(): nat
    {
      match this
      case Beginner => 0
      case Intermediate => 1
      case Advanced => 2
    }
  }

  /** The sum of the scores, accumulated left to right as Python's `sum` does. */
  function Sum(s: seq<real>): real
  {
    if s == [] then 0.0 else Sum(s[..|s| - 1]) + s[|s| - 1]
  }

  /** Appending a score adds it to the sum. */
  lemma SumAppend(s: seq<real>, x: real)
    ensures Sum(s + [x]) == Sum(s) + x
  {
    assert (s + [x])[..|s|] == s;
  }

  /** The arithmetic mean of a non-empty history. */
  function Mean(s: seq<real>): real
    requires |s| > 0
  {
    Sum(s) / (|s| as real)
  }

  /** Comparing the mean with a threshold is comparing the sum with `t * n`. */
  lemma MeanVersusThreshold(s: seq<real>, t: real)
    requires |s| > 0
    ensures Mean(s) >= t <==> Sum(s) >= t * (|s| as real)
    ensures Mean(s) > t <==> Sum(s) > t * (|s| as real)
  {
    var n := |s| as real;
    var m := Mean(s);
    assert Sum(s) == m * n;
    if m >= t {
      assert m * n >= t * n;
    } else {
      assert m * n < t * n;
    }
    if m > t {
      assert m * n > t * n;
    } else {
      assert m * n <= t * n;
    }
  }

  /** A history of scores in [0, 1] sums to a value in [0, its length]. */
  lemma {:induction false} SumBounds(s: seq<real>)
    requires forall i :: 0 <= i < |s| ==> 0.0 <= s[i] <= 1.0
    ensures 0.0 <= Sum(s) <= |s| as real
  {
    if s != [] {
      SumBounds(s[..|s| - 1]);
    }
  }
}
