/** Mean and population variance of a sequence of measurements
    (src/dummy_test.py). Python floats are modelled as exact reals. */
module Stats {
  import opened Wrappers

  /** Left-to-right running total, as the accumulation loops compute it. */
  function Sum(xs: seq<real>): real
  {
    if |xs| == 0 then 0.0 else Sum(xs[..|xs| - 1]) + xs[|xs| - 1]
  }

  /** The mean of a non-empty sequence: the value that, counted once per
      element, makes up the total. */
  function Average(xs: seq<real>): (r: real)
    requires |xs| > 0
    ensures r * |xs| as real == Sum(xs)
  {
    Ratio(Sum(xs), |xs|)
  }

  /** `calculate_average`: the total divided by the count, and
      `ZeroDivisionError` for the empty input. */
  function CalculateAverage(xs: seq<real>): (r: Result<real>)
    ensures r.Err? <==> |xs| == 0
    ensures r.Err? ==> r.error == ZeroDivisionError
    ensures r.Ok? ==> r.value * |xs| as real == Sum(xs)
  {
    if |xs| == 0 then Err(ZeroDivisionError) else Ok(Average(xs))
  }

  /** `total / count` for a positive count. */
  function Ratio(total: real, count: nat): (r: real)
    requires count > 0
    ensures r * count as real == total
  {
    total / count as real
  }

  /** `d ** 2`. */
  function Sq(d: real): real
  {
    d * d
  }

  /** A square is non-negative, and zero exactly for zero. */
  lemma Square(d: real)
    ensures Sq(d) >= 0.0
    ensures d != 0.0 ==> Sq(d) > 0.0
    ensures d == 0.0 ==> Sq(d) == 0.0
  {
    if d > 0.0 {
      calc { Sq(d); d * d; > 0.0 * d; 0.0; }
    } else if d < 0.0 {
      calc { Sq(d); d * d; (-d) * (-d); > 0.0 * (-d); 0.0; }
    } else {
      calc { Sq(d); 0.0 * 0.0; 0.0; }
    }
  }

  /** The running total of squared deviations from `m`, which no value can
      make negative. */
  function SquaredDeviations(xs: seq<real>, m: real): (r: real)
    ensures r >= 0.0
  {
    if |xs| == 0 then 0.0
    else
      Square(xs[|xs| - 1] - m);
      SquaredDeviations(xs[..|xs| - 1], m) + Sq(xs[|xs| - 1] - m)
  }

  /** `calculate_variance`: the population variance, 0 for the empty input;
      never negative. */
  function Variance(xs: seq<real>): (r: real)
    ensures r >= 0.0
  {
    if |xs| == 0 then 0.0 else SquaredDeviations(xs, Average(xs)) / |xs| as real
  }

  predicate Constant(xs: seq<real>) {
    forall i :: 0 <= i < |xs| ==> xs[i] == xs[0]
  }

  /** Bounds on every element bound the total. */
  lemma {:induction false} SumBounds(xs: seq<real>, lo: real, hi: real)
    requires forall i :: 0 <= i < |xs| ==> lo <= xs[i] <= hi
    ensures lo * |xs| as real <= Sum(xs) <= hi * |xs| as real
    decreases |xs|
  {
    if |xs| > 0 {
      var init := xs[..|xs| - 1];
      assert forall i :: 0 <= i < |init| ==> init[i] == xs[i];
      SumBounds(init, lo, hi);
      var m := |init| as real;
      assert Sum(xs) == Sum(init) + xs[|xs| - 1];
      assert |xs| as real == m + 1.0;
      calc {
        lo * |xs| as real;
        lo * (m + 1.0);
        lo * m + lo;
      <=
        Sum(init) + xs[|xs| - 1];
      }
      calc {
        Sum(init) + xs[|xs| - 1];
      <=
        hi * m + hi;
        hi * (m + 1.0);
        hi * |xs| as real;
      }
    }
  }

  /** The mean lies between any lower and upper bound of the values; in
      particular the mean of a constant sequence is that constant. */
  lemma AverageBounds(xs: seq<real>, lo: real, hi: real)
    requires |xs| > 0
    requires forall i :: 0 <= i < |xs| ==> lo <= xs[i] <= hi
    ensures lo <= Average(xs) <= hi
  {
    SumBounds(xs, lo, hi);
    var n := |xs| as real;
    assert Sum(xs) / n >= (lo * n) / n;
    assert Sum(xs) / n <= (hi * n) / n;
  }

  /** The demonstration in `main`: the average of 1..5 is 3. */
  lemma AverageOfOneToFive()
    ensures Average([1.0, 2.0, 3.0, 4.0, 5.0]) == 3.0
  {
    var xs := [1.0, 2.0, 3.0, 4.0, 5.0];
    assert xs[..4] == [1.0, 2.0, 3.0, 4.0];
    assert xs[..4][..3] == [1.0, 2.0, 3.0];
    assert xs[..4][..3][..2] == [1.0, 2.0];
    assert xs[..4][..3][..2][..1] == [1.0];
    assert Sum([1.0]) == 1.0;
    assert Sum([1.0, 2.0]) == 3.0;
    assert Sum([1.0, 2.0, 3.0]) == 6.0;
    assert Sum([1.0, 2.0, 3.0, 4.0]) == 10.0;
    assert Sum(xs) == 15.0;
  }

  /** Every deviation from `m` is zero exactly when the squared deviations
      add up to zero. */
  lemma {:induction false} SquaredDeviationsZero(xs: seq<real>, m: real)
    ensures SquaredDeviations(xs, m) == 0.0 <==> forall i :: 0 <= i < |xs| ==> xs[i] == m
    decreases |xs|
  {
    if |xs| > 0 {
      var init := xs[..|xs| - 1];
      SquaredDeviationsZero(init, m);
      Square(xs[|xs| - 1] - m);
      assert forall i :: 0 <= i < |init| ==> init[i] == xs[i];
    }
  }

  /** The variance is zero exactly when all values are equal. */
  lemma VarianceZeroIffConstant(xs: seq<real>)
    ensures Variance(xs) == 0.0 <==> Constant(xs)
  {
    if |xs| > 0 {
      var m := Average(xs);
      var n := |xs| as real;
      SquaredDeviationsZero(xs, m);
      assert Variance(xs) == 0.0 <==> SquaredDeviations(xs, m) == 0.0;
      if Constant(xs) {
        AverageBounds(xs, xs[0], xs[0]);
      }
      if forall i :: 0 <= i < |xs| ==> xs[i] == m {
        assert xs[0] == m;
      }
    }
  }
}
