/** The jitter estimate as a weighted sum of all differences seen. */
module JitterEstimate {
  import opened SlotStats

  /** The estimate after a list of samples, starting from the broker's zeros. */
  function Estimated(samples: seq<real>): Jitter {
    if |samples| == 0 then Jitter(0.0, 0.0)
    else Smoothed(Estimated(samples[..|samples| - 1]), samples[|samples| - 1])
  }

  /** Difference number `i` between neighbouring samples; the one before the first is 0. */
  function Difference(samples: seq<real>, i: nat): real
    requires i < |samples|
  {
    Distance(samples[i], if i == 0 then 0.0 else samples[i - 1])
  }

  function Power(k: nat): real {
    if k == 0 then 1.0 else (15.0 / 16.0) * Power(k - 1)
  }

  /** Sum over i < n of (1/16) (15/16)^(n-1-i) D(i), for n at most the number of samples. */
  function Weighted(samples: seq<real>, n: nat, k: nat): real
    requires k <= n <= |samples|
  {
    if k == 0 then 0.0
    else Weighted(samples, n, k - 1) + (1.0 / 16.0) * Power(n - k) * Difference(samples, k - 1)
  }

  lemma {:induction false} WeightedAges(samples: seq<real>, n: nat, k: nat)
    requires k <= n < |samples|
    ensures Weighted(samples, n + 1, k) == (15.0 / 16.0) * Weighted(samples, n, k)
    decreases k
  {
    if k == 0 {
    } else {
      WeightedAges(samples, n, k - 1);
      Age(Power(n - k), Difference(samples, k - 1));
      assert Power(n + 1 - k) == (15.0 / 16.0) * Power(n - k);
    }
  }

  lemma Age(p: real, d: real)
    ensures (1.0 / 16.0) * ((15.0 / 16.0) * p) * d == (15.0 / 16.0) * ((1.0 / 16.0) * p * d)
  {
  }

  lemma NewestWeighs(samples: seq<real>, n: nat)
    requires 0 < n <= |samples|
    ensures Weighted(samples, n, n)
         == (15.0 / 16.0) * Weighted(samples, n - 1, n - 1) + (1.0 / 16.0) * Difference(samples, n - 1)
  {
    WeightedAges(samples, n - 1, n - 1);
    assert Power(n - n) == 1.0;
    hide Difference;
  }

  lemma {:induction false} EstimateOfPrefix(samples: seq<real>, n: nat)
    requires n <= |samples|
    ensures Estimated(samples[..n]).value == Weighted(samples, n, n)
    ensures Estimated(samples[..n]).prev == if n == 0 then 0.0 else samples[n - 1]
    decreases n
  {
    if n == 0 {
    } else {
      assert samples[..n][..n - 1] == samples[..n - 1];
      EstimateOfPrefix(samples, n - 1);
      NewestWeighs(samples, n);
      hide Weighted;
    }
  }

  /** The recurrence is the exponentially weighted sum of the differences. */
  lemma JitterIsWeightedSum(samples: seq<real>)
    ensures Estimated(samples).value == Weighted(samples, |samples|, |samples|)
  {
    EstimateOfPrefix(samples, |samples|);
    assert samples[..|samples|] == samples;
  }

  /** The estimate is never negative and never above the largest difference. */
  lemma {:induction false} JitterBounded(samples: seq<real>, top: real)
    requires top >= 0.0 && forall i :: 0 <= i < |samples| ==> Difference(samples, i) <= top
    ensures 0.0 <= Estimated(samples).value <= top
    decreases |samples|
  {
    if |samples| == 0 {
    } else {
      var n := |samples| - 1;
      var before := samples[..n];
      forall i | 0 <= i < n
        ensures Difference(before, i) <= top
      {
        assert Difference(before, i) == Difference(samples, i);
      }
      JitterBounded(before, top);
      EstimateOfPrefix(samples, n);
      assert Difference(samples, n) <= top;
    }
  }
}
