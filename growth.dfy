/** The closed-form compound-growth projection shared by both simulators:
    the amount after `k` periods is `P * (1 + r)^k`, computed from the
    principal every time rather than carried forward. */
module Growth {

  /** `x` raised to a natural power, as Python's `x ** n` for an integer `n`. */
  function Pow(x: real, n: nat): real
    decreases n
  {
    if n == 0 then 1.0 else x * Pow(x, n - 1)
  }

  /** The amount after `k` periods: `P * (1 + r) ** k`. */
  function Amount(P: real, r: real, k: nat): real
  {
    P * Pow(1.0 + r, k)
  }

  /** Every entry of `amounts` is the closed form for its index. */
  predicate IsGrowthSeries(amounts: seq<real>, P: real, r: real)
  {
    forall k :: 0 <= k < |amounts| ==> amounts[k] == Amount(P, r, k)
  }

  /** The iterative reference: start from `P` and multiply the previous
      amount by `1 + r` once per period. */
  function Compounded(P: real, r: real, n: nat): (s: seq<real>)
    ensures |s| == n + 1
    ensures s[0] == P
    decreases n
  {
    if n == 0 then [P]
    else
      var prev := Compounded(P, r, n - 1);
      prev + [prev[n - 1] * (1.0 + r)]
  }

  lemma {:induction false} PowOfOne(n: nat)
    ensures Pow(1.0, n) == 1.0
    decreases n
  {
    if n > 0 {
      PowOfOne(n - 1);
    }
  }

  /** The closed form after `k + 1` periods is the one after `k` times `1 + r`. */
  lemma AmountStep(P: real, r: real, k: nat)
    ensures Amount(P, r, k + 1) == Amount(P, r, k) * (1.0 + r)
  {
    var x := 1.0 + r;
    assert Pow(x, k + 1) == x * Pow(x, k);
  }

  /** Each period of a closed-form series is the previous one times `1 + r`. */
  lemma GrowthRatio(amounts: seq<real>, P: real, r: real, k: nat)
    requires IsGrowthSeries(amounts, P, r)
    requires k + 1 < |amounts|
    ensures amounts[k + 1] == amounts[k] * (1.0 + r)
  {
    AmountStep(P, r, k);
  }

  /** With a zero rate the series is flat at the principal. */
  lemma ZeroRateIsFlat(amounts: seq<real>, P: real)
    requires IsGrowthSeries(amounts, P, 0.0)
    ensures forall k :: 0 <= k < |amounts| ==> amounts[k] == P
  {
    forall k | 0 <= k < |amounts|
      ensures amounts[k] == P
    {
      PowOfOne(k);
    }
  }

  /** Recomputing from the principal and carrying the previous amount forward
      give the same series. */
  lemma {:induction false} CompoundedIsClosedForm(P: real, r: real, n: nat)
    ensures IsGrowthSeries(Compounded(P, r, n), P, r)
    decreases n
  {
    if n == 0 {
      assert Amount(P, r, 0) == P * 1.0;
    } else {
      CompoundedIsClosedForm(P, r, n - 1);
      var prev := Compounded(P, r, n - 1);
      var s := Compounded(P, r, n);
      forall k | 0 <= k < |s|
        ensures s[k] == Amount(P, r, k)
      {
        if k < n {
          assert s[k] == prev[k];
        } else {
          assert s[k] == prev[n - 1] * (1.0 + r);
          AmountStep(P, r, n - 1);
        }
      }
    }
  }

  /** A closed-form series of `n + 1` amounts is exactly the compounded one. */
  lemma ClosedFormIsCompounded(amounts: seq<real>, P: real, r: real, n: nat)
    requires IsGrowthSeries(amounts, P, r)
    requires |amounts| == n + 1
    ensures amounts == Compounded(P, r, n)
  {
    var c := Compounded(P, r, n);
    CompoundedIsClosedForm(P, r, n);
    assert forall k :: 0 <= k < |c| ==> amounts[k] == c[k];
  }
}
