/**
 * The proportional split of the day's gas among the tanks: each tank gets
 * its normalized value's fraction of the sum, rounded to hundredths as
 * Python's `round(x, 2)` does, and nothing is allocated when the sum is not
 * positive.
 */
module Split {

  function Sum(xs: seq<real>): real {
    if xs == [] then 0.0 else Sum(xs[..|xs| - 1]) + xs[|xs| - 1]
  }

  // ---------------------------------------------------------------- rounding

  /** The integer nearest `y`, ties to the even one (Python's `round`). */
  function RoundHalfEven(y: real): (n: int)
    ensures -0.5 <= n as real - y <= 0.5
  {
    var f := y.Floor;
    var frac := y - f as real;
    if frac < 0.5 then f
    else if frac > 0.5 then f + 1
    else if f % 2 == 0 then f else f + 1
  }

  /** `round(x, 2)` on exact reals: the nearest multiple of 0.01, ties to even hundredths. */
  function Round2(x: real): (r: real)
    ensures -0.005 <= r - x <= 0.005
    ensures x >= 0.0 ==> r >= 0.0
  {
    RoundHalfEven(x * 100.0) as real / 100.0
  }

  /** A whole number of hundredths is already rounded. */
  lemma Round2Exact(k: int)
    ensures Round2(k as real / 100.0) == k as real / 100.0
  {
    var y := k as real / 100.0 * 100.0;
    assert y == k as real;
    assert y.Floor == k;
  }

  // ------------------------------------------------------------------ shares

  /** `norm / norm_sum * total_gas_today`: one tank's unrounded share. */
  function Share(norm: real, normSum: real, total: real): real
    requires normSum != 0.0
  {
    norm / normSum * total
  }

  /** The tanks' unrounded shares, in tank order. */
  function Shares(norms: seq<real>, total: real): (r: seq<real>)
    requires Sum(norms) != 0.0
    ensures |r| == |norms|
  {
    seq(|norms|, i requires 0 <= i < |norms| => Share(norms[i], Sum(norms), total))
  }

  /** The volume the analyzer reports for one tank. */
  function Volume(norm: real, normSum: real, total: real): real {
    if normSum > 0.0 then Round2(Share(norm, normSum, total)) else 0.0
  }

  /** The reported volumes, in tank order. */
  function Volumes(norms: seq<real>, total: real): (r: seq<real>)
    ensures |r| == |norms|
  {
    seq(|norms|, i requires 0 <= i < |norms| => Volume(norms[i], Sum(norms), total))
  }

  lemma {:induction false} SumScaled(xs: seq<real>, ys: seq<real>, c: real)
    requires |ys| == |xs|
    requires forall i :: 0 <= i < |xs| ==> ys[i] == xs[i] * c
    ensures Sum(ys) == Sum(xs) * c
    decreases |xs|
  {
    if xs != [] {
      var n := |xs| - 1;
      SumScaled(xs[..n], ys[..n], c);
    }
  }

  /** The unrounded shares add up to exactly the day's total. */
  lemma SharesConserve(norms: seq<real>, total: real)
    requires Sum(norms) > 0.0
    ensures Sum(Shares(norms, total)) == total
  {
    var s := Sum(norms);
    var shares := Shares(norms, total);
    forall i | 0 <= i < |norms|
      ensures shares[i] == norms[i] * (total / s)
    {
      assert shares[i] == norms[i] / s * total;
    }
    SumScaled(norms, shares, total / s);
  }

  /** Every share is non-negative when the curve values and the total are. */
  lemma SharesNonNegative(norms: seq<real>, total: real)
    requires Sum(norms) > 0.0 && total >= 0.0
    requires forall i :: 0 <= i < |norms| ==> norms[i] >= 0.0
    ensures forall i :: 0 <= i < |norms| ==> Shares(norms, total)[i] >= 0.0 && Volumes(norms, total)[i] >= 0.0
  {
    forall i | 0 <= i < |norms|
      ensures Shares(norms, total)[i] >= 0.0 && Volumes(norms, total)[i] >= 0.0
    {
      ShareNonNegative(norms[i], Sum(norms), total);
      assert Shares(norms, total)[i] == Share(norms[i], Sum(norms), total);
      assert Volumes(norms, total)[i] == Round2(Share(norms[i], Sum(norms), total));
    }
  }

  lemma ShareNonNegative(norm: real, normSum: real, total: real)
    requires norm >= 0.0 && normSum > 0.0 && total >= 0.0
    ensures Share(norm, normSum, total) >= 0.0
  {
    var f := norm / normSum;
    assert f >= 0.0;
    assert f * total >= 0.0;
  }

  /** No yield signal, no allocation: every volume is 0 whatever the total. */
  lemma ZeroSignal(norms: seq<real>, total: real)
    requires Sum(norms) <= 0.0
    ensures forall i :: 0 <= i < |norms| ==> Volumes(norms, total)[i] == 0.0
  {
  }

  lemma {:induction false} SumClose(xs: seq<real>, ys: seq<real>)
    requires |ys| == |xs|
    requires forall i :: 0 <= i < |xs| ==> -0.005 <= ys[i] - xs[i] <= 0.005
    ensures -0.005 * |xs| as real <= Sum(ys) - Sum(xs) <= 0.005 * |xs| as real
    decreases |xs|
  {
    if xs != [] {
      var n := |xs| - 1;
      SumClose(xs[..n], ys[..n]);
      assert Sum(ys) - Sum(xs) == Sum(ys[..n]) - Sum(xs[..n]) + (ys[n] - xs[n]);
    }
  }

  /**
   * The rounded volumes add up to the day's total within half a hundredth
   * per tank.
   */
  lemma VolumesNearTotal(norms: seq<real>, total: real)
    requires Sum(norms) > 0.0
    ensures -0.005 * |norms| as real <= Sum(Volumes(norms, total)) - total <= 0.005 * |norms| as real
  {
    var shares := Shares(norms, total);
    var volumes := Volumes(norms, total);
    forall i | 0 <= i < |norms|
      ensures -0.005 <= volumes[i] - shares[i] <= 0.005
    {
      RoundedShare(norms, total, i);
    }
    SumClose(shares, volumes);
    SharesConserve(norms, total);
  }

  lemma RoundedShare(norms: seq<real>, total: real, i: int)
    requires Sum(norms) > 0.0 && 0 <= i < |norms|
    ensures -0.005 <= Volumes(norms, total)[i] - Shares(norms, total)[i] <= 0.005
  {
    var x := Shares(norms, total)[i];
    assert Volumes(norms, total)[i] == Round2(x);
  }

  /** Tanks at 0.4 and 0.1 sharing 500: 400.00 and 100.00. */
  lemma SplitExample()
    ensures Volumes([0.4, 0.1], 500.0) == [400.0, 100.0]
  {
    var norms := [0.4, 0.1];
    assert Sum(norms) == 0.5 by {
      assert norms[..1] == [0.4];
      assert [0.4][..0] == [];
    }
    Round2Exact(40000);
    Round2Exact(10000);
    assert Share(0.4, 0.5, 500.0) == 40000 as real / 100.0;
    assert Share(0.1, 0.5, 500.0) == 10000 as real / 100.0;
  }
}
