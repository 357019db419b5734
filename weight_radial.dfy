/** Radial re-weighting of visibilities (oskar_imager_weight_radial): every
    weight is scaled by the length of its baseline in the uv plane. The square
    root is a parameter; the lemmas state what follows from its contract. */
module WeightRadial {
  import opened Common

  /** The contract of the square root: non-negative, and it squares back. */
  ghost predicate IsSqrt(sqrt: real -> real)
  {
    forall x :: x >= 0.0 ==> sqrt(x) >= 0.0 && sqrt(x) * sqrt(x) == x
  }

  /** The weight of one point: the input weight times sqrt(u^2 + v^2). */
  function RadialWeight(sqrt: real -> real, u: real, v: real, w: real): real
  {
    w * sqrt(u * u + v * v)
  }

  /** The first n radial weights of the columns uu, vv and win. */
  function RadialWeights(sqrt: real -> real, uu: seq<real>, vv: seq<real>, win: seq<real>, n: nat): (r: seq<real>)
    requires n <= |uu| && n <= |vv| && n <= |win|
    ensures |r| == n
    ensures forall i :: 0 <= i < n ==> r[i] == RadialWeight(sqrt, uu[i], vv[i], win[i])
  {
    seq(n, i requires 0 <= i < n => RadialWeight(sqrt, uu[i], vv[i], win[i]))
  }

  lemma SquareNonNegative(x: real)
    ensures x * x >= 0.0
  {
    if x < 0.0 {
      assert x * x == (-x) * (-x);
    }
  }

  /** The radial weight squared is w^2 (u^2 + v^2): it scales w by the
      baseline length. */
  lemma RadialWeightSquared(sqrt: real -> real, u: real, v: real, w: real)
    requires IsSqrt(sqrt)
    ensures RadialWeight(sqrt, u, v, w) * RadialWeight(sqrt, u, v, w) == w * w * (u * u + v * v)
  {
    SquareNonNegative(u);
    SquareNonNegative(v);
    var s := sqrt(u * u + v * v);
    assert s * s == u * u + v * v;
    calc {
      (w * s) * (w * s);
      w * w * (s * s);
    }
  }

  /** A point at the origin of the uv plane gets weight 0. */
  lemma OriginGetsZero(sqrt: real -> real, w: real)
    requires IsSqrt(sqrt)
    ensures RadialWeight(sqrt, 0.0, 0.0, w) == 0.0
  {
    SquareRootUnique(sqrt(0.0), 0.0);
  }

  /** Non-negative input weights give non-negative output weights. */
  lemma NonNegativeWeights(sqrt: real -> real, uu: seq<real>, vv: seq<real>, win: seq<real>, n: nat)
    requires IsSqrt(sqrt) && n <= |uu| && n <= |vv| && n <= |win|
    requires forall i :: 0 <= i < n ==> win[i] >= 0.0
    ensures forall i :: 0 <= i < n ==> RadialWeights(sqrt, uu, vv, win, n)[i] >= 0.0
  {
    forall i | 0 <= i < n
      ensures RadialWeights(sqrt, uu, vv, win, n)[i] >= 0.0
    {
      SquareNonNegative(uu[i]);
      SquareNonNegative(vv[i]);
      assert sqrt(uu[i] * uu[i] + vv[i] * vv[i]) >= 0.0;
    }
  }

  /** The weight grows linearly with the baseline: scaling u and v by k
      scales the weight by |k|. */
  lemma RadialWeightScales(sqrt: real -> real, k: real, u: real, v: real, w: real)
    requires IsSqrt(sqrt)
    ensures RadialWeight(sqrt, k * u, k * v, w) == Abs(k) * RadialWeight(sqrt, u, v, w)
  {
    var x := u * u + v * v;
    SquareNonNegative(u);
    SquareNonNegative(v);
    SquareNonNegative(k);
    assert (k * u) * (k * u) + (k * v) * (k * v) == (k * k) * x;
    var s := sqrt(x);
    var t := Abs(k) * s;
    assert t >= 0.0 by {
      assert s >= 0.0;
    }
    assert t * t == (k * k) * x by {
      assert t * t == (Abs(k) * Abs(k)) * (s * s);
      assert Abs(k) * Abs(k) == k * k;
    }
    assert (k * k) * x >= 0.0;
    var a := (k * u) * (k * u) + (k * v) * (k * v);
    assert sqrt(a) >= 0.0 && sqrt(a) * sqrt(a) == a;
    SquareRootUnique(sqrt(a), t);
    calc {
      RadialWeight(sqrt, k * u, k * v, w);
      w * t;
      Abs(k) * (w * s);
    }
  }

  lemma SquareRootUnique(s: real, r: real)
    requires s >= 0.0 && r >= 0.0 && s * s == r * r
    ensures s == r
  {
    assert (s - r) * (s + r) == 0.0;
    if s + r > 0.0 {
      ZeroFactor(s - r, s + r);
    }
  }

  lemma ZeroFactor(a: real, b: real)
    requires b != 0.0 && a * b == 0.0
    ensures a == 0.0
  {
    assert a == (a * b) / b;
  }

  /** oskar_imager_weight_radial. With a set status nothing happens; otherwise
      the output buffer is resized to `numPoints` and holds the radial weights
      of the first `numPoints` input rows. Only the output buffer changes. */
  method WeightRadial(status: Status, numPoints: nat, uu: array<real>, vv: array<real>,
                      weightIn: array<real>, weightOut: RealBuffer, sqrt: real -> real)
    requires numPoints <= uu.Length && numPoints <= vv.Length && numPoints <= weightIn.Length
    modifies weightOut
    ensures status.IsError() ==> weightOut.data == old(weightOut.data)
    ensures !status.IsError() ==>
      && fresh(weightOut.data)
      && weightOut.data[..] == RadialWeights(sqrt, uu[..], vv[..], weightIn[..], numPoints)
  {
    if status.IsError() { return; }
    weightOut.Realloc(numPoints);
    var out := weightOut.data;
    var i := 0;
    while i < numPoints
      invariant 0 <= i <= numPoints
      invariant out == weightOut.data && out.Length == numPoints && fresh(out)
      invariant forall j :: 0 <= j < i ==> out[j] == RadialWeight(sqrt, uu[j], vv[j], weightIn[j])
    {
      var x := weightIn[i] * sqrt(uu[i] * uu[i] + vv[i] * vv[i]);
      assert x == RadialWeight(sqrt, uu[i], vv[i], weightIn[i]);
      out[i] := x;
      i := i + 1;
    }
  }
}
