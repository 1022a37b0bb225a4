/** The d3 pieces the charts rely on, in exact real arithmetic: a linear
    (or time) scale, its inverse, the rescaling a zoom transform applies to
    it, and the minimum and maximum of a sequence. */
module Scales {

  /** A continuous scale with domain [d0, d1] and range [r0, r1]. A time
      scale is the same thing over millisecond timestamps. */
  datatype Linear = Linear(d0: real, d1: real, r0: real, r1: real)

  /** Where v lies in [a, b] as a fraction; a one-point interval puts
      everything at one half, as d3 does. */
  function Normalize(a: real, b: real, v: real): real
  {
    if b - a != 0.0 then (v - a) / (b - a) else 0.5
  }

  /** d3's number interpolator. */
  function Interpolate(a: real, b: real, t: real): real
  {
    a * (1.0 - t) + b * t
  }

  /** Applying the scale to a domain value gives a pixel. */
  function Apply(s: Linear, v: real): real
  {
    Interpolate(s.r0, s.r1, Normalize(s.d0, s.d1, v))
  }

  /** Mapping a pixel back to the domain. */
  function Invert(s: Linear, p: real): real
  {
    Interpolate(s.d0, s.d1, Normalize(s.r0, s.r1, p))
  }

  lemma ApplyEndpoints(s: Linear)
    requires s.d0 != s.d1
    ensures Apply(s, s.d0) == s.r0 && Apply(s, s.d1) == s.r1
  {
  }

  /** A scale whose domain is a single point sends every value to the
      middle of its range. */
  lemma ApplyDegenerate(s: Linear, v: real)
    requires s.d0 == s.d1
    ensures 2.0 * Apply(s, v) == s.r0 + s.r1
  {
  }

  /** With an increasing domain and a decreasing range (the y axis), a
      larger value lands on a smaller pixel. */
  lemma ApplyAntitone(s: Linear, v: real, w: real)
    requires s.d0 < s.d1 && s.r1 < s.r0 && v < w
    ensures Apply(s, w) < Apply(s, v)
  {
    var a := Normalize(s.d0, s.d1, v);
    var b := Normalize(s.d0, s.d1, w);
    ApplyFraction(s, v);
    ApplyFraction(s, w);
    MulSub(b, a, s.d1 - s.d0);
    MulSub(b, a, s.r1 - s.r0);
    PositiveFactor(b - a, s.d1 - s.d0);
    NegativeProduct(b - a, s.r1 - s.r0);
  }

  /** With an increasing domain and range (the x axis), the scale keeps order. */
  lemma ApplyMonotone(s: Linear, v: real, w: real)
    requires s.d0 < s.d1 && s.r0 <= s.r1 && v <= w
    ensures Apply(s, v) <= Apply(s, w)
  {
    var a := Normalize(s.d0, s.d1, v);
    var b := Normalize(s.d0, s.d1, w);
    ApplyFraction(s, v);
    ApplyFraction(s, w);
    MulSub(b, a, s.d1 - s.d0);
    MulSub(b, a, s.r1 - s.r0);
    NonNegativeFactor(b - a, s.d1 - s.d0);
    NonNegativeProduct(b - a, s.r1 - s.r0);
  }

  lemma PositiveFactor(a: real, c: real)
    requires c > 0.0 && a * c > 0.0
    ensures a > 0.0
  {
  }

  lemma NonNegativeFactor(a: real, c: real)
    requires c > 0.0 && a * c >= 0.0
    ensures a >= 0.0
  {
  }

  lemma NegativeProduct(a: real, c: real)
    requires a > 0.0 && c < 0.0
    ensures a * c < 0.0
  {
  }

  lemma NonNegativeProduct(a: real, c: real)
    requires a >= 0.0 && c >= 0.0
    ensures a * c >= 0.0
  {
  }

  /** A d3 zoom transform: scale factor k and translation (x, y). */
  datatype Transform = Transform(k: real, x: real, y: real)

  const Identity: Transform := Transform(1.0, 0.0, 0.0)

  /** `transform.rescaleX`/`rescaleY`: the range is kept and the domain
      becomes the inverse image of the range under the transform. */
  function Rescale(s: Linear, offset: real, k: real): Linear
    requires k > 0.0
  {
    Linear(Invert(s, (s.r0 - offset) / k), Invert(s, (s.r1 - offset) / k), s.r0, s.r1)
  }

  function RescaleX(t: Transform, s: Linear): Linear
    requires t.k > 0.0
  {
    Rescale(s, t.x, t.k)
  }

  function RescaleY(t: Transform, s: Linear): Linear
    requires t.k > 0.0
  {
    Rescale(s, t.y, t.k)
  }

  /** Applying a scale moves the normalized fraction of the way along the
      range; with a proper domain that fraction times the domain's width is
      the distance from d0. */
  lemma ApplyFraction(s: Linear, v: real)
    ensures Apply(s, v) == s.r0 + Normalize(s.d0, s.d1, v) * (s.r1 - s.r0)
    ensures s.d0 != s.d1 ==> Normalize(s.d0, s.d1, v) * (s.d1 - s.d0) == v - s.d0
  {
  }

  /** The same for inverting a pixel. */
  lemma InvertFraction(s: Linear, p: real)
    ensures Invert(s, p) == s.d0 + Normalize(s.r0, s.r1, p) * (s.d1 - s.d0)
    ensures s.r0 != s.r1 ==> Normalize(s.r0, s.r1, p) * (s.r1 - s.r0) == p - s.r0
  {
  }

  // Small facts of real arithmetic, stated on exactly the terms the proofs
  // below need, so the solver never has to search for them.

  lemma MulCancel(a: real, b: real, c: real)
    requires c != 0.0 && a * c == b * c
    ensures a == b
  {
    assert (a - b) * c == 0.0;
  }

  lemma MulBoth(k: real, a: real, b: real)
    requires a == b
    ensures k * a == k * b
  {
  }

  lemma MulSub(a: real, b: real, c: real)
    ensures (a - b) * c == a * c - b * c
  {
  }

  lemma MulSubLeft(k: real, a: real, b: real)
    ensures k * (a - b) == k * a - k * b
  {
  }

  lemma MulAddLeft(k: real, a: real, b: real)
    ensures k * (a + b) == k * a + k * b
  {
  }

  lemma MulAssoc(a: real, b: real, c: real)
    ensures (a * b) * c == a * (b * c)
  {
  }

  lemma MulSwap(a: real, b: real, c: real)
    ensures a * (b * c) == b * (a * c)
  {
  }

  /** The algebra of the rescaled domain's width: the transform sends back
      r0 to q0 and r1 to q1, which lie u0 and u1 of the way along the range,
      and the new domain is dd / k wide. */
  lemma RescaleWidthAlgebra(d0: real, dd: real, r0: real, rr: real, k: real, offset: real,
                            q0: real, q1: real, u0: real, u1: real, zd0: real, zd1: real)
    requires rr != 0.0 && k > 0.0
    requires k * q0 == r0 - offset && k * q1 == r0 + rr - offset
    requires u0 * rr == q0 - r0 && u1 * rr == q1 - r0
    requires zd0 == d0 + u0 * dd && zd1 == d0 + u1 * dd
    ensures k * (zd1 - zd0) == dd
  {
    var du := u1 - u0;
    MulSub(u1, u0, rr);
    MulSubLeft(k, q1, q0);
    MulBoth(k, du * rr, q1 - q0);
    MulAssoc(k, du, rr);
    MulCancel(k * du, 1.0, rr);
    MulSub(u1, u0, dd);
    MulBoth(k, zd1 - zd0, du * dd);
    MulAssoc(k, du, dd);
  }

  /** The algebra of a rescaled pixel: a value t of the way along the old
      domain is tz of the way along the new one, and r0 + tz * rr is the old
      pixel r0 + t * rr scaled by k and moved by the offset. */
  lemma RescalePixelAlgebra(d0: real, dd: real, r0: real, rr: real, k: real, offset: real,
                            q0: real, u0: real, zd0: real, w: real, t: real, tz: real, v: real)
    requires dd != 0.0 && k > 0.0
    requires k * q0 == r0 - offset && u0 * rr == q0 - r0
    requires zd0 == d0 + u0 * dd && k * w == dd
    requires t * dd == v - d0 && tz * w == v - zd0
    ensures r0 + tz * rr == k * (r0 + t * rr) + offset
  {
    MulSub(t, u0, dd);
    MulBoth(tz, dd, k * w);
    MulSwap(tz, k, w);
    MulBoth(k, tz * w, (t - u0) * dd);
    MulAssoc(k, t - u0, dd);
    MulCancel(tz, k * (t - u0), dd);
    MulBoth(rr, tz, k * (t - u0));
    MulAssoc(k, t - u0, rr);
    assert tz * rr == k * ((t - u0) * rr);
    MulSub(t, u0, rr);
    MulSubLeft(k, t * rr, u0 * rr);
    MulBoth(k, u0 * rr, q0 - r0);
    MulSubLeft(k, q0, r0);
    MulAddLeft(k, r0, t * rr);
  }

  /** The rescaled domain is the original one divided by k in width. */
  lemma RescaleSpan(s: Linear, offset: real, k: real)
    requires k > 0.0 && s.r0 != s.r1
    ensures k * (Rescale(s, offset, k).d1 - Rescale(s, offset, k).d0) == s.d1 - s.d0
  {
    var z := Rescale(s, offset, k);
    var q0 := (s.r0 - offset) / k;
    var q1 := (s.r1 - offset) / k;
    InvertFraction(s, q0);
    InvertFraction(s, q1);
    RescaleWidthAlgebra(s.d0, s.d1 - s.d0, s.r0, s.r1 - s.r0, k, offset, q0, q1,
                        Normalize(s.r0, s.r1, q0), Normalize(s.r0, s.r1, q1), z.d0, z.d1);
  }

  /** The rescaled scale draws every value where the transform moves the
      original pixel: k * pixel + offset. */
  lemma RescaleApply(s: Linear, offset: real, k: real, v: real)
    requires k > 0.0 && s.d0 != s.d1 && s.r0 != s.r1
    ensures Apply(Rescale(s, offset, k), v) == k * Apply(s, v) + offset
  {
    var z := Rescale(s, offset, k);
    var q0 := (s.r0 - offset) / k;
    var u0 := Normalize(s.r0, s.r1, q0);
    InvertFraction(s, q0);
    RescaleSpan(s, offset, k);
    ApplyFraction(s, v);
    ApplyFraction(z, v);
    RescalePixelAlgebra(s.d0, s.d1 - s.d0, s.r0, s.r1 - s.r0, k, offset, q0, u0, z.d0, z.d1 - z.d0,
                        Normalize(s.d0, s.d1, v), Normalize(z.d0, z.d1, v), v);
  }

  /** The identity transform gives back the scale itself, so a reset draws
      with the original scales. */
  lemma RescaleIdentity(s: Linear)
    requires s.r0 != s.r1
    ensures Rescale(s, 0.0, 1.0) == s
  {
  }

  /** d3.min of a non-empty sequence. */
  function Min(xs: seq<real>): (r: real)
    requires |xs| > 0
    ensures r in xs
    ensures forall i :: 0 <= i < |xs| ==> r <= xs[i]
  {
    if |xs| == 1 then xs[0]
    else
      var m := Min(xs[..|xs| - 1]);
      assert forall i :: 0 <= i < |xs| - 1 ==> xs[..|xs| - 1][i] == xs[i];
      if xs[|xs| - 1] < m then xs[|xs| - 1] else m
  }

  /** d3.max of a non-empty sequence. */
  function Max(xs: seq<real>): (r: real)
    requires |xs| > 0
    ensures r in xs
    ensures forall i :: 0 <= i < |xs| ==> xs[i] <= r
  {
    if |xs| == 1 then xs[0]
    else
      var m := Max(xs[..|xs| - 1]);
      assert forall i :: 0 <= i < |xs| - 1 ==> xs[..|xs| - 1][i] == xs[i];
      if xs[|xs| - 1] > m then xs[|xs| - 1] else m
  }
}
