/** Scalar interpolation helpers of src/math.ts. Every helper there is a single
    expression over JavaScript numbers; here they are functions over `real`. */
module MathUtil {

  function Min(a: real, b: real): real { if a <= b then a else b }
  function Max(a: real, b: real): real { if a <= b then b else a }

  /** `r` lies on the closed segment between `a` and `b`, in either order. */
  predicate Between(a: real, b: real, r: real) {
    Min(a, b) <= r <= Max(a, b)
  }

  /** Linear interpolation: `a` at t = 0, `b` at t = 1, on the segment between. */
  function Lerp(a: real, b: real, t: real): (r: real)
    ensures t == 0.0 ==> r == a
    ensures t == 1.0 ==> r == b
    ensures 0.0 <= t <= 1.0 ==> Between(a, b, r)
  {
    LerpBetween(a, b, t);
    a + (b - a) * t
  }

  lemma LerpBetween(a: real, b: real, t: real)
    ensures 0.0 <= t <= 1.0 ==> Between(a, b, a + (b - a) * t)
  {
    if 0.0 <= t <= 1.0 {
      if a <= b {
        assert 0.0 <= (b - a) * t <= (b - a);
      } else {
        assert (b - a) <= (b - a) * t <= 0.0;
      }
    }
  }

  /** Walking from `b` back to `a` is the same path as from `a` to `b`, reversed in time. */
  lemma LerpReversed(a: real, b: real, t: real)
    ensures Lerp(a, b, t) == Lerp(b, a, 1.0 - t)
  {
  }

  /** `Math.min(hi, Math.max(lo, value))`. When `lo > hi` the upper bound wins, as in the source. */
  function Clamp(value: real, lo: real, hi: real): (r: real)
    ensures lo <= hi ==> lo <= r <= hi
    ensures lo <= value <= hi ==> r == value
    ensures lo <= hi && value <= lo ==> r == lo
    ensures value >= hi ==> r == hi
    ensures lo > hi ==> r == hi
  {
    Min(hi, Max(lo, value))
  }

  /** Clamping commutes with mirroring the unit interval. */
  lemma ClampMirror(t: real)
    ensures 1.0 - Clamp(t, 0.0, 1.0) == Clamp(1.0 - t, 0.0, 1.0)
  {
  }

  /** `(value - a) / (b - a)`; the source does not guard `a == b` (it would yield NaN or an
      infinity), so callers must keep the anchors apart. */
  function InverseLerp(a: real, b: real, value: real): (r: real)
    requires a != b
    ensures value == a ==> r == 0.0
    ensures value == b ==> r == 1.0
    ensures Lerp(a, b, r) == value
  {
    DivUnique(b - a, b - a, 1.0);
    DivUnique(0.0, b - a, 0.0);
    (value - a) / (b - a)
  }

  /** The quotient is the one number that multiplies the divisor back to the dividend. */
  lemma DivUnique(n: real, d: real, q: real)
    requires d != 0.0 && q * d == n
    ensures n / d == q
  {
    var r := n / d;
    assert r * d == n;
    assert (r - q) * d == 0.0;
  }

  /** The other half of the round trip: the fraction is recovered from the point. */
  lemma InverseLerpOfLerp(a: real, b: real, t: real)
    requires a != b
    ensures InverseLerp(a, b, Lerp(a, b, t)) == t
  {
    DivUnique(Lerp(a, b, t) - a, b - a, t);
  }

  /** Maps `value` from the range [a, b] onto [c, d] (affinely, without clamping). */
  function Map(value: real, a: real, b: real, c: real, d: real): (r: real)
    requires a != b
    ensures value == a ==> r == c
    ensures value == b ==> r == d
    ensures Between(a, b, value) ==> Between(c, d, r)
  {
    MapBetween(value, a, b);
    Lerp(c, d, InverseLerp(a, b, value))
  }

  lemma MapBetween(value: real, a: real, b: real)
    requires a != b
    ensures Between(a, b, value) ==> 0.0 <= InverseLerp(a, b, value) <= 1.0
  {
    if Between(a, b, value) {
      var den := b - a;
      var num := value - a;
      if a < b {
        assert 0.0 <= num <= den;
        assert num / den <= den / den;
      } else {
        assert den <= num <= 0.0;
        assert num / den == (-num) / (-den);
        assert (-num) / (-den) <= (-den) / (-den);
      }
    }
  }

  /** `Map` followed by a clamp to [c, d]. */
  function MapClamp(value: real, a: real, b: real, c: real, d: real): (r: real)
    requires a != b
    ensures c <= d ==> c <= r <= d
    ensures c <= d && value == a ==> r == c
    ensures c <= d && value == b ==> r == d
    ensures c <= d && Between(a, b, value) ==> r == Map(value, a, b, c, d)
  {
    Clamp(Map(value, a, b, c, d), c, d)
  }

  /** `random(min, max)` with the `Math.random()` sample, which lies in [0, 1), passed in. */
  function Random(lo: real, hi: real, sample: real): (r: real)
    requires 0.0 <= sample < 1.0
    ensures lo <= hi ==> lo <= r <= hi
    ensures lo < hi ==> r < hi
  {
    MulPositive(hi - lo, 1.0 - sample);
    Lerp(lo, hi, sample)
  }

  lemma MulPositive(x: real, y: real)
    ensures x > 0.0 && y > 0.0 ==> x * y > 0.0
  {
  }

  function Min3(a: real, b: real, c: real): real { Min(a, Min(b, c)) }
  function Max3(a: real, b: real, c: real): real { Max(a, Max(b, c)) }

  /** Quadratic Bézier value with control values a, b, c (de Casteljau form). */
  function Bezier(a: real, b: real, c: real, t: real): (r: real)
    ensures t == 0.0 ==> r == a
    ensures t == 1.0 ==> r == c
    ensures 0.0 <= t <= 1.0 ==> Min3(a, b, c) <= r <= Max3(a, b, c)
  {
    Lerp(Lerp(a, b, t), Lerp(b, c, t), t)
  }

  /** Ease curve: a quadratic Bézier whose first two control values coincide. */
  function Smoothstep(a: real, b: real, t: real): (r: real)
    ensures t == 0.0 ==> r == a
    ensures t == 1.0 ==> r == b
    ensures 0.0 <= t <= 1.0 ==> Between(a, b, r)
  {
    Bezier(a, a, b, t)
  }

  /** Cubic Bézier value with control values a, b, c, d. */
  function CubicBezier(a: real, b: real, c: real, d: real, t: real): (r: real)
    ensures t == 0.0 ==> r == a
    ensures t == 1.0 ==> r == d
    ensures 0.0 <= t <= 1.0 ==> Min(a, Min3(b, c, d)) <= r <= Max(a, Max3(b, c, d))
  {
    Lerp(Bezier(a, b, c, t), Bezier(b, c, d, t), t)
  }
}
