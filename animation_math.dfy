/**
 * The maths helpers of the animation engine: range scaling, the ease-in-out
 * curves, clamping, random ranges, Math.round, and a Perlin-style 1-D noise
 * built on a shuffled permutation table.
 *
 * Numbers are reals (no IEEE rounding). The platform functions Math.sin,
 * Math.cos and Math.sqrt are parameters (a MathLib value) of which only the
 * facts in MathLib.Valid() are known; each Math.random() draw is a parameter
 * in [0, 1).
 */
module AnimationMath {

  /** Math.PI, standing for the number π in the facts of MathLib.Valid(). */
  const PI: real := 3.141592653589793

  /** The transcendental functions of the JavaScript Math object. */
  datatype MathLib = MathLib(sin: real -> real, cos: real -> real, sqrt: real -> real)
  {
    /** The facts about sin, cos and sqrt that the model relies on. */
    ghost predicate Valid()
    {
      && (forall x :: -1.0 <= sin(x) <= 1.0)
      && (forall x :: -1.0 <= cos(x) <= 1.0)
      && (forall x :: 0.0 <= x <= PI ==> 0.0 <= sin(x))
      && cos(0.0) == 1.0 && cos(PI / 2.0) == 0.0 && cos(PI) == -1.0
      && (forall x :: 0.0 <= x ==> 0.0 <= sqrt(x))
      && sqrt(0.0) == 0.0
    }
  }

  /** A sequence of Math.random() results. */
  ghost predicate Draws(d: seq<real>, n: nat)
  {
    n <= |d| && forall k :: 0 <= k < |d| ==> 0.0 <= d[k] < 1.0
  }

  // ---------------------------------------------------------------------
  // Scaling, clamping, random ranges
  // ---------------------------------------------------------------------

  /** linearScale1: maps value from [inMin, inMax] onto [outMin, outMax]; a degenerate
      input range gives outMin whatever the value. */
  function LinearScale1(value: real, inMin: real, inMax: real, outMin: real, outMax: real): (r: real)
    ensures inMin == inMax ==> r == outMin
    ensures inMin != inMax && value == inMin ==> r == outMin
    ensures inMin != inMax && value == inMax ==> r == outMax
  {
    if inMax == inMin then outMin
    else outMin + (value - inMin) / (inMax - inMin) * (outMax - outMin)
  }

  /** The value at fraction lam of the input range lands at fraction lam of the output range. */
  lemma LinearScale1Affine(lam: real, inMin: real, inMax: real, outMin: real, outMax: real)
    requires inMin != inMax
    ensures LinearScale1(inMin + lam * (inMax - inMin), inMin, inMax, outMin, outMax)
            == outMin + lam * (outMax - outMin)
  {
    var d := inMax - inMin;
    assert (inMin + lam * d - inMin) / d == lam;
  }

  /** A value inside the input range is mapped between the two output bounds. */
  lemma LinearScale1Between(value: real, inMin: real, inMax: real, outMin: real, outMax: real)
    requires inMin < inMax && inMin <= value <= inMax
    ensures var r := LinearScale1(value, inMin, inMax, outMin, outMax);
            Min(outMin, outMax) <= r <= Max(outMin, outMax)
  {
    var lam := (value - inMin) / (inMax - inMin);
    UnitFraction(value, inMin, inMax);
    LerpBetween(lam, outMin, outMax);
  }

  /** Multiplying by a non-negative number keeps an inequality. */
  lemma MulMono(a: real, b: real, c: real)
    requires a <= b && 0.0 <= c
    ensures a * c <= b * c
  {
  }

  /** The position of v inside [lo, hi], as a fraction of the range, is in [0, 1]. */
  lemma UnitFraction(v: real, lo: real, hi: real)
    requires lo < hi && lo <= v <= hi
    ensures 0.0 <= (v - lo) / (hi - lo) <= 1.0
  {
    var d := hi - lo;
    DivMono(0.0, v - lo, d);
    DivMono(v - lo, d, d);
  }

  /** Dividing by a positive number keeps an inequality. */
  lemma DivMono(x: real, y: real, d: real)
    requires x <= y && 0.0 < d
    ensures x / d <= y / d
    ensures 0.0 / d == 0.0 && d / d == 1.0
  {
  }

  function Min(a: real, b: real): real { if a <= b then a else b }
  function Max(a: real, b: real): real { if a >= b then a else b }

  /** clamp: Math.max(min, Math.min(max, value)). */
  function Clamp(value: real, min: real, max: real): (r: real)
    ensures min <= max ==> min <= r <= max
    ensures min <= value <= max ==> r == value
    ensures min <= max && value < min ==> r == min
    ensures min <= max && max < value ==> r == max
  {
    Max(min, Min(max, value))
  }

  /** randomFloat: Math.random() * (max - min) + min, for the draw r. */
  function RandomFloat(r: real, min: real, max: real): (x: real)
    ensures 0.0 <= r < 1.0 && min <= max ==> min <= x <= max
    ensures 0.0 <= r < 1.0 && min < max ==> x < max
  {
    var d := max - min;
    ScaledDraw(r, d);
    r * d + min
  }

  lemma ScaledDraw(r: real, d: real)
    ensures 0.0 <= r < 1.0 && 0.0 <= d ==> 0.0 <= r * d <= d
    ensures 0.0 <= r < 1.0 && 0.0 < d ==> r * d < d
  {
    if 0.0 <= r < 1.0 && 0.0 <= d {
      MulMono(r, 1.0, d);
      MulMono(0.0, r, d);
      assert 0.0 <= r * d <= d;
      if 0.0 < d {
        assert (1.0 - r) * d > 0.0;
      }
    }
  }

  /** Math.round: the nearest integer, halves rounded up. */
  function Round(x: real): (n: int)
    ensures x - 0.5 < n as real <= x + 0.5
  {
    (x + 0.5).Floor
  }

  /** Math.round(x * 100) / 100. */
  function Round2(x: real): (r: real)
    ensures x - 0.005 < r <= x + 0.005
  {
    Round(x * 100.0) as real / 100.0
  }

  /** Math.round(x * 1000) / 1000. */
  function Round3(x: real): (r: real)
    ensures x - 0.0005 < r <= x + 0.0005
  {
    Round(x * 1000.0) as real / 1000.0
  }

  /** Rounding never crosses an integer bound. */
  lemma RoundBetween(y: real, lo: int, hi: int)
    requires lo as real <= y <= hi as real
    ensures lo <= Round(y) <= hi
  {
  }

  /** Rounding to hundredths keeps a value inside bounds that are themselves hundredths. */
  lemma Round2Between(x: real, lo: int, hi: int)
    requires lo as real / 100.0 <= x <= hi as real / 100.0
    ensures lo as real / 100.0 <= Round2(x) <= hi as real / 100.0
  {
    RoundBetween(x * 100.0, lo, hi);
  }

  /** Rounding to thousandths keeps a value inside bounds that are themselves thousandths. */
  lemma Round3Between(x: real, lo: int, hi: int)
    requires lo as real / 1000.0 <= x <= hi as real / 1000.0
    ensures lo as real / 1000.0 <= Round3(x) <= hi as real / 1000.0
  {
    RoundBetween(x * 1000.0, lo, hi);
  }

  // ---------------------------------------------------------------------
  // Easing curves
  // ---------------------------------------------------------------------

  function Cube(x: real): real { x * x * x }

  /** Cubing is monotone on the non-negative reals. */
  lemma CubeMonotone(a: real, b: real)
    ensures 0.0 <= a <= b ==> 0.0 <= Cube(a) <= Cube(b)
  {
    if 0.0 <= a <= b {
      assert a * a <= a * b <= b * b;
      assert a * a * a <= b * b * a <= b * b * b;
    }
  }

  /** Raising to the fourth power is monotone on the non-negative reals. */
  lemma FourthMonotone(a: real, b: real)
    ensures 0.0 <= a <= b ==> 0.0 <= Cube(a) * a <= Cube(b) * b
  {
    CubeMonotone(a, b);
    if 0.0 <= a <= b {
      assert Cube(a) * a <= Cube(b) * a <= Cube(b) * b;
    }
  }

  /** cubic: ease-in-out cubic, 4t^3 below one half, 1 - (2 - 2t)^3 / 2 from there on. */
  function Cubic(t: real): (r: real)
    ensures t == 0.0 ==> r == 0.0
    ensures t == 0.5 ==> r == 0.5
    ensures t == 1.0 ==> r == 1.0
    ensures 0.0 <= t <= 1.0 ==> 0.0 <= r <= 1.0
  {
    if t < 0.5 then
      CubeMonotone(t, 0.5);
      4.0 * Cube(t)
    else
      CubeMonotone(-2.0 * t + 2.0, 1.0);
      1.0 - Cube(-2.0 * t + 2.0) / 2.0
  }

  /** Both branches of cubic meet at one half, so the curve is continuous there. */
  lemma CubicBranchesAgree()
    ensures 4.0 * Cube(0.5) == 1.0 - Cube(-2.0 * 0.5 + 2.0) / 2.0
  {
  }

  /** cubic never decreases on [0, 1]. */
  lemma CubicMonotone(s: real, t: real)
    requires 0.0 <= s <= t <= 1.0
    ensures Cubic(s) <= Cubic(t)
  {
    if t < 0.5 {
      CubeMonotone(s, t);
    } else if s >= 0.5 {
      CubeMonotone(-2.0 * t + 2.0, -2.0 * s + 2.0);
    } else {
      CubeMonotone(s, 0.5);
      CubeMonotone(-2.0 * t + 2.0, 1.0);
    }
  }

  /** quart: ease-in-out quartic, 8t^4 below one half, 1 - (2 - 2t)^4 / 2 from there on. */
  function Quart(t: real): (r: real)
    ensures t == 0.0 ==> r == 0.0
    ensures t == 0.5 ==> r == 0.5
    ensures t == 1.0 ==> r == 1.0
    ensures 0.0 <= t <= 1.0 ==> 0.0 <= r <= 1.0
  {
    if t < 0.5 then
      FourthMonotone(t, 0.5);
      8.0 * Cube(t) * t
    else
      FourthMonotone(-2.0 * t + 2.0, 1.0);
      1.0 - Cube(-2.0 * t + 2.0) * (-2.0 * t + 2.0) / 2.0
  }

  /** quart never decreases on [0, 1]. */
  lemma QuartMonotone(s: real, t: real)
    requires 0.0 <= s <= t <= 1.0
    ensures Quart(s) <= Quart(t)
  {
    if t < 0.5 {
      FourthMonotone(s, t);
    } else if s >= 0.5 {
      FourthMonotone(-2.0 * t + 2.0, -2.0 * s + 2.0);
    } else {
      FourthMonotone(s, 0.5);
      FourthMonotone(-2.0 * t + 2.0, 1.0);
    }
  }

  /** sine: ease-in-out sine, -(cos(π t) - 1) / 2. */
  function Sine(m: MathLib, t: real): (r: real)
    ensures m.Valid() ==> 0.0 <= r <= 1.0
    ensures m.Valid() && t == 0.0 ==> r == 0.0
    ensures m.Valid() && t == 0.5 ==> r == 0.5
    ensures m.Valid() && t == 1.0 ==> r == 1.0
  {
    assert PI * 0.5 == PI / 2.0;
    -(m.cos(PI * t) - 1.0) / 2.0
  }

  // ---------------------------------------------------------------------
  // Linear interpolation
  // ---------------------------------------------------------------------

  /** lerp: a + t (b - a). */
  function Lerp(t: real, a: real, b: real): (r: real)
    ensures t == 0.0 ==> r == a
    ensures t == 1.0 ==> r == b
  {
    a + t * (b - a)
  }

  /** For t in [0, 1] the interpolated value lies between the two end points. */
  lemma LerpBetween(t: real, a: real, b: real)
    requires 0.0 <= t <= 1.0
    ensures Min(a, b) <= Lerp(t, a, b) <= Max(a, b)
  {
    var d := b - a;
    var step := t * d;
    assert Lerp(t, a, b) == a + step;
    if a <= b {
      MulMono(t, 1.0, d);
      MulMono(0.0, t, d);
      assert 0.0 <= step <= d;
    } else {
      MulMono(t, 1.0, -d);
      MulMono(0.0, t, -d);
      assert t * (-d) == -step;
      assert d <= step <= 0.0;
    }
  }

  // ---------------------------------------------------------------------
  // 1-D noise
  // ---------------------------------------------------------------------

  /** fade: 6t^5 - 15t^4 + 10t^3. */
  function Fade(t: real): (r: real)
    ensures t == 0.0 ==> r == 0.0
    ensures t == 1.0 ==> r == 1.0
    ensures 0.0 <= t <= 1.0 ==> 0.0 <= r <= 1.0
  {
    FadeBounds(t);
    t * t * t * (t * (t * 6.0 - 15.0) + 10.0)
  }

  lemma FadeBounds(t: real)
    ensures 0.0 <= t <= 1.0 ==> 0.0 <= t * t * t * (t * (t * 6.0 - 15.0) + 10.0) <= 1.0
  {
    if 0.0 <= t <= 1.0 {
      var p := t * (t * 6.0 - 15.0) + 10.0;
      // p - 1 = 3 (2t - 3)(t - 1), a product of two non-positive factors
      assert p - 1.0 == 3.0 * (2.0 * t - 3.0) * (t - 1.0);
      assert (2.0 * t - 3.0) * (t - 1.0) >= 0.0;
      CubeMonotone(0.0, t);
      assert t * t * t * p >= 0.0;
      var u := 1.0 - t;
      assert t * t * t * p == 1.0 - u * u * u * (6.0 * t * t + 3.0 * t + 1.0);
      CubeMonotone(0.0, u);
      MulMono(0.0, Cube(u), 6.0 * t * t + 3.0 * t + 1.0);
    }
  }

  /** grad: the gradient selected by the low four bits of hash, times x. The bit tests
      `hash & 15`, `h & 7` and `h & 8` are the Euclidean remainders they equal on integers. */
  function Grad(hash: int, x: real): (r: real)
    ensures -8.0 * Abs(x) <= r <= 8.0 * Abs(x)
    ensures x == 0.0 ==> r == 0.0
  {
    var h := hash % 16;
    var g := 1 + h % 8;
    assert 1 <= g <= 8;
    GradBound(g, x);
    (if h >= 8 then -g as real else g as real) * x
  }

  function Abs(x: real): real { if x < 0.0 then -x else x }

  lemma GradBound(g: int, x: real)
    requires 1 <= g <= 8
    ensures -8.0 * Abs(x) <= g as real * x <= 8.0 * Abs(x)
    ensures -8.0 * Abs(x) <= -g as real * x <= 8.0 * Abs(x)
  {
    var gr := g as real;
    var ax := Abs(x);
    MulMono(gr, 8.0, ax);
    MulMono(0.0, gr, ax);
    assert 0.0 <= gr * ax <= 8.0 * ax;
    var p := gr * ax;
    assert 0.0 <= p <= 8.0 * ax;
    if x >= 0.0 {
      assert ax == x;
      assert gr * x == p;
    } else {
      assert ax == -x;
      assert gr * x == -p;
    }
    assert -gr * x == -(gr * x);
  }

  /** The lattice cell of x in the 256-entry table: Math.floor(x) & 255. */
  function Lattice(x: real): (i: int)
    ensures 0 <= i <= 255
  {
    x.Floor % 256
  }

  /** noise1d over a built table: the faded interpolation of the gradients at the two
      lattice points around x. Both table reads are in bounds. */
  function NoiseAt(table: seq<int>, x: real): (r: real)
    requires |table| == 512
    ensures -8.0 <= r <= 8.0
  {
    var i := Lattice(x);
    var f := x - x.Floor as real;
    var u := Fade(f);
    var g0 := Grad(table[i], f);
    var g1 := Grad(table[i + 1], f - 1.0);
    LerpBetween(u, g0, g1);
    Lerp(u, g0, g1)
  }

  /** The noise is zero at every lattice point, whatever the table. */
  lemma NoiseZeroAtLattice(table: seq<int>, n: int)
    requires |table| == 512
    ensures NoiseAt(table, n as real) == 0.0
  {
    assert (n as real).Floor == n;
  }

  /** 0, 1, ..., n - 1. */
  function Iota(n: nat): (s: seq<int>)
    ensures |s| == n
  {
    seq(n, k => k)
  }

  /** A built permutation table: a permutation of 0..255, repeated once for wrap-around. */
  ghost predicate IsTable(s: seq<int>)
  {
    && |s| == 512
    && multiset(s[..256]) == multiset(Iota(256))
    && forall k :: 256 <= k < 512 ==> s[k] == s[k - 256]
  }

  /** Every entry of a built table is a byte value. */
  lemma TableEntriesInRange(s: seq<int>, k: int)
    requires IsTable(s) && 0 <= k < 512
    ensures 0 <= s[k] <= 255
  {
    var k0 := if k < 256 then k else k - 256;
    assert s[k] == s[..256][k0];
    assert s[k] in multiset(s[..256]);
    assert s[k] in multiset(Iota(256));
    assert s[k] in Iota(256);
  }

  /** Fisher–Yates index for step i: Math.floor(r * (i + 1)). */
  function SwapIndex(r: real, i: nat): (j: int)
    requires 0.0 <= r < 1.0
    ensures 0 <= j <= i
  {
    var ir := (i + 1) as real;
    ScaledDraw(r, ir);
    (r * ir).Floor
  }

  /** SimpleNoise: the shared permutation table, built once on first use. */
  class SimpleNoise {
    const permutation: array<int>
    var initialized: bool

    ghost predicate Valid()
      reads this, permutation
    {
      permutation.Length == 512 && (initialized ==> IsTable(permutation[..]))
    }

    constructor ()
      ensures Valid() && !initialized && fresh(permutation)
    {
      permutation := new int[512];
      initialized := false;
    }

    /** init: fills 0..255, shuffles with one draw per step from 255 down to 1
        (draws[255 - i] is the draw of step i), copies the first half into the second,
        and sets initialized; a second call changes nothing. */
    method Init(draws: seq<real>)
      requires Valid() && Draws(draws, 255)
      modifies this, permutation
      ensures Valid() && initialized
      ensures old(initialized) ==> permutation[..] == old(permutation[..])
    {
      if initialized {
        return;
      }
      var i := 0;
      while i < 256
        invariant 0 <= i <= 256
        invariant forall k :: 0 <= k < i ==> permutation[k] == k
      {
        permutation[i] := i;
        i := i + 1;
      }
      assert permutation[..256] == Iota(256);
      i := 255;
      while i > 0
        invariant 0 <= i <= 255
        invariant multiset(permutation[..256]) == multiset(Iota(256))
      {
        var j := SwapIndex(draws[255 - i], i);
        Swap(i, j);
        i := i - 1;
      }
      ghost var shuffled := permutation[..256];
      i := 0;
      while i < 256
        invariant 0 <= i <= 256
        invariant permutation[..256] == shuffled
        invariant forall k :: 256 <= k < 256 + i ==> permutation[k] == permutation[k - 256]
      {
        permutation[256 + i] := permutation[i];
        i := i + 1;
      }
      initialized := true;
    }

    /** Exchanges two entries of the first half. */
    method Swap(i: int, j: int)
      requires permutation.Length == 512 && 0 <= i < 256 && 0 <= j < 256
      modifies permutation
      ensures permutation[i] == old(permutation[j]) && permutation[j] == old(permutation[i])
      ensures forall k :: 0 <= k < 512 && k != i && k != j ==> permutation[k] == old(permutation[k])
      ensures multiset(permutation[..256]) == old(multiset(permutation[..256]))
      ensures permutation[256..] == old(permutation[256..])
    {
      permutation[i], permutation[j] := permutation[j], permutation[i];
    }

    /** noise1d: builds the table if needed, then evaluates the noise at x. */
    method Noise1d(x: real, draws: seq<real>) returns (r: real)
      requires Valid() && Draws(draws, 255)
      modifies this, permutation
      ensures Valid() && initialized
      ensures old(initialized) ==> permutation[..] == old(permutation[..])
      ensures r == NoiseAt(permutation[..], x)
    {
      Init(draws);
      r := NoiseAt(permutation[..], x);
    }
  }
}
