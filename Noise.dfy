/**
 * The coherent-noise engine of the viewer (main.js, `fade`, `grad`, `smoothNoise`,
 * `fractalNoise`), over exact reals.
 *
 * `Math.sin` is not modelled: the hash and smooth noise take the sine as a parameter `sin`,
 * about which nothing is assumed, so every bound proved here holds whatever `sin` returns.
 * The octave sum takes its noise layer as a parameter `noise`.
 */
module Noise {

  /** The quintic smoothing polynomial t^3 (t (6t - 15) + 10). */
  function Fade(t: real): real
  {
    t * t * t * (t * (t * 6.0 - 15.0) + 10.0)
  }

  /** Fade fixes both ends of the unit interval and its middle. */
  lemma FadeFixedPoints()
    ensures Fade(0.0) == 0.0 && Fade(1.0) == 1.0 && Fade(0.5) == 0.5
  {
  }

  /** Fade is point-symmetric about (1/2, 1/2). */
  lemma FadeSymmetric(t: real)
    ensures Fade(1.0 - t) == 1.0 - Fade(t)
  {
    FadeComplement(t);
    var u := 1.0 - t;
    assert 6.0 * t * t + 3.0 * t + 1.0 == u * (u * 6.0 - 15.0) + 10.0;
  }

  /** 1 - Fade(t) factors as (1 - t)^3 (6t^2 + 3t + 1). */
  lemma FadeComplement(t: real)
    ensures 1.0 - Fade(t) == (1.0 - t) * (1.0 - t) * (1.0 - t) * (6.0 * t * t + 3.0 * t + 1.0)
  {
  }

  /** Fade maps [0, 1] into [0, 1], and [0, 1) into [0, 1). */
  lemma FadeBounds(t: real)
    requires 0.0 <= t <= 1.0
    ensures 0.0 <= Fade(t) <= 1.0
    ensures t < 1.0 ==> Fade(t) < 1.0
  {
    // The quadratic factor is at least 1 on [0, 1]: q - 1 == 3 (3 - 2t)(1 - t).
    var q := t * (t * 6.0 - 15.0) + 10.0;
    assert q - 1.0 == 3.0 * ((3.0 - 2.0 * t) * (1.0 - t));
    MulNonneg(3.0 - 2.0 * t, 1.0 - t);
    var cube := t * t * t;
    MulNonneg(t, t);
    MulNonneg(t * t, t);
    MulNonneg(cube, q);
    FadeComplement(t);
    var u := 1.0 - t;
    MulNonneg(u, u);
    MulNonneg(u * u, u);
    var p := 6.0 * t * t + 3.0 * t + 1.0;
    MulNonneg(u * u * u, p);
    if t < 1.0 {
      MulPos(u, u);
      MulPos(u * u, u);
      MulPos(u * u * u, p);
      assert 1.0 - Fade(t) == u * u * u * p;
    }
  }

  lemma MulNonneg(a: real, b: real)
    requires 0.0 <= a && 0.0 <= b
    ensures 0.0 <= a * b
  {
  }

  lemma MulPos(a: real, b: real)
    requires 0.0 < a && 0.0 < b
    ensures 0.0 < a * b
  {
  }

  /**
   * The lattice hash: the fractional part of sin(12.9898 x + 78.233 y) * 43758.5453123.
   */
  function Grad(sin: real -> real, x: real, y: real): (r: real)
    ensures 0.0 <= r < 1.0
  {
    var random := sin(x * 12.9898 + y * 78.233) * 43758.5453123;
    random - random.Floor as real
  }

  /** Linear interpolation a (1 - s) + b s: the value at weight s between a (s = 0) and b (s = 1). */
  function Blend(a: real, b: real, s: real): real
  {
    a * (1.0 - s) + b * s
  }

  /**
   * Bilinear interpolation, with Fade-shaped weights, of the hash at the four lattice
   * points around (x, y): along x on the rows y0 and y1, then along y.
   */
  function SmoothNoise(sin: real -> real, x: real, y: real): real
  {
    var x0 := x.Floor;
    var x1 := x0 + 1;
    var y0 := y.Floor;
    var y1 := y0 + 1;
    var sx := Fade(x - x0 as real);
    var sy := Fade(y - y0 as real);
    var n00 := Grad(sin, x0 as real, y0 as real);
    var n10 := Grad(sin, x1 as real, y0 as real);
    var n01 := Grad(sin, x0 as real, y1 as real);
    var n11 := Grad(sin, x1 as real, y1 as real);
    var nx0 := Blend(n00, n10, sx);
    var nx1 := Blend(n01, n11, sx);
    Blend(nx0, nx1, sy)
  }

  /** A blend of two values in [0, 1) with a weight in [0, 1] stays in [0, 1). */
  lemma BlendBounds(a: real, b: real, s: real)
    requires 0.0 <= a < 1.0 && 0.0 <= b < 1.0 && 0.0 <= s <= 1.0
    ensures 0.0 <= Blend(a, b, s) < 1.0
  {
    MulNonneg(a, 1.0 - s);
    MulNonneg(b, s);
    BlendGap(a, b, s);
  }

  /** What the blend falls short of 1 by is itself a blend of the shortfalls 1 - a and 1 - b. */
  lemma BlendGap(a: real, b: real, s: real)
    requires a < 1.0 && b < 1.0 && 0.0 <= s <= 1.0
    ensures Blend(a, b, s) < 1.0
  {
    var p := (1.0 - a) * (1.0 - s);
    var q := (1.0 - b) * s;
    assert 1.0 - Blend(a, b, s) == p + q;
    if s < 1.0 {
      MulPos(1.0 - a, 1.0 - s);
      MulNonneg(1.0 - b, s);
    } else {
      MulPos(1.0 - b, s);
      MulNonneg(1.0 - a, 1.0 - s);
    }
  }

  /** A blend lies between its two ends. */
  lemma BlendBetween(a: real, b: real, s: real)
    requires 0.0 <= s <= 1.0
    ensures Min(a, b) <= Blend(a, b, s) <= Max(a, b)
  {
    var blend := Blend(a, b, s);
    assert blend - a == (b - a) * s;
    assert b - blend == (b - a) * (1.0 - s);
    if a <= b {
      MulNonneg(b - a, s);
      MulNonneg(b - a, 1.0 - s);
    } else {
      MulNonneg(a - b, s);
      MulNonneg(a - b, 1.0 - s);
    }
  }

  function Min(a: real, b: real): real { if a <= b then a else b }
  function Max(a: real, b: real): real { if a <= b then b else a }

  /** Smooth noise stays in [0, 1) for every (x, y) and every sine. */
  lemma SmoothNoiseBounds(sin: real -> real, x: real, y: real)
    ensures 0.0 <= SmoothNoise(sin, x, y) < 1.0
  {
    var x0, y0 := x.Floor, y.Floor;
    var sx, sy := Fade(x - x0 as real), Fade(y - y0 as real);
    FadeBounds(x - x0 as real);
    FadeBounds(y - y0 as real);
    var n00 := Grad(sin, x0 as real, y0 as real);
    var n10 := Grad(sin, (x0 + 1) as real, y0 as real);
    var n01 := Grad(sin, x0 as real, (y0 + 1) as real);
    var n11 := Grad(sin, (x0 + 1) as real, (y0 + 1) as real);
    BlendBounds(n00, n10, sx);
    BlendBounds(n01, n11, sx);
    BlendBounds(Blend(n00, n10, sx), Blend(n01, n11, sx), sy);
  }

  /** Smooth noise never leaves the range spanned by the hash at its four lattice corners. */
  lemma SmoothNoiseBetweenCorners(sin: real -> real, x: real, y: real)
    ensures var x0, x1, y0, y1 := x.Floor, x.Floor + 1, y.Floor, y.Floor + 1;
      var n00, n10 := Grad(sin, x0 as real, y0 as real), Grad(sin, x1 as real, y0 as real);
      var n01, n11 := Grad(sin, x0 as real, y1 as real), Grad(sin, x1 as real, y1 as real);
      Min(Min(n00, n10), Min(n01, n11)) <= SmoothNoise(sin, x, y) <= Max(Max(n00, n10), Max(n01, n11))
  {
    var x0, y0 := x.Floor, y.Floor;
    var sx, sy := Fade(x - x0 as real), Fade(y - y0 as real);
    FadeBounds(x - x0 as real);
    FadeBounds(y - y0 as real);
    var n00 := Grad(sin, x0 as real, y0 as real);
    var n10 := Grad(sin, (x0 + 1) as real, y0 as real);
    var n01 := Grad(sin, x0 as real, (y0 + 1) as real);
    var n11 := Grad(sin, (x0 + 1) as real, (y0 + 1) as real);
    var nx0, nx1 := Blend(n00, n10, sx), Blend(n01, n11, sx);
    BlendBetween(n00, n10, sx);
    BlendBetween(n01, n11, sx);
    BlendBetween(nx0, nx1, sy);
    NestedRange(n00, n10, n01, n11, nx0, nx1, Blend(nx0, nx1, sy));
  }

  /** A value between two values that each lie between a pair lies between the extremes of the four. */
  lemma NestedRange(a: real, b: real, c: real, d: real, p: real, q: real, v: real)
    requires Min(a, b) <= p <= Max(a, b) && Min(c, d) <= q <= Max(c, d)
    requires Min(p, q) <= v <= Max(p, q)
    ensures Min(Min(a, b), Min(c, d)) <= v <= Max(Max(a, b), Max(c, d))
  {
  }

  /** At a lattice point the blend weights vanish and smooth noise is the hash itself. */
  lemma SmoothNoiseAtLattice(sin: real -> real, i: int, j: int)
    ensures SmoothNoise(sin, i as real, j as real) == Grad(sin, i as real, j as real)
  {
    assert (i as real).Floor == i;
    assert (j as real).Floor == j;
    FadeFixedPoints();
  }

  /** The amplitude of octave i: halved from 1 at every octave, so 2^-i. */
  function Amplitude(i: nat): (a: real)
    ensures 0.0 < a <= 1.0
    ensures i >= 1 ==> a <= 0.5
  {
    if i == 0 then 1.0 else Amplitude(i - 1) * 0.5
  }

  function Pow2(i: nat): nat
  {
    if i == 0 then 1 else 2 * Pow2(i - 1)
  }

  /** The frequency of octave i: 2^i. */
  function Frequency(i: nat): real
  {
    Pow2(i) as real
  }

  /** One pass of the octave loop moves every accumulator from octave i to octave i + 1. */
  lemma OctaveStep(noise: (real, real) -> real, x: real, y: real, i: nat, value: real, amplitude: real, frequency: real, maxValue: real)
    requires value == LayerSum(noise, x, y, i) && amplitude == Amplitude(i)
    requires frequency == Frequency(i) && maxValue == AmplitudeSum(i)
    ensures value + amplitude * noise(x * frequency, y * frequency) == LayerSum(noise, x, y, i + 1)
    ensures maxValue + amplitude == AmplitudeSum(i + 1)
    ensures amplitude * 0.5 == Amplitude(i + 1) && frequency * 2.0 == Frequency(i + 1)
  {
    LayerSumNext(noise, x, y, i);
    var u, v := x * Frequency(i), y * Frequency(i);
    assert u == x * frequency && v == y * frequency;
    assert noise(u, v) == noise(x * frequency, y * frequency);
  }

  /** The sum of i + 1 octaves is the sum of i octaves plus octave i. */
  lemma LayerSumNext(noise: (real, real) -> real, x: real, y: real, i: nat)
    ensures LayerSum(noise, x, y, i + 1) == LayerSum(noise, x, y, i) + Amplitude(i) * noise(x * Frequency(i), y * Frequency(i))
  {
    LayerSumUnfold(noise, x, y, i + 1);
  }

  lemma LayerSumUnfold(noise: (real, real) -> real, x: real, y: real, j: nat)
    requires j >= 1
    ensures LayerSum(noise, x, y, j) == LayerSum(noise, x, y, j - 1) + Amplitude(j - 1) * noise(x * Frequency(j - 1), y * Frequency(j - 1))
  {
  }

  /** The amplitude of an octave is the reciprocal of its frequency, 2^-i. */
  lemma {:induction false} OctaveScales(i: nat)
    ensures Amplitude(i) * Frequency(i) == 1.0
  {
    if i > 0 {
      OctaveScales(i - 1);
      assert Amplitude(i) * Frequency(i)
          == (Amplitude(i - 1) * 0.5) * (2.0 * Frequency(i - 1));
    }
  }

  /** The sum of the amplitudes of the first n octaves: 2 - 2^(1-n). */
  function AmplitudeSum(n: nat): (m: real)
    ensures m == 2.0 - 2.0 * Amplitude(n)
    ensures n >= 1 ==> 1.0 <= m < 2.0
  {
    if n == 0 then 0.0 else AmplitudeSum(n - 1) + Amplitude(n - 1)
  }

  /** Smooth noise for a fixed sine, as a two-argument noise layer. */
  function Smooth(sin: real -> real): (real, real) -> real
  {
    (u: real, v: real) => SmoothNoise(sin, u, v)
  }

  /** A noise layer whose values all lie in [0, 1). */
  ghost predicate UnitNoise(noise: (real, real) -> real)
  {
    forall u: real, v: real :: 0.0 <= noise(u, v) < 1.0
  }

  /** Smooth noise is such a layer, whatever the sine. */
  lemma SmoothIsUnitNoise(sin: real -> real)
    ensures UnitNoise(Smooth(sin))
  {
    forall u: real, v: real
      ensures 0.0 <= Smooth(sin)(u, v) < 1.0
    {
      SmoothNoiseBounds(sin, u, v);
    }
  }

  /** The amplitude-weighted sum of the first n octaves of a noise layer at (x, y). */
  function LayerSum(noise: (real, real) -> real, x: real, y: real, n: nat): real
  {
    if n == 0 then 0.0
    else LayerSum(noise, x, y, n - 1)
         + Amplitude(n - 1) * noise(x * Frequency(n - 1), y * Frequency(n - 1))
  }

  /** Every partial sum lies between 0 and the sum of the amplitudes, strictly below it once non-empty. */
  lemma {:induction false} LayerSumBounds(noise: (real, real) -> real, x: real, y: real, n: nat)
    requires UnitNoise(noise)
    ensures 0.0 <= LayerSum(noise, x, y, n) <= AmplitudeSum(n)
    ensures n >= 1 ==> LayerSum(noise, x, y, n) < AmplitudeSum(n)
  {
    if n > 0 {
      LayerSumBounds(noise, x, y, n - 1);
      var a := Amplitude(n - 1);
      var v := noise(x * Frequency(n - 1), y * Frequency(n - 1));
      SumStep(LayerSum(noise, x, y, n - 1), AmplitudeSum(n - 1), a, v, LayerSum(noise, x, y, n), AmplitudeSum(n));
    }
  }

  /** One octave adds a weighted sample a v with 0 <= a v < a. */
  lemma LayerStep(a: real, v: real)
    requires 0.0 < a && 0.0 <= v < 1.0
    ensures 0.0 <= a * v < a
  {
    MulNonneg(a, v);
    MulPos(a, 1.0 - v);
    assert a - a * v == a * (1.0 - v);
  }

  /** Adding a v, with v in [0, 1), to a sum bounded by m keeps it below m + a. */
  lemma SumStep(l: real, m: real, a: real, v: real, l': real, m': real)
    requires l' == l + a * v && m' == m + a
    requires 0.0 <= l <= m && 0.0 < a && 0.0 <= v < 1.0
    ensures 0.0 <= l' < m'
  {
    LayerStep(a, v);
  }

  /** Fractal noise: the octave sum of a noise layer normalised by the sum of the amplitudes. */
  function Fractal(noise: (real, real) -> real, x: real, y: real, octaves: nat): real
    requires octaves >= 1
  {
    LayerSum(noise, x, y, octaves) / AmplitudeSum(octaves)
  }

  /** Normalised fractal noise of a layer with values in [0, 1) lies in [0, 1). */
  lemma FractalBounds(noise: (real, real) -> real, x: real, y: real, octaves: nat)
    requires octaves >= 1
    requires UnitNoise(noise)
    ensures 0.0 <= Fractal(noise, x, y, octaves) < 1.0
  {
    LayerSumBounds(noise, x, y, octaves);
    QuotientBounds(LayerSum(noise, x, y, octaves), AmplitudeSum(octaves));
  }

  /** 0 <= v < m gives 0 <= v / m < 1. */
  lemma QuotientBounds(v: real, m: real)
    requires 0.0 <= v < m
    ensures 0.0 <= v / m < 1.0
  {
    var r := v / m;
    assert r * m == v;
    if r < 0.0 {
      MulPos(-r, m);
    }
    if r >= 1.0 {
      MulNonneg(r - 1.0, m);
    }
  }

  /** With a single octave, fractal noise is the layer itself. */
  lemma FractalSingleOctave(noise: (real, real) -> real, x: real, y: real)
    ensures Fractal(noise, x, y, 1) == noise(x, y)
  {
    assert Frequency(0) == 1.0 && Amplitude(0) == 1.0;
    assert x * Frequency(0) == x && y * Frequency(0) == y;
    assert LayerSum(noise, x, y, 1) == noise(x, y);
    assert AmplitudeSum(1) == 1.0;
  }

  /**
   * fractalNoise(x, y, octaves): accumulates amplitude-weighted samples of the layer
   * over the octaves, doubling the frequency and halving the amplitude each time, and
   * divides by the sum of the amplitudes. The layer is smoothNoise in the viewer; it is a
   * parameter here so that the proof does not depend on its definition.
   */
  method FractalNoise(noise: (real, real) -> real, x: real, y: real, octaves: nat) returns (r: real)
    requires octaves >= 1
    ensures r == Fractal(noise, x, y, octaves)
    ensures UnitNoise(noise) ==> 0.0 <= r < 1.0
    ensures octaves == 1 ==> r == noise(x, y)
  {
    var value := 0.0;
    var amplitude := 1.0;
    var frequency := 1.0;
    var maxValue := 0.0;
    var i := 0;
    while i < octaves
      invariant 0 <= i <= octaves
      invariant value == LayerSum(noise, x, y, i)
      invariant amplitude == Amplitude(i)
      invariant frequency == Frequency(i)
      invariant maxValue == AmplitudeSum(i)
    {
      OctaveStep(noise, x, y, i, value, amplitude, frequency, maxValue);
      value := value + amplitude * noise(x * frequency, y * frequency);
      maxValue := maxValue + amplitude;
      amplitude := amplitude * 0.5;
      frequency := frequency * 2.0;
      i := i + 1;
    }
    r := value / maxValue;
    if UnitNoise(noise) {
      FractalBounds(noise, x, y, octaves);
    }
    if octaves == 1 {
      FractalSingleOctave(noise, x, y);
    }
  }
}
