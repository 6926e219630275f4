/**
 * The two RGBA buffers of `createNoiseTexture` (main.js): a grayscale one for healthy
 * tissue and a red-tinted one for fibrotic tissue, each size x size texels, row-major,
 * four bytes per texel. The viewer uses size 1024; here it is a parameter.
 *
 * The noise layer is a parameter `noise`; the viewer passes smooth noise
 * (`Noise.Smooth(sin)`), which `Noise.SmoothIsUnitNoise` shows to be a unit layer.
 */
module Textures {
  import opened Noise

  /** A Uint8Array element. */
  type Byte = b: int | 0 <= b < 256

  /** ECMAScript ToInteger on a finite number: truncation toward zero. */
  function Trunc(v: real): int
  {
    if v >= 0.0 then v.Floor else -((-v).Floor)
  }

  /** ECMAScript ToUint8, the conversion a store into a Uint8Array performs: truncate, then reduce modulo 2^8. */
  function ToUint8(v: real): Byte
  {
    Trunc(v) % 256
  }

  /** On [0, 256) the store is plain truncation. */
  lemma ToUint8InRange(v: real)
    requires 0.0 <= v < 256.0
    ensures ToUint8(v) == v.Floor
  {
  }

  /** The store wraps around above 255 and below 0, as Uint8Array does. */
  lemma ToUint8Wraps()
    ensures ToUint8(256.0) == 0 && ToUint8(300.5) == 44 && ToUint8(-1.5) == 255
  {
    assert Trunc(-1.5) == -1;
  }

  /** The first of the four bytes of texel (x, y): (y * size + x) * 4. */
  function Slot(size: nat, x: nat, y: nat): nat
  {
    (y * size + x) * 4
  }

  /** Quotient and remainder are determined by any decomposition k == q n + r with 0 <= r < n. */
  lemma DivModUnique(k: int, n: int, q: int, r: int)
    requires n > 0 && 0 <= r < n && k == q * n + r
    ensures k / n == q && k % n == r
  {
    var q', r' := k / n, k % n;
    assert k == q' * n + r';
    if q' > q {
      MulMono(q' - q, n);
    } else if q' < q {
      MulMono(q - q', n);
    }
  }

  lemma MulMono(d: int, n: int)
    requires d >= 1 && n > 0
    ensures d * n >= n
  {
  }

  /** Byte c of texel (x, y) sits at Slot + c, inside the buffer, and decodes back to (x, y, c). */
  lemma SlotDecode(size: nat, x: nat, y: nat, c: nat)
    requires x < size && y < size && c < 4
    ensures Slot(size, x, y) + c < size * size * 4
    ensures (Slot(size, x, y) + c) / 4 == y * size + x && (Slot(size, x, y) + c) % 4 == c
    ensures (y * size + x) % size == x && (y * size + x) / size == y
  {
    var k := y * size + x;
    DivModUnique(k, size, y, x);
    DivModUnique(4 * k + c, 4, k, c);
    assert k < size * size by {
      assert y * size <= (size - 1) * size by { MulLe(y, size - 1, size); }
      assert (size - 1) * size + size == size * size;
    }
  }

  lemma MulLe(a: nat, b: nat, n: nat)
    requires a <= b
    ensures a * n <= b * n
  {
  }

  /** Distinct texels, or distinct channels of one texel, never share a byte. */
  lemma SlotsDisjoint(size: nat, x: nat, y: nat, c: nat, x': nat, y': nat, c': nat)
    requires x < size && y < size && c < 4
    requires x' < size && y' < size && c' < 4
    requires Slot(size, x, y) + c == Slot(size, x', y') + c'
    ensures x == x' && y == y' && c == c'
  {
    SlotDecode(size, x, y, c);
    SlotDecode(size, x', y', c');
  }

  // ---------------------------------------------------------------- buffer layout

  /** The four bytes R, G, B, A of one texel. */
  datatype Texel = Texel(r: Byte, g: Byte, b: Byte, a: Byte)

  function Bytes(t: Texel): (s: seq<Byte>)
    ensures |s| == 4
  {
    [t.r, t.g, t.b, t.a]
  }

  /** The chunks of `cs` laid end to end. */
  function Concat(cs: seq<seq<Byte>>): seq<Byte>
  {
    if cs == [] then [] else Concat(cs[..|cs| - 1]) + cs[|cs| - 1]
  }

  /** Chunks of one length L concatenate to |cs| * L bytes. */
  lemma {:induction false} ConcatLength(cs: seq<seq<Byte>>, L: nat)
    requires forall i :: 0 <= i < |cs| ==> |cs[i]| == L
    ensures |Concat(cs)| == |cs| * L
  {
    if cs != [] {
      ConcatLength(cs[..|cs| - 1], L);
      assert (|cs| - 1) * L + L == |cs| * L;
    }
  }

  /** Byte j of chunk k lands at k * L + j. */
  lemma {:induction false} ConcatAt(cs: seq<seq<Byte>>, L: nat, k: nat, j: nat)
    requires forall i :: 0 <= i < |cs| ==> |cs[i]| == L
    requires k < |cs| && j < L
    ensures k * L + j < |Concat(cs)| && Concat(cs)[k * L + j] == cs[k][j]
  {
    var n := |cs|;
    ConcatLength(cs, L);
    ConcatLength(cs[..n - 1], L);
    if k < n - 1 {
      ConcatAt(cs[..n - 1], L, k, j);
    } else {
      assert k * L == (n - 1) * L;
    }
  }

  /** The first x texels of row y, left to right. */
  function Row(pixel: (nat, nat) -> Texel, y: nat, x: nat): (s: seq<Byte>)
    ensures |s| == 4 * x
  {
    var texels := Texels(pixel, y, x);
    ConcatLength(texels, 4);
    Concat(texels)
  }

  /** The texels of row y up to x, four bytes each. */
  function Texels(pixel: (nat, nat) -> Texel, y: nat, x: nat): (ts: seq<seq<Byte>>)
    ensures |ts| == x && forall i :: 0 <= i < x ==> ts[i] == Bytes(pixel(i, y)) && |ts[i]| == 4
  {
    seq(x, i requires 0 <= i < x => Bytes(pixel(i, y)))
  }

  /** The first n rows of a size x size texture, top to bottom: the row-major RGBA buffer. */
  function Grid(pixel: (nat, nat) -> Texel, size: nat, n: nat): (s: seq<Byte>)
    ensures |s| == Slot(size, 0, n)
  {
    var rows := seq(n, y requires 0 <= y < n => Row(pixel, y, size));
    ConcatLength(rows, 4 * size);
    RowStride(size, n);
    Concat(rows)
  }

  lemma RowStride(size: nat, y: nat)
    ensures Slot(size, 0, y) == y * (4 * size)
  {
  }

  /** Byte Slot(x, y) + c of the buffer is byte c of texel (x, y). */
  lemma GridAt(pixel: (nat, nat) -> Texel, size: nat, n: nat, x: nat, y: nat, c: nat)
    requires x < size && y < n && c < 4
    ensures Slot(size, x, y) + c < |Grid(pixel, size, n)|
    ensures Grid(pixel, size, n)[Slot(size, x, y) + c] == Bytes(pixel(x, y))[c]
  {
    var rows := seq(n, y requires 0 <= y < n => Row(pixel, y, size));
    ConcatAt(Texels(pixel, y, size), 4, x, c);
    assert Row(pixel, y, size)[x * 4 + c] == Bytes(pixel(x, y))[c];
    ConcatAt(rows, 4 * size, y, x * 4 + c);
    RowStride(size, y);
    assert Slot(size, x, y) + c == y * (4 * size) + (x * 4 + c);
  }

  /** Every byte i of the buffer is byte c = i % 4 of texel (x, y) = (i / 4 % size, i / 4 / size). */
  lemma GridCovers(pixel: (nat, nat) -> Texel, size: nat, i: nat) returns (x: nat, y: nat, c: nat)
    requires i < |Grid(pixel, size, size)|
    ensures size > 0 && x == i / 4 % size && y == i / 4 / size && c == i % 4
    ensures x < size && y < size && i == Slot(size, x, y) + c
    ensures Grid(pixel, size, size)[i] == Bytes(pixel(x, y))[c]
  {
    x, y, c := SlotOf(size, i);
    GridAt(pixel, size, size, x, y, c);
  }

  /** Every index below the buffer length is the slot of a texel plus a channel. */
  lemma SlotOf(size: nat, i: nat) returns (x: nat, y: nat, c: nat)
    requires i < Slot(size, 0, size)
    ensures size > 0 && x == i / 4 % size && y == i / 4 / size && c == i % 4
    ensures x < size && y < size && i == Slot(size, x, y) + c
  {
    var k := i / 4;
    c := i % 4;
    assert i == 4 * k + c;
    assert size > 0;
    x, y := k % size, k / size;
    DivMod(k, size);
    assert y < size by {
      if y >= size {
        MulLe(size, y, size);
      }
    }
    SlotOfTexel(size, x, y, k);
  }

  lemma DivMod(k: nat, n: nat)
    requires n > 0
    ensures k == (k / n) * n + k % n
  {
  }

  lemma SlotOfTexel(size: nat, x: nat, y: nat, k: nat)
    requires k == y * size + x
    ensures Slot(size, x, y) == 4 * k
  {
  }

  /** Writing one texel at the end of a filled prefix extends the row by that texel. */
  lemma RowSlotStep(size: nat, x: nat, y: nat)
    requires x < size && y < size
    ensures Slot(size, x, y) == Slot(size, 0, y) + 4 * x
    ensures Slot(size, x, y) + 4 == Slot(size, x + 1, y) <= size * size * 4
  {
    SlotDecode(size, x, y, 3);
  }

  /** The slot after the last texel of row y is the first slot of row y + 1. */
  lemma RowDone(size: nat, y: nat)
    ensures Slot(size, size, y) == Slot(size, 0, y + 1)
  {
  }

  /** The last row ends at the end of the buffer. */
  lemma GridFull(size: nat)
    ensures Slot(size, 0, size) == size * size * 4
  {
  }

  /**
   * The four stores of texel (x, y) in a size x size buffer: R, G, B and an opaque A at
   * Slot(x, y) onwards, every other byte untouched. When the buffer agrees with `full` up to
   * the texel and `full` holds these bytes there, it agrees with `full` up to the next texel.
   */
  method StoreTexel(data: array<Byte>, size: nat, x: nat, y: nat, t: Texel, ghost full: seq<Byte>)
    requires x < size && y < size
    requires Slot(size, x, y) + 4 <= |full| == data.Length
    requires full[Slot(size, x, y)] == t.r && full[Slot(size, x, y) + 1] == t.g
    requires full[Slot(size, x, y) + 2] == t.b && full[Slot(size, x, y) + 3] == 255
    requires forall j :: 0 <= j < Slot(size, x, y) ==> data[j] == full[j]
    modifies data
    ensures Slot(size, x, y) + 4 == Slot(size, x + 1, y) <= data.Length
    ensures forall j :: 0 <= j < data.Length && !(Slot(size, x, y) <= j < Slot(size, x, y) + 4) ==> data[j] == old(data[j])
    ensures forall j :: 0 <= j < Slot(size, x + 1, y) ==> data[j] == full[j]
  {
    var i := (y * size + x) * 4;
    RowSlotStep(size, x, y);
    data[i] := t.r;
    data[i + 1] := t.g;
    data[i + 2] := t.b;
    data[i + 3] := 255;
  }

  // ---------------------------------------------------------------- healthy buffer

  /** Octave count of the healthy pattern (named, so that proofs do not unfold the octave sum). */
  const HealthyOctaves: nat := 4

  /** The healthy brightness of texel (x, y): 4-octave fractal noise at scale 1/150, mapped to [0.7, 1.0). */
  function HealthyValue(noise: (real, real) -> real, x: nat, y: nat): real
  {
    Fractal(noise, x as real / 150.0, y as real / 150.0, HealthyOctaves) * 0.3 + 0.7
  }

  /** Healthy texel (x, y): the brightness times 255 stored in R, G and B; A opaque. */
  function HealthyTexel(noise: (real, real) -> real, x: nat, y: nat): Texel
  {
    var v := ToUint8(HealthyValue(noise, x, y) * 255.0);
    Texel(v, v, v, 255)
  }

  function HealthyPixel(noise: (real, real) -> real): (nat, nat) -> Texel
  {
    (x: nat, y: nat) => HealthyTexel(noise, x, y)
  }

  /** The healthy buffer of a size x size texture. */
  function HealthyBuffer(noise: (real, real) -> real, size: nat): seq<Byte>
  {
    Grid(HealthyPixel(noise), size, size)
  }

  /** The four bytes of healthy texel (x, y) in the healthy buffer. */
  lemma HealthyTexelBytes(noise: (real, real) -> real, size: nat, x: nat, y: nat)
    requires x < size && y < size
    ensures Slot(size, x, y) + 4 <= |HealthyBuffer(noise, size)|
    ensures HealthyBuffer(noise, size)[Slot(size, x, y)] == ToUint8(HealthyValue(noise, x, y) * 255.0)
    ensures HealthyBuffer(noise, size)[Slot(size, x, y) + 1] == ToUint8(HealthyValue(noise, x, y) * 255.0)
    ensures HealthyBuffer(noise, size)[Slot(size, x, y) + 2] == ToUint8(HealthyValue(noise, x, y) * 255.0)
    ensures HealthyBuffer(noise, size)[Slot(size, x, y) + 3] == 255
  {
    GridAt(HealthyPixel(noise), size, size, x, y, 0);
    GridAt(HealthyPixel(noise), size, size, x, y, 1);
    GridAt(HealthyPixel(noise), size, size, x, y, 2);
    GridAt(HealthyPixel(noise), size, size, x, y, 3);
  }

  /** One pass of the healthy loop body: the fractal sample at (x / 150, y / 150), scaled into [0.7, 1.0] and stored as a gray byte. */
  method ComputeHealthyTexel(noise: (real, real) -> real, x: nat, y: nat) returns (t: Texel)
    ensures t == HealthyTexel(noise, x, y)
  {
    var baseNoise := FractalNoise(noise, x as real / 150.0, y as real / 150.0, HealthyOctaves);
    var noiseValue := baseNoise * 0.3 + 0.7;
    var v := ToUint8(noiseValue * 255.0);
    t := Texel(v, v, v, 255);
  }

  /** The healthy buffer's filling loops (main.js, `healthyNoiseData`). */
  method CreateHealthyData(noise: (real, real) -> real, size: nat) returns (data: array<Byte>)
    ensures fresh(data) && data[..] == HealthyBuffer(noise, size)
  {
    data := new Byte[size * size * 4];
    ghost var full := HealthyBuffer(noise, size);
    GridFull(size);
    var y := 0;
    while y < size
      invariant 0 <= y <= size
      invariant Slot(size, 0, y) <= data.Length
      invariant forall j :: 0 <= j < Slot(size, 0, y) ==> data[j] == full[j]
    {
      var x := 0;
      while x < size
        invariant 0 <= x <= size
        invariant Slot(size, x, y) <= data.Length
        invariant forall j :: 0 <= j < Slot(size, x, y) ==> data[j] == full[j]
      {
        var texel := ComputeHealthyTexel(noise, x, y);
        HealthyTexelBytes(noise, size, x, y);
        RowSlotStep(size, x, y);
        StoreTexel(data, size, x, y, texel, full);
        x := x + 1;
      }
      RowDone(size, y);
      y := y + 1;
    }
  }

  /** Every healthy texel is gray and opaque, with brightness bytes in [178, 254] (the 0.7 to 1.0 range times 255). */
  lemma HealthyTexelRange(noise: (real, real) -> real, x: nat, y: nat)
    requires UnitNoise(noise)
    ensures HealthyTexel(noise, x, y).r == HealthyTexel(noise, x, y).g == HealthyTexel(noise, x, y).b
    ensures HealthyTexel(noise, x, y).a == 255
    ensures 178 <= HealthyTexel(noise, x, y).r <= 254
  {
    FractalBounds(noise, x as real / 150.0, y as real / 150.0, HealthyOctaves);
    var v := HealthyValue(noise, x, y);
    assert 0.7 <= v < 1.0;
    ToUint8InRange(v * 255.0);
  }

  /** Byte i of the healthy buffer: 255 in every alpha byte, [178, 254] in every color byte. */
  lemma HealthyBufferBytes(noise: (real, real) -> real, size: nat, i: nat)
    requires UnitNoise(noise)
    requires i < |HealthyBuffer(noise, size)|
    ensures i % 4 == 3 ==> HealthyBuffer(noise, size)[i] == 255
    ensures i % 4 < 3 ==> 178 <= HealthyBuffer(noise, size)[i] <= 254
  {
    var x, y, c := GridCovers(HealthyPixel(noise), size, i);
    HealthyTexelRange(noise, x, y);
  }

  // ---------------------------------------------------------------- fibrotic buffer

  /** Octave counts and scales of the two fibrotic layers: a coarse base and a fine detail. */
  const FibrosisBaseOctaves: nat := 6
  const FibrosisDetailOctaves: nat := 3

  /** The fibrotic blend of texel (x, y): 0.7 of 6-octave noise at scale 1/100 plus 0.3 of 3-octave noise at scale 1/30. */
  function FibrosisValue(noise: (real, real) -> real, x: nat, y: nat): real
  {
    Fractal(noise, x as real / 100.0, y as real / 100.0, FibrosisBaseOctaves) * 0.7
      + Fractal(noise, x as real / 30.0, y as real / 30.0, FibrosisDetailOctaves) * 0.3
  }

  /** Fibrotic texel (x, y): red, green and blue ramps of the blend, floored, stored as bytes; A opaque. */
  function FibrosisTexel(noise: (real, real) -> real, x: nat, y: nat): Texel
  {
    var v := FibrosisValue(noise, x, y);
    Texel(ToUint8((255.0 * (0.6 + v * 0.4)).Floor as real),
          ToUint8((255.0 * (0.2 + v * 0.2)).Floor as real),
          ToUint8((255.0 * (0.2 + v * 0.1)).Floor as real),
          255)
  }

  function FibrosisPixel(noise: (real, real) -> real): (nat, nat) -> Texel
  {
    (x: nat, y: nat) => FibrosisTexel(noise, x, y)
  }

  /** The fibrotic buffer of a size x size texture. */
  function FibrosisBuffer(noise: (real, real) -> real, size: nat): seq<Byte>
  {
    Grid(FibrosisPixel(noise), size, size)
  }

  /** The four bytes of fibrotic texel (x, y) in the fibrotic buffer. */
  lemma FibrosisTexelBytes(noise: (real, real) -> real, size: nat, x: nat, y: nat)
    requires x < size && y < size
    ensures Slot(size, x, y) + 4 <= |FibrosisBuffer(noise, size)|
    ensures FibrosisBuffer(noise, size)[Slot(size, x, y)] == FibrosisTexel(noise, x, y).r
    ensures FibrosisBuffer(noise, size)[Slot(size, x, y) + 1] == FibrosisTexel(noise, x, y).g
    ensures FibrosisBuffer(noise, size)[Slot(size, x, y) + 2] == FibrosisTexel(noise, x, y).b
    ensures FibrosisBuffer(noise, size)[Slot(size, x, y) + 3] == 255
  {
    GridAt(FibrosisPixel(noise), size, size, x, y, 0);
    GridAt(FibrosisPixel(noise), size, size, x, y, 1);
    GridAt(FibrosisPixel(noise), size, size, x, y, 2);
    GridAt(FibrosisPixel(noise), size, size, x, y, 3);
  }

  /** One pass of the fibrotic loop body: two fractal samples blended 0.7 / 0.3, mapped onto three floored colour ramps. */
  method ComputeFibrosisTexel(noise: (real, real) -> real, x: nat, y: nat) returns (t: Texel)
    ensures t == FibrosisTexel(noise, x, y)
  {
    var baseNoise := FractalNoise(noise, x as real / 100.0, y as real / 100.0, FibrosisBaseOctaves);
    var detailNoise := FractalNoise(noise, x as real / 30.0, y as real / 30.0, FibrosisDetailOctaves);
    var noiseValue := baseNoise * 0.7 + detailNoise * 0.3;
    var r := (255.0 * (0.6 + noiseValue * 0.4)).Floor;
    var g := (255.0 * (0.2 + noiseValue * 0.2)).Floor;
    var b := (255.0 * (0.2 + noiseValue * 0.1)).Floor;
    t := Texel(ToUint8(r as real), ToUint8(g as real), ToUint8(b as real), 255);
  }

  /** The fibrotic buffer's filling loops (main.js, `fibrosisNoiseData`). */
  method CreateFibrosisData(noise: (real, real) -> real, size: nat) returns (data: array<Byte>)
    ensures fresh(data) && data[..] == FibrosisBuffer(noise, size)
  {
    data := new Byte[size * size * 4];
    ghost var full := FibrosisBuffer(noise, size);
    GridFull(size);
    var y := 0;
    while y < size
      invariant 0 <= y <= size
      invariant Slot(size, 0, y) <= data.Length
      invariant forall j :: 0 <= j < Slot(size, 0, y) ==> data[j] == full[j]
    {
      var x := 0;
      while x < size
        invariant 0 <= x <= size
        invariant Slot(size, x, y) <= data.Length
        invariant forall j :: 0 <= j < Slot(size, x, y) ==> data[j] == full[j]
      {
        var texel := ComputeFibrosisTexel(noise, x, y);
        FibrosisTexelBytes(noise, size, x, y);
        RowSlotStep(size, x, y);
        StoreTexel(data, size, x, y, texel, full);
        x := x + 1;
      }
      RowDone(size, y);
      y := y + 1;
    }
  }

  /** The fibrotic blend of two unit layers is a unit value. */
  lemma FibrosisValueRange(noise: (real, real) -> real, x: nat, y: nat)
    requires UnitNoise(noise)
    ensures 0.0 <= FibrosisValue(noise, x, y) < 1.0
  {
    FractalBounds(noise, x as real / 100.0, y as real / 100.0, FibrosisBaseOctaves);
    FractalBounds(noise, x as real / 30.0, y as real / 30.0, FibrosisDetailOctaves);
  }

  /** Every fibrotic texel is opaque, red-dominated and blue-poorest: R in [153, 254], G in [51, 101], B in [51, 76], R > G >= B. */
  lemma FibrosisTexelRange(noise: (real, real) -> real, x: nat, y: nat)
    requires UnitNoise(noise)
    ensures FibrosisTexel(noise, x, y).a == 255
    ensures 153 <= FibrosisTexel(noise, x, y).r <= 254
    ensures 51 <= FibrosisTexel(noise, x, y).g <= 101
    ensures 51 <= FibrosisTexel(noise, x, y).b <= 76
    ensures FibrosisTexel(noise, x, y).r > FibrosisTexel(noise, x, y).g >= FibrosisTexel(noise, x, y).b
  {
    var v := FibrosisValue(noise, x, y);
    FibrosisValueRange(noise, x, y);
    var r, g, b := 255.0 * (0.6 + v * 0.4), 255.0 * (0.2 + v * 0.2), 255.0 * (0.2 + v * 0.1);
    assert 153.0 <= r < 255.0 && 51.0 <= g < 102.0 && 51.0 <= b < 76.5 && b <= g;
    ToUint8InRange(r.Floor as real);
    ToUint8InRange(g.Floor as real);
    ToUint8InRange(b.Floor as real);
  }

  /** Byte i of the fibrotic buffer lies in its channel's range; alpha bytes are 255. */
  lemma FibrosisBufferBytes(noise: (real, real) -> real, size: nat, i: nat)
    requires UnitNoise(noise)
    requires i < |FibrosisBuffer(noise, size)|
    ensures i % 4 == 0 ==> 153 <= FibrosisBuffer(noise, size)[i] <= 254
    ensures i % 4 == 1 ==> 51 <= FibrosisBuffer(noise, size)[i] <= 101
    ensures i % 4 == 2 ==> 51 <= FibrosisBuffer(noise, size)[i] <= 76
    ensures i % 4 == 3 ==> FibrosisBuffer(noise, size)[i] == 255
  {
    var x, y, c := GridCovers(FibrosisPixel(noise), size, i);
    FibrosisTexelRange(noise, x, y);
  }
}
