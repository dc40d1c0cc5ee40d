/**
 * The two pixel effects: a grain pass that perturbs the colour channels of
 * an RGBA buffer in place, and the radial gradient of the vignette.
 */
module Effects {

  /** One element of a Uint8ClampedArray. */
  type Byte = x: int | 0 <= x < 256

  const GRAIN_AMPLITUDE: real := 50.0
  const GRAIN_LIMIT: real := 30.0

  function Max(a: real, b: real): real { if a >= b then a else b }

  function Min(a: real, b: real): real { if a <= b then a else b }

  /**
   * The grain offset of one pixel: the noise sample scaled by
   * intensity times the amplitude, limited to plus or minus 30.
   */
  function GrainValue(sample: real, intensity: real): (g: real)
    ensures -GRAIN_LIMIT <= g <= GRAIN_LIMIT
    ensures intensity == 0.0 ==> g == 0.0
    ensures (-GRAIN_LIMIT <= sample * (intensity * GRAIN_AMPLITUDE) <= GRAIN_LIMIT)
            ==> g == sample * (intensity * GRAIN_AMPLITUDE)
  {
    Max(-GRAIN_LIMIT, Min(GRAIN_LIMIT, sample * (intensity * GRAIN_AMPLITUDE)))
  }

  /**
   * The store into a Uint8ClampedArray (ToUint8Clamp of ECMA-262): clamp
   * to 0..255, then round to the nearest integer, ties to even.
   */
  function ToUint8Clamp(v: real): (b: Byte)
  {
    if v <= 0.0 then 0
    else if v >= 255.0 then 255
    else
      var f := v.Floor;
      if (f as real) + 0.5 < v then f + 1
      else if v < (f as real) + 0.5 then f
      else if f % 2 == 1 then f + 1
      else f
  }

  /** A value within k of a byte d is stored within k of d. */
  lemma ClampStaysNear(v: real, d: Byte, k: nat)
    requires (d - k) as real <= v <= (d + k) as real
    ensures d - k <= ToUint8Clamp(v) <= d + k
  {
  }

  /** Storing a byte value gives back that byte. */
  lemma ClampOfByte(d: Byte)
    ensures ToUint8Clamp(d as real) == d
  {
  }

  /** Column of pixel p in a row of `width` pixels. */
  function PixelX(p: nat, width: nat): nat
    requires width > 0
  {
    p % width
  }

  /** Row of pixel p in a row of `width` pixels. */
  function PixelY(p: nat, width: nat): nat
    requires width > 0
  {
    p / width
  }

  /** The pixel coordinates are well formed: x lies inside the row and y·width + x recovers the pixel. */
  lemma PixelCoordinates(p: nat, width: nat)
    requires width > 0
    ensures PixelX(p, width) < width
    ensures PixelY(p, width) * width + PixelX(p, width) == p
  {
  }

  /** A colour byte after adding grain g: `Math.max(0, d + g)` stored into the clamped array. */
  function GrainByte(d: Byte, g: real): Byte
  {
    ToUint8Clamp(Max(0.0, d as real + g))
  }

  /**
   * Byte i of the buffer after the grain pass: alpha bytes (i mod 4 = 3)
   * are kept, the colour bytes of pixel i/4 get max(0, d + grain) stored.
   */
  function GrainedAt(s: seq<Byte>, i: nat, width: nat, noise: (int, int) -> real, intensity: real): Byte
    requires width > 0 && i < |s|
  {
    if i % 4 == 3 then s[i]
    else
      var p := i / 4;
      GrainByte(s[i], GrainValue(noise(PixelX(p, width), PixelY(p, width)), intensity))
  }

  /** The whole buffer after the grain pass. */
  function Grained(s: seq<Byte>, width: nat, noise: (int, int) -> real, intensity: real): (r: seq<Byte>)
    requires width > 0
  {
    seq(|s|, i requires 0 <= i < |s| => GrainedAt(s, i, width, noise, intensity))
  }

  /** The four bytes of the pixel that starts at byte i, after the grain pass. */
  lemma GrainedPixel(s: seq<Byte>, i: nat, width: nat, noise: (int, int) -> real, intensity: real)
    requires width > 0 && i % 4 == 0 && i + 3 < |s|
    ensures var g := GrainValue(noise(PixelX(i / 4, width), PixelY(i / 4, width)), intensity);
      && GrainedAt(s, i, width, noise, intensity) == GrainByte(s[i], g)
      && GrainedAt(s, i + 1, width, noise, intensity) == GrainByte(s[i + 1], g)
      && GrainedAt(s, i + 2, width, noise, intensity) == GrainByte(s[i + 2], g)
      && GrainedAt(s, i + 3, width, noise, intensity) == s[i + 3]
  {
    assert (i + 1) / 4 == i / 4 && (i + 2) / 4 == i / 4 && (i + 3) % 4 == 3;
  }

  /**
   * The grain pass over an RGBA buffer of width × height pixels: one loop
   * step per pixel, writing its R, G and B bytes in place.
   */
  method ApplyGrainEffect(data: array<Byte>, width: nat, height: nat, noise: (int, int) -> real, intensity: real)
    requires width > 0 && height > 0 && data.Length == 4 * width * height
    modifies data
    ensures data[..] == Grained(old(data[..]), width, noise, intensity)
  {
    ghost var s := data[..];
    ghost var pixels := width * height;
    assert data.Length == 4 * pixels;
    var i := 0;
    ghost var p := 0;
    while i < data.Length
      invariant 0 <= p <= pixels && i == 4 * p && |s| == data.Length
      invariant forall k :: 0 <= k < i ==> data[k] == GrainedAt(s, k, width, noise, intensity)
      invariant forall k :: i <= k < data.Length ==> data[k] == s[k]
    {
      GrainPixel(data, i, width, noise, intensity, s);
      forall k | 0 <= k < i + 4 ensures data[k] == GrainedAt(s, k, width, noise, intensity) {
        if k >= i {
          assert k == i || k == i + 1 || k == i + 2 || k == i + 3;
        }
      }
      i := i + 4;
      p := p + 1;
    }
    assert data[..] == Grained(s, width, noise, intensity);
  }

  /** One step of the grain pass: the pixel starting at byte i gets its grain. */
  method GrainPixel(data: array<Byte>, i: nat, width: nat, noise: (int, int) -> real, intensity: real,
                    ghost s: seq<Byte>)
    requires width > 0 && i % 4 == 0 && i + 3 < data.Length && |s| == data.Length
    requires forall k :: i <= k < i + 4 ==> data[k] == s[k]
    modifies data
    ensures forall k :: 0 <= k < data.Length && !(i <= k < i + 4) ==> data[k] == old(data[k])
    ensures data[i] == GrainedAt(s, i, width, noise, intensity)
    ensures data[i + 1] == GrainedAt(s, i + 1, width, noise, intensity)
    ensures data[i + 2] == GrainedAt(s, i + 2, width, noise, intensity)
    ensures data[i + 3] == GrainedAt(s, i + 3, width, noise, intensity)
  {
    var x := PixelX(i / 4, width);
    var y := PixelY(i / 4, width);
    var grain := GrainValue(noise(x, y), intensity);
    GrainedPixel(s, i, width, noise, intensity);
    data[i] := GrainByte(data[i], grain);
    data[i + 1] := GrainByte(data[i + 1], grain);
    data[i + 2] := GrainByte(data[i + 2], grain);
  }

  /** The grain pass keeps the length of the buffer and never touches an alpha byte. */
  lemma GrainKeepsAlpha(s: seq<Byte>, width: nat, noise: (int, int) -> real, intensity: real)
    requires width > 0
    ensures |Grained(s, width, noise, intensity)| == |s|
    ensures forall i :: 0 <= i < |s| && i % 4 == 3 ==> Grained(s, width, noise, intensity)[i] == s[i]
  {
  }

  /** Every byte of the buffer moves by at most 30 in the grain pass. */
  lemma GrainChangeBounded(s: seq<Byte>, width: nat, noise: (int, int) -> real, intensity: real)
    requires width > 0
    ensures forall i :: 0 <= i < |s| ==>
              s[i] as int - 30 <= Grained(s, width, noise, intensity)[i] as int <= s[i] as int + 30
  {
    forall i | 0 <= i < |s|
      ensures s[i] as int - 30 <= Grained(s, width, noise, intensity)[i] as int <= s[i] as int + 30
    {
      if i % 4 != 3 {
        var p := i / 4;
        var g := GrainValue(noise(PixelX(p, width), PixelY(p, width)), intensity);
        ClampStaysNear(Max(0.0, s[i] as real + g), s[i], 30);
      }
    }
  }

  /** Grain with intensity 0 leaves the buffer as it was. */
  lemma GrainZeroIntensity(s: seq<Byte>, width: nat, noise: (int, int) -> real)
    requires width > 0
    ensures Grained(s, width, noise, 0.0) == s
  {
    forall i | 0 <= i < |s| ensures Grained(s, width, noise, 0.0)[i] == s[i] {
      ClampOfByte(s[i]);
    }
  }

  /** A colour stop of a canvas gradient: offset along the radius, black with this opacity. */
  datatype ColorStop = ColorStop(offset: real, alpha: real)

  /** createRadialGradient(x0, y0, r0, x1, y1, r1) with its colour stops. */
  datatype RadialGradient = RadialGradient(x0: real, y0: real, r0: real, x1: real, y1: real, r1: real, stops: seq<ColorStop>)

  /** The vignette's gradient for a w × h canvas. */
  function VignetteGradient(w: real, h: real, intensity: real): RadialGradient
  {
    RadialGradient(w / 2.0, h / 2.0, 0.0, w / 2.0, h / 2.0, Max(w / 2.0, h / 2.0),
      [ColorStop(0.0, 0.0), ColorStop(0.7, intensity * 0.5), ColorStop(1.0, intensity)])
  }

  /**
   * The vignette is transparent at the centre and darkens outwards: stops at
   * 0, 0.7 and 1 whose opacities are 0, half the intensity and the intensity,
   * nondecreasing for a non-negative intensity and all zero for intensity 0.
   */
  lemma VignetteStops(w: real, h: real, intensity: real)
    ensures var st := VignetteGradient(w, h, intensity).stops;
      && |st| == 3
      && st[0].offset == 0.0 && st[1].offset == 0.7 && st[2].offset == 1.0
      && st[0].alpha == 0.0 && st[1].alpha == intensity / 2.0 && st[2].alpha == intensity
      && (intensity >= 0.0 ==> forall i, j :: 0 <= i <= j < 3 ==> 0.0 <= st[i].alpha <= st[j].alpha)
      && (intensity == 0.0 ==> forall i :: 0 <= i < 3 ==> st[i].alpha == 0.0)
  {
  }

  /**
   * The gradient is centred on the canvas, starts as a point there and
   * reaches the farther pair of edges: its outer radius is the larger
   * half-dimension.
   */
  lemma VignetteGeometry(w: real, h: real, intensity: real)
    requires w >= 0.0 && h >= 0.0
    ensures var g := VignetteGradient(w, h, intensity);
      && g.x0 == g.x1 && g.y0 == g.y1 && 2.0 * g.x0 == w && 2.0 * g.y0 == h && g.r0 == 0.0
      && g.r1 >= w / 2.0 && g.r1 >= h / 2.0 && (g.r1 == w / 2.0 || g.r1 == h / 2.0)
  {
  }
}
