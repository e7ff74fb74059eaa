/**
 * The "liquid glass" displacement-map pipeline: a 1-D refraction profile sampled
 * along a radius, and its rasterisation into the RGBA bytes of a square image
 * whose red and green channels encode a per-pixel displacement vector.
 *
 * Numbers are modelled as `real`. The parts of the optics that need
 * transcendental functions (the normal's length, acos, asin, sin, tan) and the
 * host's `Math.sqrt`, `Math.cos(Math.atan2(..))`, `Math.sin(Math.atan2(..))`
 * are passed in as function values; what the model relies on about them is
 * stated by `HostMath.Valid`.
 */
module GlassPhysics {

  /** Step of the central-difference derivative (the default `delta`). */
  const DerivativeStep: real := 0.001
  /** Width, in pixels, of the anti-aliased rim of the circle. */
  const EdgeWidth: real := 2.0
  /** Channel value that encodes "no displacement". */
  const Neutral: int := 128
  /** Alpha channel value of every pixel: fully opaque. */
  const Opaque: int := 255

  function Abs(x: real): (r: real)
    ensures r >= 0.0 && (r == x || r == -x)
  {
    if x < 0.0 then -x else x
  }

  // ---------------------------------------------------------------------------
  // The optical profile
  // ---------------------------------------------------------------------------

  /**
   * The glass surface height at position x (0 = edge). As written the
   * expression is 1 - ((1 - x)^4)^0.25, and the principal fourth root of
   * (1 - x)^4 is |1 - x|, so the surface never rises above 1 and on [0, 1]
   * it is the straight ramp h(x) = x.
   */
  function SurfaceHeight(x: real): (h: real)
    ensures h <= 1.0
    ensures 0.0 <= x <= 1.0 ==> h == x
  {
    1.0 - Abs(1.0 - x)
  }

  /**
   * `1 - SurfaceHeight(x)` is the non-negative fourth root of (1 - x)^4, which
   * is what `Math.pow(1 - x, 4) ** 0.25` computes.
   */
  lemma SurfaceHeightIsFourthRootForm(x: real)
    ensures var a := 1.0 - SurfaceHeight(x);
            a >= 0.0 && a * a * a * a == (1.0 - x) * (1.0 - x) * (1.0 - x) * (1.0 - x)
  {
    var a := 1.0 - SurfaceHeight(x);
    assert a * a == (1.0 - x) * (1.0 - x);
  }

  /**
   * Central-difference slope of the surface at x. The surface is 1-Lipschitz,
   * so the slope lies in [-1, 1]; left of the crest (x + delta <= 1) it is
   * exactly 1 and right of it (x - delta >= 1) exactly -1.
   */
  function Derivative(x: real): (s: real)
    ensures -1.0 <= s <= 1.0
    ensures x + DerivativeStep <= 1.0 ==> s == 1.0
    ensures x - DerivativeStep >= 1.0 ==> s == -1.0
  {
    var y1 := SurfaceHeight(x - DerivativeStep);
    var y2 := SurfaceHeight(x + DerivativeStep);
    (y2 - y1) / (2.0 * DerivativeStep)
  }

  /**
   * Displacement magnitude at a normalised position inside the bevel.
   * `tanDeviation(slope)` stands for tan(refractedAngle - incidentAngle), where
   * the incident angle is that of a vertical ray against the unit normal
   * (-slope, 1) and the refracted angle follows Snell's law from air (1.0)
   * into glass (1.5). The result is an absolute value, so it is never
   * negative, and it vanishes where the surface height does (at the edge) and
   * for a glass of zero thickness.
   */
  function CalculateDisplacement(u: real, glassThickness: real, tanDeviation: real -> real): (d: real)
    ensures d >= 0.0
    ensures u == 0.0 || glassThickness == 0.0 ==> d == 0.0
    ensures 0.0 <= u <= 1.0 ==> d == Abs(u * glassThickness * tanDeviation(Derivative(u)))
  {
    var height := SurfaceHeight(u);
    var slope := Derivative(u);
    var actualThickness := height * glassThickness;
    assert height == 0.0 || glassThickness == 0.0 ==> actualThickness == 0.0;
    assert actualThickness == 0.0 ==> actualThickness * tanDeviation(slope) == 0.0;
    Abs(actualThickness * tanDeviation(slope))
  }

  /**
   * Sample i is free of NaN: the only NaN-producing case is 0/0 at index 0 of
   * a profile with at least two samples and a zero bezel width.
   */
  predicate SampleDefined(samples: nat, bezelWidth: real, i: nat)
  {
    samples == 1 || bezelWidth != 0.0 || i > 0
  }

  /**
   * Entry i of the profile. With t = i / (samples - 1), the entry is 0 past
   * the bezel (t > bezelWidth) and the displacement at t / bezelWidth inside
   * it. For a single sample t is 0/0, a NaN, and `NaN <= bezelWidth` is false,
   * so the entry is 0.
   */
  function ProfileEntry(samples: nat, bezelWidth: real, glassThickness: real, tanDeviation: real -> real, i: nat): (e: real)
    requires i < samples
    requires SampleDefined(samples, bezelWidth, i)
    ensures e >= 0.0
    ensures i == 0 ==> e == 0.0
    ensures samples >= 2 && (i as real) > bezelWidth * ((samples - 1) as real) ==> e == 0.0
  {
    if samples == 1 then 0.0
    else
      var m := (samples - 1) as real;
      var t := (i as real) / m;
      assert t * m == i as real;
      assert (i as real) > bezelWidth * m ==> t > bezelWidth by {
        if t <= bezelWidth { MulMono(t, bezelWidth, m); }
      }
      if t <= bezelWidth then
        assert t == 0.0 ==> i == 0;
        CalculateDisplacement(t / bezelWidth, glassThickness, tanDeviation)
      else
        0.0
  }

  /** Largest element of a non-empty sequence (`Math.max(...s)`). */
  function SeqMax(s: seq<real>): (m: real)
    requires |s| >= 1
    ensures forall i :: 0 <= i < |s| ==> s[i] <= m
    ensures m in s
  {
    if |s| == 1 then s[0]
    else
      var rest := SeqMax(s[1..]);
      if s[0] >= rest then s[0] else rest
  }

  /** The profile returned by the generator: the samples and their maximum. */
  datatype DisplacementData = DisplacementData(displacements: seq<real>, maxDisplacement: real)

  /** What the generator guarantees of its result. */
  predicate IsProfile(data: DisplacementData)
  {
    && |data.displacements| >= 1
    && data.maxDisplacement in data.displacements
    && forall i :: 0 <= i < |data.displacements| ==> 0.0 <= data.displacements[i] <= data.maxDisplacement
  }

  /**
   * Builds the profile by pushing one entry per sample index, then takes the
   * maximum.
   */
  method GenerateDisplacementArray(samples: nat, bezelWidth: real, glassThickness: real, tanDeviation: real -> real)
    returns (data: DisplacementData)
    requires samples >= 1
    requires samples == 1 || bezelWidth != 0.0
    ensures |data.displacements| == samples
    ensures forall i :: 0 <= i < samples ==>
              data.displacements[i] == ProfileEntry(samples, bezelWidth, glassThickness, tanDeviation, i)
    ensures data.maxDisplacement == SeqMax(data.displacements)
    ensures IsProfile(data)
  {
    var displacements: seq<real> := [];
    var i: nat := 0;
    while i < samples
      invariant i <= samples
      invariant |displacements| == i
      invariant forall j :: 0 <= j < i ==>
                  displacements[j] == ProfileEntry(samples, bezelWidth, glassThickness, tanDeviation, j)
    {
      var displacement := 0.0;
      // With a single sample t is NaN and the comparison below is false.
      if samples > 1 {
        var t := (i as real) / ((samples - 1) as real);
        if t <= bezelWidth {
          var normalizedDistance := t / bezelWidth;
          displacement := CalculateDisplacement(normalizedDistance, glassThickness, tanDeviation);
        }
      }
      displacements := displacements + [displacement];
      i := i + 1;
    }
    var maxDisplacement := SeqMax(displacements);
    data := DisplacementData(displacements, maxDisplacement);
  }

  /**
   * A zero bezel width flattens the whole profile: every entry after index 0
   * is 0, whatever the thickness.
   */
  lemma ZeroBezelIsFlat(samples: nat, glassThickness: real, tanDeviation: real -> real, i: nat)
    requires 1 <= i < samples
    ensures ProfileEntry(samples, 0.0, glassThickness, tanDeviation, i) == 0.0
  {
  }

  /**
   * With a bezel narrower than the radius the last sample (t = 1, the flat
   * interior) is 0.
   */
  lemma LastSampleIsFlat(samples: nat, bezelWidth: real, glassThickness: real, tanDeviation: real -> real)
    requires samples >= 2 && bezelWidth < 1.0
    ensures ProfileEntry(samples, bezelWidth, glassThickness, tanDeviation, samples - 1) == 0.0
  {
    var m := (samples - 1) as real;
    if bezelWidth >= 0.0 {
      assert bezelWidth * m < 1.0 * m;
    }
  }

  /**
   * The maximum of a non-negative profile is 0 exactly when every entry is 0:
   * only a flat profile makes the rasteriser divide by a zero maximum.
   */
  lemma ZeroMaxIffFlat(data: DisplacementData)
    requires IsProfile(data)
    ensures data.maxDisplacement == 0.0 <==> forall i :: 0 <= i < |data.displacements| ==> data.displacements[i] == 0.0
  {
  }

  // ---------------------------------------------------------------------------
  // Host arithmetic
  // ---------------------------------------------------------------------------

  /**
   * The host's square root and the cosine and sine of `Math.atan2(dy, dx)`.
   */
  datatype HostMath = HostMath(sqrt: real -> real, cosAtan2: (real, real) -> real, sinAtan2: (real, real) -> real)
  {
    ghost predicate Valid()
    {
      && (forall q :: 0.0 <= q ==> 0.0 <= sqrt(q) && sqrt(q) * sqrt(q) == q)
      && (forall dy, dx :: -1.0 <= cosAtan2(dy, dx) <= 1.0)
      && (forall dy, dx :: -1.0 <= sinAtan2(dy, dx) <= 1.0)
    }
  }

  lemma MulMono(x: real, y: real, z: real)
    requires x <= y && 0.0 <= z
    ensures x * z <= y * z
  {
  }

  lemma MulUnitBound(c: real, m: real)
    requires -1.0 <= c <= 1.0 && 0.0 <= m
    ensures -m <= c * m <= m
  {
    MulMono(c, 1.0, m);
    MulMono(-1.0, c, m);
    assert 1.0 * m == m;
    assert -1.0 * m == -m;
  }

  lemma MulPos(x: real, y: real)
    requires 0.0 < x && 0.0 < y
    ensures 0.0 < x * y
  {
  }

  lemma SquareLe(a: real, b: real)
    requires 0.0 <= a && 0.0 <= b
    ensures a <= b <==> a * a <= b * b
  {
    assert (b - a) * (b + a) == b * b - a * a;
    if a < b {
      MulPos(b - a, b + a);
    } else if b < a {
      MulPos(a - b, b + a);
      assert (a - b) * (b + a) == a * a - b * b;
    }
  }

  // ---------------------------------------------------------------------------
  // Rasterisation of the circle
  // ---------------------------------------------------------------------------

  /** Pixel coordinate relative to the image centre `size / 2`. */
  function Delta(size: nat, c: nat): real
  {
    c as real - size as real / 2.0
  }

  function SquaredLength(dx: real, dy: real): (d2: real)
    ensures d2 >= 0.0
  {
    dx * dx + dy * dy
  }

  /** Squared distance of pixel (x, y) from the centre. */
  function SquaredDistance(size: nat, x: nat, y: nat): (d2: real)
    ensures d2 >= 0.0
  {
    SquaredLength(Delta(size, x), Delta(size, y))
  }

  /** The inside test, on squared distances. */
  predicate Inside(size: nat, radius: real, x: nat, y: nat)
  {
    0.0 < radius && SquaredDistance(size, x, y) <= radius * radius
  }

  /**
   * The squared-distance test agrees with the source's `distance <= radius`
   * on the host's square root, for every radius the rasteriser accepts.
   */
  lemma InsideMatchesDistanceTest(size: nat, radius: real, host: HostMath, x: nat, y: nat)
    requires host.Valid() && radius != 0.0
    ensures Inside(size, radius, x, y) <==> host.sqrt(SquaredDistance(size, x, y)) <= radius
  {
    var d2 := SquaredDistance(size, x, y);
    var distance := host.sqrt(d2);
    if 0.0 < radius {
      SquareLe(distance, radius);
    }
  }

  /**
   * Index of the profile sample for a pixel at `distance` from the centre:
   * floor(distance / radius * (len - 1)). It stays within [0, len - 1], is 0
   * at the centre and len - 1 on the rim.
   */
  function SampleIndex(distance: real, radius: real, len: nat): (k: nat)
    requires 0.0 < radius && 0.0 <= distance <= radius && len >= 1
    ensures k <= len - 1
    ensures (k as real) <= distance / radius * ((len - 1) as real) < (k as real) + 1.0
    ensures distance == 0.0 ==> k == 0
    ensures distance == radius ==> k == len - 1
  {
    var normalizedDistance := distance / radius;
    assert normalizedDistance * radius == distance;
    assert 0.0 <= normalizedDistance <= 1.0;
    var position := normalizedDistance * ((len - 1) as real);
    MulMono(normalizedDistance, 1.0, (len - 1) as real);
    MulMono(0.0, normalizedDistance, (len - 1) as real);
    position.Floor
  }

  /**
   * Anti-aliasing weight min(1, (radius - distance) / 2): within [0, 1], equal
   * to 1 at least two pixels inside the rim and linear in the rim band.
   */
  function EdgeAlpha(distance: real, radius: real): (alpha: real)
    requires distance <= radius
    ensures 0.0 <= alpha <= 1.0
    ensures alpha == 1.0 <==> radius - distance >= EdgeWidth
    ensures alpha < 1.0 ==> alpha * EdgeWidth == radius - distance
  {
    var edgeDistance := radius - distance;
    if 1.0 <= edgeDistance / EdgeWidth then 1.0 else edgeDistance / EdgeWidth
  }

  lemma ProductInUnit(c: real, m: real, a: real)
    requires -1.0 <= c <= 1.0 && 0.0 <= m <= 1.0 && 0.0 <= a <= 1.0
    ensures -1.0 <= c * m * a <= 1.0
  {
    MulUnitBound(c, m);
    var cm := c * m;
    MulUnitBound(cm, a);
    assert -1.0 <= cm * a <= 1.0;
  }

  lemma NormalizedInUnit(v: real, max: real)
    requires 0.0 <= v <= max && max != 0.0
    ensures 0.0 <= v / max <= 1.0
  {
    assert (v / max) * max == v;
  }

  /**
   * Red and green of a pixel inside the circle, at `distance` from the centre
   * and in the direction whose cosine and sine are given: the sample at
   * `SampleIndex` divided by the maximum, projected on that direction, scaled
   * by 127 and faded by `EdgeAlpha`, around the neutral 128. For a profile
   * built by the generator both values lie in [1, 255], so the byte store
   * never clamps them.
   */
  function InsideShade(distance: real, radius: real, data: DisplacementData, cosAngle: real, sinAngle: real): (rg: (real, real))
    requires 0.0 < radius && 0.0 <= distance <= radius
    requires |data.displacements| >= 1 && data.maxDisplacement != 0.0
    requires -1.0 <= cosAngle <= 1.0 && -1.0 <= sinAngle <= 1.0
    ensures IsProfile(data) ==> 1.0 <= rg.0 <= 255.0 && 1.0 <= rg.1 <= 255.0
    ensures data.displacements[SampleIndex(distance, radius, |data.displacements|)] == 0.0 ==> rg == (128.0, 128.0)
  {
    var sampleIndex := SampleIndex(distance, radius, |data.displacements|);
    var normalizedMagnitude := data.displacements[sampleIndex] / data.maxDisplacement;
    var alpha := EdgeAlpha(distance, radius);
    var r := 128.0 + cosAngle * normalizedMagnitude * 127.0 * alpha;
    var g := 128.0 + sinAngle * normalizedMagnitude * 127.0 * alpha;
    assert data.displacements[sampleIndex] == 0.0 ==> r == 128.0 && g == 128.0 by {
      if data.displacements[sampleIndex] == 0.0 {
        assert normalizedMagnitude == 0.0;
        assert cosAngle * normalizedMagnitude == 0.0 && sinAngle * normalizedMagnitude == 0.0;
        assert 0.0 * 127.0 * alpha == 0.0;
      }
    }
    assert IsProfile(data) ==> 1.0 <= r <= 255.0 && 1.0 <= g <= 255.0 by {
      if IsProfile(data) {
        NormalizedInUnit(data.displacements[sampleIndex], data.maxDisplacement);
        ProductInUnit(cosAngle, normalizedMagnitude, alpha);
        ProductInUnit(sinAngle, normalizedMagnitude, alpha);
        assert cosAngle * normalizedMagnitude * 127.0 * alpha == 127.0 * (cosAngle * normalizedMagnitude * alpha);
        assert sinAngle * normalizedMagnitude * 127.0 * alpha == 127.0 * (sinAngle * normalizedMagnitude * alpha);
      }
    }
    (r, g)
  }

  /**
   * Red and green of pixel (x, y) before they are stored: neutral (128, 128)
   * outside the circle, `InsideShade` inside it, with the host's distance
   * from the centre and direction of atan2(dy, dx).
   */
  function PixelShade(size: nat, radius: real, data: DisplacementData, host: HostMath, x: nat, y: nat): (rg: (real, real))
    requires radius != 0.0 && |data.displacements| >= 1 && data.maxDisplacement != 0.0 && host.Valid()
    ensures !Inside(size, radius, x, y) ==> rg == (128.0, 128.0)
    ensures Inside(size, radius, x, y) && IsProfile(data) ==> 1.0 <= rg.0 <= 255.0 && 1.0 <= rg.1 <= 255.0
  {
    if Inside(size, radius, x, y) then
      InsideMatchesDistanceTest(size, radius, host, x, y);
      var dx := Delta(size, x);
      var dy := Delta(size, y);
      InsideShade(host.sqrt(SquaredDistance(size, x, y)), radius, data, host.cosAtan2(dy, dx), host.sinAtan2(dy, dx))
    else
      (128.0, 128.0)
  }

  /**
   * The conversion a `Uint8ClampedArray` applies on store (ToUint8Clamp of the
   * ECMAScript language specification): clamp to [0, 255], then round to the
   * nearest integer, ties to even.
   */
  function ToUint8Clamp(v: real): (b: int)
    ensures 0 <= b <= 255
    ensures v <= 0.0 ==> b == 0
    ensures v >= 255.0 ==> b == 255
    ensures 0.0 <= v <= 255.0 ==> -0.5 <= (b as real) - v <= 0.5
    ensures 0.0 <= v <= 255.0 && v - (v.Floor as real) == 0.5 ==> b % 2 == 0
    ensures 0.0 <= v <= 255.0 && v == (v.Floor as real) ==> b == v.Floor
  {
    if v <= 0.0 then 0
    else if v >= 255.0 then 255
    else
      var f := v.Floor;
      if (f as real) + 0.5 < v then f + 1
      else if v < (f as real) + 0.5 then f
      else if f % 2 == 0 then f
      else f + 1
  }

  /** One RGBA pixel as stored in the image buffer. */
  datatype Rgba = Rgba(r: int, g: int, b: int, a: int)

  /**
   * The stored pixel: every channel is a byte, blue is always 128 and alpha
   * always 255, and a pixel outside the circle is neutral (128, 128).
   */
  function PixelColor(size: nat, radius: real, data: DisplacementData, host: HostMath, x: nat, y: nat): (c: Rgba)
    requires radius != 0.0 && |data.displacements| >= 1 && data.maxDisplacement != 0.0 && host.Valid()
    ensures 0 <= c.r <= 255 && 0 <= c.g <= 255
    ensures c.b == Neutral && c.a == Opaque
    ensures !Inside(size, radius, x, y) ==> c.r == Neutral && c.g == Neutral
    ensures IsProfile(data) ==> 1 <= c.r && 1 <= c.g
  {
    var rg := PixelShade(size, radius, data, host, x, y);
    Rgba(ToUint8Clamp(rg.0), ToUint8Clamp(rg.1), Neutral, Opaque)
  }

  /** The first pixel of row y, counted in pixels. */
  function RowStart(size: nat, y: nat): nat
  {
    y * size
  }

  lemma {:induction false} RowStartGrows(size: nat, y0: nat, y1: nat)
    requires y0 < y1
    ensures RowStart(size, y0) + size <= RowStart(size, y1)
  {
    assert RowStart(size, y1) == RowStart(size, y1 - 1) + size;
    if y0 < y1 - 1 {
      RowStartGrows(size, y0, y1 - 1);
    }
  }

  /**
   * Byte offset of pixel (x, y): (y * size + x) * 4. The four bytes of the
   * pixel lie inside the size * size * 4 buffer.
   */
  function PixelOffset(size: nat, x: nat, y: nat): (o: nat)
    requires x < size && y < size
    ensures o % 4 == 0
    ensures o + 4 <= size * size * 4
  {
    RowStartGrows(size, y, size);
    (RowStart(size, y) + x) * 4
  }

  /** Two different pixels never share a byte. */
  lemma PixelOffsetsDisjoint(size: nat, x0: nat, y0: nat, x1: nat, y1: nat)
    requires x0 < size && y0 < size && x1 < size && y1 < size
    requires (x0, y0) != (x1, y1)
    ensures PixelOffset(size, x0, y0) + 4 <= PixelOffset(size, x1, y1)
         || PixelOffset(size, x1, y1) + 4 <= PixelOffset(size, x0, y0)
  {
    if y0 < y1 {
      RowStartGrows(size, y0, y1);
    } else if y1 < y0 {
      RowStartGrows(size, y1, y0);
    }
  }

  lemma RowStartMono(size: nat, y0: nat, y1: nat)
    requires y0 <= y1
    ensures RowStart(size, y0) <= RowStart(size, y1)
  {
    if y0 < y1 {
      RowStartGrows(size, y0, y1);
    }
  }

  /** Every byte of the buffer belongs to some pixel. */
  lemma PixelOffsetsCover(size: nat, i: nat)
    requires i < size * size * 4
    ensures exists x: nat, y: nat :: x < size && y < size && PixelOffset(size, x, y) <= i < PixelOffset(size, x, y) + 4
  {
    var p := i / 4;
    assert p < RowStart(size, size);
    assert size != 0;
    var y := p / size;
    var x := p % size;
    assert p == RowStart(size, y) + x;
    assert y < size by {
      if size <= y {
        RowStartMono(size, size, y);
      }
    }
    assert PixelOffset(size, x, y) == 4 * p;
  }

  /** The four bytes of pixel colour c stored at `offset` of buf. */
  predicate Holds(buf: seq<int>, offset: nat, c: Rgba)
    requires offset + 4 <= |buf|
  {
    buf[offset] == c.r && buf[offset + 1] == c.g && buf[offset + 2] == c.b && buf[offset + 3] == c.a
  }

  /** A pixel stays stored when only the bytes of another pixel are written. */
  lemma HoldsKept(before: seq<int>, after: seq<int>, written: nat, offset: nat, c: Rgba)
    requires |after| == |before| && offset + 4 <= |before| && written + 4 <= |before|
    requires offset + 4 <= written || written + 4 <= offset
    requires forall i :: 0 <= i < |before| && !(written <= i < written + 4) ==> after[i] == before[i]
    requires Holds(before, offset, c)
    ensures Holds(after, offset, c)
  {
  }

  /**
   * Writes pixel (x, y): its offset, its distance from the centre, the inside
   * test on that distance, and the four stored bytes. Only those four bytes
   * of the buffer change.
   */
  method PaintPixel(image: array<int>, size: nat, radius: real, data: DisplacementData, host: HostMath, x: nat, y: nat)
    requires radius != 0.0 && |data.displacements| >= 1 && data.maxDisplacement != 0.0 && host.Valid()
    requires x < size && y < size && image.Length == size * size * 4
    modifies image
    ensures Holds(image[..], PixelOffset(size, x, y), PixelColor(size, radius, data, host, x, y))
    ensures forall i :: 0 <= i < image.Length && !(PixelOffset(size, x, y) <= i < PixelOffset(size, x, y) + 4) ==>
              image[i] == old(image[i])
  {
    var center := size as real / 2.0;
    var pixelIndex := (y * size + x) * 4;
    assert pixelIndex == PixelOffset(size, x, y);

    var dx := x as real - center;
    var dy := y as real - center;
    var distance := host.sqrt(dx * dx + dy * dy);
    assert dx * dx + dy * dy == SquaredLength(dx, dy);
    assert dx == Delta(size, x) && dy == Delta(size, y);
    InsideMatchesDistanceTest(size, radius, host, x, y);

    var r, g := 128.0, 128.0;
    if distance <= radius {
      var rg := InsideShade(distance, radius, data, host.cosAtan2(dy, dx), host.sinAtan2(dy, dx));
      r, g := rg.0, rg.1;
    }
    assert (r, g) == PixelShade(size, radius, data, host, x, y);

    image[pixelIndex + 0] := ToUint8Clamp(r);
    image[pixelIndex + 1] := ToUint8Clamp(g);
    image[pixelIndex + 2] := Neutral;
    image[pixelIndex + 3] := Opaque;
  }

  /**
   * Pixels are painted in row-major order: every pixel of the rows above y
   * and the first x pixels of row y hold their colour.
   */
  predicate Painted(buf: seq<int>, size: nat, radius: real, data: DisplacementData, host: HostMath, y: nat, x: nat)
    requires radius != 0.0 && |data.displacements| >= 1 && data.maxDisplacement != 0.0 && host.Valid()
    requires |buf| == size * size * 4
  {
    && (forall yy, xx :: 0 <= yy < y && yy < size && 0 <= xx < size ==>
          Holds(buf, PixelOffset(size, xx, yy), PixelColor(size, radius, data, host, xx, yy)))
    && (forall xx :: 0 <= xx < x && xx < size && y < size ==>
          Holds(buf, PixelOffset(size, xx, y), PixelColor(size, radius, data, host, xx, y)))
  }

  /**
   * Painting pixel (x, y) without touching any other byte extends the painted
   * region by that one pixel.
   */
  lemma PaintStep(before: seq<int>, after: seq<int>, size: nat, radius: real, data: DisplacementData, host: HostMath, y: nat, x: nat)
    requires radius != 0.0 && |data.displacements| >= 1 && data.maxDisplacement != 0.0 && host.Valid()
    requires x < size && y < size && |before| == |after| == size * size * 4
    requires Painted(before, size, radius, data, host, y, x)
    requires Holds(after, PixelOffset(size, x, y), PixelColor(size, radius, data, host, x, y))
    requires forall i :: 0 <= i < |after| && !(PixelOffset(size, x, y) <= i < PixelOffset(size, x, y) + 4) ==>
               after[i] == before[i]
    ensures Painted(after, size, radius, data, host, y, x + 1)
  {
    var written := PixelOffset(size, x, y);
    forall yy, xx | 0 <= yy < y && 0 <= xx < size
      ensures Holds(after, PixelOffset(size, xx, yy), PixelColor(size, radius, data, host, xx, yy))
    {
      RowStartGrows(size, yy, y);
      HoldsKept(before, after, written, PixelOffset(size, xx, yy), PixelColor(size, radius, data, host, xx, yy));
    }
    forall xx | 0 <= xx < x
      ensures Holds(after, PixelOffset(size, xx, y), PixelColor(size, radius, data, host, xx, y))
    {
      HoldsKept(before, after, written, PixelOffset(size, xx, y), PixelColor(size, radius, data, host, xx, y));
    }
  }

  /** Paints row y, left to right, after the rows above it. */
  method PaintRow(image: array<int>, size: nat, radius: real, data: DisplacementData, host: HostMath, y: nat)
    requires radius != 0.0 && |data.displacements| >= 1 && data.maxDisplacement != 0.0 && host.Valid()
    requires y < size && image.Length == size * size * 4
    requires Painted(image[..], size, radius, data, host, y, 0)
    modifies image
    ensures Painted(image[..], size, radius, data, host, y + 1, 0)
  {
    var x: nat := 0;
    while x < size
      invariant x <= size
      invariant Painted(image[..], size, radius, data, host, y, x)
    {
      ghost var before := image[..];
      PaintPixel(image, size, radius, data, host, x, y);
      PaintStep(before, image[..], size, radius, data, host, y, x);
      x := x + 1;
    }
  }

  /**
   * Fills a fresh size x size RGBA buffer row by row. Every pixel (x, y) of
   * [0, size)^2 ends up holding `PixelColor` at its own offset.
   */
  method CreateDisplacementMap(size: nat, radius: real, data: DisplacementData, host: HostMath)
    returns (image: array<int>)
    requires size >= 1
    requires radius != 0.0 && |data.displacements| >= 1 && data.maxDisplacement != 0.0 && host.Valid()
    ensures fresh(image)
    ensures image.Length == size * size * 4
    ensures forall y, x :: 0 <= y < size && 0 <= x < size ==>
              Holds(image[..], PixelOffset(size, x, y), PixelColor(size, radius, data, host, x, y))
  {
    image := new int[size * size * 4];
    var y: nat := 0;
    while y < size
      invariant y <= size
      invariant Painted(image[..], size, radius, data, host, y, 0)
    {
      PaintRow(image, size, radius, data, host, y);
      y := y + 1;
    }
  }

  /**
   * The lookup runs from the centre outwards, so the rim of the circle
   * (distance = radius) reads the last sample, t = 1. In a generated profile
   * with a bezel narrower than 1 that sample is 0: the rim is neutral.
   */
  lemma RimReadsFlatSample(samples: nat, bezelWidth: real, glassThickness: real, tanDeviation: real -> real,
                           radius: real, data: DisplacementData)
    requires samples >= 2 && bezelWidth != 0.0 && bezelWidth < 1.0 && 0.0 < radius
    requires |data.displacements| == samples
    requires forall i :: 0 <= i < samples ==>
               data.displacements[i] == ProfileEntry(samples, bezelWidth, glassThickness, tanDeviation, i)
    ensures SampleIndex(radius, radius, samples) == samples - 1
    ensures data.displacements[SampleIndex(radius, radius, samples)] == 0.0
  {
    LastSampleIsFlat(samples, bezelWidth, glassThickness, tanDeviation);
  }

  /**
   * Indexing from the centre puts the flat part of a generated profile on the
   * outside of the circle: every pixel inside it whose sample index lies past
   * bezelWidth * (samples - 1) is stored as the neutral (128, 128).
   */
  lemma PastBezelIsNeutral(samples: nat, bezelWidth: real, glassThickness: real, tanDeviation: real -> real,
                           distance: real, radius: real, data: DisplacementData, cosAngle: real, sinAngle: real)
    requires samples >= 2 && bezelWidth != 0.0
    requires |data.displacements| == samples && data.maxDisplacement != 0.0
    requires forall i :: 0 <= i < samples ==>
               data.displacements[i] == ProfileEntry(samples, bezelWidth, glassThickness, tanDeviation, i)
    requires 0.0 < radius && 0.0 <= distance <= radius
    requires -1.0 <= cosAngle <= 1.0 && -1.0 <= sinAngle <= 1.0
    requires (SampleIndex(distance, radius, samples) as real) > bezelWidth * ((samples - 1) as real)
    ensures InsideShade(distance, radius, data, cosAngle, sinAngle) == (128.0, 128.0)
  {
    var k := SampleIndex(distance, radius, samples);
    assert data.displacements[k] == ProfileEntry(samples, bezelWidth, glassThickness, tanDeviation, k);
  }

  lemma SqrtOfZero(host: HostMath)
    requires host.Valid()
    ensures host.sqrt(0.0) == 0.0
  {
    var s := host.sqrt(0.0);
    assert 0.0 <= s && s * s == 0.0;
    SquareLe(s, 0.0);
  }

  /**
   * The centre pixel of an even-sized image reads sample 0, the rim of the
   * bevel, where the surface height and so the displacement are 0: it is
   * stored as (128, 128, 128, 255).
   */
  lemma CentrePixelIsNeutral(size: nat, radius: real, data: DisplacementData, host: HostMath)
    requires 0.0 < radius && |data.displacements| >= 1 && data.maxDisplacement != 0.0 && host.Valid()
    requires size % 2 == 0 && data.displacements[0] == 0.0
    ensures PixelColor(size, radius, data, host, size / 2, size / 2) == Rgba(Neutral, Neutral, Neutral, Opaque)
  {
    var c := size / 2;
    assert Delta(size, c) == 0.0;
    assert SquaredDistance(size, c, c) == 0.0;
    assert Inside(size, radius, c, c);
    SqrtOfZero(host);
    assert SampleIndex(0.0, radius, |data.displacements|) == 0;
    assert PixelShade(size, radius, data, host, c, c) == (128.0, 128.0);
  }
}
