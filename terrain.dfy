/**
  The terrain set-up of the ocean scene (front/app/index.js): the height field
  generateHeight accumulates in a Uint8Array over four noise passes, the loop
  that lifts the plane's vertices by it, and the two pixel loops of
  generateTexture (the shaded base image and the dither of the upscaled copy),
  with the `Math.random` replacement whose counter both draw from. The noise,
  the sine hash and the Lambert shading are opaque inputs.
*/
module Terrain {
  import opened JsNumbers

  /** The terrain grid of the scene. */
  const WORLD_WIDTH: nat := 512
  const WORLD_DEPTH: nat := 512

  /** The number of noise passes, and the factor by which the quality grows between them. */
  const PASSES: nat := 4
  const QUALITY_STEP: nat := 5

  /** The factor by which generateTexture enlarges the base image. */
  const UPSCALE: nat := 4

  /** The three.js ImprovedNoise function, taken as given. */
  type Noise = (real, real, real) -> real

  // ---------------------------------------------------------------------------
  // The seeded Math.random replacement (index.js:109-115)
  // ---------------------------------------------------------------------------

  /**
    The global `Math.random` after generateHeight replaces it: a counter `seed`
    that starts at π/4 and grows by one per call, and the value
    frac(sin(seed) * 10000). The model counts the draws (seed = π/4 + draws)
    and takes hash(k) = Math.sin(π/4 + k) * 10000 as given.
  */
  class SeededRandom {
    var draws: nat
    const hash: nat -> real

    constructor (hash: nat -> real)
      ensures this.hash == hash && draws == 0
    {
      this.hash := hash;
      draws := 0;
    }

    /** One call of the replacement: the value of the current seed, then `seed++`. */
    method Next() returns (r: real)
      modifies this
      ensures r == Draw(hash, old(draws)) && draws == old(draws) + 1
      ensures 0.0 <= r < 1.0
    {
      r := Fract(hash(draws));
      draws := draws + 1;
    }
  }

  /** The k-th value the replacement returns: always in [0, 1). */
  function Draw(hash: nat -> real, k: nat): (r: real)
    ensures 0.0 <= r < 1.0
  {
    Fract(hash(k))
  }

  /** The noise offset z: 100 times the first draw after the replacement is installed. */
  function Z(hash: nat -> real): (z: real)
    ensures 0.0 <= z < 100.0
  {
    Draw(hash, 0) * 100.0
  }

  // ---------------------------------------------------------------------------
  // The height field (generateHeight, index.js:107-137)
  // ---------------------------------------------------------------------------

  /** The quality of pass `pass`: 1, multiplied by 5 after every pass. */
  function Quality(pass: nat): (q: nat)
    ensures 1 <= q
  {
    if pass == 0 then 1 else QUALITY_STEP * Quality(pass - 1)
  }

  /** The four passes run at qualities 1, 5, 25 and 125. */
  lemma QualitySchedule()
    ensures [Quality(0), Quality(1), Quality(2), Quality(3)] == [1, 5, 25, 125]
  {
  }

  /** The row `~~(i / width)` the source computes for cell i. */
  function Row(i: nat, width: nat): (row: int)
    requires 0 < width
  {
    ToInt32(i as real / width as real)
  }

  lemma RatioSplit(q: real, r: real, w: real)
    requires 0.0 < w
    ensures (q * w + r) / w == q + r / w
  {}
  lemma RatioBelowOne(r: real, w: real)
    requires 0.0 < w && 0.0 <= r < w
    ensures 0.0 <= r / w < 1.0
  {
    var t := r / w;
    assert t * w == r;
    assert (1.0 - t) * w == w - r;
    PositiveFactor(1.0 - t, w);
    NonnegFactor(t, w);
  }
  lemma PositiveFactor(a: real, w: real)
    requires 0.0 < w && 0.0 < a * w
    ensures 0.0 < a
  {}
  lemma NonnegFactor(a: real, w: real)
    requires 0.0 < w && 0.0 <= a * w
    ensures 0.0 <= a
  {}
  lemma FloorOf(x: real, q: int)
    requires q as real <= x < q as real + 1.0
    ensures x.Floor == q
  {}
  lemma FloorOfQuotient(q: nat, r: nat, width: nat)
    requires r < width
    ensures ((q * width + r) as real / width as real).Floor == q
  {
    var w, qr, rr := width as real, q as real, r as real;
    var n := q * width + r;
    CastProduct(q, width);
    assert n as real == qr * w + rr;
    var x := n as real / w;
    RatioSplit(qr, rr, w);
    assert x == qr + rr / w;
    RatioBelowOne(rr, w);
    FloorOf(x, q);
  }
  lemma CastProduct(a: int, b: int)
    ensures (a * b) as real == a as real * b as real
  {
  }

  /** Real division of naturals floors to the integer quotient. */
  lemma RealQuotientFloor(i: nat, width: nat)
    requires 0 < width
    ensures (i as real / width as real).Floor == i / width
  {
    assert i == i / width * width + i % width;
    FloorOfQuotient(i / width, i % width, width);
  }

  /**
    Cell i of a width × height grid sits at column i % width and row
    `~~(i / width)`, both inside the grid, and i is row * width + column.
  */
  lemma CellCoordinates(i: nat, width: nat, height: nat)
    requires i < width * height
    requires height <= TWO_TO_31
    ensures 0 < width
    ensures 0 <= i % width < width
    ensures Row(i, width) == i / width && 0 <= Row(i, width) < height
    ensures i == Row(i, width) * width + i % width
  {
    assert 0 < width;
    RealQuotientFloor(i, width);
    assert (i / width) * width <= i;
    LessByFactor(i / width, height, width);
    ToInt32OfSmall(i as real / width as real);
  }

  lemma LessByFactor(a: int, b: int, w: int)
    requires 0 < w && a * w < b * w
    ensures a < b
  {
  }

  /** Wrapping after every addition is wrapping once at the end. */
  lemma AddWrapped(a: nat, f: nat)
    ensures (a % 256 + f) % 256 == (a + f) % 256
  {
    var q := a / 256;
    assert a == 256 * q + a % 256;
    assert a + f == 256 * q + (a % 256 + f);
  }

  /** What pass `pass` adds to cell i before the store: |noise(x/q, y/q, z) · q · 1.75|. */
  function PassTerm(noise: Noise, z: real, width: nat, pass: nat, i: nat): (t: real)
    requires 0 < width
    ensures 0.0 <= t
  {
    var q := Quality(pass) as real;
    Abs(noise((i % width) as real / q, Row(i, width) as real / q, z) * q * 1.75)
  }

  /** The sum, over the first `passes` passes, of the whole-number parts of the pass terms of cell i. */
  function Accumulated(noise: Noise, z: real, width: nat, passes: nat, i: nat): (sum: nat)
    requires 0 < width
  {
    if passes == 0 then 0
    else Accumulated(noise, z, width, passes - 1, i) + PassTerm(noise, z, width, passes - 1, i).Floor
  }

  /** The pass term, written with the quality the loop carries in a variable. */
  lemma PassTermAt(noise: Noise, z: real, width: nat, j: nat, i: nat, quality: nat, x: int, y: int)
    requires 0 < width && quality == Quality(j)
    requires x == i % width && y == Row(i, width)
    ensures PassTerm(noise, z, width, j, i)
         == Abs(noise(x as real / quality as real, y as real / quality as real, z) * quality as real * 1.75)
  {
  }

  /** Before wrapping, a later pass never lowers a cell: every contribution is non-negative. */
  lemma {:induction false} AccumulatedGrows(noise: Noise, z: real, width: nat, a: nat, b: nat, i: nat)
    requires 0 < width && a <= b
    ensures Accumulated(noise, z, width, a, i) <= Accumulated(noise, z, width, b, i)
  {
    if a < b {
      AccumulatedGrows(noise, z, width, a, b - 1, i);
    }
  }

  /** Cell i after the first `passes` passes: the accumulated sum, wrapped into a byte. */
  function Cell(noise: Noise, z: real, width: nat, passes: nat, i: nat): (b: Byte)
    requires 0 < width
  {
    Accumulated(noise, z, width, passes, i) % 256
  }

  /** One store of pass j into cell i turns the sum of j passes into the sum of j + 1. */
  lemma PassStep(noise: Noise, z: real, width: nat, j: nat, i: nat, stored: Byte)
    requires 0 < width
    requires stored == Cell(noise, z, width, j, i)
    ensures ToUint8(stored as real + PassTerm(noise, z, width, j, i)) == Cell(noise, z, width, j + 1, i)
  {
    var term := PassTerm(noise, z, width, j, i);
    AddToByte(stored, term);
    AddWrapped(Accumulated(noise, z, width, j, i), term.Floor);
  }

  /** The store the inner loop makes, with its column, row and quality variables, is that step. */
  lemma StoreStep(noise: Noise, z: real, width: nat, j: nat, i: nat, quality: nat, x: int, y: int, stored: Byte, term: real)
    requires 0 < width && quality == Quality(j)
    requires x == i % width && y == ToInt32(i as real / width as real)
    requires term == Abs(noise(x as real / quality as real, y as real / quality as real, z) * quality as real * 1.75)
    requires stored == Cell(noise, z, width, j, i)
    ensures ToUint8(stored as real + term) == Cell(noise, z, width, j + 1, i)
  {
    PassTermAt(noise, z, width, j, i, quality, x, y);
    PassStep(noise, z, width, j, i, stored);
  }

  /**
    The height field: each cell holds the sum of its four whole-number pass
    contributions, wrapped modulo 256.
  */
  function HeightField(noise: Noise, z: real, width: nat, height: nat): (h: seq<Byte>)
    ensures |h| == width * height
  {
    seq(width * height, i requires 0 <= i < width * height =>
      assert 0 < width;
      Cell(noise, z, width, PASSES, i))
  }

  /**
    generateHeight: install the replacement random, draw z, then run four
    passes over every cell, adding each pass term into the Uint8Array.
    The result depends on nothing but the dimensions, the noise and the hash:
    the counter is reset on entry, so every call gives the same field.
  */
  method GenerateHeight(width: nat, height: nat, rng: SeededRandom, noise: Noise) returns (data: array<Byte>)
    modifies rng
    ensures fresh(data)
    ensures data[..] == HeightField(noise, Z(rng.hash), width, height)
    ensures rng.draws == 1
  {
    // A fresh replacement: the counter restarts at the first seed.
    rng.draws := 0;
    var size := width * height;
    data := new Byte[size](_ => 0);
    var r := rng.Next();
    var z := r * 100.0;
    assert z == Z(rng.hash);
    var quality := 1;
    var j := 0;
    while j < PASSES
      invariant 0 <= j <= PASSES
      invariant quality == Quality(j)
      invariant rng.draws == 1
      invariant 0 < size ==> 0 < width
      invariant forall k :: 0 <= k < size ==> data[k] == Cell(noise, z, width, j, k)
    {
      AddPass(data, noise, z, width, j, quality);
      quality := quality * QUALITY_STEP;
      j := j + 1;
    }
    assert data[..] == HeightField(noise, z, width, height);
  }

  /**
    One pass of generateHeight (the inner loop): every cell i, at column
    i % width and row `~~(i / width)`, gets the pass term added and wrapped.
  */
  method AddPass(data: array<Byte>, noise: Noise, z: real, width: nat, j: nat, quality: nat)
    requires 0 < data.Length ==> 0 < width
    requires quality == Quality(j)
    requires forall k :: 0 <= k < data.Length ==> data[k] == Cell(noise, z, width, j, k)
    modifies data
    ensures forall k :: 0 <= k < data.Length ==> data[k] == Cell(noise, z, width, j + 1, k)
  {
    var i := 0;
    while i < data.Length
      invariant 0 <= i <= data.Length
      invariant forall k :: 0 <= k < i ==> data[k] == Cell(noise, z, width, j + 1, k)
      invariant forall k :: i <= k < data.Length ==> data[k] == Cell(noise, z, width, j, k)
    {
      var x, y := i % width, ToInt32(i as real / width as real);
      var term := Abs(noise(x as real / quality as real, y as real / quality as real, z) * quality as real * 1.75);
      StoreStep(noise, z, width, j, i, quality, x, y, data[i], term);
      data[i] := ToUint8(data[i] as real + term);
      i := i + 1;
    }
  }

  /** Two calls of generateHeight give the same field, whatever number of draws is made between them. */
  method HeightIsReproducible(width: nat, height: nat, rng: SeededRandom, noise: Noise, between: nat)
      returns (first: array<Byte>, second: array<Byte>)
    modifies rng
    ensures first[..] == second[..]
  {
    first := GenerateHeight(width, height, rng, noise);
    ghost var field := first[..];
    var n := 0;
    while n < between
      invariant first[..] == field
    {
      var _ := rng.Next();
      n := n + 1;
    }
    second := GenerateHeight(width, height, rng, noise);
  }

  // ---------------------------------------------------------------------------
  // The vertex displacement loop (init, index.js:44-50)
  // ---------------------------------------------------------------------------

  /**
    The vertex positions after displacement: vertex i (components 3i, 3i+1,
    3i+2) gets y = 5 · data[i]; x and z stay.
  */
  function Displaced(vertices: seq<real>, data: seq<Byte>): (r: seq<real>)
    requires |vertices| == 3 * |data|
    ensures |r| == |vertices|
  {
    seq(|vertices|, k requires 0 <= k < |vertices| => if k % 3 == 1 then data[k / 3] as real * 5.0 else vertices[k])
  }

  /** Vertex i of the displaced plane: y is 5 · data[i]; x and z are as before. */
  lemma DisplacedVertex(vertices: seq<real>, data: seq<Byte>, i: nat)
    requires |vertices| == 3 * |data| && i < |data|
    ensures var r := Displaced(vertices, data);
      r[3 * i + 1] == data[i] as real * 5.0 && r[3 * i] == vertices[3 * i] && r[3 * i + 2] == vertices[3 * i + 2]
  {
    TripleIndex(i, 0);
    TripleIndex(i, 1);
    TripleIndex(i, 2);
  }

  lemma TripleIndex(p: nat, c: nat)
    requires c < 3
    ensures (3 * p + c) / 3 == p && (3 * p + c) % 3 == c
  {
  }

  lemma QuadIndex(p: nat, c: nat)
    requires c < 4
    ensures (4 * p + c) / 4 == p && (4 * p + c) % 4 == c
  {
  }

  /**
    The loop as written: it runs while i < vertices.length, three times the
    vertex count. Past the last vertex it reads `data[i]` beyond the end
    (undefined, giving NaN) and stores it at 3i + 1, past the end of the
    Float32Array, where the store is dropped; the model skips both and counts
    those stray iterations.
  */
  method DisplaceVerticesAsWritten(vertices: array<real>, data: array<Byte>) returns (strayReads: nat)
    requires vertices.Length == 3 * data.Length
    modifies vertices
    ensures vertices[..] == Displaced(old(vertices[..]), data[..])
    ensures strayReads == 2 * data.Length
  {
    ghost var target := Displaced(vertices[..], data[..]);
    var i, j, l := 0, 0, vertices.Length;
    strayReads := 0;
    while i < l
      invariant 0 <= i <= l && j == 3 * i
      invariant strayReads == if i <= data.Length then 0 else i - data.Length
      invariant forall k :: 0 <= k < l && k < j ==> vertices[k] == target[k]
      invariant forall k :: j <= k < l ==> vertices[k] == old(vertices[k])
    {
      if i < data.Length {
        DisplacedVertex(old(vertices[..]), data[..], i);
        vertices[j + 1] := data[i] as real * 5.0;
      } else {
        strayReads := strayReads + 1;
      }
      i, j := i + 1, j + 3;
    }
    assert vertices[..] == target;
  }

  /** The loop as evidently intended: stop when the vertex offset j reaches the end. */
  method DisplaceVertices(vertices: array<real>, data: array<Byte>)
    requires vertices.Length == 3 * data.Length
    modifies vertices
    ensures vertices[..] == Displaced(old(vertices[..]), data[..])
  {
    ghost var target := Displaced(vertices[..], data[..]);
    var i, j, l := 0, 0, vertices.Length;
    while j < l
      invariant 0 <= i <= data.Length && j == 3 * i
      invariant forall k :: 0 <= k < j ==> vertices[k] == target[k]
      invariant forall k :: j <= k < l ==> vertices[k] == old(vertices[k])
    {
      DisplacedVertex(old(vertices[..]), data[..], i);
      vertices[j + 1] := data[i] as real * 5.0;
      i, j := i + 1, j + 3;
    }
    assert vertices[..] == target;
  }

  // ---------------------------------------------------------------------------
  // The base texture (generateTexture, index.js:139-170)
  // ---------------------------------------------------------------------------

  /**
    Whether the four neighbours the normal estimate reads (j ± 2 and
    j ± 2·width) all lie inside the height array of n cells.
  */
  predicate Interior(j: nat, width: nat, n: nat)
  {
    2 <= j && j + 2 < n && 2 * width <= j && j + 2 * width < n
  }

  /**
    The Lambert term, taken as given: for the height differences dx
    (`data[j - 2] - data[j + 2]`) and dz (`data[j - 2·width] - data[j + 2·width]`),
    the dot product of the normalised vector (dx, 2, dz) with the normalised
    sun direction (1, 1, 1).
  */
  type Lambert = (int, int) -> real

  /**
    The shade of pixel j: the Lambert term of its neighbours' height
    differences when all four lie inside the height array; otherwise a
    neighbour read is undefined, the vector NaN and so is the shade.
  */
  function Shade(lambert: Lambert, data: seq<Byte>, j: nat, width: nat): (s: Number)
    ensures s.NaN? <==> !Interior(j, width, |data|)
  {
    if Interior(j, width, |data|) then Finite(lambert(data[j - 2] as int - data[j + 2] as int, data[j - 2 * width] as int - data[j + 2 * width] as int))
    else NaN
  }

  /** The ambient factor of a base pixel of the given height. */
  function Ambient(height: Byte): (a: real)
    ensures 0.5 <= a
  {
    0.5 + height as real * 0.007
  }

  /**
    Channel c (0 red, 1 green, 2 blue) of a base pixel, as the clamped array
    stores it; a NaN shade makes the product NaN, which stores 0.
  */
  function BaseChannel(c: nat, shade: Number, height: Byte): (b: Byte)
    requires c < 3
    ensures shade.NaN? ==> b == 0
  {
    match shade
    case NaN => 0
    case Finite(s) => ToUint8Clamp(ChannelValue(c, s, height))
  }

  /**
    The value the source computes for channel c before the store:
    (96 + shade · 128) · ambient for red, (32 + shade · 96) · ambient for
    green and (shade · 96) · ambient for blue.
  */
  function ChannelValue(c: nat, s: real, height: Byte): (x: real)
  {
    if c == 0 then (96.0 + s * 128.0) * Ambient(height)
    else if c == 1 then (32.0 + s * 96.0) * Ambient(height)
    else s * 96.0 * Ambient(height)
  }

  /** A surface facing away from the sun (shade at most 0) has no blue at all. */
  lemma ShadowHasNoBlue(s: real, height: Byte)
    requires s <= 0.0
    ensures BaseChannel(2, Finite(s), height) == 0
  {
    assert ChannelValue(2, s, height) == s * 96.0 * Ambient(height);
    ScaledOrder(s * 96.0, 0.0, Ambient(height));
  }

  /**
    For any shade in [-1, 1] (a dot product of unit vectors) red is at least
    green and green at least blue: the terrain is always a warm brown.
  */
  lemma WarmPalette(s: real, height: Byte)
    requires -1.0 <= s <= 1.0
    ensures BaseChannel(0, Finite(s), height) >= BaseChannel(1, Finite(s), height) >= BaseChannel(2, Finite(s), height)
  {
    var a := Ambient(height);
    var r, g, b := ChannelValue(0, s, height), ChannelValue(1, s, height), ChannelValue(2, s, height);
    assert r == (96.0 + s * 128.0) * a && g == (32.0 + s * 96.0) * a && b == s * 96.0 * a;
    ScaledOrder(32.0 + s * 96.0, 96.0 + s * 128.0, a);
    ScaledOrder(s * 96.0, 32.0 + s * 96.0, a);
    ToUint8ClampMonotonic(g, r);
    ToUint8ClampMonotonic(b, g);
  }

  lemma ScaledOrder(x: real, y: real, a: real)
    requires x <= y && 0.0 <= a
    ensures x * a <= y * a
  {
  }

  /** What getImageData returns after `fillRect` with the default black: opaque black pixels. */
  function OpaqueBlack(pixels: nat): (img: seq<Byte>)
    ensures |img| == 4 * pixels
  {
    seq(4 * pixels, k => if k % 4 == 3 then 255 else 0)
  }

  /**
    The first p pixels of the base image: pixel j at bytes 4j to 4j + 3 holds
    the red, green and blue channels of its shade and height; its alpha byte
    stays as it was.
  */
  function BasePrefix(before: seq<Byte>, data: seq<Byte>, width: nat, lambert: Lambert, p: nat): (img: seq<Byte>)
    requires |before| == 4 * |data| && p <= |data|
    ensures |img| == 4 * p
  {
    if p == 0 then []
    else
      var j := p - 1;
      var shade := Shade(lambert, data, j, width);
      BasePrefix(before, data, width, lambert, j)
        + [BaseChannel(0, shade, data[j]), BaseChannel(1, shade, data[j]), BaseChannel(2, shade, data[j]), before[4 * j + 3]]
  }

  /** The whole base image: every pixel of the height array shaded. */
  function BaseImage(before: seq<Byte>, data: seq<Byte>, width: nat, lambert: Lambert): (img: seq<Byte>)
    requires |before| == 4 * |data|
    ensures |img| == |before|
  {
    BasePrefix(before, data, width, lambert, |data|)
  }

  /** Pixel j of any prefix that holds it: red, green and blue from its shade and height, alpha as before. */
  lemma {:induction false} BasePrefixPixel(before: seq<Byte>, data: seq<Byte>, width: nat, lambert: Lambert, p: nat, j: nat)
    requires |before| == 4 * |data| && j < p <= |data|
    ensures var img, shade := BasePrefix(before, data, width, lambert, p), Shade(lambert, data, j, width);
      && img[4 * j] == BaseChannel(0, shade, data[j])
      && img[4 * j + 1] == BaseChannel(1, shade, data[j])
      && img[4 * j + 2] == BaseChannel(2, shade, data[j])
      && img[4 * j + 3] == before[4 * j + 3]
  {
    if j < p - 1 {
      BasePrefixPixel(before, data, width, lambert, p - 1, j);
    }
  }

  /** Pixel j of the base image: red, green and blue from its shade and height, alpha as before. */
  lemma BaseImagePixel(before: seq<Byte>, data: seq<Byte>, width: nat, lambert: Lambert, j: nat)
    requires |before| == 4 * |data| && j < |data|
    ensures var img, shade := BaseImage(before, data, width, lambert), Shade(lambert, data, j, width);
      && img[4 * j] == BaseChannel(0, shade, data[j])
      && img[4 * j + 1] == BaseChannel(1, shade, data[j])
      && img[4 * j + 2] == BaseChannel(2, shade, data[j])
      && img[4 * j + 3] == before[4 * j + 3]
  {
    BasePrefixPixel(before, data, width, lambert, |data|, j);
  }

  /**
    A pixel whose normal estimate reads outside the height array (within two
    cells or two rows of an end) is black in the base image; its alpha stays.
  */
  lemma BorderPixelIsBlack(before: seq<Byte>, data: seq<Byte>, width: nat, lambert: Lambert, j: nat)
    requires |before| == 4 * |data| && j < |data| && !Interior(j, width, |data|)
    ensures var img := BaseImage(before, data, width, lambert);
      img[4 * j] == 0 && img[4 * j + 1] == 0 && img[4 * j + 2] == 0 && img[4 * j + 3] == before[4 * j + 3]
  {
    BaseImagePixel(before, data, width, lambert, j);
  }

  /** The first pixel loop: pixel j at byte 4j gets its three colour channels. */
  method FillBase(imageData: array<Byte>, data: array<Byte>, width: nat, lambert: Lambert)
    requires imageData.Length == 4 * data.Length
    requires imageData != data
    modifies imageData
    ensures imageData[..] == BaseImage(old(imageData[..]), data[..], width, lambert)
  {
    ghost var before := imageData[..];
    ghost var target := BaseImage(before, data[..], width, lambert);
    var i, j, l := 0, 0, imageData.Length;
    while i < l
      invariant 0 <= j <= data.Length && i == 4 * j
      invariant forall k :: 0 <= k < i ==> imageData[k] == target[k]
      invariant forall k :: i <= k < l ==> imageData[k] == before[k]
    {
      BaseImagePixel(before, data[..], width, lambert, j);
      var shade := Shade(lambert, data[..], j, width);
      imageData[i] := BaseChannel(0, shade, data[j]);
      imageData[i + 1] := BaseChannel(1, shade, data[j]);
      imageData[i + 2] := BaseChannel(2, shade, data[j]);
      i, j := i + 4, j + 1;
    }
    assert imageData[..] == target;
  }

  // ---------------------------------------------------------------------------
  // The dither (generateTexture, index.js:172-191)
  // ---------------------------------------------------------------------------

  /** The dither amount `~~(Math.random() * 5)` of the k-th draw: 0 to 4. */
  function DitherValue(hash: nat -> real, k: nat): (v: int)
    ensures 0 <= v <= 4
  {
    var x := Draw(hash, k) * 5.0;
    ToInt32OfSmall(x);
    ToInt32(x)
  }

  /**
    The first p pixels of the dithered image: pixel q adds the amount of draw
    first + q to each of its three colour channels, stopping at 255; alpha stays.
  */
  function DitherPrefix(before: seq<Byte>, hash: nat -> real, first: nat, p: nat): (img: seq<Byte>)
    requires 4 * p <= |before|
    ensures |img| == 4 * p
  {
    if p == 0 then []
    else
      var k, v := 4 * (p - 1), DitherValue(hash, first + p - 1);
      DitherPrefix(before, hash, first, p - 1)
        + [Min(before[k] + v, 255), Min(before[k + 1] + v, 255), Min(before[k + 2] + v, 255), before[k + 3]]
  }

  /** The whole dithered image: one draw per pixel, in pixel order, starting at draw `first`. */
  function Dithered(before: seq<Byte>, hash: nat -> real, first: nat): (img: seq<Byte>)
    requires |before| % 4 == 0
    ensures |img| == |before|
  {
    DitherPrefix(before, hash, first, |before| / 4)
  }

  /**
    Pixel q of any prefix that holds it: the same amount, that of draw
    first + q, is added to its red, green and blue, each stopping at 255;
    alpha stays.
  */
  lemma {:induction false} DitherPrefixPixel(before: seq<Byte>, hash: nat -> real, first: nat, p: nat, q: nat)
    requires 4 * p <= |before| && q < p
    ensures var img, v := DitherPrefix(before, hash, first, p), DitherValue(hash, first + q);
      && img[4 * q] == Min(before[4 * q] + v, 255)
      && img[4 * q + 1] == Min(before[4 * q + 1] + v, 255)
      && img[4 * q + 2] == Min(before[4 * q + 2] + v, 255)
      && img[4 * q + 3] == before[4 * q + 3]
  {
    if q < p - 1 {
      DitherPrefixPixel(before, hash, first, p - 1, q);
    }
  }

  /** Pixel p of the dithered image, as the prefix lemma states it for the whole image. */
  lemma DitheredPixel(before: seq<Byte>, hash: nat -> real, first: nat, p: nat)
    requires |before| % 4 == 0 && p < |before| / 4
    ensures var img, v := Dithered(before, hash, first), DitherValue(hash, first + p);
      && img[4 * p] == Min(before[4 * p] + v, 255)
      && img[4 * p + 1] == Min(before[4 * p + 1] + v, 255)
      && img[4 * p + 2] == Min(before[4 * p + 2] + v, 255)
      && img[4 * p + 3] == before[4 * p + 3]
  {
    DitherPrefixPixel(before, hash, first, |before| / 4, p);
  }

  /** Dithering never darkens a channel and brightens it by at most 4; alpha is kept. */
  lemma DitherIsSlight(before: seq<Byte>, hash: nat -> real, first: nat, p: nat, c: nat)
    requires |before| % 4 == 0 && p < |before| / 4 && c < 3
    ensures var img := Dithered(before, hash, first);
      && before[4 * p + c] <= img[4 * p + c] <= before[4 * p + c] as int + 4
      && img[4 * p + 3] == before[4 * p + 3]
  {
    DitheredPixel(before, hash, first, p);
  }

  /** The second pixel loop: one draw per pixel, added to red, green and blue of a clamped array. */
  method Dither(imageData: array<Byte>, rng: SeededRandom)
    requires imageData.Length % 4 == 0
    modifies imageData, rng
    ensures imageData[..] == Dithered(old(imageData[..]), rng.hash, old(rng.draws))
    ensures rng.draws == old(rng.draws) + imageData.Length / 4
  {
    ghost var before := imageData[..];
    ghost var first, hash := rng.draws, rng.hash;
    ghost var target := Dithered(before, hash, first);
    var i, l := 0, imageData.Length;
    ghost var pixels := l / 4;
    assert l == 4 * pixels;
    ghost var p := 0;
    while i < l
      invariant 0 <= p <= pixels && i == 4 * p
      invariant rng.draws == first + p && rng.hash == hash
      invariant forall k :: 0 <= k < i ==> imageData[k] == target[k]
      invariant forall k :: i <= k < l ==> imageData[k] == before[k]
    {
      DitheredPixel(before, hash, first, p);
      var v := DitherAmount(rng);
      DitherPixel(imageData, i, v);
      i, p := i + 4, p + 1;
    }
    assert imageData[..] == target;
  }

  /** `~~(Math.random() * 5)`: one draw, scaled to 0 to 4. */
  method DitherAmount(rng: SeededRandom) returns (v: int)
    modifies rng
    ensures v == DitherValue(rng.hash, old(rng.draws)) && rng.draws == old(rng.draws) + 1
  {
    var r := rng.Next();
    v := ToInt32(r * 5.0);
    assert v == DitherValue(rng.hash, old(rng.draws));
  }

  /** The three clamped stores of one pixel: red, green and blue at i, i + 1 and i + 2 each get v added. */
  method DitherPixel(imageData: array<Byte>, i: nat, v: int)
    requires i + 3 <= imageData.Length && 0 <= v
    modifies imageData
    ensures imageData[i] == Min(old(imageData[i]) + v, 255)
    ensures imageData[i + 1] == Min(old(imageData[i + 1]) + v, 255)
    ensures imageData[i + 2] == Min(old(imageData[i + 2]) + v, 255)
    ensures forall k :: 0 <= k < imageData.Length && (k < i || i + 3 <= k) ==> imageData[k] == old(imageData[k])
  {
    ToUint8ClampOfInt(imageData[i] + v);
    imageData[i] := ToUint8Clamp((imageData[i] + v) as real);
    ToUint8ClampOfInt(imageData[i + 1] + v);
    imageData[i + 1] := ToUint8Clamp((imageData[i + 1] + v) as real);
    ToUint8ClampOfInt(imageData[i + 2] + v);
    imageData[i + 2] := ToUint8Clamp((imageData[i + 2] + v) as real);
  }

  /**
    generateTexture: a width × height base image, shaded; its upscaled copy of
    (width · 4) × (height · 4) pixels, as drawImage leaves it (an input here);
    the copy dithered. Returns the pixels of both and the size of the copy.
    The grid must not be empty: getImageData throws on a zero width or height.
  */
  method GenerateTexture(data: array<Byte>, width: nat, height: nat, rng: SeededRandom,
                         lambert: Lambert, upscaled: seq<Byte>)
      returns (base: array<Byte>, scaled: array<Byte>, scaledWidth: nat, scaledHeight: nat)
    requires 0 < width && 0 < height
    requires data.Length == width * height
    requires |upscaled| == 4 * ((width * UPSCALE) * (height * UPSCALE))
    modifies rng
    ensures fresh(base) && fresh(scaled)
    ensures scaledWidth == width * UPSCALE && scaledHeight == height * UPSCALE
    ensures base[..] == BaseImage(OpaqueBlack(width * height), data[..], width, lambert)
    ensures scaled.Length == 4 * (scaledWidth * scaledHeight)
    ensures scaled[..] == Dithered(upscaled, rng.hash, old(rng.draws))
    ensures rng.draws == old(rng.draws) + scaledWidth * scaledHeight
  {
    // fillRect with the default fill style, then getImageData
    base := new Byte[4 * (width * height)](k => if k % 4 == 3 then 255 else 0);
    assert base[..] == OpaqueBlack(width * height);
    FillBase(base, data, width, lambert);
    scaledWidth, scaledHeight := width * UPSCALE, height * UPSCALE;
    scaled := new Byte[|upscaled|](k requires 0 <= k < |upscaled| => upscaled[k]);
    assert scaled[..] == upscaled;
    QuadIndex(scaledWidth * scaledHeight, 0);
    Dither(scaled, rng);
  }

  /**
    The terrain part of init: the height field, the lifted plane (by the vertex
    loop as written, whose stray iterations change nothing) and the texture. Between the two, three.js itself may call the replaced
    `Math.random` (`between` times: the ids of the objects it creates), so
    the dither continues the counter at 1 + between; the whole output is
    fixed by the inputs, whatever the counter held before.
  */
  method BuildTerrain(rng: SeededRandom, noise: Noise, lambert: Lambert,
                      vertices: array<real>, upscaled: seq<Byte>, between: nat)
      returns (data: array<Byte>, base: array<Byte>, scaled: array<Byte>, scaledWidth: nat, scaledHeight: nat)
    requires vertices.Length == 3 * (WORLD_WIDTH * WORLD_DEPTH)
    requires |upscaled| == 4 * ((WORLD_WIDTH * UPSCALE) * (WORLD_DEPTH * UPSCALE))
    modifies rng, vertices
    ensures data[..] == HeightField(noise, Z(rng.hash), WORLD_WIDTH, WORLD_DEPTH)
    ensures vertices[..] == Displaced(old(vertices[..]), data[..])
    ensures base[..] == BaseImage(OpaqueBlack(WORLD_WIDTH * WORLD_DEPTH), data[..], WORLD_WIDTH, lambert)
    ensures scaledWidth == 2048 && scaledHeight == 2048
    ensures scaled[..] == Dithered(upscaled, rng.hash, 1 + between)
    ensures rng.draws == 1 + between + scaledWidth * scaledHeight
  {
    data := GenerateHeight(WORLD_WIDTH, WORLD_DEPTH, rng, noise);
    var _ := DisplaceVerticesAsWritten(vertices, data);
    rng.draws := rng.draws + between;
    base, scaled, scaledWidth, scaledHeight := GenerateTexture(data, WORLD_WIDTH, WORLD_DEPTH, rng, lambert, upscaled);
  }
}
