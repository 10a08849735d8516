/**
 * The conversion of shared memory pixels for GL (westeros-render-embedded.cpp and, identically,
 * westeros-render-gl.cpp): the choice made for a buffer format, and the loops that carry it out in place.
 */
module Pixels {
  type Byte = bv8

  /** A 32 bit pixel as it lies in memory, in address order. */
  datatype Quad = Quad(b0: Byte, b1: Byte, b2: Byte, b3: Byte)

  datatype Colour = Colour(r: Byte, g: Byte, b: Byte, a: Byte)

  datatype Format = ARGB8888 | XRGB8888 | BGRA8888 | BGRX8888

  datatype FormatGL = RGBA | BGRA_EXT

  datatype Plan = Plan(formatGL: FormatGL, transformPixelsA: bool, transformPixelsB: bool, fillAlpha: bool)

  // ------------------------------------------------------------------ words and colours

  /** From the most significant byte down. */
  function Word(b3: Byte, b2: Byte, b1: Byte, b0: Byte): bv32 {
    ((b3 as bv32) << 24) | ((b2 as bv32) << 16) | ((b1 as bv32) << 8) | (b0 as bv32)
  }

  /** The register value of a pixel, on a big or little endian machine. */
  function Load(big: bool, q: Quad): bv32 {
    if big then Word(q.b0, q.b1, q.b2, q.b3) else Word(q.b3, q.b2, q.b1, q.b0)
  }

  /** Byte k of a word, the least significant one being byte 0. */
  function ByteOf(w: bv32, k: int): Byte {
    if k == 0 then (w & 0xFF) as bv8
    else if k == 1 then ((w >> 8) & 0xFF) as bv8
    else if k == 2 then ((w >> 16) & 0xFF) as bv8
    else ((w >> 24) & 0xFF) as bv8
  }

  function Store(big: bool, w: bv32): Quad {
    if big then Quad(ByteOf(w, 3), ByteOf(w, 2), ByteOf(w, 1), ByteOf(w, 0))
    else Quad(ByteOf(w, 0), ByteOf(w, 1), ByteOf(w, 2), ByteOf(w, 3))
  }

  /** The colour a client means: formats name the channels from the most significant byte down. */
  function Meant(f: Format, big: bool, q: Quad): Colour {
    var w := Load(big, q);
    match f
    case ARGB8888 => Colour(ByteOf(w, 2), ByteOf(w, 1), ByteOf(w, 0), ByteOf(w, 3))
    case XRGB8888 => Colour(ByteOf(w, 2), ByteOf(w, 1), ByteOf(w, 0), 0xFF)
    case BGRA8888 => Colour(ByteOf(w, 1), ByteOf(w, 2), ByteOf(w, 3), ByteOf(w, 0))
    case BGRX8888 => Colour(ByteOf(w, 1), ByteOf(w, 2), ByteOf(w, 3), 0xFF)
  }

  /** The colour GL takes from four unsigned bytes. */
  function Shown(f: FormatGL, q: Quad): Colour {
    match f
    case RGBA => Colour(q.b0, q.b1, q.b2, q.b3)
    case BGRA_EXT => Colour(q.b2, q.b1, q.b0, q.b3)
  }

  // ------------------------------------------------------------------ the conversion of one pixel

  /** What is done for a format; bgra says whether GL can take BGRA as it is. */
  function Choose(big: bool, bgra: bool, f: Format): Plan {
    var argb := f.ARGB8888? || f.XRGB8888?;
    var fill := f.XRGB8888? || f.BGRX8888?;
    if argb == big then Plan(RGBA, true, false, fill)
    else if bgra then Plan(BGRA_EXT, false, false, fill)
    else Plan(RGBA, false, true, fill)
  }

  function Rotated(pixel: bv32, fill: bool): bv32 {
    if fill then (pixel << 8) | 0xFF else (pixel << 8) | (pixel >> 24)
  }

  function RotateA(big: bool, fill: bool, q: Quad): Quad {
    Store(big, Rotated(Load(big, q), fill))
  }

  function SwapB(fill: bool, q: Quad): Quad {
    Quad(q.b2, q.b1, q.b0, if fill then 0xFF else q.b3)
  }

  function FillOnly(fill: bool, q: Quad): Quad {
    if fill then q.(b3 := 0xFF) else q
  }

  function Convert(p: Plan, big: bool, q: Quad): Quad {
    if p.transformPixelsA then RotateA(big, p.fillAlpha, q)
    else if p.transformPixelsB then SwapB(p.fillAlpha, q)
    else FillOnly(p.fillAlpha, q)
  }

  // ------------------------------------------------------------------ meaning

  lemma WordBytes(b3: Byte, b2: Byte, b1: Byte, b0: Byte)
    ensures var w := Word(b3, b2, b1, b0);
      ByteOf(w, 3) == b3 && ByteOf(w, 2) == b2 && ByteOf(w, 1) == b1 && ByteOf(w, 0) == b0
  {
  }

  lemma WordRotates(b3: Byte, b2: Byte, b1: Byte, b0: Byte)
    ensures Rotated(Word(b3, b2, b1, b0), true) == Word(b2, b1, b0, 0xFF)
    ensures Rotated(Word(b3, b2, b1, b0), false) == Word(b2, b1, b0, b3)
  {
  }

  lemma LoadStore(big: bool, q: Quad)
    ensures Store(big, Load(big, q)) == q
    ensures ByteOf(Load(big, q), 3) == if big then q.b0 else q.b3
    ensures ByteOf(Load(big, q), 2) == if big then q.b1 else q.b2
    ensures ByteOf(Load(big, q), 1) == if big then q.b2 else q.b1
    ensures ByteOf(Load(big, q), 0) == if big then q.b3 else q.b0
  {
    WordBytes(q.b0, q.b1, q.b2, q.b3);
    WordBytes(q.b3, q.b2, q.b1, q.b0);
    hide Word, ByteOf;
  }

  /** The rotation moves every byte one place up in the register; the top one, or 0xFF, comes in below. */
  lemma RotateBytes(big: bool, fill: bool, q: Quad)
    ensures RotateA(big, fill, q) ==
      if big then Quad(q.b1, q.b2, q.b3, if fill then 0xFF else q.b0)
      else Quad(if fill then 0xFF else q.b3, q.b0, q.b1, q.b2)
  {
    var r := if big then Quad(q.b1, q.b2, q.b3, if fill then 0xFF else q.b0)
             else Quad(if fill then 0xFF else q.b3, q.b0, q.b1, q.b2);
    WordRotates(q.b0, q.b1, q.b2, q.b3);
    WordRotates(q.b3, q.b2, q.b1, q.b0);
    LoadStore(big, r);
    hide Word, ByteOf, Store, Rotated;
  }

  /** The two formats a client can use: those that wl_display_init_shm announces. */
  predicate Received(f: Format) {
    f.ARGB8888? || f.XRGB8888?
  }

  /** Every pixel a client can send shows the colour it means, on machines of either byte order and
      whether or not GL takes BGRA as it is. */
  lemma ColoursKept(big: bool, bgra: bool, f: Format, q: Quad)
    ensures Received(f) ==> Shown(Choose(big, bgra, f).formatGL, Convert(Choose(big, bgra, f), big, q)) == Meant(f, big, q)
  {
    LoadStore(big, q);
    RotateBytes(big, Choose(big, bgra, f).fillAlpha, q);
    hide Load, ByteOf, RotateA;
  }

  /** Of the branches for the other two formats, which no client reaches, those for big endian machines
      would be right as well, and those for little endian ones would not. */
  lemma ColoursKeptIff(big: bool, bgra: bool, f: Format)
    ensures (forall q :: Shown(Choose(big, bgra, f).formatGL, Convert(Choose(big, bgra, f), big, q)) == Meant(f, big, q))
      <==> big || Received(f)
  {
    var p := Choose(big, bgra, f);
    hide Load, ByteOf, RotateA;
    forall q ensures big || Received(f) ==> Shown(p.formatGL, Convert(p, big, q)) == Meant(f, big, q) {
      LoadStore(big, q);
      RotateBytes(big, p.fillAlpha, q);
    }
    var q := Quad(0, 1, 2, 3);
    LoadStore(big, q);
    RotateBytes(big, p.fillAlpha, q);
    assert !big && !Received(f) ==> Shown(p.formatGL, Convert(p, big, q)) != Meant(f, big, q);
  }

  /** Without filling alpha the swap is its own inverse, and four rotations restore a pixel. */
  lemma ConversionsUndone(big: bool, q: Quad)
    ensures SwapB(false, SwapB(false, q)) == q
    ensures RotateA(big, false, RotateA(big, false, RotateA(big, false, RotateA(big, false, q)))) == q
  {
    var q1 := RotateA(big, false, q);
    var q2 := RotateA(big, false, q1);
    RotateBytes(big, false, q);
    RotateBytes(big, false, q1);
    RotateBytes(big, false, q2);
    RotateBytes(big, false, RotateA(big, false, q2));
    hide RotateA;
  }

  // ------------------------------------------------------------------ the buffer

  function PixelOf(s: seq<Byte>, i: nat): Quad
    requires 4 * i + 4 <= |s|
  {
    Quad(s[4 * i], s[4 * i + 1], s[4 * i + 2], s[4 * i + 3])
  }

  function Patched(s: seq<Byte>, i: nat, q: Quad): (r: seq<Byte>)
    requires 4 * i + 4 <= |s|
    ensures |r| == |s|
  {
    s[..4 * i] + [q.b0, q.b1, q.b2, q.b3] + s[4 * i + 4..]
  }

  /** The first n pixels converted. */
  function Converted(s: seq<Byte>, n: nat, p: Plan, big: bool): (r: seq<Byte>)
    requires 4 * n <= |s|
    ensures |r| == |s|
  {
    if n == 0 then s else Patched(Converted(s, n - 1, p, big), n - 1, Convert(p, big, PixelOf(s, n - 1)))
  }

  lemma PatchedPixel(s: seq<Byte>, j: nat, q: Quad, i: nat)
    requires 4 * j + 4 <= |s| && 4 * i + 4 <= |s|
    ensures PixelOf(Patched(s, j, q), i) == if i == j then q else PixelOf(s, i)
  {
  }

  lemma PatchedByte(s: seq<Byte>, j: nat, q: Quad, k: nat)
    requires 4 * j + 4 <= k < |s|
    ensures Patched(s, j, q)[k] == s[k]
  {
  }

  /** Each of the first n pixels is converted once, from its own bytes, and nothing else changes. */
  lemma {:induction false} ConvertedAt(s: seq<Byte>, n: nat, p: Plan, big: bool, i: nat)
    requires 4 * n <= |s|
    ensures i < n ==> PixelOf(Converted(s, n, p, big), i) == Convert(p, big, PixelOf(s, i))
    ensures 4 * n <= i < |s| ==> Converted(s, n, p, big)[i] == s[i]
  {
    hide Convert, Patched, PixelOf;
    if n > 0 {
      var rest, q := Converted(s, n - 1, p, big), Convert(p, big, PixelOf(s, n - 1));
      ConvertedAt(s, n - 1, p, big, i);
      if i < n {
        PatchedPixel(rest, n - 1, q, i);
      } else if 4 * n <= i < |s| {
        PatchedByte(rest, n - 1, q, i);
      }
    }
  }

  lemma NextPixel(s: seq<Byte>, n: nat, p: Plan, big: bool)
    requires 4 * n + 4 <= |s|
    ensures PixelOf(Converted(s, n, p, big), n) == PixelOf(s, n)
  {
    hide Converted, Convert;
    forall k | 4 * n <= k < 4 * n + 4 ensures Converted(s, n, p, big)[k] == s[k] {
      ConvertedAt(s, n, p, big, k);
    }
  }

  /** Swapping a whole buffer twice, without filling alpha, restores it. */
  lemma SwapUndone(s: seq<Byte>, n: nat, big: bool)
    requires 4 * n <= |s|
    ensures var swap := Plan(RGBA, false, true, false);
      Converted(Converted(s, n, swap, big), n, swap, big) == s
  {
    var swap := Plan(RGBA, false, true, false);
    var once := Converted(s, n, swap, big);
    var twice := Converted(once, n, swap, big);
    hide Converted;
    forall k | 0 <= k < |s| ensures twice[k] == s[k] {
      if k < 4 * n {
        var i := k / 4;
        ConvertedAt(s, n, swap, big, i);
        ConvertedAt(once, n, swap, big, i);
        assert k == 4 * i || k == 4 * i + 1 || k == 4 * i + 2 || k == 4 * i + 3;
      } else {
        ConvertedAt(s, n, swap, big, k);
        ConvertedAt(once, n, swap, big, k);
      }
    }
  }

  /** How many pixels come before row y; so Row(height, width) is the number of pixels. */
  function Row(y: nat, width: nat): nat {
    y * width
  }

  lemma RowInBounds(y: nat, width: nat, height: nat)
    requires y < height
    ensures Row(y, width) + width <= Row(height, width) && Row(y + 1, width) == Row(y, width) + width
  {
    assert (y + 1) * width <= height * width;
  }

  /** A pixel, read and written as one machine word by the rotation. */
  method WritePixel(mem: array<Byte>, i: nat, q: Quad)
    requires 4 * i + 4 <= mem.Length
    modifies mem
    ensures mem[..] == Patched(old(mem[..]), i, q)
  {
    mem[4 * i] := q.b0;
    mem[4 * i + 1] := q.b1;
    mem[4 * i + 2] := q.b2;
    mem[4 * i + 3] := q.b3;
  }

  /** The first n pixels of mem are converted, seen from its original contents s. */
  ghost predicate Reached(mem: array<Byte>, s: seq<Byte>, n: nat, p: Plan, big: bool)
    reads mem
  {
    4 * n <= |s| && mem[..] == Converted(s, n, p, big)
  }

  lemma AllReached(mem: array<Byte>, s: seq<Byte>, n: nat, p: Plan, big: bool)
    requires Reached(mem, s, n, p, big)
    ensures 4 * n <= |s| && mem[..] == Converted(s, n, p, big)
  {
  }

  lemma NothingYet(s: seq<Byte>, p: Plan, big: bool)
    ensures Converted(s, 0, p, big) == s
  {
  }

  function ReadPixel(mem: array<Byte>, i: nat): (q: Quad)
    requires 4 * i + 4 <= mem.Length
    reads mem
    ensures q == PixelOf(mem[..], i)
  {
    Quad(mem[4 * i], mem[4 * i + 1], mem[4 * i + 2], mem[4 * i + 3])
  }

  /** One row, each pixel read and written as a machine word. */
  method TransformRowA(ghost s: seq<Byte>, mem: array<Byte>, row: nat, width: nat, big: bool, fillAlpha: bool)
    requires |s| == mem.Length && 4 * (row + width) <= mem.Length
    requires Reached(mem, s, row, Plan(RGBA, true, false, fillAlpha), big)
    modifies mem
    ensures Reached(mem, s, row + width, Plan(RGBA, true, false, fillAlpha), big)
  {
    ghost var p := Plan(RGBA, true, false, fillAlpha);
    hide Load, Rotated, Store, Patched;
    for x := 0 to width
      invariant mem[..] == Converted(s, row + x, p, big)
    {
      NextPixel(s, row + x, p, big);
      var pixel := Load(big, ReadPixel(mem, row + x));
      pixel := Rotated(pixel, fillAlpha);
      WritePixel(mem, row + x, Store(big, pixel));
    }
  }

  /** The loops for transformPixelsA. */
  method TransformA(mem: array<Byte>, width: nat, height: nat, big: bool, fillAlpha: bool)
    requires mem.Length >= 4 * Row(height, width)
    modifies mem
    ensures mem[..] == Converted(old(mem[..]), Row(height, width), Plan(RGBA, true, false, fillAlpha), big)
  {
    ghost var s, p := mem[..], Plan(RGBA, true, false, fillAlpha);
    NothingYet(s, p, big);
    assert Row(0, width) == 0 && Reached(mem, s, 0, p, big);
    hide Row, Reached;
    var y := 0;
    while y < height
      invariant 0 <= y <= height && Row(y, width) <= Row(height, width)
      invariant Reached(mem, s, Row(y, width), p, big)
    {
      RowInBounds(y, width, height);
      TransformRowA(s, mem, Row(y, width), width, big, fillAlpha);
      y := y + 1;
    }
    AllReached(mem, s, Row(height, width), p, big);
  }

  /** The body of those loops; at is the byte where pixel i starts. */
  method SwapPixel(pixdata: array<Byte>, at: nat, ghost i: nat, fillAlpha: bool)
    requires at == 4 * i && at + 4 <= pixdata.Length
    modifies pixdata
    ensures pixdata[..] == Patched(old(pixdata[..]), i, SwapB(fillAlpha, PixelOf(old(pixdata[..]), i)))
  {
    if fillAlpha {
      pixdata[at + 3] := 0xFF;
    }
    var temp := pixdata[at + 2];
    pixdata[at + 2] := pixdata[at + 0];
    pixdata[at + 0] := temp;
  }

  /** One row, byte by byte; its first byte is at start. */
  method TransformRowB(ghost s: seq<Byte>, pixdata: array<Byte>, row: nat, start: nat, width: nat, big: bool, fillAlpha: bool)
    requires |s| == pixdata.Length && 4 * (row + width) <= pixdata.Length && start == 4 * row
    requires Reached(pixdata, s, row, Plan(RGBA, false, true, fillAlpha), big)
    modifies pixdata
    ensures Reached(pixdata, s, row + width, Plan(RGBA, false, true, fillAlpha), big)
  {
    ghost var p := Plan(RGBA, false, true, fillAlpha);
    hide Patched, PixelOf;
    for x := 0 to width
      invariant pixdata[..] == Converted(s, row + x, p, big)
    {
      NextPixel(s, row + x, p, big);
      SwapPixel(pixdata, start + x * 4, row + x, fillAlpha);
    }
  }

  /** The loops for transformPixelsB. */
  method TransformB(mem: array<Byte>, width: nat, height: nat, big: bool, fillAlpha: bool)
    requires mem.Length >= 4 * Row(height, width)
    modifies mem
    ensures mem[..] == Converted(old(mem[..]), Row(height, width), Plan(RGBA, false, true, fillAlpha), big)
  {
    ghost var s, p := mem[..], Plan(RGBA, false, true, fillAlpha);
    NothingYet(s, p, big);
    assert Row(0, width) == 0 && Reached(mem, s, 0, p, big);
    hide Row, Reached;
    var y := 0;
    while y < height
      invariant 0 <= y <= height && Row(y, width) <= Row(height, width)
      invariant Reached(mem, s, Row(y, width), p, big)
    {
      RowInBounds(y, width, height);
      TransformRowB(s, mem, Row(y, width), Row(y, width) * 4, width, big, fillAlpha);
      y := y + 1;
    }
    AllReached(mem, s, Row(height, width), p, big);
  }

  method FillPixel(pixdata: array<Byte>, at: nat, ghost i: nat)
    requires at == 4 * i && at + 4 <= pixdata.Length
    modifies pixdata
    ensures pixdata[..] == Patched(old(pixdata[..]), i, FillOnly(true, PixelOf(old(pixdata[..]), i)))
  {
    pixdata[at + 3] := 0xFF;
  }

  method FillRow(ghost s: seq<Byte>, pixdata: array<Byte>, row: nat, start: nat, width: nat, big: bool, formatGL: FormatGL)
    requires |s| == pixdata.Length && 4 * (row + width) <= pixdata.Length && start == 4 * row
    requires Reached(pixdata, s, row, Plan(formatGL, false, false, true), big)
    modifies pixdata
    ensures Reached(pixdata, s, row + width, Plan(formatGL, false, false, true), big)
  {
    ghost var p := Plan(formatGL, false, false, true);
    hide Patched, PixelOf;
    for x := 0 to width
      invariant pixdata[..] == Converted(s, row + x, p, big)
    {
      NextPixel(s, row + x, p, big);
      FillPixel(pixdata, start + x * 4, row + x);
    }
  }

  /** The loops that only fill alpha. */
  method FillAlpha(mem: array<Byte>, width: nat, height: nat, big: bool, formatGL: FormatGL)
    requires mem.Length >= 4 * Row(height, width)
    modifies mem
    ensures mem[..] == Converted(old(mem[..]), Row(height, width), Plan(formatGL, false, false, true), big)
  {
    ghost var s, p := mem[..], Plan(formatGL, false, false, true);
    NothingYet(s, p, big);
    assert Row(0, width) == 0 && Reached(mem, s, 0, p, big);
    hide Row, Reached;
    var y := 0;
    while y < height
      invariant 0 <= y <= height && Row(y, width) <= Row(height, width)
      invariant Reached(mem, s, Row(y, width), p, big)
    {
      RowInBounds(y, width, height);
      FillRow(s, mem, Row(y, width), Row(y, width) * 4, width, big, formatGL);
      y := y + 1;
    }
    AllReached(mem, s, Row(height, width), p, big);
  }

  lemma PatchSame(s: seq<Byte>, i: nat)
    requires 4 * i + 4 <= |s|
    ensures Patched(s, i, PixelOf(s, i)) == s
  {
  }

  lemma {:induction false} NothingToConvert(s: seq<Byte>, n: nat, p: Plan, big: bool)
    requires 4 * n <= |s| && !p.transformPixelsA && !p.transformPixelsB && !p.fillAlpha
    ensures Converted(s, n, p, big) == s
  {
    if n > 0 {
      NothingToConvert(s, n - 1, p, big);
      PatchSame(s, n - 1);
      hide Patched, PixelOf;
    }
  }

  /** wstRendererEMBCommitShm, after the client's pixels have been copied to mem: every pixel is
      converted once, and GL shows the colours that were meant for every format a client can use. */
  method CommitShm(mem: array<Byte>, width: nat, height: nat, big: bool, bgra: bool, f: Format) returns (formatGL: FormatGL)
    requires mem.Length >= 4 * Row(height, width)
    modifies mem
    ensures mem[..] == Converted(old(mem[..]), Row(height, width), Choose(big, bgra, f), big)
    ensures big || Received(f) ==>
      forall i :: 0 <= i < Row(height, width) ==> Shown(formatGL, PixelOf(mem[..], i)) == Meant(f, big, PixelOf(old(mem[..]), i))
  {
    var p := Choose(big, bgra, f);
    formatGL := p.formatGL;
    ghost var s := mem[..];
    if p.transformPixelsA {
      TransformA(mem, width, height, big, p.fillAlpha);
    } else if p.transformPixelsB {
      TransformB(mem, width, height, big, p.fillAlpha);
    } else if p.fillAlpha {
      FillAlpha(mem, width, height, big, p.formatGL);
    } else {
      NothingToConvert(s, Row(height, width), p, big);
    }
    assert mem[..] == Converted(s, Row(height, width), p, big);
    ColoursKeptIff(big, bgra, f);
    hide Converted, Convert, Meant, Shown, Choose, PixelOf;
    forall i | 0 <= i < Row(height, width) ensures PixelOf(mem[..], i) == Convert(p, big, PixelOf(s, i)) {
      ConvertedAt(s, Row(height, width), p, big, i);
    }
  }
}
