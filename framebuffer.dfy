/**
 * The colour buffer as a value (engine.c, `Engine_set_pixel`).
 *
 * The engine keeps a flat RGBA byte buffer of 4 * width * height bytes,
 * row-major, four bytes per pixel. This module states what one pixel write
 * and a sequence of pixel writes do to that buffer; the `Engine` class
 * proves its in-place methods against these functions.
 */
module FrameBuffer {

  newtype byte = x: int | 0 <= x < 256

  /** `SDL_ALPHA_OPAQUE`. */
  const AlphaOpaque: byte := 255

  /** The colour a raster routine draws with; each channel is a C `int`. */
  datatype Rgb = Rgb(r: int, g: int, b: int)

  /** A pixel position (x, y). */
  type Pixel = (int, int)

  /**
   * The C conversion of an `int` to `unsigned char`: the value modulo 256.
   * The result is the one byte congruent to v.
   */
  function ToByte(v: int): (b: byte)
    ensures (v - b as int) % 256 == 0
  {
    (v % 256) as byte
  }

  /** The bytes `Engine_set_pixel` stores for a colour: red, green, blue, opaque alpha. */
  function PixelBytes(c: Rgb): (s: seq<byte>)
    ensures |s| == 4 && s[3] == AlphaOpaque
  {
    [ToByte(c.r), ToByte(c.g), ToByte(c.b), AlphaOpaque]
  }

  /** The bounds test of `Engine_set_pixel`. */
  predicate InBounds(width: int, height: int, x: int, y: int)
  {
    0 <= x < width && 0 <= y < height
  }

  /** Byte offset of pixel (x, y): `width * y * 4 + x * 4`. */
  function Offset(width: int, x: int, y: int): int
  {
    width * y * 4 + x * 4
  }

  /** An in-bounds pixel's four bytes lie inside a buffer of 4 * width * height bytes. */
  lemma OffsetInRange(width: int, height: int, x: int, y: int)
    requires InBounds(width, height, x, y)
    ensures 0 <= Offset(width, x, y) && Offset(width, x, y) + 4 <= 4 * width * height
  {
    assert width * y <= width * (height - 1) by {
      assert width * (height - 1) - width * y == width * (height - 1 - y);
    }
    assert width * (height - 1) + width == width * height;
  }

  /** Distinct in-bounds pixels own disjoint four-byte blocks. */
  lemma OffsetsDisjoint(width: int, height: int, p: Pixel, q: Pixel)
    requires InBounds(width, height, p.0, p.1) && InBounds(width, height, q.0, q.1)
    requires p != q
    ensures Offset(width, p.0, p.1) + 4 <= Offset(width, q.0, q.1)
         || Offset(width, q.0, q.1) + 4 <= Offset(width, p.0, p.1)
  {
    if p.1 == q.1 {
      assert Offset(width, q.0, q.1) - Offset(width, p.0, p.1) == 4 * (q.0 - p.0);
    } else if p.1 < q.1 {
      OrderedRows(width, p, q);
    } else {
      OrderedRows(width, q, p);
    }
  }

  /** A pixel on an earlier row ends before any pixel on a later row starts. */
  lemma OrderedRows(width: int, p: Pixel, q: Pixel)
    requires 0 <= p.0 < width && 0 <= q.0 < width && p.1 < q.1
    ensures Offset(width, p.0, p.1) + 4 <= Offset(width, q.0, q.1)
  {
    var d := q.1 - p.1;
    assert width * q.1 == width * p.1 + width * d;
    assert width * d >= width by {
      assert width * d - width == width * (d - 1);
    }
  }

  /**
   * `Engine_set_pixel` on a buffer value: inside the window the pixel's four
   * bytes become the colour, outside nothing happens.
   */
  function SetPixel(buf: seq<byte>, width: int, height: int, x: int, y: int, c: Rgb): (res: seq<byte>)
    requires |buf| == 4 * width * height
    ensures |res| == |buf|
  {
    if InBounds(width, height, x, y) then
      OffsetInRange(width, height, x, y);
      var o := Offset(width, x, y);
      buf[o := ToByte(c.r)][o + 1 := ToByte(c.g)][o + 2 := ToByte(c.b)][o + 3 := AlphaOpaque]
    else
      buf
  }

  /** What `SetPixel` leaves behind: the colour at the pixel's bytes and every other byte as before. */
  lemma SetPixelEffect(buf: seq<byte>, width: int, height: int, x: int, y: int, c: Rgb)
    requires |buf| == 4 * width * height
    ensures !InBounds(width, height, x, y) ==> SetPixel(buf, width, height, x, y, c) == buf
    ensures InBounds(width, height, x, y) ==>
      var o := Offset(width, x, y);
      0 <= o && o + 4 <= |buf|
      && SetPixel(buf, width, height, x, y, c)[o..o + 4] == PixelBytes(c)
      && forall k :: 0 <= k < |buf| && !(o <= k < o + 4) ==> SetPixel(buf, width, height, x, y, c)[k] == buf[k]
  {
    if InBounds(width, height, x, y) {
      OffsetInRange(width, height, x, y);
    }
  }

  /** Pixel writes in order, all in one colour: what a line or a wireframe does to the buffer. */
  function Paint(buf: seq<byte>, width: int, height: int, pixels: seq<Pixel>, c: Rgb): (res: seq<byte>)
    requires |buf| == 4 * width * height
    ensures |res| == |buf|
    decreases |pixels|
  {
    if pixels == [] then buf
    else Paint(SetPixel(buf, width, height, pixels[0].0, pixels[0].1, c), width, height, pixels[1..], c)
  }

  /** The byte block owned by some in-bounds pixel of the list. */
  predicate Covered(width: int, height: int, pixels: seq<Pixel>, k: int)
  {
    exists i :: 0 <= i < |pixels| && InBounds(width, height, pixels[i].0, pixels[i].1)
      && Offset(width, pixels[i].0, pixels[i].1) <= k < Offset(width, pixels[i].0, pixels[i].1) + 4
  }

  /** The head's block and every block covered by the tail are covered by the list. */
  lemma CoveredCons(width: int, height: int, pixels: seq<Pixel>, k: int)
    requires pixels != []
    ensures InBounds(width, height, pixels[0].0, pixels[0].1)
         && Offset(width, pixels[0].0, pixels[0].1) <= k < Offset(width, pixels[0].0, pixels[0].1) + 4
         ==> Covered(width, height, pixels, k)
    ensures Covered(width, height, pixels[1..], k) ==> Covered(width, height, pixels, k)
  {
    if Covered(width, height, pixels[1..], k) {
      var i :| 0 <= i < |pixels[1..]| && InBounds(width, height, pixels[1..][i].0, pixels[1..][i].1)
        && Offset(width, pixels[1..][i].0, pixels[1..][i].1) <= k < Offset(width, pixels[1..][i].0, pixels[1..][i].1) + 4;
      assert pixels[i + 1] == pixels[1..][i];
    }
  }

  /** Painting in two stretches is painting the concatenation. */
  lemma {:induction false} PaintAppend(buf: seq<byte>, width: int, height: int, p: seq<Pixel>, q: seq<Pixel>, c: Rgb)
    requires |buf| == 4 * width * height
    ensures Paint(buf, width, height, p + q, c) == Paint(Paint(buf, width, height, p, c), width, height, q, c)
    decreases |p|
  {
    if p != [] {
      assert (p + q)[1..] == p[1..] + q;
      PaintAppend(SetPixel(buf, width, height, p[0].0, p[0].1, c), width, height, p[1..], q, c);
    } else {
      assert p + q == q;
    }
  }

  /** Painting changes only bytes of in-bounds pixels on the list: no write lands outside the window. */
  lemma {:induction false} PaintFrame(buf: seq<byte>, width: int, height: int, pixels: seq<Pixel>, c: Rgb, k: int)
    requires |buf| == 4 * width * height
    requires 0 <= k < |buf| && !Covered(width, height, pixels, k)
    ensures Paint(buf, width, height, pixels, c)[k] == buf[k]
    decreases |pixels|
  {
    if pixels != [] {
      var p := pixels[0];
      var next := SetPixel(buf, width, height, p.0, p.1, c);
      SetPixelEffect(buf, width, height, p.0, p.1, c);
      CoveredCons(width, height, pixels, k);
      PaintFrame(next, width, height, pixels[1..], c, k);
    }
  }

  /** Every in-bounds pixel on the list ends up in the drawing colour. */
  lemma {:induction false} PaintReadBack(buf: seq<byte>, width: int, height: int, pixels: seq<Pixel>, c: Rgb, i: int)
    requires |buf| == 4 * width * height
    requires 0 <= i < |pixels| && InBounds(width, height, pixels[i].0, pixels[i].1)
    ensures var o := Offset(width, pixels[i].0, pixels[i].1);
      0 <= o && o + 4 <= |buf| && Paint(buf, width, height, pixels, c)[o..o + 4] == PixelBytes(c)
    decreases |pixels|
  {
    var p := pixels[0];
    var next := SetPixel(buf, width, height, p.0, p.1, c);
    var o := Offset(width, pixels[i].0, pixels[i].1);
    OffsetInRange(width, height, pixels[i].0, pixels[i].1);
    if i > 0 {
      assert pixels[1..][i - 1] == pixels[i];
      PaintReadBack(next, width, height, pixels[1..], c, i - 1);
    } else {
      SetPixelEffect(buf, width, height, p.0, p.1, c);
      PaintKeepsColor(next, width, height, pixels[1..], c, o);
    }
  }

  /** Once a pixel's block holds the colour, further writes in the same colour keep it there. */
  lemma {:induction false} PaintKeepsColor(buf: seq<byte>, width: int, height: int, pixels: seq<Pixel>, c: Rgb, o: int)
    requires |buf| == 4 * width * height
    requires 0 <= o && o + 4 <= |buf| && o % 4 == 0 && buf[o..o + 4] == PixelBytes(c)
    ensures Paint(buf, width, height, pixels, c)[o..o + 4] == PixelBytes(c)
    decreases |pixels|
  {
    if pixels != [] {
      var p := pixels[0];
      var next := SetPixel(buf, width, height, p.0, p.1, c);
      SetPixelEffect(buf, width, height, p.0, p.1, c);
      if InBounds(width, height, p.0, p.1) {
        var q := Offset(width, p.0, p.1);
        assert q % 4 == 0 by {
          assert q == 4 * (width * p.1 + p.0);
        }
        if q == o {
          assert next[o..o + 4] == PixelBytes(c);
        } else {
          assert q + 4 <= o || o + 4 <= q;
          assert forall k :: o <= k < o + 4 ==> next[k] == buf[k];
          assert next[o..o + 4] == buf[o..o + 4];
        }
      }
      PaintKeepsColor(next, width, height, pixels[1..], c, o);
    }
  }
}
