/**
 * The engine's frame buffer and its raster and geometry routines
 * (engine.c): pixel writes, Bresenham lines, wireframe triangles, the
 * model-view-projection pass over a mesh, the frame clear and the drawing
 * loop of the render loop.
 *
 * The colour buffer is updated in place; each method is proved against the
 * buffer functions of `FrameBuffer` and the pixel sequences of `Lines`.
 */
module Engines {
  import opened Vectors
  import opened Matrices
  import opened FrameBuffer
  import opened Lines
  import opened Models
  import opened ClipSpace

  /** The C conversion of a `float` to `int`: truncation toward zero. */
  function Trunc(v: real): (r: int)
    ensures v >= 0.0 ==> r >= 0 && r as real <= v < r as real + 1.0
    ensures v < 0.0 ==> r <= 0 && r as real - 1.0 < v <= r as real
  {
    if v >= 0.0 then v.Floor else -((-v).Floor)
  }

  /** The pixels of a wireframe triangle: edges v1 to v2, v2 to v3 and v3 to v1, at truncated x and y. */
  function Wireframe(v1: Vector3, v2: Vector3, v3: Vector3): seq<Pixel>
  {
    Line(Trunc(v1.x), Trunc(v1.y), Trunc(v2.x), Trunc(v2.y))
    + Line(Trunc(v2.x), Trunc(v2.y), Trunc(v3.x), Trunc(v3.y))
    + Line(Trunc(v3.x), Trunc(v3.y), Trunc(v1.x), Trunc(v1.y))
  }

  /** The wireframe passes through the three truncated vertices. */
  lemma WireframeHitsVertices(v1: Vector3, v2: Vector3, v3: Vector3)
    ensures (Trunc(v1.x), Trunc(v1.y)) in Wireframe(v1, v2, v3)
    ensures (Trunc(v2.x), Trunc(v2.y)) in Wireframe(v1, v2, v3)
    ensures (Trunc(v3.x), Trunc(v3.y)) in Wireframe(v1, v2, v3)
  {
    var a, b, c := (Trunc(v1.x), Trunc(v1.y)), (Trunc(v2.x), Trunc(v2.y)), (Trunc(v3.x), Trunc(v3.y));
    var l1, l2, l3 := Line(a.0, a.1, b.0, b.1), Line(b.0, b.1, c.0, c.1), Line(c.0, c.1, a.0, a.1);
    LineEndpoints(a.0, a.1, b.0, b.1);
    LineEndpoints(b.0, b.1, c.0, c.1);
    LineEndpoints(c.0, c.1, a.0, a.1);
    assert a in l1 && b in l1;
    assert b in l2 && c in l2;
    assert Wireframe(v1, v2, v3) == l1 + l2 + l3;
  }

  /** What the drawing loop draws for one clip-space triangle: nothing if culled, else its screen wireframe. */
  function TriPixels(t: Tri, windowWidth: int, windowHeight: int): seq<Pixel>
    requires !Culled(t) ==> Divisible(t)
  {
    if Culled(t) then []
    else
      var s := ScreenTri(t, windowWidth, windowHeight);
      Wireframe(s.p1, s.p2, s.p3)
  }

  /** Every triangle that survives the cull can be divided. */
  predicate Drawable(tris: seq<Tri>)
  {
    forall i :: 0 <= i < |tris| ==> !Culled(tris[i]) ==> Divisible(tris[i])
  }

  /** The pixels the drawing loop draws for a sequence of clip-space triangles, in loop order. */
  function MeshPixels(tris: seq<Tri>, windowWidth: int, windowHeight: int): seq<Pixel>
    requires Drawable(tris)
    decreases |tris|
  {
    if tris == [] then []
    else MeshPixels(tris[..|tris| - 1], windowWidth, windowHeight)
         + TriPixels(tris[|tris| - 1], windowWidth, windowHeight)
  }

  /** The colour `Engine_run` draws wireframes in. */
  const WireColour := Rgb(255, 250, 250)

  /** The byte `Engine_run` clears the colour buffer to. */
  const ClearByte: byte := 20

  class Engine {
    const windowWidth: int
    const windowHeight: int
    const aspectRatio: real
    const colorBufferSize: int
    const colorBuffer: array<byte>

    /** The buffer holds four bytes per pixel of the window. */
    predicate Valid()
      reads this
    {
      windowWidth >= 0 && windowHeight >= 0
      && colorBufferSize == 4 * windowWidth * windowHeight
      && colorBuffer.Length == colorBufferSize
    }

    /** `Engine_create` without the window: a colour buffer of the window's size, all zero. */
    constructor (windowWidth: int, windowHeight: int)
      requires windowWidth >= 0 && windowHeight > 0
      ensures Valid() && fresh(colorBuffer)
      ensures this.windowWidth == windowWidth && this.windowHeight == windowHeight
      ensures aspectRatio == windowWidth as real / windowHeight as real
      ensures forall k :: 0 <= k < colorBuffer.Length ==> colorBuffer[k] == 0
    {
      this.windowWidth := windowWidth;
      this.windowHeight := windowHeight;
      aspectRatio := windowWidth as real / windowHeight as real;
      colorBufferSize := 4 * windowWidth * windowHeight;
      colorBuffer := new byte[4 * windowWidth * windowHeight](_ => 0);
    }

    /** `Engine_set_pixel`: writes (r, g, b, opaque) at pixel (x, y) when it is inside the window. */
    method SetPixel(x: int, y: int, r: int, g: int, b: int)
      requires Valid()
      modifies colorBuffer
      ensures colorBuffer[..] == FrameBuffer.SetPixel(old(colorBuffer[..]), windowWidth, windowHeight, x, y, Rgb(r, g, b))
    {
      if 0 <= x && x < windowWidth && 0 <= y && y < windowHeight {
        var colorOffset := (windowWidth * y * 4) + x * 4;
        OffsetInRange(windowWidth, windowHeight, x, y);
        colorBuffer[colorOffset + 0] := ToByte(r);
        colorBuffer[colorOffset + 1] := ToByte(g);
        colorBuffer[colorOffset + 2] := ToByte(b);
        colorBuffer[colorOffset + 3] := AlphaOpaque;
      }
    }

    /** `Engine_bresenham`: paints the pixels of `Line(x1, y1, x2, y2)`, in order, through `SetPixel`. */
    method Bresenham(x1: int, y1: int, x2: int, y2: int, r: int, g: int, b: int)
      requires Valid()
      modifies colorBuffer
      ensures colorBuffer[..] == Paint(old(colorBuffer[..]), windowWidth, windowHeight, Line(x1, y1, x2, y2), Rgb(r, g, b))
    {
      var steep := Abs(y2 - y1) > Abs(x2 - x1);
      var inc := -1;
      var xa, ya, xb, yb := x1, y1, x2, y2;
      if steep {
        xa, ya := ya, xa;
        xb, yb := yb, xb;
      }
      if xa > xb {
        xa, xb := xb, xa;
        ya, yb := yb, ya;
      }
      if ya < yb {
        inc := 1;
      }
      var dx := Abs(xb - xa);
      var dy := Abs(yb - ya);
      assert Normalise(x1, y1, x2, y2) == Setup(steep, xa, ya, xb, yb, inc);
      DrawWalk(xa, xb, ya, dx, dy, inc, steep, r, g, b);
    }

    /**
     * The loop of `Engine_bresenham`, from column x1 to x2 starting on row y1
     * with error 0: paints the pixels of the walk.
     */
    method DrawWalk(x1: int, x2: int, y1: int, dx: int, dy: int, inc: int, steep: bool, r: int, g: int, b: int)
      requires Valid()
      modifies colorBuffer
      ensures colorBuffer[..] == Paint(old(colorBuffer[..]), windowWidth, windowHeight, Walk(x1, x2, y1, 0, dx, dy, inc, steep), Rgb(r, g, b))
    {
      var y := y1;
      var x := x1;
      var e := 0;
      while x <= x2
        invariant Paint(colorBuffer[..], windowWidth, windowHeight, Walk(x, x2, y, e, dx, dy, inc, steep), Rgb(r, g, b))
               == Paint(old(colorBuffer[..]), windowWidth, windowHeight, Walk(x1, x2, y1, 0, dx, dy, inc, steep), Rgb(r, g, b))
        decreases x2 - x + 1
      {
        PaintWalkStep(colorBuffer[..], windowWidth, windowHeight, x, x2, y, e, dx, dy, inc, steep, Rgb(r, g, b));
        if steep {
          SetPixel(y, x, r, g, b);
        } else {
          SetPixel(x, y, r, g, b);
        }
        if 2 * (e + dy) < dx {
          e := e + dy;
        } else {
          y := y + inc;
          e := e + dy - dx;
        }
        x := x + 1;
      }
    }

    /** `Engine_draw_tri_wireframe`: the three edges, each between truncated vertex coordinates. */
    method DrawTriWireframe(v1: Vector3, v2: Vector3, v3: Vector3, r: int, g: int, b: int)
      requires Valid()
      modifies colorBuffer
      ensures colorBuffer[..] == Paint(old(colorBuffer[..]), windowWidth, windowHeight, Wireframe(v1, v2, v3), Rgb(r, g, b))
    {
      var c := Rgb(r, g, b);
      ghost var start := colorBuffer[..];
      ghost var l1 := Line(Trunc(v1.x), Trunc(v1.y), Trunc(v2.x), Trunc(v2.y));
      ghost var l2 := Line(Trunc(v2.x), Trunc(v2.y), Trunc(v3.x), Trunc(v3.y));
      ghost var l3 := Line(Trunc(v3.x), Trunc(v3.y), Trunc(v1.x), Trunc(v1.y));
      Bresenham(Trunc(v1.x), Trunc(v1.y), Trunc(v2.x), Trunc(v2.y), r, g, b);
      Bresenham(Trunc(v2.x), Trunc(v2.y), Trunc(v3.x), Trunc(v3.y), r, g, b);
      Bresenham(Trunc(v3.x), Trunc(v3.y), Trunc(v1.x), Trunc(v1.y), r, g, b);
      PaintAppend(start, windowWidth, windowHeight, l1, l2, c);
      PaintAppend(start, windowWidth, windowHeight, l1 + l2, l3, c);
    }

    /** The frame clear of the render loop: every byte of the colour buffer becomes 20. */
    method ClearFrame()
      requires Valid()
      modifies colorBuffer
      ensures forall k :: 0 <= k < colorBuffer.Length ==> colorBuffer[k] == ClearByte
    {
      forall k | 0 <= k < colorBuffer.Length {
        colorBuffer[k] := ClearByte;
      }
    }

    /**
     * The drawing loop of the render loop: for each clip-space triangle in
     * turn, skip it if culled, else divide, map to the screen and draw its
     * wireframe in the fixed colour.
     */
    method DrawMesh(clip: array<Tri>, numTris: int)
      requires Valid()
      requires 0 <= numTris <= clip.Length
      requires Drawable(clip[..numTris])
      modifies colorBuffer
      ensures colorBuffer[..] == Paint(old(colorBuffer[..]), windowWidth, windowHeight,
                                       MeshPixels(clip[..numTris], windowWidth, windowHeight), WireColour)
    {
      var i := 0;
      while i < numTris
        invariant 0 <= i <= numTris
        invariant Drawable(clip[..i])
        invariant colorBuffer[..] == Paint(old(colorBuffer[..]), windowWidth, windowHeight,
                                           MeshPixels(clip[..i], windowWidth, windowHeight), WireColour)
      {
        var t := clip[i];
        assert clip[..i + 1] == clip[..i] + [t];
        assert clip[..i + 1][..i] == clip[..i];
        assert t == clip[..numTris][i];
        ghost var before := colorBuffer[..];
        if !Culled(t) {
          var vert1 := PerspectiveDivide(t.p1);
          var vert2 := PerspectiveDivide(t.p2);
          var vert3 := PerspectiveDivide(t.p3);
          vert1 := Vector3MulMatrix4(vert1, Viewport(windowWidth, windowHeight));
          vert2 := Vector3MulMatrix4(vert2, Viewport(windowWidth, windowHeight));
          vert3 := Vector3MulMatrix4(vert3, Viewport(windowWidth, windowHeight));
          DrawTriWireframe(vert1, vert2, vert3, 255, 250, 250);
        }
        PaintAppend(old(colorBuffer[..]), windowWidth, windowHeight,
                    MeshPixels(clip[..i], windowWidth, windowHeight), TriPixels(t, windowWidth, windowHeight), WireColour);
        i := i + 1;
      }
      assert clip[..i] == clip[..numTris];
    }
  }

  /**
   * `Engine_mvp`: for each of the first `numTris` triangles, the three
   * vertices of `out[i]` become those of `mesh[i]` times `mvp`. The colour
   * of `out[i]` is not written, and `out` may be the mesh itself.
   */
  method Mvp(mesh: array<Tri>, numTris: int, mvp: Matrix4, out: array<Tri>)
    requires 0 <= numTris <= mesh.Length && numTris <= out.Length
    modifies out
    ensures forall i :: 0 <= i < numTris ==>
      out[i] == old(out[i]).(p1 := Vector3MulMatrix4(old(mesh[i]).p1, mvp),
                             p2 := Vector3MulMatrix4(old(mesh[i]).p2, mvp),
                             p3 := Vector3MulMatrix4(old(mesh[i]).p3, mvp))
    ensures forall i :: numTris <= i < out.Length ==> out[i] == old(out[i])
  {
    var i := 0;
    while i < numTris
      invariant 0 <= i <= numTris
      invariant forall j :: 0 <= j < i ==>
        out[j] == old(out[j]).(p1 := Vector3MulMatrix4(old(mesh[j]).p1, mvp),
                               p2 := Vector3MulMatrix4(old(mesh[j]).p2, mvp),
                               p3 := Vector3MulMatrix4(old(mesh[j]).p3, mvp))
      invariant forall j :: i <= j < out.Length ==> out[j] == old(out[j])
      invariant forall j :: i <= j < mesh.Length ==> mesh[j] == old(mesh[j])
    {
      var tri := mesh[i];
      out[i] := out[i].(p1 := Vector3MulMatrix4(tri.p1, mvp));
      out[i] := out[i].(p2 := Vector3MulMatrix4(tri.p2, mvp));
      out[i] := out[i].(p3 := Vector3MulMatrix4(tri.p3, mvp));
      i := i + 1;
    }
  }
}
