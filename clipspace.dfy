/**
 * The per-triangle steps of the render loop (engine.c, `Engine_run`):
 * the clip-space cull tests, the perspective divide and the viewport
 * mapping.
 *
 * In homogeneous clip space a vertex (x, y, z, w) is in the view volume
 * when -w < x < w, -w < y < w and 0 < z < w. A triangle is dropped only
 * when all three of its vertices lie beyond one and the same bounding
 * plane; a triangle that straddles planes, or has just one vertex behind
 * the near plane, is kept and divided.
 */
module ClipSpace {
  import opened Vectors
  import opened Matrices
  import opened Models

  /** The six bounding planes of the view volume. */
  datatype Plane = Left | Right | Top | Bottom | Near | Far

  /** Vertex v lies strictly on the outer side of plane p. */
  predicate Beyond(p: Plane, v: Vector3)
  {
    match p
    case Left => v.x < -v.w
    case Right => v.x > v.w
    case Top => v.y < -v.w
    case Bottom => v.y > v.w
    case Near => v.z < 0.0
    case Far => v.z > v.w
  }

  /** The six `continue` tests of the render loop, in their order: left, right, top, bottom, near, far. */
  predicate Culled(t: Tri)
  {
    (t.p1.x < -t.p1.w && t.p2.x < -t.p2.w && t.p3.x < -t.p3.w)
    || (t.p1.x > t.p1.w && t.p2.x > t.p2.w && t.p3.x > t.p3.w)
    || (t.p1.y < -t.p1.w && t.p2.y < -t.p2.w && t.p3.y < -t.p3.w)
    || (t.p1.y > t.p1.w && t.p2.y > t.p2.w && t.p3.y > t.p3.w)
    || (t.p1.z < 0.0 && t.p2.z < 0.0 && t.p3.z < 0.0)
    || (t.p1.z > t.p1.w && t.p2.z > t.p2.w && t.p3.z > t.p3.w)
  }

  /** All three vertices beyond the one plane p. */
  predicate AllBeyond(p: Plane, t: Tri)
  {
    Beyond(p, t.p1) && Beyond(p, t.p2) && Beyond(p, t.p3)
  }

  /** A triangle is culled exactly when some single plane has all three vertices beyond it. */
  lemma CulledIffOnePlane(t: Tri)
    ensures Culled(t) <==> exists p: Plane :: AllBeyond(p, t)
  {
    if Culled(t) {
      var p :=
        if AllBeyond(Left, t) then Left
        else if AllBeyond(Right, t) then Right
        else if AllBeyond(Top, t) then Top
        else if AllBeyond(Bottom, t) then Bottom
        else if AllBeyond(Near, t) then Near
        else Far;
      assert AllBeyond(p, t);
    }
    if exists p: Plane :: AllBeyond(p, t) {
      var p: Plane :| AllBeyond(p, t);
      match p
      case Left =>
      case Right =>
      case Top =>
      case Bottom =>
      case Near =>
      case Far =>
    }
  }

  /** Vertex v is in the closed view volume. */
  predicate Inside(v: Vector3)
  {
    -v.w <= v.x <= v.w && -v.w <= v.y <= v.w && 0.0 <= v.z <= v.w
  }

  /** A triangle with any vertex inside the view volume is never culled. */
  lemma InsideNeverCulled(t: Tri)
    requires Inside(t.p1) || Inside(t.p2) || Inside(t.p3)
    ensures !Culled(t)
  {
  }

  /**
   * The near test asks for all three vertices behind the camera: unless all
   * three have z < 0, a triangle is culled only by one of the other five
   * planes. One vertex behind the camera does not drop the triangle.
   */
  lemma NearNeedsAllThree(t: Tri)
    requires !(t.p1.z < 0.0 && t.p2.z < 0.0 && t.p3.z < 0.0)
    ensures Culled(t) <==> exists p: Plane :: p != Near && AllBeyond(p, t)
  {
    CulledIffOnePlane(t);
    assert !AllBeyond(Near, t);
  }

  /** A triangle of three vertices behind the near plane is culled. */
  lemma AllBehindCulled(t: Tri)
    requires t.p1.z < 0.0 && t.p2.z < 0.0 && t.p3.z < 0.0
    ensures Culled(t)
  {
  }

  /** The perspective divide `Vector3_smul(v, 1 / v.w)`; the source does not check w != 0. */
  function PerspectiveDivide(v: Vector3): (r: Vector3)
    requires v.w != 0.0
    ensures r.w == 1.0
  {
    Vectors.SMul(v, 1.0 / v.w)
  }

  /** Scaling the divided vertex back by w gives the clip-space vertex again. */
  lemma DivideUndone(v: Vector3)
    requires v.w != 0.0
    ensures Vectors.SMul(PerspectiveDivide(v), v.w) == v
  {
    var k := 1.0 / v.w;
    assert v.w * k == 1.0;
    assert v.w * (k * v.x) == v.x by {
      assert v.w * (k * v.x) == (v.w * k) * v.x;
    }
    assert v.w * (k * v.y) == v.y by {
      assert v.w * (k * v.y) == (v.w * k) * v.y;
    }
    assert v.w * (k * v.z) == v.z by {
      assert v.w * (k * v.z) == (v.w * k) * v.z;
    }
  }

  /** A vertex inside the volume with w > 0 lands in normalised device coordinates [-1, 1]^2 x [0, 1]. */
  lemma DivideInside(v: Vector3)
    requires v.w > 0.0 && Inside(v)
    ensures var n := PerspectiveDivide(v);
      -1.0 <= n.x <= 1.0 && -1.0 <= n.y <= 1.0 && 0.0 <= n.z <= 1.0
  {
    var k := 1.0 / v.w;
    var n := PerspectiveDivide(v);
    assert n.x == k * v.x && n.y == k * v.y && n.z == k * v.z;
    assert k > 0.0;
    assert k * v.w == 1.0;
    ScaleBetween(k, v.x, v.w);
    ScaleBetween(k, v.y, v.w);
    assert k * v.z <= k * v.w by {
      assert k * v.w - k * v.z == k * (v.w - v.z);
    }
    assert 0.0 <= k * v.z;
  }

  /** For k > 0, -w <= a <= w gives -k w <= k a <= k w. */
  lemma ScaleBetween(k: real, a: real, w: real)
    requires k > 0.0 && -w <= a <= w
    ensures -(k * w) <= k * a <= k * w
  {
    assert k * w - k * a == k * (w - a);
    assert k * a + k * w == k * (a + w);
  }

  /** The viewport step of the render loop: the vertex times the viewport matrix. */
  function ToScreen(v: Vector3, windowWidth: int, windowHeight: int): Vector3
  {
    Vector3MulMatrix4(v, Viewport(windowWidth, windowHeight))
  }

  /** A divided vertex in [-1, 1]^2 lands on screen in [0, width] x [0, height], with depth and weight kept. */
  lemma ScreenBounds(n: Vector3, windowWidth: int, windowHeight: int)
    requires n.w == 1.0 && -1.0 <= n.x <= 1.0 && -1.0 <= n.y <= 1.0
    requires windowWidth >= 0 && windowHeight >= 0
    ensures var s := ToScreen(n, windowWidth, windowHeight);
      0.0 <= s.x <= windowWidth as real && 0.0 <= s.y <= windowHeight as real && s.z == n.z && s.w == 1.0
  {
    ViewportAction(windowWidth, windowHeight, n);
    HalfScale(windowWidth as real, n.x);
    HalfScale(windowHeight as real, n.y);
  }

  /** For size >= 0 and -1 <= a <= 1, 0.5 size (a + 1) is between 0 and size. */
  lemma HalfScale(size: real, a: real)
    requires size >= 0.0 && -1.0 <= a <= 1.0
    ensures 0.0 <= 0.5 * size * (a + 1.0) <= size
  {
    NonNegativeProduct(size, a + 1.0);
    NonNegativeProduct(size, 1.0 - a);
    assert size * (a + 1.0) + size * (1.0 - a) == 2.0 * size;
  }

  /** The product of two non-negative reals is non-negative. */
  lemma NonNegativeProduct(a: real, b: real)
    requires a >= 0.0 && b >= 0.0
    ensures a * b >= 0.0
  {
  }

  /** The three weights of a triangle are nonzero: what the divide needs. */
  predicate Divisible(t: Tri)
  {
    t.p1.w != 0.0 && t.p2.w != 0.0 && t.p3.w != 0.0
  }

  /**
   * The cull does not protect the divide: a triangle with one vertex at
   * weight 0 and another inside the view volume survives all six tests,
   * yet cannot be divided.
   */
  lemma UndivisibleSurvivesCull(t: Tri)
    requires t.p1.w == 0.0 && Inside(t.p2)
    ensures !Culled(t) && !Divisible(t)
  {
    InsideNeverCulled(t);
  }

  /** A surviving triangle after the divide and the viewport: the vertices the wireframe is drawn between. */
  function ScreenTri(t: Tri, windowWidth: int, windowHeight: int): (s: Tri)
    requires Divisible(t)
    ensures s.p1.w == 1.0 && s.p2.w == 1.0 && s.p3.w == 1.0
    ensures (s.r, s.g, s.b) == (t.r, t.g, t.b)
  {
    var d1, d2, d3 := PerspectiveDivide(t.p1), PerspectiveDivide(t.p2), PerspectiveDivide(t.p3);
    ViewportAction(windowWidth, windowHeight, d1);
    ViewportAction(windowWidth, windowHeight, d2);
    ViewportAction(windowWidth, windowHeight, d3);
    t.(p1 := ToScreen(d1, windowWidth, windowHeight),
       p2 := ToScreen(d2, windowWidth, windowHeight),
       p3 := ToScreen(d3, windowWidth, windowHeight))
  }
}
