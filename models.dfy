/**
 * Models: a mesh of triangles in model-local coordinates and the model
 * matrix that places it in the world (model.c, model.h).
 *
 * The model matrix is built as T * (R * S): scale first, then rotate, then
 * translate. The three mutators overwrite the matrix in place and all three
 * multiply the new transform on the RIGHT, so `Translate` moves the model
 * along its own (local) axes.
 */
module Models {
  import opened Vectors
  import opened Matrices
  import opened FrameBuffer

  /** A triangle: three vertices and a colour (model.h). */
  datatype Tri = Tri(p1: Vector3, p2: Vector3, p3: Vector3, r: byte, g: byte, b: byte)

  /** The model matrix of `Model_create`: T(x, y, z) * (Rxyz(rx, ry, rz) * S(sx, sy, sz)). */
  function ModelMatrix(x: real, y: real, z: real, rx: Trig, ry: Trig, rz: Trig, sx: real, sy: real, sz: real): Matrix4
  {
    Mul(Translate(x, y, z), Mul(RotateXYZ(rx, ry, rz), Scale(sx, sy, sz)))
  }

  /** A model: its mesh (a pointer and a count, never changed) and its model matrix. */
  class Model {
    const tris: array<Tri>
    const numTris: int
    var modelToWorld: Matrix4

    /** `Model_create`: stores the mesh as given and composes the model matrix. */
    constructor (x: real, y: real, z: real, rx: Trig, ry: Trig, rz: Trig, sx: real, sy: real, sz: real,
                 tris: array<Tri>, numTris: int)
      ensures this.tris == tris && this.numTris == numTris
      ensures modelToWorld == ModelMatrix(x, y, z, rx, ry, rz, sx, sy, sz)
    {
      var scaleThenRotate := Mul(RotateXYZ(rx, ry, rz), Matrices.Scale(sx, sy, sz));
      this.tris := tris;
      this.numTris := numTris;
      modelToWorld := Mul(Matrices.Translate(x, y, z), scaleThenRotate);
    }

    /** `Model_translate`: M := M * T(dx, dy, dz); the mesh is untouched. */
    method Translate(dx: real, dy: real, dz: real)
      modifies this
      ensures modelToWorld == Mul(old(modelToWorld), Matrices.Translate(dx, dy, dz))
    {
      var translate := Matrices.Translate(dx, dy, dz);
      modelToWorld := Mul(modelToWorld, translate);
    }

    /** `Model_rotate`: M := M * Rxyz(rx, ry, rz); the mesh is untouched. */
    method Rotate(rx: Trig, ry: Trig, rz: Trig)
      modifies this
      ensures modelToWorld == Mul(old(modelToWorld), RotateXYZ(rx, ry, rz))
    {
      var rotate := RotateXYZ(rx, ry, rz);
      modelToWorld := Mul(modelToWorld, rotate);
    }

    /** `Model_scale`: M := M * S(sx, sy, sz); the mesh is untouched. */
    method Scale(sx: real, sy: real, sz: real)
      modifies this
      ensures modelToWorld == Mul(old(modelToWorld), Matrices.Scale(sx, sy, sz))
    {
      var scale := Matrices.Scale(sx, sy, sz);
      modelToWorld := Mul(modelToWorld, scale);
    }
  }

  /** The model matrix sends the local origin to the world point (x, y, z). */
  lemma ModelMatrixOrigin(x: real, y: real, z: real, rx: Trig, ry: Trig, rz: Trig, sx: real, sy: real, sz: real)
    ensures VMul(ModelMatrix(x, y, z, rx, ry, rz, sx, sy, sz), CreatePoint(0.0, 0.0, 0.0)) == CreatePoint(x, y, z)
  {
    var o := CreatePoint(0.0, 0.0, 0.0);
    var rs := Mul(RotateXYZ(rx, ry, rz), Scale(sx, sy, sz));
    VMulMul(Translate(x, y, z), rs, o);
    VMulMul(RotateXYZ(rx, ry, rz), Scale(sx, sy, sz), o);
    RotationFixesOrigin(rx, ry, rz);
  }

  /** Every rotation keeps the origin where it is. */
  lemma RotationFixesOrigin(rx: Trig, ry: Trig, rz: Trig)
    ensures VMul(RotateXYZ(rx, ry, rz), CreatePoint(0.0, 0.0, 0.0)) == CreatePoint(0.0, 0.0, 0.0)
  {
    var o := CreatePoint(0.0, 0.0, 0.0);
    VMulMul(RotateZ(rz), Mul(RotateY(ry), RotateX(rx)), o);
    VMulMul(RotateY(ry), RotateX(rx), o);
  }

  /**
   * When each factor is the identity, so is the model matrix. With
   * `RotateXYZZero`, `TranslateZeroIsIdentity` and `ScaleOneIsIdentity` this
   * makes the matrix of `Model_unit_cube` (no offset, zero angles, unit
   * scale) the identity.
   */
  lemma ModelMatrixOfUnits(x: real, y: real, z: real, rx: Trig, ry: Trig, rz: Trig, sx: real, sy: real, sz: real)
    requires Translate(x, y, z) == Identity() && RotateXYZ(rx, ry, rz) == Identity() && Scale(sx, sy, sz) == Identity()
    ensures ModelMatrix(x, y, z, rx, ry, rz, sx, sy, sz) == Identity()
  {
    IdentitySquared();
  }

  /** S(1, 1, 1) is the identity. */
  lemma ScaleOneIsIdentity()
    ensures Scale(1.0, 1.0, 1.0) == Identity()
  {
  }

  /** T(0, 0, 0) is the identity. */
  lemma TranslateZeroIsIdentity()
    ensures Translate(0.0, 0.0, 0.0) == Identity()
  {
  }

  /** `Model_translate(0, 0, 0)` leaves the model matrix as it was. */
  lemma TranslateByZero(m: Matrix4)
    ensures Mul(m, Translate(0.0, 0.0, 0.0)) == m
  {
    TranslateZeroIsIdentity();
    MulIdentity(m);
  }

  /** `Model_scale(1, 1, 1)` leaves the model matrix as it was. */
  lemma ScaleByUnit(m: Matrix4)
    ensures Mul(m, Scale(1.0, 1.0, 1.0)) == m
  {
    ScaleOneIsIdentity();
    MulIdentity(m);
  }

  /** Translating by a and then by b gives the matrix of one translation by a + b. */
  lemma TranslateTwice(m: Matrix4, u1: real, u2: real, u3: real, v1: real, v2: real, v3: real)
    ensures Mul(Mul(m, Translate(u1, u2, u3)), Translate(v1, v2, v3)) == Mul(m, Translate(u1 + v1, u2 + v2, u3 + v3))
  {
    MulAssociative(m, Translate(u1, u2, u3), Translate(v1, v2, v3));
    TranslateCompose(u1, u2, u3, v1, v2, v3);
  }

  /**
   * Because the translation is multiplied on the right, it moves along the
   * model's local axes: a local point p lands where p + d used to.
   */
  lemma TranslateIsLocal(m: Matrix4, dx: real, dy: real, dz: real, p: Vector3)
    requires p.w == 1.0
    ensures VMul(Mul(m, Translate(dx, dy, dz)), p) == VMul(m, Vectors.Add(p, CreateDirection(dx, dy, dz)))
  {
    VMulMul(m, Translate(dx, dy, dz), p);
    TranslateAction(dx, dy, dz, p);
  }

  /** The twelve triangles of `Model_unit_cube` before the shift: two per face of [0, 1]^3. */
  function CubeCorners(): seq<(real, real, real)>
  {
    [(0.0, 0.0, 0.0), (0.0, 0.0, 1.0), (1.0, 0.0, 0.0),
     (1.0, 0.0, 1.0), (1.0, 0.0, 0.0), (0.0, 0.0, 1.0),
     (0.0, 1.0, 0.0), (0.0, 1.0, 1.0), (1.0, 1.0, 0.0),
     (1.0, 1.0, 1.0), (1.0, 1.0, 0.0), (0.0, 1.0, 1.0),
     (0.0, 0.0, 1.0), (0.0, 1.0, 1.0), (1.0, 0.0, 1.0),
     (1.0, 1.0, 1.0), (1.0, 0.0, 1.0), (0.0, 1.0, 1.0),
     (0.0, 0.0, 0.0), (0.0, 1.0, 0.0), (1.0, 0.0, 0.0),
     (1.0, 1.0, 0.0), (1.0, 0.0, 0.0), (0.0, 1.0, 0.0),
     (0.0, 0.0, 0.0), (0.0, 1.0, 0.0), (0.0, 0.0, 1.0),
     (0.0, 1.0, 1.0), (0.0, 0.0, 1.0), (0.0, 1.0, 0.0),
     (1.0, 0.0, 0.0), (1.0, 1.0, 0.0), (1.0, 0.0, 1.0),
     (1.0, 1.0, 1.0), (1.0, 0.0, 1.0), (1.0, 1.0, 0.0)]
  }

  /**
   * The source builds each vertex with `Vector3_create`, which no header
   * declares; its weight is therefore a parameter here.
   */
  function Vertex(c: (real, real, real), weight: real): Vector3
  {
    Vector3(c.0, c.1, c.2, weight)
  }

  /** Triangle i of the unit cube, before the shift, with colour `col`. */
  function CubeTri(i: nat, weight: real, col: (byte, byte, byte)): Tri
    requires i < 12
  {
    var c := CubeCorners();
    Tri(Vertex(c[3 * i], weight), Vertex(c[3 * i + 1], weight), Vertex(c[3 * i + 2], weight), col.0, col.1, col.2)
  }

  /** The shift of the loop in `Model_unit_cube`: every vertex gets (-0.5, -0.5, -0.5) added. */
  function Shift(t: Tri, weight: real): Tri
  {
    var s := Vector3(-0.5, -0.5, -0.5, weight);
    t.(p1 := Vectors.Add(t.p1, s), p2 := Vectors.Add(t.p2, s), p3 := Vectors.Add(t.p3, s))
  }

  /** A coordinate of the centred cube. */
  predicate Half(v: real)
  {
    v == 0.5 || v == -0.5
  }

  /** A vertex of the centred cube. */
  predicate OnCentredCube(v: Vector3)
  {
    Half(v.x) && Half(v.y) && Half(v.z)
  }

  /** After the shift every vertex coordinate of the unit cube is -0.5 or 0.5, and the colour is kept. */
  lemma CubeIsCentred(i: nat, weight: real, col: (byte, byte, byte))
    requires i < 12
    ensures var t := Shift(CubeTri(i, weight, col), weight);
      OnCentredCube(t.p1) && OnCentredCube(t.p2) && OnCentredCube(t.p3)
      && (t.r, t.g, t.b) == col
    ensures var t := Shift(CubeTri(i, weight, col), weight);
      t.p1.w == 2.0 * weight && t.p2.w == 2.0 * weight && t.p3.w == 2.0 * weight
  {
    var c := CubeCorners();
    assert forall k :: 0 <= k < 36 ==> (c[k].0 == 0.0 || c[k].0 == 1.0) && (c[k].1 == 0.0 || c[k].1 == 1.0) && (c[k].2 == 0.0 || c[k].2 == 1.0);
  }

  /**
   * The centring loop of `Model_unit_cube`: adds `shift` to the three
   * vertices of each of the first n triangles, in place.
   */
  method ShiftMesh(tris: array<Tri>, n: int, shift: Vector3)
    requires 0 <= n <= tris.Length
    modifies tris
    ensures forall j :: 0 <= j < n ==> tris[j] == old(tris[j]).(p1 := Vectors.Add(old(tris[j]).p1, shift),
                                                               p2 := Vectors.Add(old(tris[j]).p2, shift),
                                                               p3 := Vectors.Add(old(tris[j]).p3, shift))
    ensures forall j :: n <= j < tris.Length ==> tris[j] == old(tris[j])
  {
    var i := 0;
    while i < n
      invariant 0 <= i <= n
      invariant forall j :: 0 <= j < i ==> tris[j] == old(tris[j]).(p1 := Vectors.Add(old(tris[j]).p1, shift),
                                                                   p2 := Vectors.Add(old(tris[j]).p2, shift),
                                                                   p3 := Vectors.Add(old(tris[j]).p3, shift))
      invariant forall j :: i <= j < tris.Length ==> tris[j] == old(tris[j])
    {
      var t := tris[i];
      tris[i] := t.(p1 := Vectors.Add(t.p1, shift), p2 := Vectors.Add(t.p2, shift), p3 := Vectors.Add(t.p3, shift));
      i := i + 1;
    }
  }

  /**
   * The mesh of `Model_unit_cube`: a fresh array of the twelve triangles,
   * shifted in place so the cube is centred on the origin. `colours`
   * stands in for the `rand() % 256` channels, one triple per triangle.
   */
  method CubeMesh(weight: real, colours: seq<(byte, byte, byte)>) returns (tris: array<Tri>)
    requires |colours| == 12
    ensures fresh(tris) && tris.Length == 12
    ensures forall i :: 0 <= i < 12 ==> tris[i] == Shift(CubeTri(i, weight, colours[i]), weight)
  {
    tris := new Tri[12](i requires 0 <= i < 12 => CubeTri(i, weight, colours[i]));
    ShiftMesh(tris, 12, Vector3(-0.5, -0.5, -0.5, weight));
  }

  /** `Model_unit_cube`: the centred cube mesh in a model with no offset, zero angles and unit scale. */
  method UnitCube(weight: real, colours: seq<(byte, byte, byte)>) returns (m: Model)
    requires |colours| == 12
    ensures fresh(m) && fresh(m.tris)
    ensures m.numTris == 12 && m.tris.Length == 12
    ensures forall i :: 0 <= i < 12 ==> m.tris[i] == Shift(CubeTri(i, weight, colours[i]), weight)
    ensures m.modelToWorld == ModelMatrix(0.0, 0.0, 0.0, Trig(1.0, 0.0), Trig(1.0, 0.0), Trig(1.0, 0.0), 1.0, 1.0, 1.0)
    ensures m.modelToWorld == Identity()
  {
    var tris := CubeMesh(weight, colours);
    var zero := Trig(1.0, 0.0);
    m := new Model(0.0, 0.0, 0.0, zero, zero, zero, 1.0, 1.0, 1.0, tris, 12);
    RotateXYZZero();
    TranslateZeroIsIdentity();
    ScaleOneIsIdentity();
    ModelMatrixOfUnits(0.0, 0.0, 0.0, zero, zero, zero, 1.0, 1.0, 1.0);
  }
}
