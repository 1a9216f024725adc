/**
 * Second phase of the `PolygonalMesh` importer, as specifications: faces
 * become triangles (a quad splits into corners 0-1-2 and 1-2-3), the
 * submeshes are concatenated, and every triangle corner is expanded into
 * three flat float buffers (positions x3, texture coordinates x2 with V
 * flipped, normals x3). Face indices are 1-based.
 */
module MeshSoup {
  import opened Vectors
  import opened MeshRows

  /** Three face corners, in winding order. */
  datatype Triangle = Triangle(a: Corner, b: Corner, c: Corner)

  /** The triangles a face contributes to `numberOfTriangles`. */
  function FaceTriangleCount(f: Face): nat
  {
    if f.QuadFace? then 2 else 1
  }

  /** The triangles of one face; a quad is split along the diagonal between its corners 1 and 2. */
  function FaceTriangles(f: Face): (r: seq<Triangle>)
    ensures |r| == FaceTriangleCount(f)
  {
    match f
    case TriangleFace(c0, c1, c2) => [Triangle(c0, c1, c2)]
    case QuadFace(c0, c1, c2, c3) => [Triangle(c0, c1, c2), Triangle(c1, c2, c3)]
  }

  /** The triangles of a list of faces, face after face. */
  function FacesSoup(fs: seq<Face>): seq<Triangle>
  {
    if fs == [] then [] else FacesSoup(fs[..|fs| - 1]) + FaceTriangles(fs[|fs| - 1])
  }

  /** The triangles of all submeshes, submesh after submesh. */
  function Soup(ss: seq<seq<Face>>): seq<Triangle>
  {
    if ss == [] then [] else Soup(ss[..|ss| - 1]) + FacesSoup(ss[|ss| - 1])
  }

  /** 2 per quad and 1 per triangle face. */
  function FacesCount(fs: seq<Face>): nat
  {
    if fs == [] then 0 else FacesCount(fs[..|fs| - 1]) + FaceTriangleCount(fs[|fs| - 1])
  }

  /** `numberOfTriangles` of the source: the face counts summed over all submeshes. */
  function TriangleCount(ss: seq<seq<Face>>): nat
  {
    if ss == [] then 0 else TriangleCount(ss[..|ss| - 1]) + FacesCount(ss[|ss| - 1])
  }

  // ---------------------------------------------------------------------------
  // Counting

  /** A list of faces yields as many triangles as it counts. */
  lemma {:induction false} FacesSoupLength(fs: seq<Face>)
    ensures |FacesSoup(fs)| == FacesCount(fs)
  {
    if fs != [] {
      FacesSoupLength(fs[..|fs| - 1]);
    }
  }

  /** The soup has exactly `numberOfTriangles` triangles. */
  lemma {:induction false} SoupLength(ss: seq<seq<Face>>)
    ensures |Soup(ss)| == TriangleCount(ss)
  {
    if ss != [] {
      SoupLength(ss[..|ss| - 1]);
      FacesSoupLength(ss[|ss| - 1]);
    }
  }

  /** Adding faces never lowers the count. */
  lemma {:induction false} FacesCountPrefix(fs: seq<Face>, i: nat)
    requires i <= |fs|
    ensures FacesCount(fs[..i]) <= FacesCount(fs)
  {
    if i < |fs| {
      assert fs[..|fs| - 1][..i] == fs[..i];
      FacesCountPrefix(fs[..|fs| - 1], i);
    } else {
      assert fs[..i] == fs;
    }
  }

  /** The count of a prefix of the submeshes is at most the whole count. */
  lemma {:induction false} TriangleCountPrefix(ss: seq<seq<Face>>, k: nat)
    requires k <= |ss|
    ensures TriangleCount(ss[..k]) <= TriangleCount(ss)
  {
    if k < |ss| {
      assert ss[..|ss| - 1][..k] == ss[..k];
      TriangleCountPrefix(ss[..|ss| - 1], k);
    } else {
      assert ss[..k] == ss;
    }
  }

  // ---------------------------------------------------------------------------
  // Order

  /** The soup of two face lists is the soup of the first followed by that of the second. */
  lemma {:induction false} FacesSoupAppend(a: seq<Face>, b: seq<Face>)
    ensures FacesSoup(a + b) == FacesSoup(a) + FacesSoup(b)
  {
    if b == [] {
      assert a + b == a;
    } else {
      var b' := b[..|b| - 1];
      assert (a + b)[..|a + b| - 1] == a + b';
      FacesSoupAppend(a, b');
    }
  }

  /** Submesh boundaries leave no trace in the triangles: the soup is that of all faces in order. */
  lemma {:induction false} SoupIgnoresGrouping(ss: seq<seq<Face>>)
    ensures Soup(ss) == FacesSoup(Concat(ss))
  {
    if ss != [] {
      SoupIgnoresGrouping(ss[..|ss| - 1]);
      FacesSoupAppend(Concat(ss[..|ss| - 1]), ss[|ss| - 1]);
    }
  }

  /**
   * Face `j` occupies the triangles that start right after those of the faces
   * before it: faces are emitted in order and each one contiguously.
   */
  lemma FaceTrianglesInSoup(fs: seq<Face>, j: nat)
    requires j < |fs|
    ensures var start := |FacesSoup(fs[..j])|;
      && start + FaceTriangleCount(fs[j]) <= |FacesSoup(fs)|
      && FacesSoup(fs)[start..start + FaceTriangleCount(fs[j])] == FaceTriangles(fs[j])
  {
    assert fs == fs[..j] + [fs[j]] + fs[j + 1..];
    FacesSoupAppend(fs[..j] + [fs[j]], fs[j + 1..]);
    FacesSoupAppend(fs[..j], [fs[j]]);
    assert FacesSoup([fs[j]]) == FaceTriangles(fs[j]) by {
      assert [fs[j]][..0] == [];
    }
  }

  /** A quad (a,b,c,d) becomes the consecutive triangles (a,b,c) then (b,c,d); a triangle face becomes one triangle. */
  lemma QuadSplitsIntoConsecutiveTriangles(fs: seq<Face>, j: nat)
    requires j < |fs|
    ensures var start := |FacesSoup(fs[..j])|;
      match fs[j]
      case QuadFace(a, b, c, d) =>
        start + 1 < |FacesSoup(fs)|
        && FacesSoup(fs)[start] == Triangle(a, b, c) && FacesSoup(fs)[start + 1] == Triangle(b, c, d)
      case TriangleFace(a, b, c) =>
        start < |FacesSoup(fs)| && FacesSoup(fs)[start] == Triangle(a, b, c)
  {
    FaceTrianglesInSoup(fs, j);
    var start := |FacesSoup(fs[..j])|;
    var slice := FacesSoup(fs)[start..start + FaceTriangleCount(fs[j])];
    assert forall k :: 0 <= k < |slice| ==> slice[k] == FacesSoup(fs)[start + k];
  }

  // ---------------------------------------------------------------------------
  // Vertex data

  /** The three vertex lists a face refers to. */
  datatype VertexLists = VertexLists(positions: seq<Vec3>, texcoords: seq<Vec2>, normals: seq<Vec3>)

  /** Every index of the corner, decremented by one, is a valid offset into its list. */
  predicate CornerInRange(v: VertexLists, c: Corner)
  {
    && 1 <= c.position <= |v.positions|
    && 1 <= c.texcoord <= |v.texcoords|
    && 1 <= c.normal <= |v.normals|
  }

  predicate FaceInRange(v: VertexLists, f: Face)
  {
    CornerInRange(v, f.c0) && CornerInRange(v, f.c1) && CornerInRange(v, f.c2)
    && (f.QuadFace? ==> CornerInRange(v, f.c3))
  }

  predicate FacesInRange(v: VertexLists, ss: seq<seq<Face>>)
  {
    forall i, j :: 0 <= i < |ss| && 0 <= j < |ss[i]| ==> FaceInRange(v, ss[i][j])
  }

  /** Every face of in-range submeshes, concatenated, is in range. */
  lemma {:induction false} ConcatInRange(v: VertexLists, ss: seq<seq<Face>>)
    requires FacesInRange(v, ss)
    ensures forall f :: f in Concat(ss) ==> FaceInRange(v, f)
  {
    if ss != [] {
      var init := ss[..|ss| - 1];
      assert FacesInRange(v, init) by {
        forall i, j | 0 <= i < |init| && 0 <= j < |init[i]|
          ensures FaceInRange(v, init[i][j])
        {
          assert init[i] == ss[i];
        }
      }
      ConcatInRange(v, init);
      forall f | f in ss[|ss| - 1]
        ensures FaceInRange(v, f)
      {
        var j :| 0 <= j < |ss[|ss| - 1]| && ss[|ss| - 1][j] == f;
      }
    }
  }

  /** A face with a zero index is out of range of any vertex lists: indices are 1-based. */
  lemma ZeroIndexOutOfRange(v: VertexLists, f: Face)
    requires HasZeroIndex(f)
    ensures !FaceInRange(v, f)
  {
    var cs := if f.QuadFace? then [f.c0, f.c1, f.c2, f.c3] else [f.c0, f.c1, f.c2];
    var i :| 0 <= i < |cs| && (cs[i].position == 0 || cs[i].texcoord == 0 || cs[i].normal == 0);
    assert !CornerInRange(v, cs[i]);
  }

  predicate TriangleInRange(v: VertexLists, t: Triangle)
  {
    CornerInRange(v, t.a) && CornerInRange(v, t.b) && CornerInRange(v, t.c)
  }

  predicate TrianglesInRange(v: VertexLists, tris: seq<Triangle>)
  {
    forall i :: 0 <= i < |tris| ==> TriangleInRange(v, tris[i])
  }

  function Floats3(p: Vec3): seq<real>
  {
    [p.x, p.y, p.z]
  }

  /** A texture coordinate as it is uploaded: U kept, V flipped to `1 - v`. */
  function FlippedFloats(t: Vec2): seq<real>
  {
    [t.x, 1.0 - t.y]
  }

  function TrianglePositions(v: VertexLists, t: Triangle): (r: seq<real>)
    requires TriangleInRange(v, t)
    ensures |r| == 9
  {
    Floats3(v.positions[t.a.position - 1]) + Floats3(v.positions[t.b.position - 1])
      + Floats3(v.positions[t.c.position - 1])
  }

  function TriangleTexcoords(v: VertexLists, t: Triangle): (r: seq<real>)
    requires TriangleInRange(v, t)
    ensures |r| == 6
  {
    FlippedFloats(v.texcoords[t.a.texcoord - 1]) + FlippedFloats(v.texcoords[t.b.texcoord - 1])
      + FlippedFloats(v.texcoords[t.c.texcoord - 1])
  }

  function TriangleNormals(v: VertexLists, t: Triangle): (r: seq<real>)
    requires TriangleInRange(v, t)
    ensures |r| == 9
  {
    Floats3(v.normals[t.a.normal - 1]) + Floats3(v.normals[t.b.normal - 1])
      + Floats3(v.normals[t.c.normal - 1])
  }

  /** The `vertexCoords` buffer of a triangle list: 9 floats per triangle. */
  function FlatPositions(v: VertexLists, tris: seq<Triangle>): (r: seq<real>)
    requires TrianglesInRange(v, tris)
    ensures |r| == 9 * |tris|
  {
    if tris == [] then []
    else FlatPositions(v, tris[..|tris| - 1]) + TrianglePositions(v, tris[|tris| - 1])
  }

  /** The `vertexTexCoords` buffer of a triangle list: 6 floats per triangle. */
  function FlatTexcoords(v: VertexLists, tris: seq<Triangle>): (r: seq<real>)
    requires TrianglesInRange(v, tris)
    ensures |r| == 6 * |tris|
  {
    if tris == [] then []
    else FlatTexcoords(v, tris[..|tris| - 1]) + TriangleTexcoords(v, tris[|tris| - 1])
  }

  /** The `vertexNormalCoords` buffer of a triangle list: 9 floats per triangle. */
  function FlatNormals(v: VertexLists, tris: seq<Triangle>): (r: seq<real>)
    requires TrianglesInRange(v, tris)
    ensures |r| == 9 * |tris|
  {
    if tris == [] then []
    else FlatNormals(v, tris[..|tris| - 1]) + TriangleNormals(v, tris[|tris| - 1])
  }

  /** Faces whose indices are in range produce triangles whose indices are in range. */
  lemma {:induction false} FacesSoupInRange(v: VertexLists, fs: seq<Face>)
    requires forall j :: 0 <= j < |fs| ==> FaceInRange(v, fs[j])
    ensures TrianglesInRange(v, FacesSoup(fs))
  {
    if fs != [] {
      FacesSoupInRange(v, fs[..|fs| - 1]);
    }
  }

  lemma {:induction false} SoupInRange(v: VertexLists, ss: seq<seq<Face>>)
    requires FacesInRange(v, ss)
    ensures TrianglesInRange(v, Soup(ss))
  {
    if ss != [] {
      SoupInRange(v, ss[..|ss| - 1]);
      FacesSoupInRange(v, ss[|ss| - 1]);
    }
  }

  /**
   * Triangle `t` of the soup owns slots 9t..9t+9 of the position and normal
   * buffers and 6t..6t+6 of the texture-coordinate buffer, and they hold its
   * three corners' data.
   */
  lemma {:induction false} FlatBuffersAt(v: VertexLists, tris: seq<Triangle>, t: nat)
    requires TrianglesInRange(v, tris)
    requires t < |tris|
    ensures FlatPositions(v, tris)[9 * t..9 * t + 9] == TrianglePositions(v, tris[t])
    ensures FlatTexcoords(v, tris)[6 * t..6 * t + 6] == TriangleTexcoords(v, tris[t])
    ensures FlatNormals(v, tris)[9 * t..9 * t + 9] == TriangleNormals(v, tris[t])
  {
    var init := tris[..|tris| - 1];
    if t < |tris| - 1 {
      FlatBuffersAt(v, init, t);
      assert init[t] == tris[t];
    }
  }

  /** Each texture coordinate of triangle `t` is `(u, 1 - v)` of the `vt` record its corner names. */
  lemma FlatTexcoordsFlipV(v: VertexLists, tris: seq<Triangle>, t: nat)
    requires TrianglesInRange(v, tris)
    requires t < |tris|
    ensures var tc := FlatTexcoords(v, tris);
      var a := v.texcoords[tris[t].a.texcoord - 1];
      var b := v.texcoords[tris[t].b.texcoord - 1];
      var c := v.texcoords[tris[t].c.texcoord - 1];
      && tc[6 * t] == a.x && tc[6 * t + 1] == 1.0 - a.y
      && tc[6 * t + 2] == b.x && tc[6 * t + 3] == 1.0 - b.y
      && tc[6 * t + 4] == c.x && tc[6 * t + 5] == 1.0 - c.y
  {
    FlatBuffersAt(v, tris, t);
    TexcoordsFlipV(v, tris[t]);
    var tc := FlatTexcoords(v, tris);
    var slots := tc[6 * t..6 * t + 6];
    assert tc[6 * t] == slots[0] && tc[6 * t + 1] == slots[1] && tc[6 * t + 2] == slots[2];
    assert tc[6 * t + 3] == slots[3] && tc[6 * t + 4] == slots[4] && tc[6 * t + 5] == slots[5];
  }

  /** The six floats of one triangle are `(u, 1 - v)` of each corner's `vt` record. */
  lemma TexcoordsFlipV(v: VertexLists, tri: Triangle)
    requires TriangleInRange(v, tri)
    ensures var r := TriangleTexcoords(v, tri);
      var a := v.texcoords[tri.a.texcoord - 1];
      var b := v.texcoords[tri.b.texcoord - 1];
      var c := v.texcoords[tri.c.texcoord - 1];
      && r[0] == a.x && r[1] == 1.0 - a.y
      && r[2] == b.x && r[3] == 1.0 - b.y
      && r[4] == c.x && r[5] == 1.0 - c.y
  {
  }

  /** `vt 0.2 0.3` is uploaded as `(0.2, 0.7)`. */
  lemma FlippedExample()
    ensures FlippedFloats(Vec2(0.2, 0.3)) == [0.2, 0.7]
  {
  }
}
