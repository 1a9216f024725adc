/**
 * The `PolygonalMesh` geometry: its constructor parses the mesh lines into
 * vertex lists and submeshes, counts the triangles, fills three flat float
 * buffers triangle by triangle and uploads them as vertex buffers 0
 * (positions), 1 (texture coordinates) and 2 (normals).
 */
module PolygonalMeshes {
  import opened Wrappers
  import opened Vectors
  import opened MeshRows
  import opened MeshSoup

  /** The triangle-soup buffers handed to the graphics API, and the triangle count drawn from them. */
  datatype Buffers = Buffers(nTriangles: nat, positions: seq<real>, texcoords: seq<real>, normals: seq<real>)

  function ListsOf(s: ImportState): VertexLists
  {
    VertexLists(s.positions, s.texcoords, s.normals)
  }

  /**
   * What importing a list of lines yields: the flattened buffers, or the
   * first malformed line, or an out-of-range face index.
   */
  function Import(rows: seq<Row>): (r: Result<Buffers, ImportError>)
    ensures r.Ok? ==> && |r.value.positions| == r.value.nTriangles * 9
                      && |r.value.texcoords| == r.value.nTriangles * 6
                      && |r.value.normals| == r.value.nTriangles * 9
  {
    match ParseRows(rows)
    case Err(e) => Err(e)
    case Ok(s) => Triangulate(ListsOf(s), s.SubmeshFaces())
  }

  /**
   * The second half of an import, once every line has parsed into the
   * vertex lists `v` and the submeshes `ss`: the triangle soup of all
   * submeshes, flattened, or `IndexOutOfRange` when a face refers outside a
   * vertex list.
   */
  function Triangulate(v: VertexLists, ss: seq<seq<Face>>): (r: Result<Buffers, ImportError>)
    ensures r.Ok? ==> && |r.value.positions| == r.value.nTriangles * 9
                      && |r.value.texcoords| == r.value.nTriangles * 6
                      && |r.value.normals| == r.value.nTriangles * 9
    ensures r.Err? <==> !FacesInRange(v, ss)
    ensures r.Err? ==> r.error == IndexOutOfRange
  {
    if !FacesInRange(v, ss) then Err(IndexOutOfRange)
    else
      SoupInRange(v, ss);
      SoupLength(ss);
      var tris := Soup(ss);
      Ok(Buffers(TriangleCount(ss), FlatPositions(v, tris), FlatTexcoords(v, tris), FlatNormals(v, tris)))
  }

  class PolygonalMesh {
    var rows: seq<Row>
    var positions: seq<Vec3>
    var normals: seq<Vec3>
    var texcoords: seq<Vec2>
    var submeshFaces: seq<seq<Face>>
    var nTriangles: nat
    /** What `glBufferData` copied into vertex buffers 0, 1 and 2. */
    var uploadedPositions: seq<real>
    var uploadedTexcoords: seq<real>
    var uploadedNormals: seq<real>
    /** Why the mesh holds no triangles, when importing failed. */
    var failure: Option<ImportError>

    function Lists(): VertexLists
      reads this
    {
      VertexLists(positions, texcoords, normals)
    }

    /** The importer state held by the fields; the last submesh is the one `faces` points to. */
    function State(): ImportState
      reads this
      requires |submeshFaces| >= 1
    {
      ImportState(positions, normals, texcoords, submeshFaces[..|submeshFaces| - 1], submeshFaces[|submeshFaces| - 1])
    }

    function Uploaded(): Buffers
      reads this
    {
      Buffers(nTriangles, uploadedPositions, uploadedTexcoords, uploadedNormals)
    }

    /**
     * Imports `rows`. On success the uploaded buffers are those `Import`
     * describes; on failure the mesh holds no triangles and records why.
     */
    constructor (rows: seq<Row>)
      ensures this.rows == rows
      ensures Import(rows).Ok? ==> failure == None && Uploaded() == Import(rows).value
      ensures Import(rows).Err? ==> failure == Some(Import(rows).error) && Uploaded() == Buffers(0, [], [], [])
      ensures ParseRows(rows).Ok? ==> |submeshFaces| >= 1 && State() == ParseRows(rows).value
    {
      this.rows := rows;
      positions, normals, texcoords := [], [], [];
      submeshFaces := [[]];
      nTriangles := 0;
      uploadedPositions, uploadedTexcoords, uploadedNormals := [], [], [];
      failure := None;
      new;
      ReadRows();
      if failure.None? {
        ghost var parsed := State();
        assert ListsOf(parsed) == Lists() && parsed.SubmeshFaces() == submeshFaces;
        ghost var expected := Triangulate(Lists(), submeshFaces);
        assert Import(rows) == expected;
        Upload();
        assert expected.Ok? ==> failure == None && Uploaded() == expected.value;
      } else {
        assert Import(rows) == Err(failure.value);
      }
    }

    /**
     * After a successful parse: checks every face index, then counts,
     * flattens and uploads; an index out of range leaves the mesh empty.
     */
    method Upload()
      requires |submeshFaces| >= 1 && failure == None
      requires Uploaded() == Buffers(0, [], [], [])
      modifies this
      ensures rows == old(rows) && positions == old(positions) && normals == old(normals)
      ensures texcoords == old(texcoords) && submeshFaces == old(submeshFaces)
      ensures old(Triangulate(Lists(), submeshFaces)).Ok? ==>
                failure == None && Uploaded() == old(Triangulate(Lists(), submeshFaces)).value
      ensures old(Triangulate(Lists(), submeshFaces)).Err? ==>
                failure == Some(IndexOutOfRange) && Uploaded() == Buffers(0, [], [], [])
    {
      var r := TriangulateFaces(Lists(), submeshFaces);
      match r
      case Err(e) =>
        failure := Some(e);
      case Ok(b) =>
        nTriangles, uploadedPositions, uploadedTexcoords, uploadedNormals := b.nTriangles, b.positions, b.texcoords, b.normals;
    }

    /**
     * The parse loop: each line is classified by its first characters and
     * pushed onto its list or onto the current submesh; a `g` line opens a
     * new submesh only when the current one holds a face. Stops at the first
     * malformed line.
     */
    method ReadRows()
      requires |submeshFaces| >= 1 && State() == Initial && failure == None
      modifies this
      ensures rows == old(rows) && Uploaded() == old(Uploaded())
      ensures ParseRows(rows).Ok? ==> failure == None && |submeshFaces| >= 1 && State() == ParseRows(rows).value
      ensures ParseRows(rows).Err? ==> failure == Some(ParseRows(rows).error)
    {
      var i := 0;
      assert rows[..0] == [];
      while i < |rows| && failure.None?
        invariant 0 <= i <= |rows|
        invariant rows == old(rows) && Uploaded() == old(Uploaded())
        invariant |submeshFaces| >= 1
        invariant failure.None? ==> ParseRows(rows[..i]) == Ok(State())
        invariant failure.Some? ==> ParseRows(rows[..i]) == Err(failure.value)
      {
        assert rows[..i + 1][..i] == rows[..i];
        assert ParseRows(rows[..i + 1]) == ApplyRow(ParseRows(rows[..i]).value, rows[i], i);
        ReadRow(rows[i], i);
        i := i + 1;
      }
      if failure.Some? {
        ParseErrorPersists(rows, i);
      } else {
        assert rows[..i] == rows;
      }
    }

    /**
     * One pass of the parse loop on line number `line`: classify it by its
     * first characters, then push a vertex record onto its list, a face onto
     * the current submesh, or open a new submesh at a `g` line when the
     * current one holds a face.
     */
    method ReadRow(row: Row, line: nat)
      requires |submeshFaces| >= 1 && failure == None
      modifies this
      ensures rows == old(rows) && Uploaded() == old(Uploaded()) && |submeshFaces| >= 1
      ensures failure.None? ==> ApplyRow(old(State()), row, line) == Ok(State())
      ensures failure.Some? ==> ApplyRow(old(State()), row, line) == Err(failure.value)
    {
      var text := row.text;
      ghost var before := State();
      var last := |submeshFaces| - 1;
      if |text| == 0 || text[0] == '#' {
      } else if text[0] == 'v' && SecondChar(text) == ' ' {
        if |row.reals| < 3 {
          failure := Some(MalformedRow(line));
        } else {
          positions := positions + [Vec3(row.reals[0], row.reals[1], row.reals[2])];
        }
      } else if text[0] == 'v' && SecondChar(text) == 'n' {
        if |row.reals| < 3 {
          failure := Some(MalformedRow(line));
        } else {
          normals := normals + [Vec3(row.reals[0], row.reals[1], row.reals[2])];
        }
      } else if text[0] == 'v' && SecondChar(text) == 't' {
        if |row.reals| < 2 {
          failure := Some(MalformedRow(line));
        } else {
          texcoords := texcoords + [Vec2(row.reals[0], row.reals[1])];
        }
      } else if text[0] == 'f' {
        var f;
        if SpaceCount(text) == 3 {
          f := TriangleFace(CornerAt(row.ints, 0), CornerAt(row.ints, 1), CornerAt(row.ints, 2));
        } else {
          f := QuadFace(CornerAt(row.ints, 0), CornerAt(row.ints, 1), CornerAt(row.ints, 2), CornerAt(row.ints, 3));
        }
        submeshFaces := submeshFaces[last := submeshFaces[last] + [f]];
        assert submeshFaces[..last] == before.closed;
      } else if text[0] == 'g' {
        if |submeshFaces[last]| > 0 {
          submeshFaces := submeshFaces + [[]];
          assert submeshFaces[..last + 1] == before.closed + [before.current];
        }
      }
    }
  }

  /**
   * The constructor's work after parsing: checks every face index, then
   * counts the triangles and flattens the submeshes into the three buffers
   * that are uploaded.
   */
  method TriangulateFaces(v: VertexLists, submeshFaces: seq<seq<Face>>) returns (r: Result<Buffers, ImportError>)
    ensures r == Triangulate(v, submeshFaces)
  {
    if !FacesInRange(v, submeshFaces) {
      return Err(IndexOutOfRange);
    }
    var n := CountTriangles(submeshFaces);
    var vertexCoords, vertexTexCoords, vertexNormalCoords := Flatten(v, submeshFaces, n);
    r := Ok(Buffers(n, vertexCoords[..], vertexTexCoords[..], vertexNormalCoords[..]));
  }

  /** The counting loop: `numberOfTriangles` is 2 per quad and 1 per triangle over all submeshes. */
  method CountTriangles(submeshFaces: seq<seq<Face>>) returns (numberOfTriangles: nat)
    ensures numberOfTriangles == TriangleCount(submeshFaces)
  {
    numberOfTriangles := 0;
    for iSubmesh := 0 to |submeshFaces|
      invariant numberOfTriangles == TriangleCount(submeshFaces[..iSubmesh])
    {
      var faces := submeshFaces[iSubmesh];
      assert submeshFaces[..iSubmesh + 1][..iSubmesh] == submeshFaces[..iSubmesh];
      for i := 0 to |faces|
        invariant numberOfTriangles == TriangleCount(submeshFaces[..iSubmesh]) + FacesCount(faces[..i])
      {
        assert faces[..i + 1][..i] == faces[..i];
        if faces[i].QuadFace? {
          numberOfTriangles := numberOfTriangles + 2;
        } else {
          numberOfTriangles := numberOfTriangles + 1;
        }
      }
      assert faces[..|faces|] == faces;
    }
    assert submeshFaces[..|submeshFaces|] == submeshFaces;
  }

  /**
   * The flattening loop: walks the submeshes and their faces in order,
   * writing one triangle (two for a quad) at `triangleIndex` and advancing
   * it. The buffers have exactly `nTriangles * 9`, `* 6` and `* 9` slots and
   * end up holding the soup of all faces.
   */
  method Flatten(v: VertexLists, submeshFaces: seq<seq<Face>>, nTriangles: nat) returns (vertexCoords: array<real>, vertexTexCoords: array<real>, vertexNormalCoords: array<real>)
    requires nTriangles == TriangleCount(submeshFaces)
    requires FacesInRange(v, submeshFaces)
    ensures TrianglesInRange(v, Soup(submeshFaces))
    ensures fresh(vertexCoords) && fresh(vertexTexCoords) && fresh(vertexNormalCoords)
    ensures vertexCoords.Length == nTriangles * 9
    ensures vertexTexCoords.Length == nTriangles * 6
    ensures vertexNormalCoords.Length == nTriangles * 9
    ensures vertexCoords[..] == FlatPositions(v, Soup(submeshFaces))
    ensures vertexTexCoords[..] == FlatTexcoords(v, Soup(submeshFaces))
    ensures vertexNormalCoords[..] == FlatNormals(v, Soup(submeshFaces))
  {
    SoupInRange(v, submeshFaces);
    vertexCoords := new real[nTriangles * 9];
    vertexTexCoords := new real[nTriangles * 6];
    vertexNormalCoords := new real[nTriangles * 9];
    var triangleIndex := 0;
    ghost var done: seq<Triangle> := [];
    for iSubmesh := 0 to |submeshFaces|
      invariant done == Soup(submeshFaces[..iSubmesh])
      invariant triangleIndex == TriangleCount(submeshFaces[..iSubmesh])
      invariant triangleIndex <= nTriangles
      invariant Holds(v, done, triangleIndex, vertexCoords, vertexTexCoords, vertexNormalCoords)
    {
      var faces := submeshFaces[iSubmesh];
      assert submeshFaces[..iSubmesh + 1][..iSubmesh] == submeshFaces[..iSubmesh];
      TriangleCountPrefix(submeshFaces, iSubmesh + 1);
      assert TriangleCount(submeshFaces[..iSubmesh + 1]) == TriangleCount(submeshFaces[..iSubmesh]) + FacesCount(faces);
      assert Soup(submeshFaces[..iSubmesh + 1]) == Soup(submeshFaces[..iSubmesh]) + FacesSoup(faces);
      assert forall j :: 0 <= j < |faces| ==> FaceInRange(v, submeshFaces[iSubmesh][j]);
      triangleIndex := FlattenSubmesh(v, faces, triangleIndex, done, vertexCoords, vertexTexCoords, vertexNormalCoords);
      done := done + FacesSoup(faces);
    }
    assert submeshFaces[..|submeshFaces|] == submeshFaces;
    assert vertexCoords[..] == vertexCoords[..9 * triangleIndex];
    assert vertexTexCoords[..] == vertexTexCoords[..6 * triangleIndex];
    assert vertexNormalCoords[..] == vertexNormalCoords[..9 * triangleIndex];
  }

  /**
   * The first `n` triangles' worth of each buffer hold the flattened `tris`.
   */
  ghost predicate Holds(v: VertexLists, tris: seq<Triangle>, n: nat,
                        vertexCoords: array<real>, vertexTexCoords: array<real>, vertexNormalCoords: array<real>)
    reads vertexCoords, vertexTexCoords, vertexNormalCoords
  {
    && TrianglesInRange(v, tris) && n == |tris|
    && 9 * n <= vertexCoords.Length && 6 * n <= vertexTexCoords.Length && 9 * n <= vertexNormalCoords.Length
    && vertexCoords[..9 * n] == FlatPositions(v, tris)
    && vertexTexCoords[..6 * n] == FlatTexcoords(v, tris)
    && vertexNormalCoords[..9 * n] == FlatNormals(v, tris)
  }

  /**
   * The inner flattening loop over the faces of one submesh, starting at
   * `triangleIndex`: the buffers grow by the soup of those faces.
   */
  method FlattenSubmesh(v: VertexLists, faces: seq<Face>, triangleIndex: nat, ghost done: seq<Triangle>,
                        vertexCoords: array<real>, vertexTexCoords: array<real>, vertexNormalCoords: array<real>)
    returns (next: nat)
    requires forall j :: 0 <= j < |faces| ==> FaceInRange(v, faces[j])
    requires Holds(v, done, triangleIndex, vertexCoords, vertexTexCoords, vertexNormalCoords)
    requires 9 * (triangleIndex + FacesCount(faces)) <= vertexCoords.Length
    requires 6 * (triangleIndex + FacesCount(faces)) <= vertexTexCoords.Length
    requires 9 * (triangleIndex + FacesCount(faces)) <= vertexNormalCoords.Length
    requires vertexCoords != vertexTexCoords && vertexCoords != vertexNormalCoords && vertexTexCoords != vertexNormalCoords
    modifies vertexCoords, vertexTexCoords, vertexNormalCoords
    ensures next == triangleIndex + FacesCount(faces)
    ensures Holds(v, done + FacesSoup(faces), next, vertexCoords, vertexTexCoords, vertexNormalCoords)
  {
    next := triangleIndex;
    ghost var written := done;
    assert faces[..0] == [];
    for i := 0 to |faces|
      invariant written == done + FacesSoup(faces[..i])
      invariant next == triangleIndex + FacesCount(faces[..i])
      invariant next <= triangleIndex + FacesCount(faces)
      invariant Holds(v, written, next, vertexCoords, vertexTexCoords, vertexNormalCoords)
    {
      var f := faces[i];
      assert faces[..i + 1][..i] == faces[..i];
      assert FacesSoup(faces[..i + 1]) == FacesSoup(faces[..i]) + FaceTriangles(f);
      assert FacesCount(faces[..i + 1]) == FacesCount(faces[..i]) + FaceTriangleCount(f);
      FacesCountPrefix(faces, i + 1);
      next := StoreFace(v, f, next, written, vertexCoords, vertexTexCoords, vertexNormalCoords);
      written := written + FaceTriangles(f);
    }
    assert faces[..|faces|] == faces;
  }

  /**
   * The stores of one face at `triangleIndex`: a triangle face writes one
   * triangle, a quad writes corners 0-1-2 and then 1-2-3. Returns the
   * advanced `triangleIndex`.
   */
  method StoreFace(v: VertexLists, f: Face, triangleIndex: nat, ghost done: seq<Triangle>,
                   vertexCoords: array<real>, vertexTexCoords: array<real>, vertexNormalCoords: array<real>)
    returns (next: nat)
    requires FaceInRange(v, f)
    requires Holds(v, done, triangleIndex, vertexCoords, vertexTexCoords, vertexNormalCoords)
    requires 9 * (triangleIndex + FaceTriangleCount(f)) <= vertexCoords.Length
    requires 6 * (triangleIndex + FaceTriangleCount(f)) <= vertexTexCoords.Length
    requires 9 * (triangleIndex + FaceTriangleCount(f)) <= vertexNormalCoords.Length
    requires vertexCoords != vertexTexCoords && vertexCoords != vertexNormalCoords && vertexTexCoords != vertexNormalCoords
    modifies vertexCoords, vertexTexCoords, vertexNormalCoords
    ensures next == triangleIndex + FaceTriangleCount(f)
    ensures Holds(v, done + FaceTriangles(f), next, vertexCoords, vertexTexCoords, vertexNormalCoords)
  {
    var first := Triangle(f.c0, f.c1, f.c2);
    AppendTriangle(v, done, first, triangleIndex, vertexCoords, vertexTexCoords, vertexNormalCoords);
    next := triangleIndex + 1;
    if f.QuadFace? {
      var second := Triangle(f.c1, f.c2, f.c3);
      AppendTriangle(v, done + [first], second, next, vertexCoords, vertexTexCoords, vertexNormalCoords);
      assert done + FaceTriangles(f) == done + [first] + [second];
      next := next + 1;
    } else {
      assert done + FaceTriangles(f) == done + [first];
    }
  }

  /** Writing triangle `t` after the triangles `done` extends the buffers by `t`. */
  method AppendTriangle(v: VertexLists, ghost done: seq<Triangle>, t: Triangle, triangleIndex: nat,
                        vertexCoords: array<real>, vertexTexCoords: array<real>, vertexNormalCoords: array<real>)
    requires TriangleInRange(v, t)
    requires Holds(v, done, triangleIndex, vertexCoords, vertexTexCoords, vertexNormalCoords)
    requires 9 * triangleIndex + 9 <= vertexCoords.Length
    requires 6 * triangleIndex + 6 <= vertexTexCoords.Length
    requires 9 * triangleIndex + 9 <= vertexNormalCoords.Length
    requires vertexCoords != vertexTexCoords && vertexCoords != vertexNormalCoords && vertexTexCoords != vertexNormalCoords
    modifies vertexCoords, vertexTexCoords, vertexNormalCoords
    ensures Holds(v, done + [t], triangleIndex + 1, vertexCoords, vertexTexCoords, vertexNormalCoords)
  {
    StoreTriangle(v, t, triangleIndex, vertexCoords, vertexTexCoords, vertexNormalCoords);
    ghost var extended := done + [t];
    assert extended[..|done|] == done;
    assert TrianglesInRange(v, extended);
    assert FlatPositions(v, extended) == FlatPositions(v, done) + TrianglePositions(v, t);
    assert FlatTexcoords(v, extended) == FlatTexcoords(v, done) + TriangleTexcoords(v, t);
    assert FlatNormals(v, extended) == FlatNormals(v, done) + TriangleNormals(v, t);
  }

  /**
   * The 24 stores of one triangle at `triangleIndex`: three positions, three
   * texture coordinates with V flipped, three normals, appended after the
   * triangles already written.
   */
  method StoreTriangle(v: VertexLists, t: Triangle, triangleIndex: nat,
                       vertexCoords: array<real>, vertexTexCoords: array<real>, vertexNormalCoords: array<real>)
    requires TriangleInRange(v, t)
    requires 9 * triangleIndex + 9 <= vertexCoords.Length
    requires 6 * triangleIndex + 6 <= vertexTexCoords.Length
    requires 9 * triangleIndex + 9 <= vertexNormalCoords.Length
    requires vertexCoords != vertexTexCoords && vertexCoords != vertexNormalCoords && vertexTexCoords != vertexNormalCoords
    modifies vertexCoords, vertexTexCoords, vertexNormalCoords
    ensures vertexCoords[..9 * triangleIndex + 9] == old(vertexCoords[..9 * triangleIndex]) + TrianglePositions(v, t)
    ensures vertexTexCoords[..6 * triangleIndex + 6] == old(vertexTexCoords[..6 * triangleIndex]) + TriangleTexcoords(v, t)
    ensures vertexNormalCoords[..9 * triangleIndex + 9] == old(vertexNormalCoords[..9 * triangleIndex]) + TriangleNormals(v, t)
  {
    var p, q := 9 * triangleIndex, 6 * triangleIndex;
    StoreTexcoord(vertexTexCoords, q, v.texcoords[t.a.texcoord - 1]);
    StoreTexcoord(vertexTexCoords, q + 2, v.texcoords[t.b.texcoord - 1]);
    StoreTexcoord(vertexTexCoords, q + 4, v.texcoords[t.c.texcoord - 1]);
    StoreVec3(vertexCoords, p, v.positions[t.a.position - 1]);
    StoreVec3(vertexCoords, p + 3, v.positions[t.b.position - 1]);
    StoreVec3(vertexCoords, p + 6, v.positions[t.c.position - 1]);
    StoreVec3(vertexNormalCoords, p, v.normals[t.a.normal - 1]);
    StoreVec3(vertexNormalCoords, p + 3, v.normals[t.b.normal - 1]);
    StoreVec3(vertexNormalCoords, p + 6, v.normals[t.c.normal - 1]);
  }

  /** Writes the three coordinates of `p` at `offset`. */
  method StoreVec3(buffer: array<real>, offset: nat, p: Vec3)
    requires offset + 3 <= buffer.Length
    modifies buffer
    ensures buffer[..offset + 3] == old(buffer[..offset]) + Floats3(p)
  {
    buffer[offset] := p.x;
    buffer[offset + 1] := p.y;
    buffer[offset + 2] := p.z;
  }

  /** Writes `t.x` and `1 - t.y` at `offset`. */
  method StoreTexcoord(buffer: array<real>, offset: nat, t: Vec2)
    requires offset + 2 <= buffer.Length
    modifies buffer
    ensures buffer[..offset + 2] == old(buffer[..offset]) + FlippedFloats(t)
  {
    buffer[offset] := t.x;
    buffer[offset + 1] := 1.0 - t.y;
  }

  // ---------------------------------------------------------------------------
  // Properties of a whole import

  /**
   * The buffers have `nTriangles * 9`, `* 6` and `* 9` floats, and
   * `nTriangles` is 2 per quad and 1 per triangle over all faces of the file,
   * however they were grouped.
   */
  lemma ImportedBufferLengths(rows: seq<Row>)
    requires Import(rows).Ok?
    ensures var b := Import(rows).value;
      && |b.positions| == b.nTriangles * 9
      && |b.texcoords| == b.nTriangles * 6
      && |b.normals| == b.nTriangles * 9
      && b.nTriangles == FacesCount(FacesOf(rows))
  {
    var s := ParseRows(rows).value;
    var ss := s.SubmeshFaces();
    SoupLength(ss);
    SoupIgnoresGrouping(ss);
    ParsedFacesInFileOrder(rows);
    FacesSoupLength(FacesOf(rows));
  }

  /**
   * Triangle `t` of the buffers is triangle `t` of the faces of the file in
   * order (a quad contributing two), with its corners' vertex data.
   */
  lemma ImportedTriangle(rows: seq<Row>, t: nat)
    requires Import(rows).Ok?
    requires t < Import(rows).value.nTriangles
    ensures var s := ParseRows(rows).value;
      var tris := FacesSoup(FacesOf(rows));
      && t < |tris|
      && TriangleInRange(ListsOf(s), tris[t])
      && Import(rows).value.positions[9 * t..9 * t + 9] == TrianglePositions(ListsOf(s), tris[t])
      && Import(rows).value.texcoords[6 * t..6 * t + 6] == TriangleTexcoords(ListsOf(s), tris[t])
      && Import(rows).value.normals[9 * t..9 * t + 9] == TriangleNormals(ListsOf(s), tris[t])
  {
    var s := ParseRows(rows).value;
    var ss := s.SubmeshFaces();
    SoupLength(ss);
    SoupIgnoresGrouping(ss);
    ParsedFacesInFileOrder(rows);
    SoupInRange(ListsOf(s), ss);
    FlatBuffersAt(ListsOf(s), Soup(ss), t);
  }

  /**
   * Importing fails on a malformed line exactly when some line is short of
   * numbers, and on an index exactly when the lines parse but a face refers
   * past the end of (or before the start of) a vertex list.
   */
  lemma ImportFailures(rows: seq<Row>)
    ensures (Import(rows).Err? && Import(rows).error.MalformedRow?)
            <==> exists i :: 0 <= i < |rows| && !Scannable(rows[i])
    ensures Import(rows) == Err(IndexOutOfRange)
            <==> ParseRows(rows).Ok? && !FacesInRange(ListsOf(ParseRows(rows).value), ParseRows(rows).value.SubmeshFaces())
  {
    ParseFailsAtFirstMalformedRow(rows);
  }

  /**
   * An `f` line with fewer integers than its format reads leaves zero
   * indices in its face, so the import fails; once the vertex records all
   * scan, it fails on the index, as the source does when it flattens.
   */
  lemma ShortFaceLineFailsImport(rows: seq<Row>, i: nat)
    requires i < |rows| && Classify(rows[i].text) == FaceRow
    requires |rows[i].ints| < FaceFieldCount(rows[i].text)
    ensures Import(rows).Err?
    ensures ParseRows(rows).Ok? ==> Import(rows) == Err(IndexOutOfRange)
  {
    if ParseRows(rows).Ok? {
      var s := ParseRows(rows).value;
      FaceRowInFacesOf(rows, i);
      ParsedFacesInFileOrder(rows);
      ZeroIndexOutOfRange(ListsOf(s), ScanFace(rows[i]));
      if FacesInRange(ListsOf(s), s.SubmeshFaces()) {
        ConcatInRange(ListsOf(s), s.SubmeshFaces());
        assert false;
      }
    }
  }
}
