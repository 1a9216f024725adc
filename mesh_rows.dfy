/**
 * First phase of the `PolygonalMesh` importer: every line of a Wavefront-style
 * mesh file is classified by its first characters, and the position, normal,
 * texture-coordinate and face records are collected into growing lists and
 * into submeshes separated by group (`g`) lines.
 *
 * Reading the file is not part of this model; a line arrives as a `Row`
 * holding its text and the numbers that `sscanf` reads from it.
 */
module MeshRows {
  import opened Wrappers
  import opened Vectors

  /**
   * One line of the mesh file: its text, the values read by the `%f`
   * conversions of the format its kind selects (`v`, `vn`, `vt` lines) and the
   * values read by the `%d` conversions (`f` lines), in the order they occur.
   */
  datatype Row = Row(text: string, reals: seq<real>, ints: seq<int>)

  /** What the importer does with a line, decided by its first one or two characters. */
  datatype RowKind =
    | Skipped       // empty line or `#` comment
    | PositionRow   // `v `
    | NormalRow     // `vn`
    | TexcoordRow   // `vt`
    | FaceRow       // any line starting with `f`
    | GroupRow      // any line starting with `g`
    | Unrecognised  // anything else (`vp`, `o`, `s`, `usemtl`, ...): ignored

  /** `text[1]` as `std::string` gives it: the terminating NUL for a one-character line. */
  function SecondChar(text: string): char
    requires |text| >= 1
  {
    if |text| > 1 then text[1] else '\0'
  }

  /** The if/else-if chain of the parse loop, in the source's order. */
  function Classify(text: string): (k: RowKind)
    ensures k == Skipped <==> |text| == 0 || text[0] == '#'
    ensures k == FaceRow ==> text[0] == 'f'
    ensures k == GroupRow ==> text[0] == 'g'
    ensures k in {PositionRow, NormalRow, TexcoordRow} ==> text[0] == 'v'
  {
    if |text| == 0 || text[0] == '#' then Skipped
    else if text[0] == 'v' && SecondChar(text) == ' ' then PositionRow
    else if text[0] == 'v' && SecondChar(text) == 'n' then NormalRow
    else if text[0] == 'v' && SecondChar(text) == 't' then TexcoordRow
    else if text[0] == 'f' then FaceRow
    else if text[0] == 'g' then GroupRow
    else Unrecognised
  }

  /** `std::count(text.begin(), text.end(), ' ')`. */
  function SpaceCount(text: string): nat
  {
    if text == [] then 0 else (if text[0] == ' ' then 1 else 0) + SpaceCount(text[1..])
  }

  /** One `p/t/n` triplet of a face line: 1-based indices into the three vertex lists. */
  datatype Corner = Corner(position: int, texcoord: int, normal: int)

  /** A face is a triangle or a quad (`isQuad` in the source). */
  datatype Face =
    | TriangleFace(c0: Corner, c1: Corner, c2: Corner)
    | QuadFace(c0: Corner, c1: Corner, c2: Corner, c3: Corner)

  /**
   * The `k`-th `%d` target of a face: `new Face()` zero-initialises every
   * index, so a target `sscanf` did not reach keeps the value 0.
   */
  function IntAt(ints: seq<int>, k: nat): int
  {
    if k < |ints| then ints[k] else 0
  }

  /** The `k`-th triplet of a face line's integers, in the `%d/%d/%d` order. */
  function CornerAt(ints: seq<int>, k: nat): Corner
  {
    Corner(IntAt(ints, 3 * k), IntAt(ints, 3 * k + 1), IntAt(ints, 3 * k + 2))
  }

  /** Some corner of the face has an index 0, which no vertex list can satisfy (indices are 1-based). */
  predicate HasZeroIndex(f: Face)
  {
    var cs := if f.QuadFace? then [f.c0, f.c1, f.c2, f.c3] else [f.c0, f.c1, f.c2];
    exists i :: 0 <= i < |cs| && (cs[i].position == 0 || cs[i].texcoord == 0 || cs[i].normal == 0)
  }

  /** How many integers the face format chosen by the line's space count reads. */
  function FaceFieldCount(text: string): nat
  {
    if SpaceCount(text) == 3 then 9 else 12
  }

  /**
   * The face an `f` line describes: exactly three spaces select the triangle
   * format, any other count the quad format. A line with fewer integers than
   * that format reads still yields a face, whose unread indices are 0.
   */
  function ScanFace(row: Row): (f: Face)
    ensures f.QuadFace? <==> SpaceCount(row.text) != 3
    ensures |row.ints| < FaceFieldCount(row.text) ==> HasZeroIndex(f)
  {
    var ints := row.ints;
    if SpaceCount(row.text) == 3 then
      var f := TriangleFace(CornerAt(ints, 0), CornerAt(ints, 1), CornerAt(ints, 2));
      ShortFaceHasZeroIndex(f, [f.c0, f.c1, f.c2], ints, 9);
      f
    else
      var f := QuadFace(CornerAt(ints, 0), CornerAt(ints, 1), CornerAt(ints, 2), CornerAt(ints, 3));
      ShortFaceHasZeroIndex(f, [f.c0, f.c1, f.c2, f.c3], ints, 12);
      f
  }

  /** The first integer the line lacks lands in some corner, as a 0. */
  lemma ShortFaceHasZeroIndex(f: Face, cs: seq<Corner>, ints: seq<int>, fields: nat)
    requires fields == 3 * |cs|
    requires cs == if f.QuadFace? then [f.c0, f.c1, f.c2, f.c3] else [f.c0, f.c1, f.c2]
    requires forall i :: 0 <= i < |cs| ==> cs[i] == CornerAt(ints, i)
    ensures |ints| < fields ==> HasZeroIndex(f)
  {
    if |ints| < fields {
      var k := |ints| / 3;
      assert cs[k] == CornerAt(ints, k);
    }
  }

  /**
   * Whether `sscanf` fills every float of a `v`, `vn` or `vt` line. Those
   * targets are uninitialised locals, so the source would store garbage;
   * the model reports an error. Face lines always scan: their targets start
   * at 0 (see `IntAt`).
   */
  predicate Scannable(row: Row)
  {
    match Classify(row.text)
    case PositionRow => |row.reals| >= 3
    case NormalRow => |row.reals| >= 3
    case TexcoordRow => |row.reals| >= 2
    case _ => true
  }

  datatype ImportError =
    | MalformedRow(line: nat)  // a vertex record with fewer numbers than its format reads
    | IndexOutOfRange          // a face index outside 1..length of the list it refers to

  /**
   * The importer's intermediate state: the three vertex lists, the finished
   * submeshes, and the current one that `faces` points to.
   */
  datatype ImportState = ImportState(
    positions: seq<Vec3>,
    normals: seq<Vec3>,
    texcoords: seq<Vec2>,
    closed: seq<seq<Face>>,
    current: seq<Face>)
  {
    /** `submeshFaces` of the source, whose last element is the current submesh. */
    function SubmeshFaces(): (ss: seq<seq<Face>>)
      ensures |ss| >= 1 && ss[|ss| - 1] == current
    {
      closed + [current]
    }
  }

  /** The state before the first line: no vertices and one empty submesh. */
  const Initial := ImportState([], [], [], [], [])

  /** The effect of line number `line` on the state. */
  function ApplyRow(s: ImportState, row: Row, line: nat): (r: Result<ImportState, ImportError>)
    ensures r.Err? ==> r.error == MalformedRow(line) && Classify(row.text) in {PositionRow, NormalRow, TexcoordRow}
    ensures r.Ok? ==> && s.positions <= r.value.positions && s.normals <= r.value.normals
                      && s.texcoords <= r.value.texcoords
  {
    match Classify(row.text)
    case Skipped => Ok(s)
    case Unrecognised => Ok(s)
    case PositionRow =>
      if |row.reals| < 3 then Err(MalformedRow(line))
      else Ok(s.(positions := s.positions + [Vec3(row.reals[0], row.reals[1], row.reals[2])]))
    case NormalRow =>
      if |row.reals| < 3 then Err(MalformedRow(line))
      else Ok(s.(normals := s.normals + [Vec3(row.reals[0], row.reals[1], row.reals[2])]))
    case TexcoordRow =>
      if |row.reals| < 2 then Err(MalformedRow(line))
      else Ok(s.(texcoords := s.texcoords + [Vec2(row.reals[0], row.reals[1])]))
    case FaceRow => Ok(s.(current := s.current + [ScanFace(row)]))
    case GroupRow =>
      if |s.current| > 0 then Ok(s.(closed := s.closed + [s.current], current := []))
      else Ok(s)
  }

  /** The state after all of `rows`, or the error of the first malformed line. */
  function ParseRows(rows: seq<Row>): (r: Result<ImportState, ImportError>)
    ensures r.Err? ==> r.error.MalformedRow? && r.error.line < |rows|
    ensures r.Ok? ==> |r.value.positions| + |r.value.normals| + |r.value.texcoords| <= |rows|
  {
    if rows == [] then Ok(Initial)
    else
      match ParseRows(rows[..|rows| - 1])
      case Err(e) => Err(e)
      case Ok(s) => ApplyRow(s, rows[|rows| - 1], |rows| - 1)
  }

  /** All faces of a list of submeshes, submesh after submesh. */
  function Concat(ss: seq<seq<Face>>): seq<Face>
  {
    if ss == [] then [] else Concat(ss[..|ss| - 1]) + ss[|ss| - 1]
  }

  /** Reference definition: the faces of the `f` lines, in file order. */
  function FacesOf(rows: seq<Row>): seq<Face>
  {
    if rows == [] then []
    else
      var last := rows[|rows| - 1];
      FacesOf(rows[..|rows| - 1]) +
        (if Classify(last.text) == FaceRow then [ScanFace(last)] else [])
  }

  /** Reference definition: how many lines of `rows` are of kind `k`. */
  function CountKind(rows: seq<Row>, k: RowKind): nat
  {
    if rows == [] then 0
    else CountKind(rows[..|rows| - 1], k) + (if Classify(rows[|rows| - 1].text) == k then 1 else 0)
  }

  // ---------------------------------------------------------------------------
  // One line at a time

  /** Blank lines, comments and unrecognised lines change nothing. */
  lemma SkippedRowsChangeNothing(s: ImportState, row: Row, line: nat)
    requires Classify(row.text) in {Skipped, Unrecognised}
    ensures ApplyRow(s, row, line) == Ok(s)
  {
  }

  /** A line starting with `v ` appends exactly one position and changes nothing else. */
  lemma PositionRowAppendsOnePosition(s: ImportState, row: Row, line: nat)
    requires |row.text| >= 2 && row.text[0] == 'v' && row.text[1] == ' '
    requires |row.reals| >= 3
    ensures ApplyRow(s, row, line) == Ok(s.(positions := s.positions + [Vec3(row.reals[0], row.reals[1], row.reals[2])]))
  {
  }

  /** A line starting with `vn` appends exactly one normal and changes nothing else. */
  lemma NormalRowAppendsOneNormal(s: ImportState, row: Row, line: nat)
    requires |row.text| >= 2 && row.text[0] == 'v' && row.text[1] == 'n'
    requires |row.reals| >= 3
    ensures ApplyRow(s, row, line) == Ok(s.(normals := s.normals + [Vec3(row.reals[0], row.reals[1], row.reals[2])]))
  {
  }

  /** A line starting with `vt` appends exactly one texture coordinate and changes nothing else. */
  lemma TexcoordRowAppendsOneTexcoord(s: ImportState, row: Row, line: nat)
    requires |row.text| >= 2 && row.text[0] == 'v' && row.text[1] == 't'
    requires |row.reals| >= 2
    ensures ApplyRow(s, row, line) == Ok(s.(texcoords := s.texcoords + [Vec2(row.reals[0], row.reals[1])]))
  {
  }

  /**
   * An `f` line with exactly three spaces adds a triangle of the first three
   * triplets, any other space count a quad of the first four; the face goes
   * to the end of the current submesh and nothing else changes.
   */
  lemma FaceRowAppendsToCurrentSubmesh(s: ImportState, row: Row, line: nat)
    requires |row.text| >= 1 && row.text[0] == 'f'
    ensures ApplyRow(s, row, line).Ok?
    ensures var t := ApplyRow(s, row, line).value;
      && t.positions == s.positions && t.normals == s.normals && t.texcoords == s.texcoords
      && t.closed == s.closed
      && |t.current| == |s.current| + 1 && t.current[..|s.current|] == s.current
      && var f := t.current[|s.current|];
         (SpaceCount(row.text) == 3 ==>
            f == TriangleFace(CornerAt(row.ints, 0), CornerAt(row.ints, 1), CornerAt(row.ints, 2)))
         && (SpaceCount(row.text) != 3 ==>
            f == QuadFace(CornerAt(row.ints, 0), CornerAt(row.ints, 1), CornerAt(row.ints, 2), CornerAt(row.ints, 3)))
  {
  }

  /**
   * A `g` line opens a new submesh exactly when the current one holds a
   * face; it moves no face and touches no vertex list.
   */
  lemma GroupRowOpensSubmeshOnlyAfterFaces(s: ImportState, row: Row, line: nat)
    requires |row.text| >= 1 && row.text[0] == 'g'
    ensures ApplyRow(s, row, line).Ok?
    ensures var t := ApplyRow(s, row, line).value;
      && t.positions == s.positions && t.normals == s.normals && t.texcoords == s.texcoords
      && |t.SubmeshFaces()| == |s.SubmeshFaces()| + (if |s.current| > 0 then 1 else 0)
      && t.current == []
      && Concat(t.SubmeshFaces()) == Concat(s.SubmeshFaces())
  {
    var t := ApplyRow(s, row, line).value;
    if |s.current| > 0 {
      assert t.SubmeshFaces() == s.SubmeshFaces() + [[]];
      assert (s.SubmeshFaces() + [[]])[..|s.SubmeshFaces()|] == s.SubmeshFaces();
    }
  }

  /** Two `g` lines in a row act as one: consecutive groups create no empty submesh. */
  lemma ConsecutiveGroupRowsCollapse(s: ImportState, g1: Row, g2: Row, line: nat)
    requires Classify(g1.text) == GroupRow && Classify(g2.text) == GroupRow
    ensures ApplyRow(s, g1, line).Ok?
    ensures ApplyRow(ApplyRow(s, g1, line).value, g2, line + 1) == ApplyRow(s, g1, line)
  {
  }

  /** A line is rejected exactly when it is short of the numbers its format reads, and the error names it. */
  lemma RowFailsIffUnscannable(s: ImportState, row: Row, line: nat)
    ensures ApplyRow(s, row, line).Err? <==> !Scannable(row)
    ensures ApplyRow(s, row, line).Err? ==> ApplyRow(s, row, line).error == MalformedRow(line)
  {
  }

  // ---------------------------------------------------------------------------
  // Whole files

  /**
   * Importing fails exactly when some line is malformed, and the error names
   * the first such line.
   */
  lemma {:induction false} ParseFailsAtFirstMalformedRow(rows: seq<Row>)
    ensures ParseRows(rows).Ok? <==> forall i :: 0 <= i < |rows| ==> Scannable(rows[i])
    ensures ParseRows(rows).Err? ==>
      && ParseRows(rows).error.MalformedRow?
      && var k := ParseRows(rows).error.line;
         k < |rows| && !Scannable(rows[k]) && forall i :: 0 <= i < k ==> Scannable(rows[i])
  {
    if rows != [] {
      var init := rows[..|rows| - 1];
      ParseFailsAtFirstMalformedRow(init);
      assert forall i :: 0 <= i < |init| ==> init[i] == rows[i];
      match ParseRows(init)
      case Err(e) =>
      case Ok(s) => RowFailsIffUnscannable(s, rows[|rows| - 1], |rows| - 1);
    }
  }

  /** Once a prefix of the lines fails, the whole file fails with the same error. */
  lemma {:induction false} ParseErrorPersists(rows: seq<Row>, i: nat)
    requires i <= |rows|
    requires ParseRows(rows[..i]).Err?
    ensures ParseRows(rows) == ParseRows(rows[..i])
  {
    if i < |rows| {
      assert rows[..|rows| - 1][..i] == rows[..i];
      ParseErrorPersists(rows[..|rows| - 1], i);
    } else {
      assert rows[..i] == rows;
    }
  }

  /** Every finished submesh holds at least one face: group lines never leave an empty one behind. */
  lemma {:induction false} ParsedSubmeshesNonEmpty(rows: seq<Row>)
    requires ParseRows(rows).Ok?
    ensures forall j :: 0 <= j < |ParseRows(rows).value.closed| ==> |ParseRows(rows).value.closed[j]| > 0
  {
    if rows != [] {
      ParsedSubmeshesNonEmpty(rows[..|rows| - 1]);
    }
  }

  /**
   * Grouping neither drops nor reorders faces: the submeshes, concatenated,
   * are exactly the faces of the `f` lines in file order.
   */
  lemma {:induction false} ParsedFacesInFileOrder(rows: seq<Row>)
    requires ParseRows(rows).Ok?
    ensures Concat(ParseRows(rows).value.SubmeshFaces()) == FacesOf(rows)
  {
    if rows != [] {
      var init := rows[..|rows| - 1];
      var row := rows[|rows| - 1];
      ParsedFacesInFileOrder(init);
      var s := ParseRows(init).value;
      assert ParseRows(rows) == ApplyRow(s, row, |rows| - 1);
      ConcatAppend(s.closed, s.current);
      match Classify(row.text)
      case FaceRow =>
        ConcatAppend(s.closed, s.current + [ScanFace(row)]);
      case GroupRow =>
        if |s.current| > 0 {
          ConcatAppend(s.closed + [s.current], []);
        }
      case _ =>
    }
  }

  /** Appending a submesh appends its faces. */
  lemma ConcatAppend(ss: seq<seq<Face>>, faces: seq<Face>)
    ensures Concat(ss + [faces]) == Concat(ss) + faces
  {
    assert (ss + [faces])[..|ss|] == ss;
  }

  /** The face of every `f` line, complete or not, is among the faces of the file. */
  lemma {:induction false} FaceRowInFacesOf(rows: seq<Row>, i: nat)
    requires i < |rows| && Classify(rows[i].text) == FaceRow
    ensures ScanFace(rows[i]) in FacesOf(rows)
  {
    if i < |rows| - 1 {
      var init := rows[..|rows| - 1];
      assert init[i] == rows[i];
      FaceRowInFacesOf(init, i);
    }
  }

  /** Each vertex list holds one entry per line of its kind. */
  lemma {:induction false} ParsedVertexCounts(rows: seq<Row>)
    requires ParseRows(rows).Ok?
    ensures |ParseRows(rows).value.positions| == CountKind(rows, PositionRow)
    ensures |ParseRows(rows).value.normals| == CountKind(rows, NormalRow)
    ensures |ParseRows(rows).value.texcoords| == CountKind(rows, TexcoordRow)
  {
    if rows != [] {
      ParsedVertexCounts(rows[..|rows| - 1]);
    }
  }
}
