/**
 * BoundingVolumeLoader: `BVLoader`, which reads a bounding-volume mesh from a
 * text file (a header block, a vertex list and a face list) and expands the
 * faces into a flat list of triangle corners, three per face.
 *
 * Floats are held as the words they were read from (TextStream). A face
 * index is the float read from its word, cast to `unsigned int`; the model
 * reads an index only from a word of decimal digits, and gives no volume
 * where a face names any other word or a vertex past the end of the list.
 */
module BoundingVolumeLoader {
  import opened Wrappers
  import opened Text
  import opened TextStream

  /** `BVLoader::Header`. */
  datatype BVHeader = BVHeader(modelName: string, numMaterial: int, numVertex: int,
                               numMaterialBuffer: int, numJoints: int, numFrames: int)

  /** The header `clearData` leaves. */
  const CLEARED_HEADER := BVHeader("", 0, 0, 0, 0, 0)

  /** A corner position; its w component is always 1. */
  datatype Vertex = Vertex(x: FloatWord, y: FloatWord, z: FloatWord)

  /** The three floats a face line gives. */
  datatype Face = Face(a: FloatWord, b: FloatWord, c: FloatWord)

  /** A count as a `for (i = 0; i < n; i++)` loop runs it. */
  function Count(n: int): nat
  {
    if n < 0 then 0 else n
  }

  /**
   * `readHeader`: one skipped line, then the material count, the mesh name,
   * the vertex count and the face count (kept in `m_numFrames`), each the
   * second word of its line. `unset` stands for what the fresh header's ints
   * hold before they are assigned; the buffer and joint counts are never read.
   */
  function ReadBVHeader(ls: seq<string>, unset: BVHeader): (h: BVHeader)
    ensures h.numMaterialBuffer == unset.numMaterialBuffer && h.numJoints == unset.numJoints
    ensures Second(LineAt(ls, 3)).None? ==> h.numVertex == unset.numVertex
    ensures Second(LineAt(ls, 2)).None? ==> h.modelName == ""
  {
    BVHeader(WordValue(Second(LineAt(ls, 2)), ""),
             IntValue(Second(LineAt(ls, 1)), unset.numMaterial),
             IntValue(Second(LineAt(ls, 3)), unset.numVertex),
             unset.numMaterialBuffer, unset.numJoints,
             IntValue(Second(LineAt(ls, 4)), unset.numFrames))
  }

  /** A vertex line `v x y z`, read into a fresh XMFLOAT4. */
  function VertexOf(line: string): Vertex
  {
    var (_, c1) := TakeWord(Open(line), "");
    var (xyz, _) := TakeFloats(c1, [None, None, None]);
    Vertex(xyz[0], xyz[1], xyz[2])
  }

  /** A face line `a | b | c`, read into a fresh XMFLOAT3. */
  function FaceOf(line: string): Face
  {
    var (a, c1) := TakeFloat(Open(line), None);
    var (_, c2) := TakeWord(c1, "");
    var (b, c3) := TakeFloat(c2, None);
    var (_, c4) := TakeWord(c3, "");
    var (c, _) := TakeFloat(c4, None);
    Face(a, b, c)
  }

  /** A vertex line holds its coordinates as its second to fourth words. */
  lemma VertexOfWords(line: string)
    ensures VertexOf(line) == Vertex(WordAt(Words(line), 1, None), WordAt(Words(line), 2, None), WordAt(Words(line), 3, None))
  {
    var ws := Words(line);
    assert Open(line) == At(ws, 0);
    TakeWordAt(ws, 0, "");
    TakeFloatsAt(ws, 1, [None, None, None]);
  }

  /** A face line holds its indices as its first, third and fifth words. */
  lemma FaceOfWords(line: string)
    ensures FaceOf(line) == Face(WordAt(Words(line), 0, None), WordAt(Words(line), 2, None), WordAt(Words(line), 4, None))
  {
    var ws := Words(line);
    assert Open(line) == At(ws, 0);
    TakeFloatsAt(ws, 0, [None]);
    TakeWordAt(ws, 1, "");
    TakeFloatsAt(ws, 2, [None]);
    TakeWordAt(ws, 3, "");
    TakeFloatsAt(ws, 4, [None]);
  }

  function Vertices(ls: seq<string>, n: nat): (r: seq<Vertex>)
    ensures |r| == n
  {
    seq(n, k requires 0 <= k => VertexOf(LineAt(ls, k)))
  }

  function Faces(ls: seq<string>, n: nat): (r: seq<Face>)
    ensures |r| == n
  {
    seq(n, k requires 0 <= k => FaceOf(LineAt(ls, k)))
  }

  /** The vertex index a face float names: a word of decimal digits, read as a number. */
  function FaceIndex(f: FloatWord): Option<nat>
  {
    match f
    case None => None
    case Some(w) => if w != [] && DigitRun(w) == |w| then Some(DigitsValue(w)) else None
  }

  /** The `j`-th corner of a face. */
  function Corner(f: Face, j: nat): FloatWord
  {
    if j == 0 then f.a else if j == 1 then f.b else f.c
  }

  /** The corner names a vertex of a list of `n`. */
  predicate InRange(f: Face, j: nat, n: nat)
  {
    FaceIndex(Corner(f, j)).Some? && FaceIndex(Corner(f, j)).value < n
  }

  /** All three corners of the face name vertices of a list of `n`. */
  predicate FaceInRange(f: Face, n: nat)
  {
    InRange(f, 0, n) && InRange(f, 1, n) && InRange(f, 2, n)
  }

  predicate FacesInRange(fs: seq<Face>, n: nat)
  {
    forall k :: 0 <= k < |fs| ==> FaceInRange(fs[k], n)
  }

  /** `tempVertices[(unsigned int)index]` for the `j`-th corner. */
  function CornerOf(vs: seq<Vertex>, f: Face, j: nat): Vertex
    requires FaceInRange(f, |vs|) && j < 3
  {
    vs[FaceIndex(Corner(f, j)).value]
  }

  /** The three corners of one face, in the order they are pushed. */
  function FaceCorners(vs: seq<Vertex>, f: Face): (r: seq<Vertex>)
    requires FaceInRange(f, |vs|)
  {
    [CornerOf(vs, f, 0), CornerOf(vs, f, 1), CornerOf(vs, f, 2)]
  }

  /**
   * The expansion loop: three corners per face, in face order, each the
   * vertex its index names. None where a corner is outside the model.
   */
  function Expand(vs: seq<Vertex>, fs: seq<Face>): (r: Option<seq<Vertex>>)
    ensures r.Some? <==> FacesInRange(fs, |vs|)
    ensures r.Some? ==> |r.value| == 3 * |fs|
    ensures r.Some? ==> forall n :: 0 <= n < 3 * |fs| ==> r.value[n] == CornerOf(vs, fs[n / 3], n % 3)
  {
    if fs == [] then Some([])
    else
      var front := fs[..|fs| - 1];
      var last := fs[|fs| - 1];
      assert forall k :: 0 <= k < |front| ==> front[k] == fs[k];
      match Expand(vs, front)
      case None => None
      case Some(done) =>
        if !FaceInRange(last, |vs|) then None
        else
          var r := done + FaceCorners(vs, last);
          assert forall n :: 3 * |front| <= n < 3 * |fs| ==> n / 3 == |front| && n % 3 == n - 3 * |front|;
          Some(r)
  }

  /**
   * `readBoundingVolume`: two skipped lines, the vertex lines, four skipped
   * lines, the face lines, then the expansion. Both counts come from the
   * header; the vertex-count parameter of the source is never used.
   */
  function BoundingVolumeOf(h: BVHeader, ls: seq<string>): Option<seq<Vertex>>
  {
    var nv := Count(h.numVertex);
    var vs := Vertices(Drop(ls, 2), nv);
    var fs := Faces(Drop(ls, 2 + nv + 4), Count(h.numFrames));
    Expand(vs, fs)
  }

  /** What `loadBinaryFile` leaves: its result, the header and the bounding volume. */
  datatype Loaded = Loaded(ok: bool, header: BVHeader, volume: Option<seq<Vertex>>)

  /**
   * `loadBinaryFile` on a file's lines (None: it cannot be opened). It fails
   * on a missing file and on a header without a positive vertex count; the
   * material count is read but never checked.
   */
  function LoadBV(file: Option<seq<string>>, unset: BVHeader): (r: Loaded)
    ensures r.ok <==> file.Some? && ReadBVHeader(file.value, unset).numVertex > 0
    ensures !r.ok ==> r.volume == Some([])
  {
    match file
    case None => Loaded(false, CLEARED_HEADER, Some([]))
    case Some(ls) =>
      var h := ReadBVHeader(ls, unset);
      if h.numVertex > 0 then Loaded(true, h, BoundingVolumeOf(h, Drop(ls, 5)))
      else Loaded(false, h, Some([]))
  }

  // Writing a bounding-volume file.

  /** A face as a file names it: three vertex indices. */
  datatype Triangle = Triangle(i: nat, j: nat, k: nat)

  function TriangleCorner(t: Triangle, j: nat): nat
  {
    if j == 0 then t.i else if j == 1 then t.j else t.k
  }

  function VertexLine(x: string, y: string, z: string): string
  {
    Unwords(["v", x, y, z])
  }

  function FaceLine(t: Triangle): string
  {
    Unwords([IntToString(t.i), "|", IntToString(t.j), "|", IntToString(t.k), "|"])
  }

  /** The header block: a title line and four "key value" lines. */
  function HeaderBlock(name: string, materials: int, nv: int, nt: int): seq<string>
  {
    ["*Header", FieldLine("#Materials", IntToString(materials)), FieldLine("#MESH", name),
     FieldLine("#Vertices", IntToString(nv)), FieldLine("#Triangles", IntToString(nt))]
  }

  function VertexLines(vs: seq<(string, string, string)>): (r: seq<string>)
    ensures |r| == |vs|
  {
    seq(|vs|, k requires 0 <= k < |vs| => VertexLine(vs[k].0, vs[k].1, vs[k].2))
  }

  function FaceLines(ts: seq<Triangle>): (r: seq<string>)
    ensures |r| == |ts|
  {
    seq(|ts|, k requires 0 <= k < |ts| => FaceLine(ts[k]))
  }

  /** The lines between the vertex list and the face list. */
  const FACES_HEAD := ["", "*FACES", "-BoundingVolume", "face: 3"]

  /** A bounding-volume file: its header block, its vertex list and its face list. */
  function BVText(name: string, materials: int, vs: seq<(string, string, string)>, ts: seq<Triangle>): seq<string>
  {
    HeaderBlock(name, materials, |vs|, |ts|) + (["", "*Vertices"] + VertexLines(vs) + (FACES_HEAD + FaceLines(ts)))
  }

  /** Each face names vertices of a list of `n`. */
  predicate TrianglesIn(ts: seq<Triangle>, n: nat)
  {
    forall k :: 0 <= k < |ts| ==> ts[k].i < n && ts[k].j < n && ts[k].k < n
  }

  predicate Writable(name: string, materials: int, vs: seq<(string, string, string)>, ts: seq<Triangle>)
  {
    IsWord(name) && INT_MIN <= materials <= INT_MAX && 0 < |vs| <= INT_MAX && |ts| <= INT_MAX &&
    (forall k :: 0 <= k < |vs| ==> IsWord(vs[k].0) && IsWord(vs[k].1) && IsWord(vs[k].2)) &&
    TrianglesIn(ts, |vs|)
  }

  /** The header block's lines, whatever follows them. */
  lemma HeaderLines(name: string, materials: int, nv: int, nt: int, rest: seq<string>)
    ensures LineAt(HeaderBlock(name, materials, nv, nt) + rest, 1) == FieldLine("#Materials", IntToString(materials))
    ensures LineAt(HeaderBlock(name, materials, nv, nt) + rest, 2) == FieldLine("#MESH", name)
    ensures LineAt(HeaderBlock(name, materials, nv, nt) + rest, 3) == FieldLine("#Vertices", IntToString(nv))
    ensures LineAt(HeaderBlock(name, materials, nv, nt) + rest, 4) == FieldLine("#Triangles", IntToString(nt))
  {
  }

  /** Header lines whose second words are a name and three int texts read back as those. */
  lemma HeaderRead(ls: seq<string>, name: string, materials: int, nv: int, nt: int, unset: BVHeader)
    requires INT_MIN <= materials <= INT_MAX && INT_MIN <= nv <= INT_MAX && INT_MIN <= nt <= INT_MAX
    requires Second(LineAt(ls, 1)) == Some(IntToString(materials)) && Second(LineAt(ls, 2)) == Some(name)
    requires Second(LineAt(ls, 3)) == Some(IntToString(nv)) && Second(LineAt(ls, 4)) == Some(IntToString(nt))
    ensures ReadBVHeader(ls, unset) == BVHeader(name, materials, nv, unset.numMaterialBuffer, unset.numJoints, nt)
  {
    IntValueOf(Some(IntToString(materials)), materials, unset.numMaterial);
    IntValueOf(Some(IntToString(nv)), nv, unset.numVertex);
    IntValueOf(Some(IntToString(nt)), nt, unset.numFrames);
  }

  /** A "key value" line offers its value. */
  lemma IntField(key: string, n: int)
    requires IsWord(key)
    ensures Second(FieldLine(key, IntToString(n))) == Some(IntToString(n))
  {
    IntTextIsWord(n);
    FieldLineWords(key, IntToString(n));
  }

  /** The header block of a written file reads back its name and counts. */
  lemma HeaderLoads(name: string, materials: int, nv: int, nt: int, rest: seq<string>, unset: BVHeader)
    requires IsWord(name) && INT_MIN <= materials <= INT_MAX && INT_MIN <= nv <= INT_MAX && INT_MIN <= nt <= INT_MAX
    ensures ReadBVHeader(HeaderBlock(name, materials, nv, nt) + rest, unset)
         == BVHeader(name, materials, nv, unset.numMaterialBuffer, unset.numJoints, nt)
  {
    var ls := HeaderBlock(name, materials, nv, nt) + rest;
    HeaderLines(name, materials, nv, nt, rest);
    IntField("#Materials", materials);
    FieldLineWords("#MESH", name);
    IntField("#Vertices", nv);
    IntField("#Triangles", nt);
    HeaderRead(ls, name, materials, nv, nt, unset);
  }

  /** A written vertex line reads back its three words. */
  lemma VertexLineLoads(x: string, y: string, z: string)
    requires IsWord(x) && IsWord(y) && IsWord(z)
    ensures VertexOf(VertexLine(x, y, z)) == Vertex(Some(x), Some(y), Some(z))
  {
    UnwordsWords(["v", x, y, z]);
    VertexOfWords(VertexLine(x, y, z));
  }

  /** A written face line reads back indices naming the same vertices. */
  lemma FaceLineLoads(t: Triangle)
    ensures FaceIndex(FaceOf(FaceLine(t)).a) == Some(t.i)
    ensures FaceIndex(FaceOf(FaceLine(t)).b) == Some(t.j)
    ensures FaceIndex(FaceOf(FaceLine(t)).c) == Some(t.k)
  {
    var ws := [IntToString(t.i), "|", IntToString(t.j), "|", IntToString(t.k), "|"];
    IntTextIsWord(t.i);
    IntTextIsWord(t.j);
    IntTextIsWord(t.k);
    UnwordsWords(ws);
    FaceOfWords(FaceLine(t));
    DigitsIndex(t.i);
    DigitsIndex(t.j);
    DigitsIndex(t.k);
  }

  /** The text of a natural number is read back as that index. */
  lemma DigitsIndex(n: nat)
    ensures FaceIndex(Some(IntToString(n))) == Some(n)
  {
    var d := Digits(n);
    DigitRunAll(d);
    DigitsValueOf(n);
  }

  /** A vertex as it loads from the words it was written with. */
  function Written(v: (string, string, string)): Vertex
  {
    Vertex(Some(v.0), Some(v.1), Some(v.2))
  }

  /** The corners a written file's faces expand to. */
  function Corners(vs: seq<(string, string, string)>, ts: seq<Triangle>): seq<Vertex>
    requires TrianglesIn(ts, |vs|)
  {
    seq(3 * |ts|, n requires 0 <= n < 3 * |ts| => Written(vs[TriangleCorner(ts[n / 3], n % 3)]))
  }

  /** The vertex list of a written file loads as the vertices written. */
  lemma VerticesLoad(vs: seq<(string, string, string)>, rest: seq<string>)
    requires forall k :: 0 <= k < |vs| ==> IsWord(vs[k].0) && IsWord(vs[k].1) && IsWord(vs[k].2)
    ensures Vertices(VertexLines(vs) + rest, |vs|) == seq(|vs|, k requires 0 <= k < |vs| => Written(vs[k]))
  {
    var ls := VertexLines(vs) + rest;
    forall k | 0 <= k < |vs|
      ensures VertexOf(LineAt(ls, k)) == Written(vs[k])
    {
      assert LineAt(ls, k) == VertexLine(vs[k].0, vs[k].1, vs[k].2);
      VertexLineLoads(vs[k].0, vs[k].1, vs[k].2);
    }
  }

  /** The face list of a written file loads as faces whose indices are the ones written. */
  lemma FacesLoad(ts: seq<Triangle>, rest: seq<string>)
    ensures forall k :: 0 <= k < |ts| ==>
      var f := Faces(FaceLines(ts) + rest, |ts|)[k];
      FaceIndex(f.a) == Some(ts[k].i) && FaceIndex(f.b) == Some(ts[k].j) && FaceIndex(f.c) == Some(ts[k].k)
  {
    var ls := FaceLines(ts) + rest;
    forall k | 0 <= k < |ts|
      ensures var f := FaceOf(LineAt(ls, k));
        FaceIndex(f.a) == Some(ts[k].i) && FaceIndex(f.b) == Some(ts[k].j) && FaceIndex(f.c) == Some(ts[k].k)
    {
      assert LineAt(ls, k) == FaceLine(ts[k]);
      FaceLineLoads(ts[k]);
    }
  }

  /** Faces read back from written triangles expand to the corners the triangles name. */
  lemma ExpandWritten(vs: seq<(string, string, string)>, ts: seq<Triangle>, loaded: seq<Vertex>, faces: seq<Face>)
    requires TrianglesIn(ts, |vs|) && |faces| == |ts|
    requires loaded == seq(|vs|, k requires 0 <= k < |vs| => Written(vs[k]))
    requires forall k :: 0 <= k < |ts| ==>
      FaceIndex(faces[k].a) == Some(ts[k].i) && FaceIndex(faces[k].b) == Some(ts[k].j) && FaceIndex(faces[k].c) == Some(ts[k].k)
    ensures Expand(loaded, faces) == Some(Corners(vs, ts))
  {
    assert FacesInRange(faces, |loaded|);
    var r := Expand(loaded, faces).value;
    var c := Corners(vs, ts);
    forall n | 0 <= n < 3 * |ts|
      ensures r[n] == c[n]
    {
      var k, j := n / 3, n % 3;
      assert FaceIndex(Corner(faces[k], j)) == Some(TriangleCorner(ts[k], j));
    }
    assert r == c;
  }

  /** Where the vertex list and the face list of a written file start. */
  lemma BVTextParts(name: string, materials: int, vs: seq<(string, string, string)>, ts: seq<Triangle>)
    ensures BVText(name, materials, vs, ts) == HeaderBlock(name, materials, |vs|, |ts|) + Drop(BVText(name, materials, vs, ts), 5)
    ensures Drop(Drop(BVText(name, materials, vs, ts), 5), 2) == VertexLines(vs) + (FACES_HEAD + FaceLines(ts))
    ensures Drop(Drop(BVText(name, materials, vs, ts), 5), 2 + |vs| + 4) == FaceLines(ts) + []
  {
    DropParts(HeaderBlock(name, materials, |vs|, |ts|), ["", "*Vertices"], VertexLines(vs), FACES_HEAD, FaceLines(ts));
  }

  /** Dropping whole parts off a file made of five parts. */
  lemma DropParts(head: seq<string>, title: seq<string>, list: seq<string>, mid: seq<string>, last: seq<string>)
    requires |head| == 5 && |title| == 2 && |mid| == 4
    ensures head + (title + list + (mid + last)) == head + Drop(head + (title + list + (mid + last)), 5)
    ensures Drop(Drop(head + (title + list + (mid + last)), 5), 2) == list + (mid + last)
    ensures Drop(Drop(head + (title + list + (mid + last)), 5), 2 + |list| + 4) == last + []
  {
    var body := title + list + (mid + last);
    assert Drop(head + body, 5) == body;
    assert Drop(body, 2) == list + (mid + last);
    assert Drop(body, 2 + |list| + 4) == last;
  }

  /** Lines whose header reads `h` with a positive vertex count load `h` and the volume after it. */
  lemma LoadsFrom(ls: seq<string>, unset: BVHeader, h: BVHeader, volume: Option<seq<Vertex>>)
    requires ReadBVHeader(ls, unset) == h && h.numVertex > 0
    requires BoundingVolumeOf(h, Drop(ls, 5)) == volume
    ensures LoadBV(Some(ls), unset) == Loaded(true, h, volume)
  {
  }

  /**
   * A written file loads: the header gives its name and counts, and the
   * volume holds three corners per face, each the vertex the face names.
   */
  lemma BVFileLoads(name: string, materials: int, vs: seq<(string, string, string)>, ts: seq<Triangle>, unset: BVHeader)
    requires Writable(name, materials, vs, ts)
    ensures LoadBV(Some(BVText(name, materials, vs, ts)), unset)
         == Loaded(true, BVHeader(name, materials, |vs|, unset.numMaterialBuffer, unset.numJoints, |ts|),
                   Some(Corners(vs, ts)))
  {
    var ls := BVText(name, materials, vs, ts);
    var body := Drop(ls, 5);
    var h := BVHeader(name, materials, |vs|, unset.numMaterialBuffer, unset.numJoints, |ts|);
    BVTextParts(name, materials, vs, ts);
    HeaderLoads(name, materials, |vs|, |ts|, body, unset);
    VerticesLoad(vs, FACES_HEAD + FaceLines(ts));
    FacesLoad(ts, []);
    var loaded := Vertices(Drop(body, 2), |vs|);
    var faces := Faces(Drop(body, 2 + |vs| + 4), |ts|);
    ExpandWritten(vs, ts, loaded, faces);
    LoadsFrom(ls, unset, h, Some(Corners(vs, ts)));
  }

  /** `BVLoader`: the header and bounding volume last loaded. */
  class Loader {
    var header: BVHeader
    var boundingVolume: Option<seq<Vertex>>

    constructor()
      ensures boundingVolume == Some([])
    {
      header := CLEARED_HEADER;
      boundingVolume := Some([]);
    }

    /** `clear`: empties the bounding volume and leaves the header. */
    method Clear()
      modifies this
      ensures boundingVolume == Some([]) && header == old(header)
    {
      boundingVolume := Some([]);
    }

    /** `clearData`: zeroes every header field and empties the bounding volume. */
    method ClearData()
      modifies this
      ensures header == CLEARED_HEADER && boundingVolume == Some([])
    {
      header := CLEARED_HEADER;
      boundingVolume := Some([]);
    }

    /**
     * `readBoundingVolume` on the lines after the header. Its count
     * parameter is ignored: the loops run on the stored header's counts.
     */
    method ReadBoundingVolume(numberOfVertex: int, ls: seq<string>) returns (r: Option<seq<Vertex>>)
      ensures r == BoundingVolumeOf(header, ls)
    {
      var nv := Count(header.numVertex);
      var vs := ReadVertices(Drop(ls, 2), nv);
      assert vs == Vertices(Drop(ls, 2), nv);
      var fs := ReadFaces(Drop(ls, 2 + nv + 4), Count(header.numFrames));
      assert fs == Faces(Drop(ls, 2 + nv + 4), Count(header.numFrames));
      r := ExpandFaces(vs, fs);
      assert r == Expand(vs, fs);
    }

    /**
     * `loadBinaryFile`: clears, then reads the header and, when it counts at
     * least one vertex, the bounding volume.
     */
    method LoadBinaryFile(file: Option<seq<string>>, unset: BVHeader) returns (ok: bool)
      modifies this
      ensures (ok, header, boundingVolume) == (LoadBV(file, unset).ok, LoadBV(file, unset).header, LoadBV(file, unset).volume)
    {
      ClearData();
      if file.None? {
        return false;
      }
      header := ReadBVHeader(file.value, unset);
      if header.numVertex > 0 {
        boundingVolume := ReadBoundingVolume(header.numVertex, Drop(file.value, 5));
      } else {
        return false;
      }
      return true;
    }
  }

  /** The vertex loop of `readBoundingVolume`: one line per vertex. */
  method ReadVertices(ls: seq<string>, n: nat) returns (vs: seq<Vertex>)
    ensures vs == Vertices(ls, n)
  {
    var rest := ls;
    vs := [];
    var i := 0;
    while i < n
      invariant 0 <= i <= n
      invariant rest == Drop(ls, i)
      invariant |vs| == i && forall k :: 0 <= k < i ==> vs[k] == VertexOf(LineAt(ls, k))
    {
      assert LineAt(rest, 0) == LineAt(ls, i);
      var next := VertexOf(LineAt(rest, 0));
      assert forall k :: 0 <= k < i ==> (vs + [next])[k] == vs[k];
      vs := vs + [next];
      rest := Drop(rest, 1);
      i := i + 1;
    }
  }

  /** The face loop of `readBoundingVolume`: one line per face. */
  method ReadFaces(ls: seq<string>, n: nat) returns (fs: seq<Face>)
    ensures fs == Faces(ls, n)
  {
    var rest := ls;
    fs := [];
    var i := 0;
    while i < n
      invariant 0 <= i <= n
      invariant rest == Drop(ls, i)
      invariant |fs| == i && forall k :: 0 <= k < i ==> fs[k] == FaceOf(LineAt(ls, k))
    {
      assert LineAt(rest, 0) == LineAt(ls, i);
      var next := FaceOf(LineAt(rest, 0));
      assert forall k :: 0 <= k < i ==> (fs + [next])[k] == fs[k];
      fs := fs + [next];
      rest := Drop(rest, 1);
      i := i + 1;
    }
  }

  /** The expansion loop of `readBoundingVolume`: three pushes per face. */
  method ExpandFaces(vs: seq<Vertex>, fs: seq<Face>) returns (r: Option<seq<Vertex>>)
    ensures r == Expand(vs, fs)
  {
    var out: seq<Vertex> := [];
    var i := 0;
    while i < |fs|
      invariant 0 <= i <= |fs|
      invariant Expand(vs, fs[..i]) == Some(out)
    {
      if !FaceInRange(fs[i], |vs|) {
        assert !FacesInRange(fs, |vs|);
        return None;
      }
      assert fs[..i + 1][..i] == fs[..i];
      out := out + FaceCorners(vs, fs[i]);
      i := i + 1;
    }
    assert fs[..i] == fs;
    r := Some(out);
  }
}
