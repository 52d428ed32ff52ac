/**
 * ModelTextLoader: `ModelLoader`, which reads the text model file the
 * converter starts from. A dispatch loop reads one line at a time and hands
 * the input to a section reader chosen by the line's first word; each section
 * reader takes the lines that belong to it and appends what it reads to the
 * loader's lists.
 *
 * Input is the file's lines and a position in them: a `getline` at or past the
 * last line fails and reads "". Every line is taken to end in a newline, so
 * end of file is seen only by a `getline` that fails. Each line is read
 * through a fresh `std::stringstream`, as TextStream models it; floats are
 * held as the words they were read from, and a temporary that a failed
 * extraction leaves unassigned keeps its previous value (None while it was
 * never assigned).
 */
module ModelTextLoader {
  import opened Wrappers
  import opened Text
  import opened TextStream

  /** An XMFLOAT3 read from a line. */
  datatype Float3 = Float3(x: FloatWord, y: FloatWord, z: FloatWord)

  /** An XMFLOAT4 read from a line. */
  datatype Float4 = Float4(x: FloatWord, y: FloatWord, z: FloatWord, w: FloatWord)

  /** An uninitialised XMFLOAT3 temporary. */
  const UNSET3 := Float3(None, None, None)

  /** The texture coordinate stored from the words `u` and `v` of a line; the loader stores 1 - v as its second component. */
  datatype TexCoord = TexCoord(u: FloatWord, v: FloatWord)

  /** `ModelLoader::Material`. */
  datatype Material = Material(id: string, diffuse: string, normal: string, specular: string)

  const EMPTY_MATERIAL := Material("", "", "", "")

  /** `ModelLoader::IndexDesc`: the material name and four indices of one face corner. */
  datatype IndexDesc = IndexDesc(materialID: string, vertex: Option<int>, tangent: Option<int>,
                                 normal: Option<int>, textureCoord: Option<int>)

  /** One entry of the weight list: four weights and the four joints they refer to. */
  datatype WeightEntry = WeightEntry(weights: Float4, joints: IntQuad)

  /** Four ints read from a line. */
  datatype IntQuad = IntQuad(x: Option<int>, y: Option<int>, z: Option<int>, w: Option<int>)

  const UNSET_QUAD := IntQuad(None, None, None, None)

  /** `ModelLoader::KeyFrame`: translation, rotation and scale. */
  datatype KeyFrame = KeyFrame(trans: Float3, rot: Float4, scale: Float3)

  const UNSET_KEYFRAME := KeyFrame(UNSET3, Float4(None, None, None, None), UNSET3)

  /** `ModelLoader::Joint`; the offset matrix is its sixteen floats in row order. */
  datatype Joint = Joint(name: string, id: Option<int>, parent: Option<int>,
                         offset: seq<FloatWord>, animation: seq<KeyFrame>)

  /** The sixteen floats of an uninitialised XMFLOAT4X4. */
  const UNSET_MATRIX: seq<FloatWord> := [None, None, None, None, None, None, None, None,
                                          None, None, None, None, None, None, None, None]

  /** A fresh `Joint` temporary. */
  const UNSET_JOINT := Joint("", None, None, UNSET_MATRIX, [])

  /** The float a cleared loader holds. */
  const ZERO_WORD: FloatWord := Some("0")

  /** The members of a `ModelLoader`. */
  datatype Model = Model(meshName: string, numberOfTriangles: int, indices: seq<IndexDesc>,
                         start: FloatWord, end: FloatWord,
                         numberOfFrames: int, numberOfVertices: int, numberOfMaterials: int,
                         vertices: seq<Float3>, normals: seq<Float3>, tangents: seq<Float3>,
                         textureCoords: seq<TexCoord>, materials: seq<Material>,
                         indexPerMaterial: seq<seq<IndexDesc>>, weights: seq<WeightEntry>,
                         joints: seq<Joint>)

  /** `clearData`: empties every list and zeroes every number except the frame count, which it leaves. */
  function Cleared(m: Model): (r: Model)
    ensures r.numberOfFrames == m.numberOfFrames
    ensures r.vertices == [] && r.joints == [] && r.materials == [] && r.indexPerMaterial == []
  {
    Model("", 0, [], ZERO_WORD, ZERO_WORD, m.numberOfFrames, 0, 0, [], [], [], [], [], [], [], [])
  }

  /** A `for (i = 0; i < n; i++)` loop runs this many times. */
  function Count(n: int): nat
  {
    if n < 0 then 0 else n
  }

  // ---------------------------------------------------------------------
  // The lines a "read until a blank line" loop takes.

  /** How many lines from `p` on are not blank, up to the first blank line or the end. */
  function Run(ls: seq<string>, p: nat): (k: nat)
    ensures p + k <= |ls| || k == 0
    decreases |ls| - p
  {
    if p >= |ls| || ls[p] == "" then 0 else 1 + Run(ls, p + 1)
  }

  /** The run is the non-blank lines from `p` on, and the line after it, if any, is blank. */
  lemma {:induction false} RunSpan(ls: seq<string>, p: nat)
    ensures forall i :: p <= i < p + Run(ls, p) ==> ls[i] != ""
    ensures p + Run(ls, p) < |ls| ==> ls[p + Run(ls, p)] == ""
    decreases |ls| - p
  {
    if p < |ls| && ls[p] != "" {
      RunSpan(ls, p + 1);
    }
  }

  /** Where a `while (getline(...)) { if (line == "") break; ... }` loop over single lines leaves the input. */
  function End(ls: seq<string>, p: nat): nat
  {
    if p + Run(ls, p) < |ls| then p + Run(ls, p) + 1 else p + Run(ls, p)
  }

  // ---------------------------------------------------------------------
  // One line through a stringstream.

  /** `>> key >> f.x >> f.y >> f.z` (all three when `n` is 3, x and y when it is 2). */
  function Float3Of(line: string, held: Float3, n: nat): Float3
    requires n == 2 || n == 3
  {
    var (_, c) := TakeWord(Open(line), "");
    if n == 3 then
      var (f, _) := TakeFloats(c, [held.x, held.y, held.z]);
      Float3(f[0], f[1], f[2])
    else
      var (f, _) := TakeFloats(c, [held.x, held.y]);
      Float3(f[0], f[1], held.z)
  }

  /** A float line holds its values as the words after its key. */
  lemma Float3OfWords(line: string, held: Float3, n: nat)
    requires n == 2 || n == 3
    ensures Float3Of(line, held, n) == Float3(WordAt(Words(line), 1, held.x), WordAt(Words(line), 2, held.y),
                                             if n == 3 then WordAt(Words(line), 3, held.z) else held.z)
  {
    var ws := Words(line);
    assert Open(line) == At(ws, 0);
    TakeWordAt(ws, 0, "");
    if n == 3 {
      TakeFloatsAt(ws, 1, [held.x, held.y, held.z]);
    } else {
      TakeFloatsAt(ws, 1, [held.x, held.y]);
    }
  }

  /** `>> filler >> x >> y >> z >> weightW`: `weightW` is a fresh variable on every line. */
  function WeightOf(line: string, held: Float3): Float4
  {
    var (_, c) := TakeWord(Open(line), "");
    var (f, _) := TakeFloats(c, [held.x, held.y, held.z, None]);
    Float4(f[0], f[1], f[2], f[3])
  }

  /** `>> filler >> j.x >> j.y >> j.z >> j.w` into ints. */
  function IntQuadOf(line: string, held: IntQuad): IntQuad
  {
    var (_, c0) := TakeWord(Open(line), "");
    var (x, c1) := TakeInt(c0, held.x);
    var (y, c2) := TakeInt(c1, held.y);
    var (z, c3) := TakeInt(c2, held.z);
    var (w, _) := TakeInt(c3, held.w);
    IntQuad(x, y, z, w)
  }

  /** `>> name >> id >> filler >> parent` into the joint temporary. */
  function JointOf(line: string, held: Joint): Joint
  {
    var (name, c1) := TakeWord(Open(line), held.name);
    var (id, c2) := TakeInt(c1, held.id);
    var (_, c3) := TakeWord(c2, "");
    var (parent, _) := TakeInt(c3, held.parent);
    held.(name := name, id := id, parent := parent)
  }

  /** `>> filler` and the sixteen floats of a matrix. */
  function MatrixOf(line: string, held: seq<FloatWord>): (r: seq<FloatWord>)
    requires |held| == 16
    ensures |r| == 16
  {
    var (_, c) := TakeWord(Open(line), "");
    TakeFloats(c, held).0
  }

  /** A matrix line holds its floats as the sixteen words after its key. */
  lemma MatrixOfWords(line: string, held: seq<FloatWord>)
    requires |held| == 16
    ensures forall k :: 0 <= k < 16 ==> MatrixOf(line, held)[k] == WordAt(Words(line), 1 + k, held[k])
  {
    var ws := Words(line);
    assert Open(line) == At(ws, 0);
    TakeWordAt(ws, 0, "");
    TakeFloatsAt(ws, 1, held);
  }

  /** A keyframe line: a key, three translation floats, a filler, four rotation floats, a filler, three scale floats. */
  function KeyFrameOf(line: string, held: KeyFrame): KeyFrame
  {
    var (_, c0) := TakeWord(Open(line), "");
    var (t, c1) := TakeFloats(c0, [held.trans.x, held.trans.y, held.trans.z]);
    var (_, c2) := TakeWord(c1, "");
    var (r, c3) := TakeFloats(c2, [held.rot.x, held.rot.y, held.rot.z, held.rot.w]);
    var (_, c4) := TakeWord(c3, "");
    var (s, _) := TakeFloats(c4, [held.scale.x, held.scale.y, held.scale.z]);
    KeyFrame(Float3(t[0], t[1], t[2]), Float4(r[0], r[1], r[2], r[3]), Float3(s[0], s[1], s[2]))
  }

  /** A keyframe line holds its floats as its words 1-3, 5-8 and 10-12. */
  lemma KeyFrameOfWords(line: string, held: KeyFrame)
    ensures var ws := Words(line);
      KeyFrameOf(line, held) == KeyFrame(
        Float3(WordAt(ws, 1, held.trans.x), WordAt(ws, 2, held.trans.y), WordAt(ws, 3, held.trans.z)),
        Float4(WordAt(ws, 5, held.rot.x), WordAt(ws, 6, held.rot.y), WordAt(ws, 7, held.rot.z), WordAt(ws, 8, held.rot.w)),
        Float3(WordAt(ws, 10, held.scale.x), WordAt(ws, 11, held.scale.y), WordAt(ws, 12, held.scale.z)))
  {
    var ws := Words(line);
    assert Open(line) == At(ws, 0);
    TakeWordAt(ws, 0, "");
    Floats3At(ws, 1, held.trans.x, held.trans.y, held.trans.z);
    TakeWordAt(ws, 4, "");
    Floats4At(ws, 5, held.rot.x, held.rot.y, held.rot.z, held.rot.w);
    TakeWordAt(ws, 9, "");
    Floats3At(ws, 10, held.scale.x, held.scale.y, held.scale.z);
  }

  /** Three float extractions read three successive words. */
  lemma Floats3At(ws: seq<string>, p: nat, x: FloatWord, y: FloatWord, z: FloatWord)
    ensures TakeFloats(At(ws, p), [x, y, z]) == ([WordAt(ws, p, x), WordAt(ws, p + 1, y), WordAt(ws, p + 2, z)], At(ws, p + 3))
  {
    var r := TakeFloats(At(ws, p), [x, y, z]);
    TakeFloatsAt(ws, p, [x, y, z]);
    assert r.0 == [r.0[0], r.0[1], r.0[2]];
  }

  /** Four float extractions read four successive words. */
  lemma Floats4At(ws: seq<string>, p: nat, x: FloatWord, y: FloatWord, z: FloatWord, w: FloatWord)
    ensures TakeFloats(At(ws, p), [x, y, z, w]) == ([WordAt(ws, p, x), WordAt(ws, p + 1, y), WordAt(ws, p + 2, z), WordAt(ws, p + 3, w)], At(ws, p + 4))
  {
    var r := TakeFloats(At(ws, p), [x, y, z, w]);
    TakeFloatsAt(ws, p, [x, y, z, w]);
    assert r.0 == [r.0[0], r.0[1], r.0[2], r.0[3]];
  }

  /** `atoi`: leading white space, then a leading number; 0 when there is none. */
  function Atoi(s: string): int
  {
    match LeadingInt(SkipSpace(s))
    case Some(v) => v
    case None => 0
  }

  /**
   * The inner loop of `readFaces` on one stream: `n` records, each four
   * `>> tempInt >> filler` pairs giving the vertex, tangent, normal and
   * texture-coordinate index, in that order. `t` is `tempInt` before the
   * first; the second result is `tempInt` after the last.
   */
  function IndexRecords(c: Cursor, n: nat, mid: string, t: Option<int>): (r: (seq<IndexDesc>, Option<int>))
    ensures |r.0| == n
    ensures forall k :: 0 <= k < n ==> r.0[k].materialID == mid
    decreases n
  {
    if n == 0 then ([], t)
    else
      var (d, c8) := IndexRecord(c, mid, t);
      var (rest, t') := IndexRecords(c8, n - 1, mid, d.textureCoord);
      ([d] + rest, t')
  }

  /** `>> v >> s >> tg >> s >> nm >> s >> uv >> s`: one record, each index extracted into the variable the one before was. */
  function IndexRecord(c: Cursor, mid: string, t: Option<int>): (r: (IndexDesc, Cursor))
    ensures r.0.materialID == mid
  {
    var (vs, c8) := Indices(c, t, 4);
    (IndexDesc(mid, vs[0], vs[1], vs[2], vs[3]), c8)
  }

  /** `k` times `>> index >> separator`, each index extracted into the variable the one before was. */
  function Indices(c: Cursor, held: Option<int>, k: nat): (r: (seq<Option<int>>, Cursor))
    ensures |r.0| == k
    decreases k
  {
    if k == 0 then ([], c)
    else
      var (v, c1) := TakeInt(c, held);
      var (_, c2) := TakeWord(c1, "");
      var (vs, c3) := Indices(c2, v, k - 1);
      ([v] + vs, c3)
  }

  // ---------------------------------------------------------------------
  // The section readers, as functions of the loader's members and the input.

  /** `readHeader`: four "key value" lines giving the material count, mesh name, vertex count and triangle count. */
  function Header(m: Model, ls: seq<string>, p: nat): (r: (Model, nat))
    ensures r.1 == p + 4
    ensures r.0 == m.(numberOfMaterials := r.0.numberOfMaterials, meshName := r.0.meshName,
                      numberOfVertices := r.0.numberOfVertices, numberOfTriangles := r.0.numberOfTriangles)
  {
    (m.(numberOfMaterials := IntValue(Second(LineAt(ls, p)), m.numberOfMaterials),
        meshName := WordValue(Second(LineAt(ls, p + 1)), m.meshName),
        numberOfVertices := IntValue(Second(LineAt(ls, p + 2)), m.numberOfVertices),
        numberOfTriangles := IntValue(Second(LineAt(ls, p + 3)), m.numberOfTriangles)), p + 4)
  }

  /** One material: its id, diffuse, normal and specular lines, each the second word of its line. */
  function MaterialAt(ls: seq<string>, q: nat, held: Material): Material
  {
    Material(WordValue(Second(LineAt(ls, q)), held.id), WordValue(Second(LineAt(ls, q + 1)), held.diffuse),
             WordValue(Second(LineAt(ls, q + 2)), held.normal), WordValue(Second(LineAt(ls, q + 3)), held.specular))
  }

  /**
   * The first `i` materials five lines apart from `q` on, each read into the
   * temporary the one before left; the second result is that temporary.
   */
  function MaterialsUpTo(ls: seq<string>, q: nat, i: nat): (r: (seq<Material>, Material))
    ensures |r.0| == i
  {
    if i == 0 then ([], EMPTY_MATERIAL)
    else
      var prev := MaterialsUpTo(ls, q, i - 1);
      var mat := MaterialAt(ls, q + 5 * (i - 1), prev.1);
      (prev.0 + [mat], mat)
  }

  lemma MaterialsStep(ls: seq<string>, q: nat, i: nat)
    ensures var prev := MaterialsUpTo(ls, q, i);
      MaterialsUpTo(ls, q, i + 1) == (prev.0 + [MaterialAt(ls, q + 5 * i, prev.1)], MaterialAt(ls, q + 5 * i, prev.1))
  {
  }

  /**
   * `readMaterials`: one line read before the loop, then for each material
   * its four lines and a separator, and the next material's first line for
   * all but the last.
   */
  function Materials(m: Model, ls: seq<string>, p: nat): (r: (Model, nat))
    ensures r.0 == m.(materials := r.0.materials)
    ensures |r.0.materials| == |m.materials| + Count(m.numberOfMaterials) && r.0.materials[..|m.materials|] == m.materials
    ensures r.1 == if m.numberOfMaterials <= 0 then p + 1 else p + 5 * m.numberOfMaterials
  {
    if m.numberOfMaterials <= 0 then (m, p + 1)
    else (m.(materials := m.materials + MaterialsUpTo(ls, p, m.numberOfMaterials).0), p + 5 * m.numberOfMaterials)
  }

  /** The lines of a vertex, normal, tangent or texture-coordinate section, each read into the temporary. */
  function Float3Lines(ls: seq<string>, p: nat, held: Float3, n: nat): (r: (seq<Float3>, nat))
    requires n == 2 || n == 3
    ensures |r.0| == Run(ls, p) && r.1 == End(ls, p)
    decreases |ls| - p
  {
    if p >= |ls| then ([], p)
    else if ls[p] == "" then ([], p + 1)
    else
      var f := Float3Of(ls[p], held, n);
      var (fs, q) := Float3Lines(ls, p + 1, f, n);
      ([f] + fs, q)
  }

  /** The texture coordinates stored for the floats read. */
  function TexCoords(fs: seq<Float3>): (r: seq<TexCoord>)
    ensures |r| == |fs| && forall k :: 0 <= k < |fs| ==> r[k] == TexCoord(fs[k].x, fs[k].y)
  {
    seq(|fs|, k requires 0 <= k < |fs| => TexCoord(fs[k].x, fs[k].y))
  }

  /** The lines of one material's face list: each line gives `n` records. */
  function IndexLines(ls: seq<string>, p: nat, n: nat, mid: string, t: Option<int>): (r: (seq<IndexDesc>, Option<int>, nat))
    ensures r.2 == End(ls, p)
    decreases |ls| - p
  {
    if p >= |ls| then ([], t, p)
    else if ls[p] == "" then ([], t, p + 1)
    else
      var (rs, t1) := IndexRecords(Open(ls[p]), n, mid, t);
      var (more, t2, q) := IndexLines(ls, p + 1, n, mid, t1);
      (rs + more, t2, q)
  }

  /** Every line of a material's face list gives exactly `n` records. */
  lemma {:induction false} IndexLinesCount(ls: seq<string>, p: nat, n: nat, mid: string, t: Option<int>)
    ensures |IndexLines(ls, p, n, mid, t).0| == n * Run(ls, p)
    decreases |ls| - p
  {
    if p < |ls| && ls[p] != "" {
      var (rs, t1) := IndexRecords(Open(ls[p]), n, mid, t);
      IndexLinesStep(ls, p, n, mid, t, rs, t1);
      IndexLinesCount(ls, p + 1, n, mid, t1);
      assert Run(ls, p) == 1 + Run(ls, p + 1);
      MulSucc(n, Run(ls, p + 1));
    }
  }

  lemma MulSucc(n: nat, x: nat)
    ensures n * (1 + x) == n + n * x
  {
  }

  /** The temporaries of `readFaces` that outlive one material: the material name, the count word and `tempInt`. */
  datatype FaceHeld = FaceHeld(materialID: string, key: string, tempInt: Option<int>)

  /**
   * `k` materials of `readFaces` from `p` on: a line whose first word names
   * the material, a "face: N" line, then lines of N records each up to a
   * blank line. The second result is the last material's list.
   */
  function FaceListsFrom(ls: seq<string>, p: nat, k: nat, h: FaceHeld, last: seq<IndexDesc>)
    : (r: (seq<seq<IndexDesc>>, seq<IndexDesc>, nat))
    ensures |r.0| == k && r.2 >= p
    ensures k > 0 ==> r.1 == r.0[k - 1]
    ensures k == 0 ==> r.1 == last
    decreases k
  {
    if k == 0 then ([], last, p)
    else
      var mid := TakeWord(Open(LineAt(ls, p)), h.materialID).0;
      var key := WordValue(Second(LineAt(ls, p + 1)), h.key);
      var (list, t, q) := IndexLines(ls, p + 2, Count(Atoi(key)), mid, h.tempInt);
      var (lists, lastList, q') := FaceListsFrom(ls, q, k - 1, FaceHeld(mid, key, t), list);
      ([list] + lists, lastList, q')
  }

  /** `readFaces`: one index list per material, the last also left in `m_Indices`. */
  function Faces(m: Model, ls: seq<string>, p: nat): (r: (Model, nat))
    ensures r.0 == m.(indexPerMaterial := r.0.indexPerMaterial, indices := r.0.indices)
    ensures |r.0.indexPerMaterial| == |m.indexPerMaterial| + Count(m.numberOfMaterials)
    ensures r.0.indexPerMaterial[..|m.indexPerMaterial|] == m.indexPerMaterial
    ensures r.1 >= p
  {
    var (lists, last, q) := FaceListsFrom(ls, p, Count(m.numberOfMaterials), FaceHeld("", "", None), m.indices);
    (m.(indexPerMaterial := m.indexPerMaterial + lists, indices := last), q)
  }

  /** `readWeights`: a weight line, then the joint line after it read whatever it holds, up to a blank weight line. */
  function WeightLines(ls: seq<string>, p: nat, hw: Float3, hj: IntQuad): (r: (seq<WeightEntry>, nat))
    ensures r.1 >= p
    decreases |ls| - p
  {
    if p >= |ls| then ([], p)
    else if ls[p] == "" then ([], p + 1)
    else
      var w := WeightOf(ls[p], hw);
      var j := IntQuadOf(LineAt(ls, p + 1), hj);
      var (es, q) := WeightLines(ls, p + 2, Float3(w.x, w.y, w.z), j);
      ([WeightEntry(w, j)] + es, q)
  }

  /** `readHierarchy`: a joint per line, copied from the temporary after each read. */
  function JointLines(ls: seq<string>, p: nat, held: Joint): (r: (seq<Joint>, nat))
    ensures |r.0| == Run(ls, p) && r.1 == End(ls, p)
    decreases |ls| - p
  {
    if p >= |ls| then ([], p)
    else if ls[p] == "" then ([], p + 1)
    else
      var j := JointOf(ls[p], held);
      var (js, q) := JointLines(ls, p + 1, j);
      ([j] + js, q)
  }

  /**
   * `readJointOffset` from the `i`-th joint on: each line's matrix becomes
   * that joint's offset; a line for a joint past the end of the list throws
   * `std::out_of_range` (third result true).
   */
  function OffsetLines(js: seq<Joint>, ls: seq<string>, p: nat, i: nat, held: seq<FloatWord>): (r: (seq<Joint>, nat, bool))
    requires |held| == 16
    ensures |r.0| == |js| && r.1 >= p
    decreases |ls| - p
  {
    if p >= |ls| then (js, p, false)
    else if ls[p] == "" then (js, p + 1, false)
    else
      var mat := MatrixOf(ls[p], held);
      if i >= |js| then (js, p + 1, true)
      else OffsetLines(js[i := js[i].(offset := mat)], ls, p + 1, i + 1, mat)
  }

  /** `n` keyframe lines from `q` on, each appended to the `i`-th joint's animation; throws when there is no such joint. */
  function Frames(js: seq<Joint>, ls: seq<string>, q: nat, i: nat, n: nat, held: KeyFrame): (r: (seq<Joint>, KeyFrame, bool))
    ensures |r.0| == |js|
    ensures r.2 <==> n > 0 && i >= |js|
    decreases n
  {
    if n == 0 then (js, held, false)
    else
      var kf := KeyFrameOf(LineAt(ls, q), held);
      if i >= |js| then (js, kf, true)
      else Frames(js[i := js[i].(animation := js[i].animation + [kf])], ls, q + 1, i, n - 1, kf)
  }

  /** The blocks of `readAnimation`: a non-blank header line, then `n` keyframe lines for the next joint. */
  function Blocks(js: seq<Joint>, ls: seq<string>, p: nat, i: nat, n: nat, held: KeyFrame): (r: (seq<Joint>, nat, bool))
    ensures |r.0| == |js| && r.1 >= p
    decreases |ls| - p
  {
    if p >= |ls| then (js, p, false)
    else if ls[p] == "" then (js, p + 1, false)
    else
      var (js', kf, threw) := Frames(js, ls, p + 1, i, n, held);
      if threw then (js', p + 1, true)
      else Blocks(js', ls, p + 1 + n, i + 1, n, kf)
  }

  /**
   * `readAnimation`: the start and end values and the frame count, one
   * skipped line, then the blocks.
   */
  function Animation(m: Model, ls: seq<string>, p: nat): (r: (Model, nat, bool))
    ensures r.0 == m.(start := r.0.start, end := r.0.end, numberOfFrames := r.0.numberOfFrames, joints := r.0.joints)
    ensures |r.0.joints| == |m.joints| && r.1 >= p
  {
    var start := WordAt(Words(LineAt(ls, p)), 1, m.start);
    var end := WordAt(Words(LineAt(ls, p + 1)), 1, m.end);
    var frames := IntValue(Second(LineAt(ls, p + 2)), m.numberOfFrames);
    var (js, q, threw) := Blocks(m.joints, ls, p + 4, 0, Count(frames), UNSET_KEYFRAME);
    (m.(start := start, end := end, numberOfFrames := frames, joints := js), q, threw)
  }

  /** The first words `startReading` hands to a section reader. */
  const MODEL_KEYS := {"*Header", "*Materials", "*Vertices", "*Normals", "*UV", "*Tangets", "*FACES",
                       "*WEIGHTS", "*HIERARCHY", "*JOINT_OFFSET", "*ANIMATION"}

  /** The reader `startReading` runs for a line whose first word is `key`; unknown keys read nothing. */
  function Section(m: Model, key: string, ls: seq<string>, p: nat): (r: (Model, nat, bool))
    ensures r.1 >= p
    ensures key !in MODEL_KEYS ==> r == (m, p, false)
    ensures r.2 ==> key == "*JOINT_OFFSET" || key == "*ANIMATION"
  {
    if key == "*Header" then
      var (m', q) := Header(m, ls, p); (m', q, false)
    else if key == "*Materials" then
      var (m', q) := Materials(m, ls, p); (m', q, false)
    else if key == "*Vertices" then
      var (fs, q) := Float3Lines(ls, p, UNSET3, 3); (m.(vertices := m.vertices + fs), q, false)
    else if key == "*Normals" then
      var (fs, q) := Float3Lines(ls, p, UNSET3, 3); (m.(normals := m.normals + fs), q, false)
    else if key == "*UV" then
      var (fs, q) := Float3Lines(ls, p, UNSET3, 2); (m.(textureCoords := m.textureCoords + TexCoords(fs)), q, false)
    else if key == "*Tangets" then
      var (fs, q) := Float3Lines(ls, p, UNSET3, 3); (m.(tangents := m.tangents + fs), q, false)
    else if key == "*FACES" then
      var (m', q) := Faces(m, ls, p); (m', q, false)
    else if key == "*WEIGHTS" then
      var (es, q) := WeightLines(ls, p, UNSET3, UNSET_QUAD); (m.(weights := m.weights + es), q, false)
    else if key == "*HIERARCHY" then
      var (js, q) := JointLines(ls, p, UNSET_JOINT); (m.(joints := m.joints + js), q, false)
    else if key == "*JOINT_OFFSET" then
      var (js, q, threw) := OffsetLines(m.joints, ls, p, 0, UNSET_MATRIX); (m.(joints := js), q, threw)
    else if key == "*ANIMATION" then
      Animation(m, ls, p)
    else (m, p, false)
  }

  /**
   * `startReading` from line `p`: each line's first word picks a section
   * reader, which goes on from the next line. The second result is whether a
   * reader threw, which ends the reading with the members as they were then.
   */
  function Dispatch(m: Model, ls: seq<string>, p: nat): (r: (Model, bool))
    decreases |ls| - p
  {
    if p >= |ls| then (m, false)
    else
      var (m', q, threw) := Section(m, KeyAfter(ls[p], ""), ls, p + 1);
      if threw then (m', true) else Dispatch(m', ls, q)
  }

  /** How `loadFile` ends. */
  datatype Outcome = NotOpened | Read | OutOfRange

  /** `loadFile` on a file's lines (None: it cannot be opened), from the members `m`. */
  function Load(file: Option<seq<string>>, m: Model): (r: (Outcome, Model))
    ensures r.0 == NotOpened <==> file.None?
    ensures file.None? ==> r.1 == Cleared(m)
  {
    match file
    case None => (NotOpened, Cleared(m))
    case Some(ls) =>
      var (m', threw) := Dispatch(Cleared(m), ls, 0);
      (if threw then OutOfRange else Read, m')
  }

  // ---------------------------------------------------------------------
  // The loops of the section readers, over the values they build.

  lemma AppendAll<T>(a: seq<T>, b: seq<T>, r: seq<T>)
    ensures a + (b + r) == (a + b) + r
  {
  }

  lemma AppendStep<T>(a: seq<T>, x: T, r: seq<T>)
    ensures a + ([x] + r) == (a + [x]) + r
  {
  }

  lemma Float3LinesStep(ls: seq<string>, p: nat, held: Float3, n: nat)
    requires n == 2 || n == 3
    requires p < |ls| && ls[p] != ""
    ensures var f := Float3Of(ls[p], held, n);
      Float3Lines(ls, p, held, n) == ([f] + Float3Lines(ls, p + 1, f, n).0, Float3Lines(ls, p + 1, f, n).1)
  {
  }

  lemma IndexLinesStep(ls: seq<string>, p: nat, n: nat, mid: string, t: Option<int>, rs: seq<IndexDesc>, t1: Option<int>)
    requires p < |ls| && ls[p] != ""
    requires (rs, t1) == IndexRecords(Open(ls[p]), n, mid, t)
    ensures IndexLines(ls, p, n, mid, t)
         == (rs + IndexLines(ls, p + 1, n, mid, t1).0, IndexLines(ls, p + 1, n, mid, t1).1, IndexLines(ls, p + 1, n, mid, t1).2)
  {
  }

  lemma FaceListsStep(ls: seq<string>, p: nat, k: nat, h: FaceHeld, last: seq<IndexDesc>)
    requires k > 0
    ensures var mid := TakeWord(Open(LineAt(ls, p)), h.materialID).0;
      var key := WordValue(Second(LineAt(ls, p + 1)), h.key);
      var (list, t, q) := IndexLines(ls, p + 2, Count(Atoi(key)), mid, h.tempInt);
      var rest := FaceListsFrom(ls, q, k - 1, FaceHeld(mid, key, t), list);
      FaceListsFrom(ls, p, k, h, last) == ([list] + rest.0, rest.1, rest.2)
  {
  }

  /** The section loops stop at a blank line, which they consume, or at the end of the file. */
  lemma Float3LinesEnd(ls: seq<string>, q: nat, held: Float3, n: nat)
    requires n == 2 || n == 3
    requires q >= |ls| || ls[q] == ""
    ensures Float3Lines(ls, q, held, n) == ([], if q < |ls| then q + 1 else q)
  {
  }

  lemma WeightLinesEnd(ls: seq<string>, q: nat, hw: Float3, hj: IntQuad)
    requires q >= |ls| || ls[q] == ""
    ensures WeightLines(ls, q, hw, hj) == ([], if q < |ls| then q + 1 else q)
  {
  }

  lemma JointLinesEnd(ls: seq<string>, q: nat, held: Joint)
    requires q >= |ls| || ls[q] == ""
    ensures JointLines(ls, q, held) == ([], if q < |ls| then q + 1 else q)
  {
  }

  lemma WeightLinesStep(ls: seq<string>, p: nat, hw: Float3, hj: IntQuad)
    requires p < |ls| && ls[p] != ""
    ensures var w := WeightOf(ls[p], hw);
      var j := IntQuadOf(LineAt(ls, p + 1), hj);
      var rest := WeightLines(ls, p + 2, Float3(w.x, w.y, w.z), j);
      WeightLines(ls, p, hw, hj) == ([WeightEntry(w, j)] + rest.0, rest.1)
  {
  }

  lemma IndicesStep(c: Cursor, held: Option<int>, k: nat)
    requires k > 0
    ensures var v := TakeInt(c, held);
      var rest := Indices(TakeWord(v.1, "").1, v.0, k - 1);
      Indices(c, held, k) == ([v.0] + rest.0, rest.1)
  {
  }

  /** One round of the inner loop of `readFaces`: the eight extractions of a record. */
  method ReadIndexRecord(c: Cursor, mid: string, t: Option<int>) returns (d: IndexDesc, cur: Cursor)
    ensures (d, cur) == IndexRecord(c, mid, t)
  {
    var v, tg, nm, uv;
    ghost var c1, c2, c3;
    v, cur := TakeInt(c, t).0, TakeInt(c, t).1;
    cur := TakeWord(cur, "").1;
    c1 := cur;
    tg, cur := TakeInt(cur, v).0, TakeInt(cur, v).1;
    cur := TakeWord(cur, "").1;
    c2 := cur;
    nm, cur := TakeInt(cur, tg).0, TakeInt(cur, tg).1;
    cur := TakeWord(cur, "").1;
    c3 := cur;
    uv, cur := TakeInt(cur, nm).0, TakeInt(cur, nm).1;
    cur := TakeWord(cur, "").1;
    d := IndexDesc(mid, v, tg, nm, uv);
    IndicesStep(c3, nm, 1);
    IndicesStep(c2, tg, 2);
    IndicesStep(c1, v, 3);
    IndicesStep(c, t, 4);
    assert [v] + ([tg] + ([nm] + ([uv] + []))) == [v, tg, nm, uv];
  }

  lemma IndexRecordsStep(c: Cursor, n: nat, mid: string, t: Option<int>, d: IndexDesc, c1: Cursor)
    requires n > 0 && (d, c1) == IndexRecord(c, mid, t)
    ensures IndexRecords(c, n, mid, t)
         == ([d] + IndexRecords(c1, n - 1, mid, d.textureCoord).0, IndexRecords(c1, n - 1, mid, d.textureCoord).1)
  {
  }

  /** One record read, as the first of the `m` records still to come. */
  method ReadNextRecord(c: Cursor, m: nat, mid: string, t: Option<int>) returns (d: IndexDesc, cur: Cursor)
    requires m > 0
    ensures IndexRecords(c, m, mid, t)
         == ([d] + IndexRecords(cur, m - 1, mid, d.textureCoord).0, IndexRecords(cur, m - 1, mid, d.textureCoord).1)
  {
    d, cur := ReadIndexRecord(c, mid, t);
    IndexRecordsStep(c, m, mid, t, d, cur);
  }

  /** The inner loop of `readFaces` on one line's stream. */
  method ReadIndexRecords(c: Cursor, n: nat, mid: string, t: Option<int>) returns (recs: seq<IndexDesc>, tempInt: Option<int>)
    ensures (recs, tempInt) == IndexRecords(c, n, mid, t)
  {
    ghost var goal := IndexRecords(c, n, mid, t);
    ghost var rest := goal.0;
    var cur := c;
    recs := [];
    tempInt := t;
    var m := n;
    while m > 0
      invariant IndexRecords(cur, m, mid, tempInt) == (rest, goal.1)
      invariant recs + rest == goal.0
    {
      var d;
      d, cur := ReadNextRecord(cur, m, mid, tempInt);
      m := m - 1;
      ghost var rest' := IndexRecords(cur, m, mid, d.textureCoord).0;
      AppendStep(recs, d, rest');
      recs := recs + [d];
      rest := rest';
      tempInt := d.textureCoord;
    }
    assert recs + [] == recs;
  }

  /** A material read from four given lines that are the lines from `q` on. */
  lemma MaterialFromLines(ls: seq<string>, q: nat, held: Material, l0: string, l1: string, l2: string, l3: string)
    requires l0 == LineAt(ls, q) && l1 == LineAt(ls, q + 1) && l2 == LineAt(ls, q + 2) && l3 == LineAt(ls, q + 3)
    ensures MaterialAt(ls, q, held) == Material(WordValue(Second(l0), held.id), WordValue(Second(l1), held.diffuse),
                                                WordValue(Second(l2), held.normal), WordValue(Second(l3), held.specular))
  {
  }

  /** The loop of `readMaterials`: `n` materials, the first line read before it. */
  method ReadMaterialList(ls: seq<string>, p: nat, n: int) returns (mats: seq<Material>, q: nat)
    ensures mats == MaterialsUpTo(ls, p, Count(n)).0
    ensures q == if n <= 0 then p + 1 else p + 5 * n
  {
    var temp := EMPTY_MATERIAL;
    var line := LineAt(ls, p);
    q := p + 1;
    mats := [];
    var i := 0;
    while i < n
      invariant 0 <= i && (i <= n || i == 0)
      invariant i < n ==> line == LineAt(ls, p + 5 * i) && q == p + 5 * i + 1
      invariant i == n && n > 0 ==> q == p + 5 * n
      invariant n <= 0 ==> q == p + 1
      invariant (mats, temp) == MaterialsUpTo(ls, p, i)
    {
      MaterialsStep(ls, p, i);
      MaterialFromLines(ls, p + 5 * i, temp, line, LineAt(ls, q), LineAt(ls, q + 1), LineAt(ls, q + 2));
      temp := temp.(id := WordValue(Second(line), temp.id));
      temp := temp.(diffuse := WordValue(Second(LineAt(ls, q)), temp.diffuse));
      temp := temp.(normal := WordValue(Second(LineAt(ls, q + 1)), temp.normal));
      temp := temp.(specular := WordValue(Second(LineAt(ls, q + 2)), temp.specular));
      q := q + 4;
      if i != n - 1 {
        line := LineAt(ls, q);
        q := q + 1;
      }
      mats := mats + [temp];
      i := i + 1;
    }
    assert i == Count(n);
  }

  /** One round of the section loops: the floats read from a non-blank line into the temporary. */
  method ReadFloat3Line(ls: seq<string>, q: nat, held: Float3, n: nat) returns (f: Float3)
    requires n == 2 || n == 3
    requires q < |ls| && ls[q] != ""
    ensures Float3Lines(ls, q, held, n) == ([f] + Float3Lines(ls, q + 1, f, n).0, Float3Lines(ls, q + 1, f, n).1)
  {
    f := Float3Of(ls[q], held, n);
    Float3LinesStep(ls, q, held, n);
  }

  /** The loop of `readVertex`, `readNormals` and `readTangents` (`n` = 3), and of `readUV` (`n` = 2). */
  method ReadFloat3Lines(ls: seq<string>, p: nat, n: nat) returns (fs: seq<Float3>, q: nat)
    requires n == 2 || n == 3
    ensures (fs, q) == Float3Lines(ls, p, UNSET3, n)
  {
    ghost var goal := Float3Lines(ls, p, UNSET3, n);
    var temp := UNSET3;
    fs := [];
    q := p;
    while q < |ls| && ls[q] != ""
      invariant q >= p
      invariant fs + Float3Lines(ls, q, temp, n).0 == goal.0
      invariant Float3Lines(ls, q, temp, n).1 == goal.1
      decreases |ls| - q
    {
      temp := ReadFloat3Line(ls, q, temp, n);
      q := q + 1;
      AppendStep(fs, temp, Float3Lines(ls, q, temp, n).0);
      fs := fs + [temp];
    }
    Float3LinesEnd(ls, q, temp, n);
    if q < |ls| {
      q := q + 1;
    }
    assert fs + [] == fs;
  }

  /** The loop of `readUV`: the texture coordinate of each line is stored as it is read. */
  method ReadTexCoordLines(ls: seq<string>, p: nat) returns (uvs: seq<TexCoord>, q: nat)
    ensures uvs == TexCoords(Float3Lines(ls, p, UNSET3, 2).0)
    ensures q == Float3Lines(ls, p, UNSET3, 2).1
  {
    ghost var goal := Float3Lines(ls, p, UNSET3, 2);
    ghost var read: seq<Float3> := [];
    var temp := UNSET3;
    uvs := [];
    q := p;
    while q < |ls| && ls[q] != ""
      invariant q >= p
      invariant uvs == TexCoords(read)
      invariant read + Float3Lines(ls, q, temp, 2).0 == goal.0
      invariant Float3Lines(ls, q, temp, 2).1 == goal.1
      decreases |ls| - q
    {
      temp := ReadFloat3Line(ls, q, temp, 2);
      q := q + 1;
      AppendStep(read, temp, Float3Lines(ls, q, temp, 2).0);
      uvs := uvs + [TexCoord(temp.x, temp.y)];
      read := read + [temp];
    }
    Float3LinesEnd(ls, q, temp, 2);
    if q < |ls| {
      q := q + 1;
    }
    assert read + [] == read;
  }

  /** The line loop stops at a blank line, which it consumes, or at the end of the file. */
  lemma IndexLinesEnd(ls: seq<string>, q: nat, n: nat, mid: string, t: Option<int>)
    requires q >= |ls| || ls[q] == ""
    ensures IndexLines(ls, q, n, mid, t) == ([], t, if q < |ls| then q + 1 else q)
  {
  }

  /** One round of the line loop of `readFaces`: a non-blank line's records, read by the inner loop. */
  method ReadIndexLine(ls: seq<string>, q: nat, n: nat, mid: string, t: Option<int>)
    returns (rs: seq<IndexDesc>, t1: Option<int>)
    requires q < |ls| && ls[q] != ""
    ensures IndexLines(ls, q, n, mid, t)
         == (rs + IndexLines(ls, q + 1, n, mid, t1).0, IndexLines(ls, q + 1, n, mid, t1).1, IndexLines(ls, q + 1, n, mid, t1).2)
  {
    rs, t1 := ReadIndexRecords(Open(ls[q]), n, mid, t);
    IndexLinesStep(ls, q, n, mid, t, rs, t1);
  }

  /** The line loop of `readFaces` for one material: each line's `n` records. */
  method ReadIndexLines(ls: seq<string>, p: nat, n: nat, mid: string, t: Option<int>)
    returns (recs: seq<IndexDesc>, tempInt: Option<int>, q: nat)
    ensures (recs, tempInt, q) == IndexLines(ls, p, n, mid, t)
  {
    ghost var goal := IndexLines(ls, p, n, mid, t);
    recs := [];
    tempInt := t;
    q := p;
    while q < |ls| && ls[q] != ""
      invariant q >= p
      invariant recs + IndexLines(ls, q, n, mid, tempInt).0 == goal.0
      invariant IndexLines(ls, q, n, mid, tempInt).1 == goal.1
      invariant IndexLines(ls, q, n, mid, tempInt).2 == goal.2
      decreases |ls| - q
    {
      var rs;
      rs, tempInt := ReadIndexLine(ls, q, n, mid, tempInt);
      q := q + 1;
      AppendAll(recs, rs, IndexLines(ls, q, n, mid, tempInt).0);
      recs := recs + rs;
    }
    IndexLinesEnd(ls, q, n, mid, tempInt);
    if q < |ls| {
      q := q + 1;
    }
    assert recs + [] == recs;
  }

  /** The material loop of `readFaces`: `k` index lists; `last` is `m_Indices` before it. */
  method ReadFaceLists(ls: seq<string>, p: nat, k: nat, last: seq<IndexDesc>)
    returns (lists: seq<seq<IndexDesc>>, indices: seq<IndexDesc>, q: nat)
    ensures (lists, indices, q) == FaceListsFrom(ls, p, k, FaceHeld("", "", None), last)
  {
    ghost var goal := FaceListsFrom(ls, p, k, FaceHeld("", "", None), last);
    var tempInt: Option<int> := None;
    var materialID := "";
    var key := "";
    lists, indices, q := [], last, p;
    var i := 0;
    while i < k
      invariant i <= k
      invariant lists + FaceListsFrom(ls, q, k - i, FaceHeld(materialID, key, tempInt), indices).0 == goal.0
      invariant FaceListsFrom(ls, q, k - i, FaceHeld(materialID, key, tempInt), indices).1 == goal.1
      invariant FaceListsFrom(ls, q, k - i, FaceHeld(materialID, key, tempInt), indices).2 == goal.2
    {
      ghost var (q0, h0, last0) := (q, FaceHeld(materialID, key, tempInt), indices);
      materialID := TakeWord(Open(LineAt(ls, q)), materialID).0;
      key := WordValue(Second(LineAt(ls, q + 1)), key);
      indices, tempInt, q := ReadIndexLines(ls, q + 2, Count(Atoi(key)), materialID, tempInt);
      FaceListsStep(ls, q0, k - i, h0, last0);
      AppendStep(lists, indices, FaceListsFrom(ls, q, k - i - 1, FaceHeld(materialID, key, tempInt), indices).0);
      lists := lists + [indices];
      i := i + 1;
    }
    assert lists + [] == lists;
  }

  /** The loop of `readWeights`: a weight line and the joint line after it. */
  method ReadWeightLines(ls: seq<string>, p: nat) returns (es: seq<WeightEntry>, q: nat)
    ensures (es, q) == WeightLines(ls, p, UNSET3, UNSET_QUAD)
  {
    ghost var goal := WeightLines(ls, p, UNSET3, UNSET_QUAD);
    var tempWeight := UNSET3;
    var tempJoint := UNSET_QUAD;
    es := [];
    q := p;
    while q < |ls| && ls[q] != ""
      invariant q >= p
      invariant es + WeightLines(ls, q, tempWeight, tempJoint).0 == goal.0
      invariant WeightLines(ls, q, tempWeight, tempJoint).1 == goal.1
      decreases |ls| - q
    {
      ghost var (hw, hj) := (tempWeight, tempJoint);
      var w := WeightOf(ls[q], tempWeight);
      tempWeight := Float3(w.x, w.y, w.z);
      tempJoint := IntQuadOf(LineAt(ls, q + 1), tempJoint);
      WeightLinesStep(ls, q, hw, hj);
      q := q + 2;
      AppendStep(es, WeightEntry(w, tempJoint), WeightLines(ls, q, tempWeight, tempJoint).0);
      es := es + [WeightEntry(w, tempJoint)];
    }
    WeightLinesEnd(ls, q, tempWeight, tempJoint);
    if q < |ls| {
      q := q + 1;
    }
    assert es + [] == es;
  }

  lemma JointLinesStep(ls: seq<string>, p: nat, held: Joint)
    requires p < |ls| && ls[p] != ""
    ensures JointLines(ls, p, held) == ([JointOf(ls[p], held)] + JointLines(ls, p + 1, JointOf(ls[p], held)).0,
                                        JointLines(ls, p + 1, JointOf(ls[p], held)).1)
  {
  }

  /** One round of the loop of `readHierarchy`: the joint read from a non-blank line. */
  method ReadJointLine(ls: seq<string>, q: nat, held: Joint) returns (j: Joint)
    requires q < |ls| && ls[q] != ""
    ensures JointLines(ls, q, held) == ([j] + JointLines(ls, q + 1, j).0, JointLines(ls, q + 1, j).1)
  {
    j := JointOf(ls[q], held);
    JointLinesStep(ls, q, held);
  }

  /** The loop of `readHierarchy`. */
  method ReadJointLines(ls: seq<string>, p: nat) returns (js: seq<Joint>, q: nat)
    ensures (js, q) == JointLines(ls, p, UNSET_JOINT)
  {
    ghost var goal := JointLines(ls, p, UNSET_JOINT);
    var temp := UNSET_JOINT;
    js := [];
    q := p;
    while q < |ls| && ls[q] != ""
      invariant q >= p
      invariant js + JointLines(ls, q, temp).0 == goal.0
      invariant JointLines(ls, q, temp).1 == goal.1
      decreases |ls| - q
    {
      temp := ReadJointLine(ls, q, temp);
      q := q + 1;
      AppendStep(js, temp, JointLines(ls, q, temp).0);
      js := js + [temp];
    }
    JointLinesEnd(ls, q, temp);
    if q < |ls| {
      q := q + 1;
    }
    assert js + [] == js;
  }

  /** The loop of `readJointOffset` on the joint list `js`. */
  method ReadOffsetLines(js0: seq<Joint>, ls: seq<string>, p: nat) returns (js: seq<Joint>, q: nat, threw: bool)
    ensures (js, q, threw) == OffsetLines(js0, ls, p, 0, UNSET_MATRIX)
  {
    ghost var goal := OffsetLines(js0, ls, p, 0, UNSET_MATRIX);
    var temp := UNSET_MATRIX;
    var i := 0;
    js, q, threw := js0, p, false;
    while q < |ls|
      invariant q >= p && |temp| == 16
      invariant OffsetLines(js, ls, q, i, temp) == goal
      decreases |ls| - q
    {
      var line := ls[q];
      q := q + 1;
      if line == "" {
        return;
      }
      temp := MatrixOf(line, temp);
      if i >= |js| {
        return js, q, true;
      }
      js := js[i := js[i].(offset := temp)];
      i := i + 1;
    }
  }

  lemma FramesStep(js: seq<Joint>, ls: seq<string>, q: nat, i: nat, n: nat, held: KeyFrame)
    requires n > 0
    ensures var kf := KeyFrameOf(LineAt(ls, q), held);
      Frames(js, ls, q, i, n, held)
        == if i >= |js| then (js, kf, true)
           else Frames(js[i := js[i].(animation := js[i].animation + [kf])], ls, q + 1, i, n - 1, kf)
  {
  }

  lemma BlocksStep(js: seq<Joint>, ls: seq<string>, p: nat, i: nat, n: nat, held: KeyFrame,
                    js1: seq<Joint>, kf: KeyFrame, threw: bool)
    requires p < |ls| && ls[p] != ""
    requires (js1, kf, threw) == Frames(js, ls, p + 1, i, n, held)
    ensures Blocks(js, ls, p, i, n, held) == if threw then (js1, p + 1, true) else Blocks(js1, ls, p + 1 + n, i + 1, n, kf)
  {
  }

  /** The frame loop of `readAnimation`: `n` keyframe lines from `q` on for the `i`-th joint. */
  method ReadFrames(js0: seq<Joint>, ls: seq<string>, q: nat, i: nat, n: int, held: KeyFrame)
    returns (js: seq<Joint>, temp: KeyFrame, threw: bool)
    ensures (js, temp, threw) == Frames(js0, ls, q, i, Count(n), held)
  {
    js, temp, threw := js0, held, false;
    ghost var at, left := q, Count(n);
    var j := 0;
    while j < n
      invariant 0 <= j && (j <= n || j == 0)
      invariant at == q + j && left == Count(n) - j
      invariant Frames(js, ls, at, i, left, temp) == Frames(js0, ls, q, i, Count(n), held)
    {
      FramesStep(js, ls, at, i, left, temp);
      temp := KeyFrameOf(LineAt(ls, q + j), temp);
      if i >= |js| {
        return js, temp, true;
      }
      js := js[i := js[i].(animation := js[i].animation + [temp])];
      j := j + 1;
      at, left := at + 1, left - 1;
    }
    assert left == 0;
  }

  /** One block of `readAnimation` from its non-blank header line at `q`. */
  method ReadBlock(js0: seq<Joint>, ls: seq<string>, q: nat, i: nat, n: int, held: KeyFrame)
    returns (js: seq<Joint>, temp: KeyFrame, threw: bool)
    requires q < |ls| && ls[q] != ""
    ensures threw ==> Blocks(js0, ls, q, i, Count(n), held) == (js, q + 1, true)
    ensures !threw ==> Blocks(js0, ls, q, i, Count(n), held) == Blocks(js, ls, q + 1 + Count(n), i + 1, Count(n), temp)
  {
    js, temp, threw := ReadFrames(js0, ls, q + 1, i, n, held);
    BlocksStep(js0, ls, q, i, Count(n), held, js, temp, threw);
  }

  /** The block loop of `readAnimation` on the joint list `js`, `n` keyframes a block. */
  method ReadBlocks(js0: seq<Joint>, ls: seq<string>, p: nat, n: int) returns (js: seq<Joint>, q: nat, threw: bool)
    ensures (js, q, threw) == Blocks(js0, ls, p, 0, Count(n), UNSET_KEYFRAME)
  {
    ghost var k := Count(n);
    ghost var goal := Blocks(js0, ls, p, 0, k, UNSET_KEYFRAME);
    var temp := UNSET_KEYFRAME;
    var i := 0;
    js, q, threw := js0, p, false;
    while q < |ls|
      invariant Blocks(js, ls, q, i, k, temp) == goal
      decreases |ls| - q
    {
      var line := ls[q];
      if line == "" {
        q := q + 1;
        return;
      }
      js, temp, threw := ReadBlock(js, ls, q, i, n, temp);
      q := q + 1;
      if threw {
        return;
      }
      q := q + Count(n);
      i := i + 1;
    }
  }

  // ---------------------------------------------------------------------
  // The loader.

  /**
   * `ModelLoader`. Its members are held together as one `Model` value, which
   * each reader replaces with one whose own members changed.
   */
  class ModelLoader {
    var members: Model

    /** The four counts start at 0; the start and end values and the mesh name are not set. */
    constructor()
      ensures members == Model("", 0, [], None, None, 0, 0, 0, [], [], [], [], [], [], [], [])
    {
      members := Model("", 0, [], None, None, 0, 0, 0, [], [], [], [], [], [], [], []);
    }

    /** `clear`: what `clearData` does, and the frame count zeroed too. */
    method Clear()
      modifies this
      ensures members == Cleared(old(members)).(numberOfFrames := 0)
    {
      ClearData();
      members := members.(numberOfFrames := 0);
    }

    /** `clearData`. */
    method ClearData()
      modifies this
      ensures members == Cleared(old(members))
    {
      members := members.(indices := [], normals := [], tangents := [], textureCoords := [], vertices := [],
                          indexPerMaterial := [], materials := [], weights := [], joints := []);
      members := members.(end := ZERO_WORD, start := ZERO_WORD, numberOfMaterials := 0, meshName := "",
                          numberOfVertices := 0, numberOfTriangles := 0);
    }

    /** `loadFile`: clears, then reads the whole file when it can be opened. */
    method LoadFile(file: Option<seq<string>>) returns (r: Outcome)
      modifies this
      ensures (r, members) == Load(file, old(members))
    {
      ClearData();
      if file.None? {
        return NotOpened;
      }
      var threw := StartReading(file.value);
      r := if threw then OutOfRange else Read;
    }

    /** `startReading`: the dispatch loop. */
    method StartReading(ls: seq<string>) returns (threw: bool)
      modifies this
      ensures (members, threw) == Dispatch(old(members), ls, 0)
    {
      ghost var goal := Dispatch(members, ls, 0);
      var p := 0;
      while p < |ls|
        invariant Dispatch(members, ls, p) == goal
        decreases |ls| - p
      {
        var key := KeyAfter(ls[p], "");
        ghost var before := members;
        p := p + 1;
        ghost var from := p;
        threw := false;
        if key == "*Header" {
          p := ReadHeader(ls, p);
        } else if key == "*Materials" {
          p := ReadMaterials(ls, p);
        } else if key == "*Vertices" {
          p := ReadVertex(ls, p);
        } else if key == "*Normals" {
          p := ReadNormals(ls, p);
        } else if key == "*UV" {
          p := ReadUV(ls, p);
        } else if key == "*Tangets" {
          p := ReadTangents(ls, p);
        } else if key == "*FACES" {
          p := ReadFaces(ls, p);
        } else if key == "*WEIGHTS" {
          p := ReadWeights(ls, p);
        } else if key == "*HIERARCHY" {
          p := ReadHierarchy(ls, p);
        } else if key == "*JOINT_OFFSET" {
          p, threw := ReadJointOffset(ls, p);
        } else if key == "*ANIMATION" {
          p, threw := ReadAnimation(ls, p);
        }
        assert (members, p, threw) == Section(before, key, ls, from);
        if threw {
          return;
        }
      }
      threw := false;
    }

    /** `readHeader`. */
    method ReadHeader(ls: seq<string>, p: nat) returns (q: nat)
      modifies this
      ensures (members, q) == Header(old(members), ls, p)
    {
      var materialCount := IntValue(Second(LineAt(ls, p)), members.numberOfMaterials);
      var name := WordValue(Second(LineAt(ls, p + 1)), members.meshName);
      var vertexCount := IntValue(Second(LineAt(ls, p + 2)), members.numberOfVertices);
      var triangleCount := IntValue(Second(LineAt(ls, p + 3)), members.numberOfTriangles);
      members := members.(numberOfMaterials := materialCount, meshName := name,
                          numberOfVertices := vertexCount, numberOfTriangles := triangleCount);
      q := p + 4;
    }

    /** `readMaterials`. */
    method ReadMaterials(ls: seq<string>, p: nat) returns (q: nat)
      modifies this
      ensures (members, q) == Materials(old(members), ls, p)
    {
      var mats;
      mats, q := ReadMaterialList(ls, p, members.numberOfMaterials);
      assert members.numberOfMaterials <= 0 ==> members.materials + mats == members.materials;
      members := members.(materials := members.materials + mats);
    }

    /** `readVertex`. */
    method ReadVertex(ls: seq<string>, p: nat) returns (q: nat)
      modifies this
      ensures members == old(members).(vertices := old(members.vertices) + Float3Lines(ls, p, UNSET3, 3).0)
      ensures q == Float3Lines(ls, p, UNSET3, 3).1
    {
      var fs;
      fs, q := ReadFloat3Lines(ls, p, 3);
      members := members.(vertices := members.vertices + fs);
    }

    /** `readNormals`. */
    method ReadNormals(ls: seq<string>, p: nat) returns (q: nat)
      modifies this
      ensures members == old(members).(normals := old(members.normals) + Float3Lines(ls, p, UNSET3, 3).0)
      ensures q == Float3Lines(ls, p, UNSET3, 3).1
    {
      var fs;
      fs, q := ReadFloat3Lines(ls, p, 3);
      members := members.(normals := members.normals + fs);
    }

    /** `readUV`: the x and y of each line; the stored v is 1 minus the y read. */
    method ReadUV(ls: seq<string>, p: nat) returns (q: nat)
      modifies this
      ensures members == old(members).(textureCoords := old(members.textureCoords) + TexCoords(Float3Lines(ls, p, UNSET3, 2).0))
      ensures q == Float3Lines(ls, p, UNSET3, 2).1
    {
      var uvs;
      uvs, q := ReadTexCoordLines(ls, p);
      members := members.(textureCoords := members.textureCoords + uvs);
    }

    /** `readTangents`. */
    method ReadTangents(ls: seq<string>, p: nat) returns (q: nat)
      modifies this
      ensures members == old(members).(tangents := old(members.tangents) + Float3Lines(ls, p, UNSET3, 3).0)
      ensures q == Float3Lines(ls, p, UNSET3, 3).1
    {
      var fs;
      fs, q := ReadFloat3Lines(ls, p, 3);
      members := members.(tangents := members.tangents + fs);
    }

    /** `readFaces`: `m_Indices` is emptied for each material and ends holding the last one's list. */
    method ReadFaces(ls: seq<string>, p: nat) returns (q: nat)
      modifies this
      ensures (members, q) == Faces(old(members), ls, p)
    {
      var lists, last;
      lists, last, q := ReadFaceLists(ls, p, Count(members.numberOfMaterials), members.indices);
      members := members.(indexPerMaterial := members.indexPerMaterial + lists, indices := last);
    }

    /** `readWeights`. */
    method ReadWeights(ls: seq<string>, p: nat) returns (q: nat)
      modifies this
      ensures members == old(members).(weights := old(members.weights) + WeightLines(ls, p, UNSET3, UNSET_QUAD).0)
      ensures q == WeightLines(ls, p, UNSET3, UNSET_QUAD).1
    {
      var es;
      es, q := ReadWeightLines(ls, p);
      members := members.(weights := members.weights + es);
    }

    /** `readHierarchy`. */
    method ReadHierarchy(ls: seq<string>, p: nat) returns (q: nat)
      modifies this
      ensures members == old(members).(joints := old(members.joints) + JointLines(ls, p, UNSET_JOINT).0)
      ensures q == JointLines(ls, p, UNSET_JOINT).1
    {
      var js;
      js, q := ReadJointLines(ls, p);
      members := members.(joints := members.joints + js);
    }

    /** `readJointOffset`; `threw` stands for the `std::out_of_range` that `at` throws. */
    method ReadJointOffset(ls: seq<string>, p: nat) returns (q: nat, threw: bool)
      modifies this
      ensures (members.(joints := old(members.joints)), members.joints, q, threw)
           == (old(members), OffsetLines(old(members.joints), ls, p, 0, UNSET_MATRIX).0,
               OffsetLines(old(members.joints), ls, p, 0, UNSET_MATRIX).1, OffsetLines(old(members.joints), ls, p, 0, UNSET_MATRIX).2)
    {
      var js;
      js, q, threw := ReadOffsetLines(members.joints, ls, p);
      members := members.(joints := js);
    }

    /** `readAnimation`; `threw` stands for the `std::out_of_range` that `at` throws. */
    method ReadAnimation(ls: seq<string>, p: nat) returns (q: nat, threw: bool)
      modifies this
      ensures (members, q, threw) == Animation(old(members), ls, p)
    {
      var first := WordAt(Words(LineAt(ls, p)), 1, members.start);
      var last := WordAt(Words(LineAt(ls, p + 1)), 1, members.end);
      var frames := IntValue(Second(LineAt(ls, p + 2)), members.numberOfFrames);
      var js;
      js, q, threw := ReadBlocks(members.joints, ls, p + 4, frames);
      members := members.(start := first, end := last, numberOfFrames := frames, joints := js);
    }
  }
}
