/**
 * The offline converter that turns a parsed text model into the binary .btx
 * file: a header, the materials, the vertex buffer (skinned or not), the
 * joints of a skinned model and the per-material index ranges.
 */
module ModelConverter {
  import opened Wrappers
  import opened Bytes
  import opened ModelFormat

  /** One corner of a face: the material it belongs to and its indices into the geometry lists. */
  datatype IndexDesc = IndexDesc(materialId: seq<byte>, vertex: int32, tangent: int32, normal: int32, uv: int32)

  datatype Float2 = Float2(u: Word, v: Word)

  type Float4 = ws: seq<Word> | |ws| == 4 witness seq(4, _ => ZERO_WORD)

  /** The skinning data of one vertex position: weights and joint indices. */
  datatype Weight = Weight(weights: Float3, joints: Float4)

  /** Everything the setters hand to the converter. */
  datatype Input = Input(
    meshName: seq<byte>,
    materials: seq<Material>,
    indexPerMaterial: seq<seq<IndexDesc>>,
    vertices: seq<Float3>,
    normals: seq<Float3>,
    tangents: seq<Float3>,
    texCoords: seq<Float2>,
    weights: seq<Weight>,
    joints: seq<Joint>,
    numberOfFrames: int32)

  // ---------------------------------------------------------------------
  // What each part of the file holds.

  /** Total number of index records over all per-material lists. */
  function SizeSum(lists: seq<seq<IndexDesc>>): nat
  {
    if lists == [] then 0 else SizeSum(lists[..|lists| - 1]) + |lists[|lists| - 1]|
  }

  function Reverse<T>(xs: seq<T>): (r: seq<T>)
    ensures |r| == |xs|
  {
    seq(|xs|, t requires 0 <= t < |xs| => xs[|xs| - 1 - t])
  }

  /** The order in which vertex records are written: each material's list back to front, materials in order. */
  function VertexOrder(lists: seq<seq<IndexDesc>>): (r: seq<IndexDesc>)
    ensures |r| == SizeSum(lists)
  {
    if lists == [] then [] else VertexOrder(lists[..|lists| - 1]) + Reverse(lists[|lists| - 1])
  }

  lemma {:induction false} VertexOrderPrefix(lists: seq<seq<IndexDesc>>, m: nat)
    requires m <= |lists|
    ensures VertexOrder(lists[..m]) <= VertexOrder(lists)
    decreases |lists| - m
  {
    if m < |lists| {
      var init := lists[..|lists| - 1];
      assert init[..m] == lists[..m];
      VertexOrderPrefix(init, m);
    } else {
      assert lists[..m] == lists;
    }
  }

  /**
   * The records of list `j` occupy the positions from the sum of the earlier
   * list sizes on, so the range a material buffer names covers exactly that
   * list's records, back to front.
   */
  lemma VertexOrderSlice(lists: seq<seq<IndexDesc>>, j: nat)
    requires j < |lists|
    ensures SizeSum(lists[..j + 1]) == SizeSum(lists[..j]) + |lists[j]|
    ensures SizeSum(lists[..j + 1]) <= SizeSum(lists)
    ensures VertexOrder(lists)[SizeSum(lists[..j])..SizeSum(lists[..j + 1])] == Reverse(lists[j])
  {
    var upto := lists[..j + 1];
    assert upto[..j] == lists[..j];
    VertexOrderPrefix(lists, j + 1);
    assert VertexOrder(upto) == VertexOrder(lists[..j]) + Reverse(lists[j]);
  }

  function StaticRecord(inp: Input, cross: (Float3, Float3) -> Float3, v: IndexDesc): Option<StaticVertex>
  {
    match (At(inp.vertices, v.vertex as int), At(inp.normals, v.normal as int),
           At(inp.texCoords, v.uv as int), At(inp.tangents, v.tangent as int))
    case (Some(p), Some(n), Some(uv), Some(t)) =>
      var b := cross(t, n);
      Some([p.x, p.y, p.z, ONE_WORD, t.x, t.y, t.z, n.x, n.y, n.z, uv.u, uv.v, b.x, b.y, b.z])
    case _ => None
  }

  function AnimatedRecord(inp: Input, cross: (Float3, Float3) -> Float3, v: IndexDesc): Option<AnimatedVertex>
  {
    match (StaticRecord(inp, cross, v), At(inp.weights, v.vertex as int))
    case (Some(s), Some(w)) => Some(s + [w.weights.x, w.weights.y, w.weights.z] + w.joints)
    case _ => None
  }

  /** The vertex record of one index entry; `None` when an index is outside its geometry list. */
  function StaticRecordOf(inp: Input, cross: (Float3, Float3) -> Float3): IndexDesc -> Option<StaticVertex>
  {
    v => StaticRecord(inp, cross, v)
  }

  function AnimatedRecordOf(inp: Input, cross: (Float3, Float3) -> Float3): IndexDesc -> Option<AnimatedVertex>
  {
    v => AnimatedRecord(inp, cross, v)
  }

  /** A vertex struct copied into the file as it lies in memory. */
  function StaticVertexBytes(v: StaticVertex): (r: seq<byte>)
  {
    WordsToBytes(v)
  }

  function AnimatedVertexBytes(v: AnimatedVertex): (r: seq<byte>)
  {
    WordsToBytes(v)
  }

  function MaterialBytes(m: Material): (r: seq<byte>)
  {
    StringToBytes(m.id) + StringToBytes(m.diffuse) + StringToBytes(m.normal) + StringToBytes(m.specular)
  }

  function MaterialBufferBytes(b: MaterialBuffer): (r: seq<byte>)
  {
    StringToBytes(b.material) + IntToBytes(b.start) + IntToBytes(b.length)
  }

  function HeaderBytes(h: Header): (r: seq<byte>)
  {
    StringToBytes(h.name) + IntToBytes(h.numMaterial) + IntToBytes(h.numVertex)
      + IntToBytes(h.numMaterialBuffer) + IntToBytes(h.numJoints) + IntToBytes(h.numFrames)
  }

  /** The header written when the vertex counter stood at `counter`. */
  function HeaderOf(inp: Input, counter: int32): Header
  {
    Header(inp.meshName, Int32Of(|inp.materials|), Int32Of(counter as int + SizeSum(inp.indexPerMaterial)),
           Int32Of(|inp.indexPerMaterial|), Int32Of(|inp.joints|), inp.numberOfFrames)
  }

  /** The first `frames` key frames of a joint (the converter's precondition makes the slice exact). */
  function FramesOf(anim: seq<Word>, frames: int32): seq<Word>
  {
    if 0 <= KEYFRAME_WORDS * frames as int <= |anim| then anim[..KEYFRAME_WORDS * frames as int] else anim
  }

  function JointBytes(j: Joint, frames: int32): (r: seq<byte>)
  {
    StringToBytes(j.name) + IntToBytes(j.id) + IntToBytes(j.parent) + WordsToBytes(j.offset)
      + WordsToBytes(FramesOf(j.animation, frames))
  }

  function JointEncoder(frames: int32): Joint -> seq<byte>
  {
    j => JointBytes(j, frames)
  }

  /** Every joint holds at least the number of frames the converter copies out of it. */
  predicate FramesAvailable(joints: seq<Joint>, frames: int32)
  {
    frames >= 0 && forall k :: 0 <= k < |joints| ==> |joints[k].animation| >= KEYFRAME_WORDS * frames as int
  }

  /**
   * The material-buffer records: list j is named by its first entry's material,
   * starts at the sum of the sizes before it and is as long as itself. `None`
   * where an empty list makes `at(0)` throw.
   */
  function BufferRecords(lists: seq<seq<IndexDesc>>): (r: Option<seq<MaterialBuffer>>)
    ensures r.Some? <==> forall k :: 0 <= k < |lists| ==> lists[k] != []
    ensures r.Some? ==> |r.value| == |lists|
  {
    if lists == [] then Some([])
    else
      var init := lists[..|lists| - 1];
      var last := lists[|lists| - 1];
      assert forall k :: 0 <= k < |init| ==> init[k] == lists[k];
      match BufferRecords(init)
      case None => None
      case Some(bs) =>
        if last == [] then None
        else Some(bs + [MaterialBuffer(last[0].materialId, Int32Of(SizeSum(init)), Int32Of(|last|))])
  }

  lemma {:induction false} BufferRecordsAt(lists: seq<seq<IndexDesc>>, j: nat)
    requires BufferRecords(lists).Some? && j < |lists|
    ensures BufferRecords(lists).value[j]
         == MaterialBuffer(lists[j][0].materialId, Int32Of(SizeSum(lists[..j])), Int32Of(|lists[j]|))
  {
    var init := lists[..|lists| - 1];
    assert forall k :: 0 <= k < |init| ==> init[k] == lists[k];
    if j < |init| {
      BufferRecordsAt(init, j);
      assert init[..j] == lists[..j];
    }
  }

  // ---------------------------------------------------------------------
  // The writing passes.

  /**
   * The nested loop shared by `createVertexBuffer` and `createVertexBufferAnimation`:
   * every material's list from its last entry down to its first, one record each.
   */
  method BuildRecords<R>(lists: seq<seq<IndexDesc>>, record: IndexDesc -> Option<R>) returns (r: Option<seq<R>>)
    ensures r == MapAll(VertexOrder(lists), record)
  {
    var records: seq<R> := [];
    ghost var done: seq<IndexDesc> := [];
    var i := 0;
    while i < |lists|
      invariant 0 <= i <= |lists|
      invariant done == VertexOrder(lists[..i])
      invariant |records| == |done| && forall t :: 0 <= t < |done| ==> record(done[t]) == Some(records[t])
    {
      var list := lists[i];
      var j := |list| - 1;
      while j >= 0
        invariant -1 <= j < |list|
        invariant done == VertexOrder(lists[..i]) + Reverse(list)[..|list| - 1 - j]
        invariant |records| == |done| && forall t :: 0 <= t < |done| ==> record(done[t]) == Some(records[t])
      {
        var rec := record(list[j]);
        assert Reverse(list)[..|list| - j] == Reverse(list)[..|list| - 1 - j] + [list[j]];
        if rec.None? {
          VertexOrderPrefix(lists, i + 1);
          assert lists[..i + 1][..i] == lists[..i];
          assert done + [list[j]] <= VertexOrder(lists);
          assert VertexOrder(lists)[|done|] == list[j];
          return None;
        }
        records := records + [rec.value];
        done := done + [list[j]];
        j := j - 1;
      }
      assert lists[..i + 1][..i] == lists[..i];
      assert Reverse(list)[..|list|] == Reverse(list);
      i := i + 1;
    }
    assert lists[..i] == lists;
    MapAllSome(VertexOrder(lists), record, records);
    r := Some(records);
  }

  class Converter {
    var meshName: seq<byte>
    var materials: seq<Material>
    var indexPerMaterial: seq<seq<IndexDesc>>
    var vertices: seq<Float3>
    var normals: seq<Float3>
    var tangents: seq<Float3>
    var texCoords: seq<Float2>
    var weights: seq<Weight>
    var joints: seq<Joint>
    var numberOfFrames: int32
    /** Accumulates across `createHeader` calls; only `clear`/`clearData` reset it. */
    var vertexCount: int32

    function Inputs(): Input
      reads this`meshName, this`materials, this`indexPerMaterial, this`vertices, this`normals, this`tangents,
        this`texCoords, this`weights, this`joints, this`numberOfFrames
    {
      Input(meshName, materials, indexPerMaterial, vertices, normals, tangents, texCoords, weights, joints, numberOfFrames)
    }

    /** Nothing set yet: no name, empty lists and zero counters. */
    predicate Empty()
      reads this
    {
      meshName == [] && materials == [] && indexPerMaterial == [] && weights == [] && joints == []
      && numberOfFrames == 0 && vertexCount == 0
    }

    constructor ()
      ensures Empty()
    {
      meshName, materials, indexPerMaterial := [], [], [];
      vertices, normals, tangents, texCoords := [], [], [], [];
      weights, joints := [], [];
      numberOfFrames, vertexCount := 0, 0;
    }

    /** `clear` and `clearData`: the counters, the name and the list sizes go back to zero. */
    method Clear()
      modifies this
      ensures Empty()
      ensures vertices == old(vertices) && normals == old(normals) && tangents == old(tangents)
      ensures texCoords == old(texCoords)
    {
      meshName, materials, indexPerMaterial := [], [], [];
      weights, joints := [], [];
      numberOfFrames, vertexCount := 0, 0;
    }

    /** `createHeader`: adds every list size to the vertex counter, then writes the header. */
    method CreateHeader() returns (bytes: seq<byte>)
      modifies this`vertexCount
      ensures vertexCount == Int32Of(old(vertexCount) as int + SizeSum(indexPerMaterial))
      ensures bytes == HeaderBytes(HeaderOf(Inputs(), old(vertexCount)))
    {
      var i := 0;
      while i < |indexPerMaterial|
        invariant 0 <= i <= |indexPerMaterial|
        invariant vertexCount == Int32Of(old(vertexCount) as int + SizeSum(indexPerMaterial[..i]))
      {
        assert indexPerMaterial[..i + 1][..i] == indexPerMaterial[..i];
        Int32OfAdd(old(vertexCount) as int + SizeSum(indexPerMaterial[..i]), |indexPerMaterial[i]|);
        vertexCount := Int32Of(vertexCount as int + |indexPerMaterial[i]|);
        i := i + 1;
      }
      assert indexPerMaterial[..i] == indexPerMaterial;
      bytes := StringToBytes(meshName) + IntToBytes(Int32Of(|materials|)) + IntToBytes(vertexCount)
        + IntToBytes(Int32Of(|indexPerMaterial|)) + IntToBytes(Int32Of(|joints|)) + IntToBytes(numberOfFrames);
    }

    /** `createMaterial`: four strings per material, in list order. */
    method CreateMaterial() returns (bytes: seq<byte>)
      ensures bytes == EncodeAll(materials, MaterialBytes)
    {
      bytes := [];
      var i := 0;
      while i < |materials|
        invariant 0 <= i <= |materials|
        invariant bytes == EncodeAll(materials[..i], MaterialBytes)
      {
        var m := materials[i];
        EncodeAllAppend(materials[..i], m, MaterialBytes);
        assert materials[..i + 1] == materials[..i] + [m];
        var record := StringToBytes(m.id) + StringToBytes(m.diffuse) + StringToBytes(m.normal) + StringToBytes(m.specular);
        bytes := bytes + record;
        i := i + 1;
      }
      assert materials[..i] == materials;
    }

    /** `createVertexBuffer`: the static records in `VertexOrder`, or `None` where an index is out of range. */
    method CreateVertexBuffer(cross: (Float3, Float3) -> Float3) returns (bytes: Option<seq<byte>>)
      ensures bytes.Some? <==> MapAll(VertexOrder(indexPerMaterial), StaticRecordOf(Inputs(), cross)).Some?
      ensures bytes.Some? ==>
        bytes.value == EncodeAll(MapAll(VertexOrder(indexPerMaterial), StaticRecordOf(Inputs(), cross)).value, StaticVertexBytes)
    {
      var records := BuildRecords(indexPerMaterial, StaticRecordOf(Inputs(), cross));
      if records.None? {
        return None;
      }
      bytes := Some(EncodeAll(records.value, StaticVertexBytes));
    }

    /** `createVertexBufferAnimation`: as above with the weights appended to every record. */
    method CreateVertexBufferAnimation(cross: (Float3, Float3) -> Float3) returns (bytes: Option<seq<byte>>)
      ensures bytes.Some? <==> MapAll(VertexOrder(indexPerMaterial), AnimatedRecordOf(Inputs(), cross)).Some?
      ensures bytes.Some? ==>
        bytes.value == EncodeAll(MapAll(VertexOrder(indexPerMaterial), AnimatedRecordOf(Inputs(), cross)).value, AnimatedVertexBytes)
    {
      var records := BuildRecords(indexPerMaterial, AnimatedRecordOf(Inputs(), cross));
      if records.None? {
        return None;
      }
      bytes := Some(EncodeAll(records.value, AnimatedVertexBytes));
    }

    /** `createJointBuffer`: per joint its name, id, parent, offset matrix and `numberOfFrames` key frames. */
    method CreateJointBuffer() returns (bytes: seq<byte>)
      requires FramesAvailable(joints, numberOfFrames)
      ensures bytes == EncodeAll(joints, JointEncoder(numberOfFrames))
    {
      bytes := [];
      var i := 0;
      while i < |joints|
        invariant 0 <= i <= |joints|
        invariant bytes == EncodeAll(joints[..i], JointEncoder(numberOfFrames))
      {
        var j := joints[i];
        EncodeAllAppend(joints[..i], j, JointEncoder(numberOfFrames));
        assert joints[..i + 1] == joints[..i] + [j];
        var piece := StringToBytes(j.name) + IntToBytes(j.id) + IntToBytes(j.parent) + WordsToBytes(j.offset)
          + WordsToBytes(j.animation[..KEYFRAME_WORDS * numberOfFrames as int]);
        assert piece == JointEncoder(numberOfFrames)(j);
        bytes := bytes + piece;
        i := i + 1;
      }
      assert joints[..i] == joints;
    }

    /** `createMaterialBuffer`: the running start and size of each list; `None` where a list is empty. */
    method CreateMaterialBuffer() returns (bytes: Option<seq<byte>>)
      ensures bytes.Some? <==> BufferRecords(indexPerMaterial).Some?
      ensures bytes.Some? ==> bytes.value == EncodeAll(BufferRecords(indexPerMaterial).value, MaterialBufferBytes)
    {
      var out: seq<byte> := [];
      var start: int32 := 0;
      ghost var bs: seq<MaterialBuffer> := [];
      var j := 0;
      while j < |indexPerMaterial|
        invariant 0 <= j <= |indexPerMaterial|
        invariant BufferRecords(indexPerMaterial[..j]) == Some(bs)
        invariant out == EncodeAll(bs, MaterialBufferBytes)
        invariant start == Int32Of(SizeSum(indexPerMaterial[..j]))
      {
        var list := indexPerMaterial[j];
        assert indexPerMaterial[..j + 1][..j] == indexPerMaterial[..j];
        if list == [] {
          assert indexPerMaterial[j] == [];
          return None;
        }
        var b := MaterialBuffer(list[0].materialId, start, Int32Of(|list|));
        EncodeAllAppend(bs, b, MaterialBufferBytes);
        var record := StringToBytes(list[0].materialId) + IntToBytes(start) + IntToBytes(Int32Of(|list|));
        out := out + record;
        bs := bs + [b];
        Int32OfAdd(SizeSum(indexPerMaterial[..j]), |list|);
        start := Int32Of(start as int + |list|);
        j := j + 1;
      }
      assert indexPerMaterial[..j] == indexPerMaterial;
      bytes := Some(out);
    }

    /**
     * `writeFile`: refuses an unnamed mesh or an unopenable file; otherwise writes
     * header, materials, the skinned vertex and joint buffers when there are
     * weights (the static vertex buffer otherwise) and the material buffers, then
     * clears its data. `canOpen` stands for the result of opening the file.
     */
    method WriteFile(canOpen: bool, cross: (Float3, Float3) -> Float3) returns (r: WriteResult)
      requires |weights| != 0 ==> FramesAvailable(joints, numberOfFrames)
      modifies this
      ensures r == FileResult(old(Inputs()), old(vertexCount), canOpen, cross)
      ensures r.Wrote? ==> Empty()
      ensures r.Refused? ==> Inputs() == old(Inputs()) && vertexCount == old(vertexCount)
      ensures r.OutOfRange? ==> Inputs() == old(Inputs())
    {
      if meshName == [] || !canOpen {
        return Refused;
      }
      ghost var inp := Inputs();
      ghost var counter := vertexCount;
      var header := CreateHeader();
      assert Inputs() == inp;
      var mats := CreateMaterial();
      var vs: seq<byte>;
      if |weights| != 0 {
        var verts := CreateVertexBufferAnimation(cross);
        if verts.None? {
          return OutOfRange;
        }
        var js := CreateJointBuffer();
        vs := verts.value + js;
      } else {
        var verts := CreateVertexBuffer(cross);
        if verts.None? {
          return OutOfRange;
        }
        vs := verts.value;
      }
      assert VertexSection(inp, cross) == Some(vs);
      var buffers := CreateMaterialBuffer();
      if buffers.None? {
        return OutOfRange;
      }
      var file := header + mats + vs + buffers.value;
      Clear();
      r := Wrote(file);
    }
  }

  /** The vertex part of the file: skinned records and joints when there are weights, static records otherwise. */
  function VertexSection(inp: Input, cross: (Float3, Float3) -> Float3): Option<seq<byte>>
  {
    var order := VertexOrder(inp.indexPerMaterial);
    if |inp.weights| != 0 then
      match MapAll(order, AnimatedRecordOf(inp, cross))
      case None => None
      case Some(rs) => Some(EncodeAll(rs, AnimatedVertexBytes) + EncodeAll(inp.joints, JointEncoder(inp.numberOfFrames)))
    else
      match MapAll(order, StaticRecordOf(inp, cross))
      case None => None
      case Some(rs) => Some(EncodeAll(rs, StaticVertexBytes))
  }

  /** What `writeFile` produces from the converter's inputs and its vertex counter. */
  function FileResult(inp: Input, counter: int32, canOpen: bool, cross: (Float3, Float3) -> Float3): WriteResult
  {
    if inp.meshName == [] || !canOpen then Refused
    else
      match (VertexSection(inp, cross), BufferRecords(inp.indexPerMaterial))
      case (Some(vs), Some(bs)) =>
        Wrote(HeaderBytes(HeaderOf(inp, counter)) + EncodeAll(inp.materials, MaterialBytes) + vs
              + EncodeAll(bs, MaterialBufferBytes))
      case _ => OutOfRange
  }

  /** The file starts with the header, and an unnamed mesh is never written. */
  lemma FileStartsWithHeader(inp: Input, counter: int32, canOpen: bool, cross: (Float3, Float3) -> Float3)
    ensures FileResult(inp, counter, canOpen, cross).Wrote? ==>
      inp.meshName != [] && canOpen && HeaderBytes(HeaderOf(inp, counter)) <= FileResult(inp, counter, canOpen, cross).file
    ensures inp.meshName == [] ==> FileResult(inp, counter, canOpen, cross) == Refused
  {
  }
}
