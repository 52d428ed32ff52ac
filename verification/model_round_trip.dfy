/**
 * The converter and the loader agree on the model file: every record the
 * converter writes is read back unchanged, and a whole converted model loads
 * back as the header, materials, vertices, joints and material buffers that
 * went in.
 */
module ModelRoundTrip {
  import opened Wrappers
  import opened Bytes
  import opened ModelFormat
  import opened ModelConverter
  import opened ModelBinaryLoader

  lemma HeaderRoundTrip(h: Header, rest: seq<byte>)
    requires |h.name| < TWO31
    ensures ReadHeader(HeaderBytes(h) + rest) == Some((h, rest))
  {
    var s5 := IntToBytes(h.numFrames) + rest;
    var s4 := IntToBytes(h.numJoints) + s5;
    var s3 := IntToBytes(h.numMaterialBuffer) + s4;
    var s2 := IntToBytes(h.numVertex) + s3;
    var s1 := IntToBytes(h.numMaterial) + s2;
    assert HeaderBytes(h) + rest == StringToBytes(h.name) + s1;
    StringRoundTrip(h.name, s1);
    ReadIntRoundTrip(h.numMaterial, s2);
    ReadIntRoundTrip(h.numVertex, s3);
    ReadIntRoundTrip(h.numMaterialBuffer, s4);
    ReadIntRoundTrip(h.numJoints, s5);
    ReadIntRoundTrip(h.numFrames, rest);
  }

  predicate MaterialOk(m: Material)
  {
    |m.id| < TWO31 && |m.diffuse| < TWO31 && |m.normal| < TWO31 && |m.specular| < TWO31
  }

  lemma MaterialRoundTrip(m: Material, rest: seq<byte>)
    requires MaterialOk(m)
    ensures DecodeMaterial(MaterialBytes(m) + rest) == Some((m, rest))
  {
    var s3 := StringToBytes(m.specular) + rest;
    var s2 := StringToBytes(m.normal) + s3;
    var s1 := StringToBytes(m.diffuse) + s2;
    assert MaterialBytes(m) + rest == StringToBytes(m.id) + s1;
    StringRoundTrip(m.id, s1);
    StringRoundTrip(m.diffuse, s2);
    StringRoundTrip(m.normal, s3);
    StringRoundTrip(m.specular, rest);
  }

  predicate BufferOk(b: MaterialBuffer)
  {
    |b.material| < TWO31
  }

  lemma MaterialBufferRoundTrip(b: MaterialBuffer, rest: seq<byte>)
    requires BufferOk(b)
    ensures DecodeMaterialBuffer(MaterialBufferBytes(b) + rest) == Some((b, rest))
  {
    var s2 := IntToBytes(b.length) + rest;
    var s1 := IntToBytes(b.start) + s2;
    assert MaterialBufferBytes(b) + rest == StringToBytes(b.material) + s1;
    StringRoundTrip(b.material, s1);
    ReadIntRoundTrip(b.start, s2);
    ReadIntRoundTrip(b.length, rest);
  }

  /** The `frames` key frames a joint must hold for the loader to read back exactly what was written. */
  predicate JointOk(j: Joint, frames: nat)
  {
    |j.name| < TWO31 && |j.animation| == KEYFRAME_WORDS * frames
  }

  lemma JointRoundTrip(j: Joint, frames: nat, rest: seq<byte>)
    requires frames < TWO31 && JointOk(j, frames)
    ensures DecodeJoint(JointBytes(j, frames as int32) + rest, frames) == Some((j, rest))
  {
    assert FramesOf(j.animation, frames as int32) == j.animation;
    var s4 := WordsToBytes(j.animation) + rest;
    var s3 := WordsToBytes(j.offset) + s4;
    var s2 := IntToBytes(j.parent) + s3;
    var s1 := IntToBytes(j.id) + s2;
    assert JointBytes(j, frames as int32) + rest == StringToBytes(j.name) + s1;
    StringRoundTrip(j.name, s1);
    ReadIntRoundTrip(j.id, s2);
    ReadIntRoundTrip(j.parent, s3);
    WordsRoundTrip(j.offset, s4);
    WordsRoundTrip(j.animation, rest);
  }

  function JointOkFor(frames: nat): Joint -> bool
  {
    j => JointOk(j, frames)
  }

  function Any<T>(x: T): bool
  {
    true
  }

  lemma RecordInverses(frames: nat)
    requires frames < TWO31
    ensures Inverse(MaterialBytes, DecodeMaterial, MaterialOk)
    ensures Inverse(MaterialBufferBytes, DecodeMaterialBuffer, BufferOk)
    ensures Inverse(StaticVertexBytes, DecodeStaticVertex, Any)
    ensures Inverse(AnimatedVertexBytes, DecodeAnimatedVertex, Any)
    ensures Inverse(JointEncoder(frames as int32), JointDecoder(frames), JointOkFor(frames))
  {
    forall m: Material, rest: seq<byte> | MaterialOk(m) ensures DecodeMaterial(MaterialBytes(m) + rest) == Some((m, rest)) {
      MaterialRoundTrip(m, rest);
    }
    forall b: MaterialBuffer, rest: seq<byte> | BufferOk(b)
      ensures DecodeMaterialBuffer(MaterialBufferBytes(b) + rest) == Some((b, rest))
    {
      MaterialBufferRoundTrip(b, rest);
    }
    forall v: StaticVertex, rest: seq<byte> ensures DecodeStaticVertex(StaticVertexBytes(v) + rest) == Some((v, rest)) {
      WordsRoundTrip(v, rest);
    }
    forall v: AnimatedVertex, rest: seq<byte> ensures DecodeAnimatedVertex(AnimatedVertexBytes(v) + rest) == Some((v, rest)) {
      WordsRoundTrip(v, rest);
    }
    forall j: Joint, rest: seq<byte> | JointOk(j, frames)
      ensures JointDecoder(frames)(JointEncoder(frames as int32)(j) + rest) == Some((j, rest))
    {
      JointRoundTrip(j, frames, rest);
    }
  }

  /** A set of inputs the converter writes without error and whose every count and string fits the format. */
  predicate Convertible(inp: Input, cross: (Float3, Float3) -> Float3)
  {
    var lists := inp.indexPerMaterial;
    && inp.meshName != [] && |inp.meshName| < TWO31
    && |inp.materials| < TWO31 && (forall k :: 0 <= k < |inp.materials| ==> MaterialOk(inp.materials[k]))
    && |lists| < TWO31 && SizeSum(lists) < TWO31
    && (forall k :: 0 <= k < |lists| ==> lists[k] != [] && |lists[k][0].materialId| < TWO31)
    && 0 <= inp.numberOfFrames
    // the converter takes the skinned path on weights, the loader on joints
    && (|inp.weights| != 0 <==> |inp.joints| != 0)
    && |inp.joints| < TWO31 && ParentsValid(inp.joints)
    && (forall k :: 0 <= k < |inp.joints| ==> JointOk(inp.joints[k], inp.numberOfFrames as nat))
    && VertexSection(inp, cross).Some?
  }

  /** The model the loader should hold after reading what the converter wrote. */
  function Converted(inp: Input, cross: (Float3, Float3) -> Float3): Model
    requires Convertible(inp, cross)
  {
    var order := VertexOrder(inp.indexPerMaterial);
    var buffers := BufferRecords(inp.indexPerMaterial).value;
    if |inp.weights| != 0 then
      Model(HeaderOf(inp, 0), inp.materials, MapAll(order, AnimatedRecordOf(inp, cross)).value, inp.joints, [], buffers)
    else
      Model(HeaderOf(inp, 0), inp.materials, [], [], MapAll(order, StaticRecordOf(inp, cross)).value, buffers)
  }

  /** The skinned section: vertices, then joints, each read back in full. */
  lemma AnimatedPartRoundTrip(rs: seq<AnimatedVertex>, joints: seq<Joint>, h: Header, bs: seq<byte>)
    requires h.numVertex as int == |rs| && h.numJoints as int == |joints| && 0 < |joints|
    requires 0 <= h.numFrames && ParentsValid(joints)
    requires forall k :: 0 <= k < |joints| ==> JointOk(joints[k], h.numFrames as nat)
    ensures VertexPart(EncodeAll(rs, AnimatedVertexBytes) + EncodeAll(joints, JointEncoder(h.numFrames)) + bs, h)
         == Some((rs, joints, [], bs))
  {
    var frames := h.numFrames as nat;
    assert frames as int32 == h.numFrames;
    RecordInverses(frames);
    var js := EncodeAll(joints, JointEncoder(h.numFrames));
    DecodeNRoundTrip(rs, js + bs, AnimatedVertexBytes, DecodeAnimatedVertex, Any);
    assert EncodeAll(rs, AnimatedVertexBytes) + js + bs == EncodeAll(rs, AnimatedVertexBytes) + (js + bs);
    DecodeNRoundTrip(joints, bs, JointEncoder(h.numFrames), JointDecoder(frames), JointOkFor(frames));
    assert ReadJoints(js + bs, h.numJoints, h.numFrames) == Some((joints, bs));
  }

  /** The static section: the vertices read back in full, no joints. */
  lemma StaticPartRoundTrip(rs: seq<StaticVertex>, h: Header, bs: seq<byte>)
    requires h.numVertex as int == |rs| && h.numJoints == 0
    ensures VertexPart(EncodeAll(rs, StaticVertexBytes) + bs, h) == Some(([], [], rs, bs))
  {
    RecordInverses(0);
    DecodeNRoundTrip(rs, bs, StaticVertexBytes, DecodeStaticVertex, Any);
  }

  /** The material and material-buffer sections around a vertex section that reads back as `part`. */
  lemma BodyRoundTrip(h: Header, materials: seq<Material>, vs: seq<byte>, buffers: seq<MaterialBuffer>,
                      part: (seq<AnimatedVertex>, seq<Joint>, seq<StaticVertex>))
    requires h.numMaterial as int == |materials| && h.numMaterialBuffer as int == |buffers| && h.numVertex >= 0
    requires forall k :: 0 <= k < |materials| ==> MaterialOk(materials[k])
    requires forall k :: 0 <= k < |buffers| ==> BufferOk(buffers[k])
    requires VertexPart(vs + EncodeAll(buffers, MaterialBufferBytes), h)
          == Some((part.0, part.1, part.2, EncodeAll(buffers, MaterialBufferBytes)))
    ensures LoadBody(h, EncodeAll(materials, MaterialBytes) + vs + EncodeAll(buffers, MaterialBufferBytes))
         == Some(Model(h, materials, part.0, part.1, part.2, buffers))
  {
    RecordInverses(0);
    var bs := EncodeAll(buffers, MaterialBufferBytes);
    var ms := EncodeAll(materials, MaterialBytes);
    DecodeNRoundTrip(materials, vs + bs, MaterialBytes, DecodeMaterial, MaterialOk);
    assert ms + vs + bs == ms + (vs + bs);
    BuffersRoundTrip(Model(h, materials, part.0, part.1, part.2, []), buffers);
  }

  lemma BuffersRoundTrip(m: Model, buffers: seq<MaterialBuffer>)
    requires m.header.numMaterialBuffer as int == |buffers| && m.materialBuffers == []
    requires forall k :: 0 <= k < |buffers| ==> BufferOk(buffers[k])
    ensures LoadBuffers(m, EncodeAll(buffers, MaterialBufferBytes)) == Some(m.(materialBuffers := buffers))
  {
    RecordInverses(0);
    var bs := EncodeAll(buffers, MaterialBufferBytes);
    DecodeNRoundTrip(buffers, [], MaterialBufferBytes, DecodeMaterialBuffer, BufferOk);
    assert bs + [] == bs;
  }

  /** The bytes a fresh converter writes for convertible inputs, section by section. */
  lemma FileSections(inp: Input, cross: (Float3, Float3) -> Float3)
    requires inp.meshName != [] && VertexSection(inp, cross).Some? && BufferRecords(inp.indexPerMaterial).Some?
    ensures FileResult(inp, 0, true, cross)
         == Wrote(HeaderBytes(HeaderOf(inp, 0)) + (EncodeAll(inp.materials, MaterialBytes) + VertexSection(inp, cross).value
                  + EncodeAll(BufferRecords(inp.indexPerMaterial).value, MaterialBufferBytes)))
  {
    var ms := EncodeAll(inp.materials, MaterialBytes);
    var vs := VertexSection(inp, cross).value;
    var bs := EncodeAll(BufferRecords(inp.indexPerMaterial).value, MaterialBufferBytes);
    assert HeaderBytes(HeaderOf(inp, 0)) + ms + vs + bs == HeaderBytes(HeaderOf(inp, 0)) + (ms + vs + bs);
  }

  /**
   * Writing a model with a fresh converter and loading the file gives back the
   * converter's inputs: its name and counts in the header, its materials, its
   * vertex records in writing order, its joints and its material ranges.
   */
  lemma ModelFileRoundTrip(inp: Input, cross: (Float3, Float3) -> Float3)
    requires Convertible(inp, cross)
    ensures FileResult(inp, 0, true, cross).Wrote?
    ensures LoadModel(FileResult(inp, 0, true, cross).file) == Some(Converted(inp, cross))
  {
    var lists := inp.indexPerMaterial;
    var h := HeaderOf(inp, 0);
    var buffers := BufferRecords(lists).value;
    var vs := VertexSection(inp, cross).value;
    var bs := EncodeAll(buffers, MaterialBufferBytes);
    var body := EncodeAll(inp.materials, MaterialBytes) + vs + bs;
    FileSections(inp, cross);
    HeaderRoundTrip(h, body);
    assert LoadModel(HeaderBytes(h) + body) == LoadBody(h, body);
    forall k | 0 <= k < |buffers| ensures BufferOk(buffers[k]) {
      BufferRecordsAt(lists, k);
    }
    var order := VertexOrder(lists);
    if |inp.weights| != 0 {
      var rs := MapAll(order, AnimatedRecordOf(inp, cross)).value;
      AnimatedPartRoundTrip(rs, inp.joints, h, bs);
      BodyRoundTrip(h, inp.materials, vs, buffers, (rs, inp.joints, []));
    } else {
      var rs := MapAll(order, StaticRecordOf(inp, cross)).value;
      StaticPartRoundTrip(rs, h, bs);
      BodyRoundTrip(h, inp.materials, vs, buffers, ([], [], rs));
    }
  }
}
