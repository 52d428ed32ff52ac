/**
 * The run-time reader of the binary model file: header, materials, the skinned
 * vertex buffer and joints when the header names joints (the static vertex
 * buffer otherwise), then the material buffers.
 */
module ModelBinaryLoader {
  import opened Wrappers
  import opened Bytes
  import opened ModelFormat

  function ReadHeader(s: seq<byte>): (r: Option<(Header, seq<byte>)>)
  {
    match ReadString(s)
    case None => None
    case Some((name, s1)) =>
      match ReadInt(s1)
      case None => None
      case Some((numMaterial, s2)) =>
        match ReadInt(s2)
        case None => None
        case Some((numVertex, s3)) =>
          match ReadInt(s3)
          case None => None
          case Some((numBuffer, s4)) =>
            match ReadInt(s4)
            case None => None
            case Some((numJoints, s5)) =>
              match ReadInt(s5)
              case None => None
              case Some((numFrames, rest)) => Some((Header(name, numMaterial, numVertex, numBuffer, numJoints, numFrames), rest))
  }

  /** `readMaterial`'s loop body: id, diffuse map, normal map, specular map. */
  function DecodeMaterial(s: seq<byte>): (r: Option<(Material, seq<byte>)>)
  {
    match ReadString(s)
    case None => None
    case Some((id, s1)) =>
      match ReadString(s1)
      case None => None
      case Some((diffuse, s2)) =>
        match ReadString(s2)
        case None => None
        case Some((normal, s3)) =>
          match ReadString(s3)
          case None => None
          case Some((specular, rest)) => Some((Material(id, diffuse, normal, specular), rest))
  }

  /** `readMaterialBuffer`'s loop body: material name, start, length. */
  function DecodeMaterialBuffer(s: seq<byte>): (r: Option<(MaterialBuffer, seq<byte>)>)
  {
    match ReadString(s)
    case None => None
    case Some((material, s1)) =>
      match ReadInt(s1)
      case None => None
      case Some((start, s2)) =>
        match ReadInt(s2)
        case None => None
        case Some((length, rest)) => Some((MaterialBuffer(material, start, length), rest))
  }

  function DecodeStaticVertex(s: seq<byte>): (r: Option<(StaticVertex, seq<byte>)>)
  {
    match ReadWords(s, 15)
    case None => None
    case Some((ws, rest)) => Some((ws, rest))
  }

  function DecodeAnimatedVertex(s: seq<byte>): (r: Option<(AnimatedVertex, seq<byte>)>)
  {
    match ReadWords(s, 22)
    case None => None
    case Some((ws, rest)) => Some((ws, rest))
  }

  /** One joint of `readJointList`: name, id, parent, offset matrix and `frames` key frames. */
  function DecodeJoint(s: seq<byte>, frames: nat): (r: Option<(Joint, seq<byte>)>)
  {
    match ReadString(s)
    case None => None
    case Some((name, s1)) =>
      match ReadInt(s1)
      case None => None
      case Some((id, s2)) =>
        match ReadInt(s2)
        case None => None
        case Some((parent, s3)) =>
          match ReadWords(s3, 16)
          case None => None
          case Some((offset, s4)) =>
            match ReadWords(s4, KEYFRAME_WORDS * frames)
            case None => None
            case Some((animation, rest)) => Some((Joint(name, id, parent, offset, animation), rest))
  }

  function JointDecoder(frames: nat): seq<byte> -> Option<(Joint, seq<byte>)>
  {
    s => DecodeJoint(s, frames)
  }

  /** The `k`-th joint's parent is 0 (the root) or the 1-based index of a joint read before it. */
  predicate ParentRead(k: nat, joint: Joint)
  {
    joint.parent == 0 || 1 <= joint.parent as int <= k
  }

  predicate ParentsValid(joints: seq<Joint>)
  {
    AllAt(joints, ParentRead)
  }

  /**
   * `readJointList`. A negative frame count makes the key-frame `resize` throw;
   * a parent that is neither 0 nor an earlier joint indexes `readJoints` out of
   * range. Both are failures here.
   */
  function ReadJoints(s: seq<byte>, numJoints: int32, numFrames: int32): (r: Option<(seq<Joint>, seq<byte>)>)
    ensures r.Some? ==> numFrames >= 0 && |r.value.0| == Iterations(numJoints) && ParentsValid(r.value.0)
  {
    if numFrames < 0 then None
    else
      match DecodeN(s, Iterations(numJoints), JointDecoder(numFrames as nat))
      case None => None
      case Some((js, rest)) =>
        if ParentsValid(js) then Some((js, rest)) else None
  }

  /** Everything `loadBinaryFile` fills in. */
  datatype Model = Model(header: Header, materials: seq<Material>, animatedVertices: seq<AnimatedVertex>,
                         joints: seq<Joint>, staticVertices: seq<StaticVertex>, materialBuffers: seq<MaterialBuffer>)

  /**
   * The model a file's bytes decode to. The skinned branch is taken iff the
   * header names at least one joint; a negative vertex count fails the vector
   * allocation; negative material and buffer counts read nothing.
   */
  function LoadModel(s: seq<byte>): (r: Option<Model>)
    ensures r.Some? ==> |r.value.materials| == Iterations(r.value.header.numMaterial)
    ensures r.Some? ==> |r.value.materialBuffers| == Iterations(r.value.header.numMaterialBuffer)
    ensures r.Some? && r.value.header.numJoints > 0 ==>
      |r.value.animatedVertices| == r.value.header.numVertex as int && r.value.staticVertices == []
      && |r.value.joints| == r.value.header.numJoints as int && ParentsValid(r.value.joints)
    ensures r.Some? && r.value.header.numJoints <= 0 ==>
      |r.value.staticVertices| == r.value.header.numVertex as int && r.value.animatedVertices == [] && r.value.joints == []
  {
    match ReadHeader(s)
    case None => None
    case Some((h, s1)) => LoadBody(h, s1)
  }

  /** Everything after the header. */
  function LoadBody(h: Header, s: seq<byte>): (r: Option<Model>)
    ensures r.Some? ==> r.value.header == h
  {
    match DecodeN(s, Iterations(h.numMaterial), DecodeMaterial)
    case None => None
    case Some((materials, s2)) =>
      if h.numVertex < 0 then None
      else
        match VertexPart(s2, h)
        case None => None
        case Some((animated, joints, statics, s3)) => LoadBuffers(Model(h, materials, animated, joints, statics, []), s3)
  }

  /** The material buffers, the last section. */
  function LoadBuffers(m: Model, s: seq<byte>): (r: Option<Model>)
    ensures r.Some? ==> r.value == m.(materialBuffers := r.value.materialBuffers)
  {
    match DecodeN(s, Iterations(m.header.numMaterialBuffer), DecodeMaterialBuffer)
    case None => None
    case Some((buffers, _)) => Some(m.(materialBuffers := buffers))
  }

  function VertexPart(s: seq<byte>, h: Header): (r: Option<(seq<AnimatedVertex>, seq<Joint>, seq<StaticVertex>, seq<byte>)>)
    requires h.numVertex >= 0
    ensures r.Some? && h.numJoints > 0 ==>
      |r.value.0| == h.numVertex as int && |r.value.1| == h.numJoints as int && ParentsValid(r.value.1) && r.value.2 == []
    ensures r.Some? && h.numJoints <= 0 ==> r.value.0 == [] && r.value.1 == [] && |r.value.2| == h.numVertex as int
  {
    if h.numJoints > 0 then
      match DecodeN(s, h.numVertex as nat, DecodeAnimatedVertex)
      case None => None
      case Some((animated, s1)) =>
        match ReadJoints(s1, h.numJoints, h.numFrames)
        case None => None
        case Some((joints, rest)) => Some((animated, joints, [], rest))
    else
      match DecodeN(s, h.numVertex as nat, DecodeStaticVertex)
      case None => None
      case Some((statics, rest)) => Some(([], [], statics, rest))
  }

  class Loader {
    var header: Header
    var material: seq<Material>
    var animationVertexBuffer: seq<AnimatedVertex>
    var joints: seq<Joint>
    var vertexBuffer: seq<StaticVertex>
    var materialBuffer: seq<MaterialBuffer>

    function Contents(): Model
      reads this
    {
      Model(header, material, animationVertexBuffer, joints, vertexBuffer, materialBuffer)
    }

    constructor ()
      ensures Contents() == Model(Header([], 0, 0, 0, 0, 0), [], [], [], [], [])
    {
      header := Header([], 0, 0, 0, 0, 0);
      material, animationVertexBuffer, joints, vertexBuffer, materialBuffer := [], [], [], [], [];
    }

    /** `clearData`: a zero header and empty lists. */
    method ClearData()
      modifies this
      ensures Contents() == Model(Header([], 0, 0, 0, 0, 0), [], [], [], [], [])
    {
      header := Header([], 0, 0, 0, 0, 0);
      material, animationVertexBuffer, joints, vertexBuffer, materialBuffer := [], [], [], [], [];
    }

    /**
     * The vertex part after the materials: the skinned vertices and the joints
     * when the header names joints, the static vertices otherwise.
     */
    method ReadVertexData(s: seq<byte>) returns (next: Option<seq<byte>>)
      modifies this`animationVertexBuffer, this`joints, this`vertexBuffer
      requires header.numVertex >= 0 && animationVertexBuffer == [] && joints == [] && vertexBuffer == []
      ensures VertexPart(s, header) == if next.None? then None else Some((animationVertexBuffer, joints, vertexBuffer, next.value))
    {
      if header.numJoints > 0 {
        var verts := DecodeN(s, header.numVertex as nat, DecodeAnimatedVertex);
        if verts.None? {
          return None;
        }
        animationVertexBuffer := verts.value.0;
        var js := ReadJointList(header.numJoints, header.numFrames, verts.value.1);
        if js.None? {
          return None;
        }
        joints := js.value.0;
        return Some(js.value.1);
      } else {
        var verts := DecodeN(s, header.numVertex as nat, DecodeStaticVertex);
        if verts.None? {
          return None;
        }
        vertexBuffer := verts.value.0;
        return Some(verts.value.1);
      }
    }

    /**
     * `loadBinaryFile`: clears, then reads the whole file. `file` is `None` when
     * the file cannot be opened. On a malformed stream the fields keep what was
     * read before the failure, which this model does not pin down.
     */
    method LoadBinaryFile(file: Option<seq<byte>>) returns (r: LoadResult)
      modifies this
      ensures file.None? ==> r == CannotOpen && Contents() == Model(Header([], 0, 0, 0, 0, 0), [], [], [], [], [])
      ensures file.Some? ==> (r == Loaded <==> LoadModel(file.value).Some?)
      ensures r == Loaded ==> Contents() == LoadModel(file.value).value
    {
      ClearData();
      if file.None? {
        return CannotOpen;
      }
      var s := file.value;
      var h := ReadHeader(s);
      if h.None? {
        return Malformed;
      }
      header := h.value.0;
      var mats := ReadEach(header.numMaterial, h.value.1, DecodeMaterial);
      if mats.None? {
        return Malformed;
      }
      material := mats.value.0;
      var cur := mats.value.1;
      if header.numVertex < 0 {
        return Malformed;
      }
      assert LoadModel(s) == LoadBody(header, h.value.1);
      var next := ReadVertexData(cur);
      if next.None? {
        return Malformed;
      }
      cur := next.value;
      assert LoadModel(s) == LoadBuffers(Model(header, material, animationVertexBuffer, joints, vertexBuffer, []), cur);
      var buffers := ReadEach(header.numMaterialBuffer, cur, DecodeMaterialBuffer);
      if buffers.None? {
        return Malformed;
      }
      materialBuffer := buffers.value.0;
      r := Loaded;
    }
  }

  /**
   * `readJointList`'s loop: one joint per iteration, each parent checked against
   * the joints already read.
   */
  method ReadJointList(numJoints: int32, numFrames: int32, s: seq<byte>) returns (r: Option<(seq<Joint>, seq<byte>)>)
    ensures r == ReadJoints(s, numJoints, numFrames)
  {
    if numFrames < 0 {
      return None;
    }
    r := ReadEachChecked(numJoints, s, JointDecoder(numFrames as nat), ParentRead);
  }
}
