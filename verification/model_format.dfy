/**
 * The records of the binary model file (.btx) that ModelConverter writes and
 * ModelBinaryLoader reads. Names are stored bytes; floats, matrices and vertex
 * structs are kept as the 4-byte words they occupy in the file.
 */
module ModelFormat {
  import opened Bytes

  /** The float 1.0f, the `w` of every written position: 0x3F800000 stored lowest byte first. */
  const ONE_WORD: Word := [0, 0, 128, 63]

  /** A vertex without skinning: position (4), tangent (3), normal (3), uv (2), binormal (3). */
  type StaticVertex = ws: seq<Word> | |ws| == 15 witness seq(15, _ => ZERO_WORD)

  /** A skinned vertex: the static fields, then weights (3) and joint indices (4). */
  type AnimatedVertex = ws: seq<Word> | |ws| == 22 witness seq(22, _ => ZERO_WORD)

  /** A 4x4 float matrix. */
  type Matrix = ws: seq<Word> | |ws| == 16 witness seq(16, _ => ZERO_WORD)

  /** Words per key frame: translation (3), rotation (4), scale (3). */
  const KEYFRAME_WORDS: nat := 10

  datatype Header = Header(name: seq<byte>, numMaterial: int32, numVertex: int32,
                           numMaterialBuffer: int32, numJoints: int32, numFrames: int32)

  datatype Material = Material(id: seq<byte>, diffuse: seq<byte>, normal: seq<byte>, specular: seq<byte>)

  /** The index range `[start, start + length)` of the vertex buffer drawn with `material`. */
  datatype MaterialBuffer = MaterialBuffer(material: seq<byte>, start: int32, length: int32)

  /** A joint; `animation` holds the key frames back to back, KEYFRAME_WORDS words each. */
  datatype Joint = Joint(name: seq<byte>, id: int32, parent: int32, offset: Matrix, animation: seq<Word>)
}
