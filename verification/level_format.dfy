/**
 * The records of the binary level files written by LevelConverter and
 * InstanceConverter and read by the level loaders: a header of counts, the
 * models grouped by mesh, the light blocks and the check points. Floats and
 * the light and check-point structs are opaque 4-byte words, laid out as the
 * structs in BinaryConverter/Source/LevelLoader.h lay them out (all members
 * are 4 bytes wide, so there is no padding).
 */
module LevelFormat {
  import opened Wrappers
  import opened Bytes

  /** `LightData`: translation (3 words), colour (3), type (1). */
  const TYPE_WORD: nat := 6
  /** After `LightData` a directional or spot light has its intensity, then its direction. */
  const DIRECTION_X_WORD: nat := 8
  /** Words of `pair<LightData, DirectionalLight>`: LightData (7), intensity (1), direction (3). */
  const DIRECTIONAL_WORDS: nat := 11
  /** Words of `pair<LightData, PointLight>`: LightData (7), intensity (1). */
  const POINT_WORDS: nat := 8
  /** Words of `pair<LightData, SpotLight>`: LightData (7), intensity, direction (3), cone and penumbra angles. */
  const SPOT_WORDS: nat := 13
  /** Words of `CheckPointStruct`: number (1), translation (3). */
  const CHECKPOINT_WORDS: nat := 4

  type DirectionalLight = ws: seq<Word> | |ws| == 11 witness seq(11, _ => ZERO_WORD)
  type PointLight = ws: seq<Word> | |ws| == 8 witness seq(8, _ => ZERO_WORD)
  type SpotLight = ws: seq<Word> | |ws| == 13 witness seq(13, _ => ZERO_WORD)
  type CheckPoint = ws: seq<Word> | |ws| == 4 witness seq(4, _ => ZERO_WORD)

  datatype LevelHeader = LevelHeader(models: int32, lights: int32, checkPoints: int32)

  /** One placed model instance as the level text file lists it. */
  datatype ModelStruct = ModelStruct(meshName: seq<byte>, translation: Float3, rotation: Float3, scale: Float3)

  /** All instances of one mesh: its name and one translation, rotation and scale per instance. */
  datatype LevelModel = LevelModel(meshName: seq<byte>, translations: seq<Float3>, rotations: seq<Float3>, scales: seq<Float3>)

  datatype Lights = Lights(directional: seq<DirectionalLight>, point: seq<PointLight>, spot: seq<SpotLight>)

  const NO_LIGHTS := Lights([], [], [])

  /** The point all three coordinates of which are zero words. */
  const ORIGIN := Float3(ZERO_WORD, ZERO_WORD, ZERO_WORD)

  /** The light type stored in a light's `LightData::m_Type`. */
  function TypeOf(ws: seq<Word>): int32
    requires |ws| > TYPE_WORD
  {
    BytesToInt(ws[TYPE_WORD])
  }

  // ---------------------------------------------------------------------
  // The converters' change of handedness.

  function NegateX(v: Float3): Float3
  {
    v.(x := NegateWord(v.x))
  }

  /** A translation has its x negated, a rotation its x and z; the scale is kept. */
  function FlipModel(m: ModelStruct): (r: ModelStruct)
    ensures r.meshName == m.meshName && r.scale == m.scale
  {
    m.(translation := NegateX(m.translation), rotation := NegateX(m.rotation).(z := NegateWord(m.rotation.z)))
  }

  function FlipAll(ms: seq<ModelStruct>): (r: seq<ModelStruct>)
    ensures |r| == |ms| && forall i :: 0 <= i < |ms| ==> r[i] == FlipModel(ms[i])
  {
    seq(|ms|, i requires 0 <= i < |ms| => FlipModel(ms[i]))
  }

  lemma FlipModelInvolution(m: ModelStruct)
    ensures FlipModel(FlipModel(m)) == m
  {
    NegateWordInvolution(m.translation.x);
    NegateWordInvolution(m.rotation.x);
    NegateWordInvolution(m.rotation.z);
  }

  function MeshNameOf(m: ModelStruct): seq<byte>
  {
    m.meshName
  }

  /** The written record for one group of instances of the same mesh. */
  function Summary(g: seq<ModelStruct>): (r: LevelModel)
    requires g != []
    ensures r.meshName == g[0].meshName && |r.translations| == |r.rotations| == |r.scales| == |g|
    ensures forall i :: 0 <= i < |g| ==> r.translations[i] == g[i].translation && r.rotations[i] == g[i].rotation && r.scales[i] == g[i].scale
  {
    LevelModel(g[0].meshName, seq(|g|, i requires 0 <= i < |g| => g[i].translation),
               seq(|g|, i requires 0 <= i < |g| => g[i].rotation), seq(|g|, i requires 0 <= i < |g| => g[i].scale))
  }

  // ---------------------------------------------------------------------
  // Writing.

  function LevelHeaderBytes(h: LevelHeader): (r: seq<byte>)
    ensures |r| == 12
  {
    IntToBytes(h.models) + IntToBytes(h.lights) + IntToBytes(h.checkPoints)
  }

  /** An array of XMFLOAT3 preceded by its size. */
  function Float3ListBytes(vs: seq<Float3>): seq<byte>
  {
    EncodeCounted(vs, Float3ToBytes)
  }

  function LevelModelBytes(m: LevelModel): seq<byte>
  {
    StringToBytes(m.meshName) + Float3ListBytes(m.translations) + Float3ListBytes(m.rotations) + Float3ListBytes(m.scales)
  }

  function DirectionalBytes(l: DirectionalLight): seq<byte> { WordsToBytes(l) }
  function PointBytes(l: PointLight): seq<byte> { WordsToBytes(l) }
  function SpotBytes(l: SpotLight): seq<byte> { WordsToBytes(l) }
  function CheckPointBytes(c: CheckPoint): seq<byte> { WordsToBytes(c) }

  /** A block of lights of one kind, tagged with the type of its first light. */
  datatype LightBlock =
    | DirectionalBlock(tag: int32, directional: seq<DirectionalLight>)
    | PointBlock(tag: int32, point: seq<PointLight>)
    | SpotBlock(tag: int32, spot: seq<SpotLight>)

  function LightBlockBytes(b: LightBlock): seq<byte>
  {
    IntToBytes(b.tag) + match b
      case DirectionalBlock(_, ls) => EncodeCounted(ls, DirectionalBytes)
      case PointBlock(_, ls) => EncodeCounted(ls, PointBytes)
      case SpotBlock(_, ls) => EncodeCounted(ls, SpotBytes)
  }

  /** The block written for one kind's list: none when the list is empty. */
  function DirectionalBlocks(ls: seq<DirectionalLight>): (r: seq<LightBlock>)
    ensures |r| == (if ls == [] then 0 else 1)
  {
    if ls != [] then [DirectionalBlock(TypeOf(ls[0]), ls)] else []
  }

  function PointBlocks(ls: seq<PointLight>): (r: seq<LightBlock>)
    ensures |r| == (if ls == [] then 0 else 1)
  {
    if ls != [] then [PointBlock(TypeOf(ls[0]), ls)] else []
  }

  function SpotBlocks(ls: seq<SpotLight>): (r: seq<LightBlock>)
    ensures |r| == (if ls == [] then 0 else 1)
  {
    if ls != [] then [SpotBlock(TypeOf(ls[0]), ls)] else []
  }

  /** One block per non-empty kind, in the order directional, point, spot. */
  function LightBlocks(l: Lights): (r: seq<LightBlock>)
    ensures |r| <= 3
  {
    DirectionalBlocks(l.directional) + PointBlocks(l.point) + SpotBlocks(l.spot)
  }

  /** The lighting section: the number of non-empty kinds, then their blocks. */
  function LightingBytes(l: Lights): seq<byte>
  {
    IntToBytes(|LightBlocks(l)| as int32) + EncodeAll(LightBlocks(l), LightBlockBytes)
  }

  /** The lighting section is its count followed by the blocks of each kind in turn. */
  lemma LightingBytesSplit(l: Lights)
    ensures |LightBlocks(l)| == |DirectionalBlocks(l.directional)| + |PointBlocks(l.point)| + |SpotBlocks(l.spot)|
    ensures LightingBytes(l) == IntToBytes(|LightBlocks(l)| as int32)
      + (EncodeAll(DirectionalBlocks(l.directional), LightBlockBytes) + EncodeAll(PointBlocks(l.point), LightBlockBytes)
         + EncodeAll(SpotBlocks(l.spot), LightBlockBytes))
  {
    EncodeAllConcat(DirectionalBlocks(l.directional), PointBlocks(l.point), LightBlockBytes);
    EncodeAllConcat(DirectionalBlocks(l.directional) + PointBlocks(l.point), SpotBlocks(l.spot), LightBlockBytes);
  }

  /** The check-point section of LevelConverter: start, end, then the check points as one counted array. */
  function CheckPointSectionBytes(start: Float3, end: Float3, cps: seq<CheckPoint>): seq<byte>
  {
    Float3ToBytes(start) + Float3ToBytes(end) + EncodeCounted(cps, CheckPointBytes)
  }

  // ---------------------------------------------------------------------
  // Reading.

  function ReadLevelHeader(s: seq<byte>): (r: Option<(LevelHeader, seq<byte>)>)
    ensures r.Some? <==> |s| >= 12
  {
    match ReadInt(s)
    case None => None
    case Some((models, s1)) =>
      match ReadInt(s1)
      case None => None
      case Some((lights, s2)) =>
        match ReadInt(s2)
        case None => None
        case Some((checkPoints, rest)) => Some((LevelHeader(models, lights, checkPoints), rest))
  }

  /** A size, a `resize` (which throws on a negative size) and one read of that many XMFLOAT3. */
  function DecodeFloat3List(s: seq<byte>): (r: Option<(seq<Float3>, seq<byte>)>)
  {
    DecodeCounted(s, ReadFloat3)
  }

  /** One record of `readLevel`: the mesh name, then the translation, rotation and scale arrays. */
  function DecodeLevelModel(s: seq<byte>): (r: Option<(LevelModel, seq<byte>)>)
  {
    match ReadString(s)
    case None => None
    case Some((name, s1)) =>
      match DecodeFloat3List(s1)
      case None => None
      case Some((ts, s2)) =>
        match DecodeFloat3List(s2)
        case None => None
        case Some((rs, s3)) =>
          match DecodeFloat3List(s3)
          case None => None
          case Some((ss, rest)) => Some((LevelModel(name, ts, rs, ss), rest))
  }

  function DecodeDirectional(s: seq<byte>): (r: Option<(DirectionalLight, seq<byte>)>)
  {
    match ReadWords(s, DIRECTIONAL_WORDS)
    case None => None
    case Some((ws, rest)) => Some((ws, rest))
  }

  function DecodePoint(s: seq<byte>): (r: Option<(PointLight, seq<byte>)>)
  {
    match ReadWords(s, POINT_WORDS)
    case None => None
    case Some((ws, rest)) => Some((ws, rest))
  }

  function DecodeSpot(s: seq<byte>): (r: Option<(SpotLight, seq<byte>)>)
  {
    match ReadWords(s, SPOT_WORDS)
    case None => None
    case Some((ws, rest)) => Some((ws, rest))
  }

  function DecodeCheckPoint(s: seq<byte>): (r: Option<(CheckPoint, seq<byte>)>)
  {
    match ReadWords(s, CHECKPOINT_WORDS)
    case None => None
    case Some((ws, rest)) => Some((ws, rest))
  }

  /**
   * One iteration of `readLevelLighting`: a type tag; tags 0, 1 and 2 are
   * followed by a size and replace the directional, point or spot list, any
   * other tag reads nothing more.
   */
  function LightStep(l: Lights, s: seq<byte>): (r: Option<(Lights, seq<byte>)>)
  {
    match ReadInt(s)
    case None => None
    case Some((tag, s1)) =>
      if tag == 0 then
        match DecodeCounted(s1, DecodeDirectional)
        case None => None
        case Some((ls, rest)) => Some((l.(directional := ls), rest))
      else if tag == 1 then
        match DecodeCounted(s1, DecodePoint)
        case None => None
        case Some((ls, rest)) => Some((l.(point := ls), rest))
      else if tag == 2 then
        match DecodeCounted(s1, DecodeSpot)
        case None => None
        case Some((ls, rest)) => Some((l.(spot := ls), rest))
      else Some((l, s1))
  }

  /** `n` iterations of `LightStep`, starting from the lists `l` already held. */
  function ReadLightBlocks(l: Lights, s: seq<byte>, n: nat): (r: Option<(Lights, seq<byte>)>)
    decreases n
  {
    if n == 0 then Some((l, s))
    else
      match LightStep(l, s)
      case None => None
      case Some((l', s')) => ReadLightBlocks(l', s', n - 1)
  }

  /**
   * The loaders' lighting loop: `n` times a type tag, and for tags 0, 1 and 2
   * a size and that many lights replacing the held list of that kind.
   */
  method ReadLightBlockLoop(held: Lights, s: seq<byte>, n: nat) returns (r: Option<(Lights, seq<byte>)>)
    ensures r == ReadLightBlocks(held, s, n)
  {
    var l := held;
    var cur := s;
    var i := 0;
    while i < n
      invariant 0 <= i <= n
      invariant ReadLightBlocks(held, s, n) == ReadLightBlocks(l, cur, n - i)
    {
      var t := ReadInt(cur);
      if t.None? {
        return None;
      }
      var (tag, s1) := t.value;
      if tag == 0 {
        var ls := DecodeCounted(s1, DecodeDirectional);
        if ls.None? {
          return None;
        }
        l, cur := l.(directional := ls.value.0), ls.value.1;
      } else if tag == 1 {
        var ls := DecodeCounted(s1, DecodePoint);
        if ls.None? {
          return None;
        }
        l, cur := l.(point := ls.value.0), ls.value.1;
      } else if tag == 2 {
        var ls := DecodeCounted(s1, DecodeSpot);
        if ls.None? {
          return None;
        }
        l, cur := l.(spot := ls.value.0), ls.value.1;
      } else {
        cur := s1;
      }
      i := i + 1;
    }
    return Some((l, cur));
  }

  /** The lists held after block `b` replaced its kind's list in `l`. */
  function ApplyBlock(l: Lights, b: LightBlock): Lights
  {
    match b
    case DirectionalBlock(_, ls) => l.(directional := ls)
    case PointBlock(_, ls) => l.(point := ls)
    case SpotBlock(_, ls) => l.(spot := ls)
  }

  /** The lists held after the blocks `bs` replaced theirs in `l`, one after the other. */
  function ApplyBlocks(l: Lights, bs: seq<LightBlock>): Lights
    decreases bs
  {
    if bs == [] then l else ApplyBlocks(ApplyBlock(l, bs[0]), bs[1..])
  }

  /** `readLevelCheckPoint` of LevelBinaryLoader: start, end, size, then the check points. */
  function ReadCheckPointSection(s: seq<byte>): (r: Option<(Float3, Float3, seq<CheckPoint>, seq<byte>)>)
  {
    match ReadFloat3(s)
    case None => None
    case Some((start, s1)) =>
      match ReadFloat3(s1)
      case None => None
      case Some((end, s2)) =>
        match DecodeCounted(s2, DecodeCheckPoint)
        case None => None
        case Some((cps, rest)) => Some((start, end, cps, rest))
  }

  // ---------------------------------------------------------------------
  // Each reader undoes its writer.

  lemma LevelHeaderRoundTrip(h: LevelHeader, rest: seq<byte>)
    ensures ReadLevelHeader(LevelHeaderBytes(h) + rest) == Some((h, rest))
  {
    var s2 := IntToBytes(h.checkPoints) + rest;
    var s1 := IntToBytes(h.lights) + s2;
    assert LevelHeaderBytes(h) + rest == IntToBytes(h.models) + s1;
    ReadIntRoundTrip(h.models, s1);
    ReadIntRoundTrip(h.lights, s2);
    ReadIntRoundTrip(h.checkPoints, rest);
  }

  function AnyFloat3(v: Float3): bool { true }

  lemma Float3ListRoundTrip(vs: seq<Float3>, rest: seq<byte>)
    requires |vs| < TWO31
    ensures DecodeFloat3List(Float3ListBytes(vs) + rest) == Some((vs, rest))
  {
    forall v: Float3, r: seq<byte> ensures ReadFloat3(Float3ToBytes(v) + r) == Some((v, r)) {
      Float3RoundTrip(v, r);
    }
    DecodeCountedRoundTrip(vs, rest, Float3ToBytes, ReadFloat3, AnyFloat3);
  }

  /** A group record the readers can take back: its name and arrays have sizes an int can hold. */
  predicate LevelModelFits(m: LevelModel)
  {
    |m.meshName| < TWO31 && |m.translations| < TWO31 && |m.rotations| < TWO31 && |m.scales| < TWO31
  }

  lemma LevelModelRoundTrip(m: LevelModel, rest: seq<byte>)
    requires LevelModelFits(m)
    ensures DecodeLevelModel(LevelModelBytes(m) + rest) == Some((m, rest))
  {
    var s3 := Float3ListBytes(m.scales) + rest;
    var s2 := Float3ListBytes(m.rotations) + s3;
    var s1 := Float3ListBytes(m.translations) + s2;
    LevelModelSections(m, rest);
    StringRoundTrip(m.meshName, s1);
    Float3ListRoundTrip(m.translations, s2);
    Float3ListRoundTrip(m.rotations, s3);
    Float3ListRoundTrip(m.scales, rest);
  }

  lemma LevelModelSections(m: LevelModel, rest: seq<byte>)
    ensures LevelModelBytes(m) + rest
      == StringToBytes(m.meshName) + (Float3ListBytes(m.translations) + (Float3ListBytes(m.rotations) + (Float3ListBytes(m.scales) + rest)))
  {
  }

  function AnyDirectional(l: DirectionalLight): bool { true }
  function AnyPoint(l: PointLight): bool { true }
  function AnySpot(l: SpotLight): bool { true }
  function AnyCheckPoint(c: CheckPoint): bool { true }

  lemma LightRecordInverses()
    ensures Inverse(DirectionalBytes, DecodeDirectional, AnyDirectional)
    ensures Inverse(PointBytes, DecodePoint, AnyPoint)
    ensures Inverse(SpotBytes, DecodeSpot, AnySpot)
    ensures Inverse(CheckPointBytes, DecodeCheckPoint, AnyCheckPoint)
  {
    forall l: DirectionalLight, r: seq<byte> ensures DecodeDirectional(DirectionalBytes(l) + r) == Some((l, r)) {
      WordsRoundTrip(l, r);
    }
    forall l: PointLight, r: seq<byte> ensures DecodePoint(PointBytes(l) + r) == Some((l, r)) {
      WordsRoundTrip(l, r);
    }
    forall l: SpotLight, r: seq<byte> ensures DecodeSpot(SpotBytes(l) + r) == Some((l, r)) {
      WordsRoundTrip(l, r);
    }
    forall c: CheckPoint, r: seq<byte> ensures DecodeCheckPoint(CheckPointBytes(c) + r) == Some((c, r)) {
      WordsRoundTrip(c, r);
    }
  }

  /** A block is read back when its tag names its own kind and its size fits an int. */
  predicate BlockReadable(b: LightBlock)
  {
    match b
    case DirectionalBlock(tag, ls) => tag == 0 && |ls| < TWO31
    case PointBlock(tag, ls) => tag == 1 && |ls| < TWO31
    case SpotBlock(tag, ls) => tag == 2 && |ls| < TWO31
  }

  lemma LightBlockRoundTrip(l: Lights, b: LightBlock, rest: seq<byte>)
    requires BlockReadable(b)
    ensures LightStep(l, LightBlockBytes(b) + rest) == Some((ApplyBlock(l, b), rest))
  {
    LightRecordInverses();
    var s1 := LightBlockBytes(b)[4..] + rest;
    assert LightBlockBytes(b) + rest == IntToBytes(b.tag) + s1;
    ReadIntRoundTrip(b.tag, s1);
    match b {
      case DirectionalBlock(_, ls) =>
        DecodeCountedRoundTrip(ls, rest, DirectionalBytes, DecodeDirectional, AnyDirectional);
      case PointBlock(_, ls) =>
        DecodeCountedRoundTrip(ls, rest, PointBytes, DecodePoint, AnyPoint);
      case SpotBlock(_, ls) =>
        DecodeCountedRoundTrip(ls, rest, SpotBytes, DecodeSpot, AnySpot);
    }
  }

  /** Readable blocks written back to back are read back one by one, each replacing its list. */
  lemma {:induction false} LightBlocksRoundTrip(l: Lights, bs: seq<LightBlock>, rest: seq<byte>)
    requires forall i :: 0 <= i < |bs| ==> BlockReadable(bs[i])
    ensures ReadLightBlocks(l, EncodeAll(bs, LightBlockBytes) + rest, |bs|) == Some((ApplyBlocks(l, bs), rest))
    decreases bs
  {
    if bs != [] {
      var tail := EncodeAll(bs[1..], LightBlockBytes) + rest;
      assert EncodeAll(bs, LightBlockBytes) + rest == LightBlockBytes(bs[0]) + tail;
      LightBlockRoundTrip(l, bs[0], tail);
      LightBlocksRoundTrip(ApplyBlock(l, bs[0]), bs[1..], rest);
    } else {
      assert EncodeAll(bs, LightBlockBytes) + rest == rest;
    }
  }

  /**
   * The light lists can be read back when each non-empty list's first light is
   * typed with its own kind (0 directional, 1 point, 2 spot) and each size fits
   * an int.
   */
  predicate LightsReadable(l: Lights)
  {
    && |l.directional| < TWO31 && |l.point| < TWO31 && |l.spot| < TWO31
    && (l.directional != [] ==> TypeOf(l.directional[0]) == 0)
    && (l.point != [] ==> TypeOf(l.point[0]) == 1)
    && (l.spot != [] ==> TypeOf(l.spot[0]) == 2)
  }

  /** The merged lists: each kind written replaces the held list, the others stay. */
  function MergeLights(held: Lights, l: Lights): Lights
  {
    Lights(if l.directional != [] then l.directional else held.directional,
           if l.point != [] then l.point else held.point,
           if l.spot != [] then l.spot else held.spot)
  }

  lemma ApplyLightBlocks(held: Lights, l: Lights)
    ensures ApplyBlocks(held, LightBlocks(l)) == MergeLights(held, l)
  {
    var d := DirectionalBlocks(l.directional);
    var p := PointBlocks(l.point);
    var sp := SpotBlocks(l.spot);
    ApplyBlocksAppend(held, d, p + sp);
    ApplyBlocksAppend(ApplyBlocks(held, d), p, sp);
    assert LightBlocks(l) == d + (p + sp);
  }

  lemma {:induction false} ApplyBlocksAppend(l: Lights, xs: seq<LightBlock>, ys: seq<LightBlock>)
    ensures ApplyBlocks(l, xs + ys) == ApplyBlocks(ApplyBlocks(l, xs), ys)
    decreases xs
  {
    if xs != [] {
      assert (xs + ys)[1..] == xs[1..] + ys;
      ApplyBlocksAppend(ApplyBlock(l, xs[0]), xs[1..], ys);
    } else {
      assert xs + ys == ys;
    }
  }

  /** The lighting section read back over held lists `held` gives the written lists, merged over `held`. */
  lemma LightingRoundTrip(held: Lights, l: Lights, rest: seq<byte>)
    requires LightsReadable(l)
    ensures ReadInt(LightingBytes(l) + rest).Some?
    ensures var (n, s1) := ReadInt(LightingBytes(l) + rest).value;
      n as int == |LightBlocks(l)| && ReadLightBlocks(held, s1, n as nat) == Some((MergeLights(held, l), rest))
  {
    var bs := LightBlocks(l);
    var s1 := EncodeAll(bs, LightBlockBytes) + rest;
    assert LightingBytes(l) + rest == IntToBytes(|bs| as int32) + s1;
    ReadIntRoundTrip(|bs| as int32, s1);
    LightBlocksRoundTrip(held, bs, rest);
    ApplyLightBlocks(held, l);
  }

  lemma CheckPointSectionRoundTrip(start: Float3, end: Float3, cps: seq<CheckPoint>, rest: seq<byte>)
    requires |cps| < TWO31
    ensures ReadCheckPointSection(CheckPointSectionBytes(start, end, cps) + rest) == Some((start, end, cps, rest))
  {
    var s2 := EncodeCounted(cps, CheckPointBytes) + rest;
    var s1 := Float3ToBytes(end) + s2;
    assert CheckPointSectionBytes(start, end, cps) + rest == Float3ToBytes(start) + s1;
    Float3RoundTrip(start, s1);
    Float3RoundTrip(end, s2);
    LightRecordInverses();
    DecodeCountedRoundTrip(cps, rest, CheckPointBytes, DecodeCheckPoint, AnyCheckPoint);
  }
}
