/**
 * The binary instance-level file InstanceConverter writes and
 * InstanceBinaryLoader reads. Beside the level file's sections it has a
 * fourth header count (effects) and an effect section, three flags in every
 * mesh record, and check points grouped by their number. The light and
 * check-point structs are laid out as in Common/Source/InstanceBinaryLoader.h,
 * which agrees word for word with the level file's structs.
 */
module InstanceFormat {
  import opened Wrappers
  import opened Bytes
  import opened Grouping
  import opened LevelFormat

  /** `InstanceLoader::LevelHeader`: the converter's four counts. */
  datatype InstanceHeader = InstanceHeader(models: int32, lights: int32, checkPoints: int32, effects: int32)

  /** `InstanceLoader::ModelHeader`: the flags the model-header file gives one mesh. */
  datatype ModelHeader = ModelHeader(meshName: seq<byte>, animated: bool, transparent: bool, collidable: bool)

  datatype Flags = Flags(animated: bool, transparent: bool, collidable: bool)

  const NO_FLAGS := Flags(false, false, false)

  function FlagsOf(m: ModelHeader): Flags
  {
    Flags(m.animated, m.transparent, m.collidable)
  }

  /** The flags of the first model header named `name`; all false when none is. */
  function FlagsFor(info: seq<ModelHeader>, name: seq<byte>): Flags
  {
    if info == [] then NO_FLAGS
    else if info[0].meshName == name then FlagsOf(info[0])
    else FlagsFor(info[1..], name)
  }

  /** The first model header with the name gives the flags. */
  lemma {:induction false} FlagsForFirstMatch(info: seq<ModelHeader>, name: seq<byte>, j: nat)
    requires j < |info| && info[j].meshName == name
    requires forall i :: 0 <= i < j ==> info[i].meshName != name
    ensures FlagsFor(info, name) == FlagsOf(info[j])
  {
    if j > 0 {
      FlagsForFirstMatch(info[1..], name, j - 1);
    }
  }

  /** A name no model header has gets three false flags. */
  lemma {:induction false} FlagsForNoMatch(info: seq<ModelHeader>, name: seq<byte>)
    requires forall i :: 0 <= i < |info| ==> info[i].meshName != name
    ensures FlagsFor(info, name) == NO_FLAGS
  {
    if info != [] {
      FlagsForNoMatch(info[1..], name);
    }
  }

  /** `InstanceBinaryLoader::ModelData`: the instances of one mesh, with the mesh's flags. */
  datatype InstanceModel = InstanceModel(model: LevelModel, flags: Flags)

  /** One placed effect as the level text file lists it. */
  datatype EffectStruct = EffectStruct(effectName: seq<byte>, translation: Float3, rotation: Float3)

  /** All placements of one effect: its name and one translation and rotation per placement. */
  datatype EffectGroup = EffectGroup(effectName: seq<byte>, translations: seq<Float3>, rotations: seq<Float3>)

  // ---------------------------------------------------------------------
  // The converter's change of handedness for lights, check points and effects.

  /** A directional or spot light has its translation x and its direction x negated; its type is kept. */
  function FlipDirectional(l: DirectionalLight): (r: DirectionalLight)
    ensures TypeOf(r) == TypeOf(l)
  {
    l[0 := NegateWord(l[0])][DIRECTION_X_WORD := NegateWord(l[DIRECTION_X_WORD])]
  }

  /** A point light has its translation x negated; its type is kept. */
  function FlipPoint(l: PointLight): (r: PointLight)
    ensures TypeOf(r) == TypeOf(l)
  {
    l[0 := NegateWord(l[0])]
  }

  function FlipSpot(l: SpotLight): (r: SpotLight)
    ensures TypeOf(r) == TypeOf(l)
  {
    l[0 := NegateWord(l[0])][DIRECTION_X_WORD := NegateWord(l[DIRECTION_X_WORD])]
  }

  function FlipLights(l: Lights): Lights
  {
    Lights(Mapped(l.directional, FlipDirectional), Mapped(l.point, FlipPoint), Mapped(l.spot, FlipSpot))
  }

  /** Mirroring the lights twice gives them back. */
  lemma FlipLightsInvolution(l: Lights)
    ensures FlipLights(FlipLights(l)) == l
  {
    forall i | 0 <= i < |l.directional|
      ensures FlipDirectional(FlipDirectional(l.directional[i])) == l.directional[i]
    {
      NegateWordInvolution(l.directional[i][0]);
      NegateWordInvolution(l.directional[i][DIRECTION_X_WORD]);
    }
    forall i | 0 <= i < |l.point|
      ensures FlipPoint(FlipPoint(l.point[i])) == l.point[i]
    {
      NegateWordInvolution(l.point[i][0]);
    }
    forall i | 0 <= i < |l.spot|
      ensures FlipSpot(FlipSpot(l.spot[i])) == l.spot[i]
    {
      NegateWordInvolution(l.spot[i][0]);
      NegateWordInvolution(l.spot[i][DIRECTION_X_WORD]);
    }
  }

  /** Mirroring keeps sizes and types, so mirrored lights are as readable as the originals. */
  lemma FlipLightsReadable(l: Lights)
    ensures LightsReadable(FlipLights(l)) <==> LightsReadable(l)
  {
  }

  /** `CheckPointStruct::m_Number`, the first word of a check point. */
  function NumberOf(c: CheckPoint): int32
  {
    BytesToInt(c[0])
  }

  /** A check point has its translation x (its second word) negated; its number is kept. */
  function FlipCheckPoint(c: CheckPoint): (r: CheckPoint)
    ensures NumberOf(r) == NumberOf(c)
  {
    c[1 := NegateWord(c[1])]
  }

  /** An effect has its translation x and its rotation x and z negated; its name is kept. */
  function FlipEffect(e: EffectStruct): (r: EffectStruct)
    ensures r.effectName == e.effectName
  {
    e.(translation := NegateX(e.translation), rotation := NegateX(e.rotation).(z := NegateWord(e.rotation.z)))
  }

  function EffectNameOf(e: EffectStruct): seq<byte>
  {
    e.effectName
  }

  /** The written record for one group of placements of the same effect. */
  function EffectSummary(g: seq<EffectStruct>): (r: EffectGroup)
    requires g != []
    ensures r.effectName == g[0].effectName && |r.translations| == |r.rotations| == |g|
    ensures forall i :: 0 <= i < |g| ==> r.translations[i] == g[i].translation && r.rotations[i] == g[i].rotation
  {
    EffectGroup(g[0].effectName, seq(|g|, i requires 0 <= i < |g| => g[i].translation),
                seq(|g|, i requires 0 <= i < |g| => g[i].rotation))
  }

  // ---------------------------------------------------------------------
  // Writing.

  function InstanceHeaderBytes(h: InstanceHeader): (r: seq<byte>)
    ensures |r| == 16
  {
    IntToBytes(h.models) + IntToBytes(h.lights) + IntToBytes(h.checkPoints) + IntToBytes(h.effects)
  }

  /** `intToByte` of a `bool`: 1 for true, 0 for false. */
  function BoolToBytes(b: bool): (r: seq<byte>)
    ensures |r| == 4
  {
    IntToBytes(if b then 1 else 0)
  }

  function FlagsBytes(f: Flags): (r: seq<byte>)
    ensures |r| == 12
  {
    BoolToBytes(f.animated) + BoolToBytes(f.transparent) + BoolToBytes(f.collidable)
  }

  /** A mesh record: the name, the three flags, then the translation, rotation and scale arrays. */
  function InstanceModelBytes(m: InstanceModel): seq<byte>
  {
    StringToBytes(m.model.meshName) + FlagsBytes(m.flags)
      + Float3ListBytes(m.model.translations) + Float3ListBytes(m.model.rotations) + Float3ListBytes(m.model.scales)
  }

  /** One group of check points sharing a number: its size, then its check points. */
  function CheckPointGroupBytes(g: seq<CheckPoint>): seq<byte>
  {
    EncodeCounted(g, CheckPointBytes)
  }

  /** The check-point section: start, end, the number of groups, then each group. */
  function InstanceCheckPointBytes(start: Float3, end: Float3, groups: seq<seq<CheckPoint>>): seq<byte>
  {
    Float3ToBytes(start) + Float3ToBytes(end) + EncodeCounted(groups, CheckPointGroupBytes)
  }

  /** An effect record: the name, then the translation and rotation arrays. */
  function EffectGroupBytes(e: EffectGroup): seq<byte>
  {
    StringToBytes(e.effectName) + Float3ListBytes(e.translations) + Float3ListBytes(e.rotations)
  }

  // ---------------------------------------------------------------------
  // Reading.

  /** Four counts, as the converter writes them (InstanceBinaryLoader itself reads three). */
  function ReadInstanceHeader(s: seq<byte>): (r: Option<(InstanceHeader, seq<byte>)>)
    ensures r.Some? <==> |s| >= 16
  {
    match ReadLevelHeader(s)
    case None => None
    case Some((h, rest)) =>
      match ReadInt(rest)
      case None => None
      case Some((effects, rest')) => Some((InstanceHeader(h.models, h.lights, h.checkPoints, effects), rest'))
  }

  /** Three `byteToBool`s. */
  function DecodeFlags(s: seq<byte>): (r: Option<(Flags, seq<byte>)>)
    ensures r.Some? <==> |s| >= 12
  {
    match ReadBool(s)
    case None => None
    case Some((a, s1)) =>
      match ReadBool(s1)
      case None => None
      case Some((t, s2)) =>
        match ReadBool(s2)
        case None => None
        case Some((c, rest)) => Some((Flags(a, t, c), rest))
  }

  /** One record of `readLevel`: the name, the three flags, then three sized arrays. */
  function DecodeInstanceModel(s: seq<byte>): (r: Option<(InstanceModel, seq<byte>)>)
  {
    match ReadString(s)
    case None => None
    case Some((name, s1)) =>
      match DecodeFlags(s1)
      case None => None
      case Some((f, s2)) =>
        match DecodeFloat3List(s2)
        case None => None
        case Some((ts, s3)) =>
          match DecodeFloat3List(s3)
          case None => None
          case Some((rs, s4)) =>
            match DecodeFloat3List(s4)
            case None => None
            case Some((ss, rest)) => Some((InstanceModel(LevelModel(name, ts, rs, ss), f), rest))
  }

  /**
   * One iteration of `readLevelCheckPoint`'s loop: a group size (a negative one
   * fails the `resize`), then, unless it is zero, that many check points
   * appended to the held groups as one more group.
   */
  function CheckPointGroupStep(held: seq<seq<CheckPoint>>, s: seq<byte>): (r: Option<(seq<seq<CheckPoint>>, seq<byte>)>)
    ensures r.Some? ==> |held| <= |r.value.0| <= |held| + 1 && r.value.0[..|held|] == held
  {
    match ReadInt(s)
    case None => None
    case Some((n, rest)) =>
      if n < 0 then None
      else if n == 0 then Some((held, rest))
      else
        match DecodeN(rest, n as nat, DecodeCheckPoint)
        case None => None
        case Some((g, rest')) => Some((held + [g], rest'))
  }

  /** `n` iterations of the loop; the groups read are appended to `held`, which is kept. */
  function ReadCheckPointGroups(held: seq<seq<CheckPoint>>, s: seq<byte>, n: nat): (r: Option<(seq<seq<CheckPoint>>, seq<byte>)>)
    ensures r.Some? ==> |held| <= |r.value.0| <= |held| + n && r.value.0[..|held|] == held
    decreases n
  {
    if n == 0 then Some((held, s))
    else
      match CheckPointGroupStep(held, s)
      case None => None
      case Some((held', s')) => ReadCheckPointGroups(held', s', n - 1)
  }

  lemma CheckPointGroupsUnfold(held: seq<seq<CheckPoint>>, s: seq<byte>, n: nat)
    requires n > 0
    ensures CheckPointGroupStep(held, s).None? ==> ReadCheckPointGroups(held, s, n).None?
    ensures CheckPointGroupStep(held, s).Some? ==>
      ReadCheckPointGroups(held, s, n) == ReadCheckPointGroups(CheckPointGroupStep(held, s).value.0, CheckPointGroupStep(held, s).value.1, n - 1)
  {
  }

  /** One pass of `readLevelCheckPoint`'s loop body. */
  method ReadCheckPointGroup(held: seq<seq<CheckPoint>>, s: seq<byte>) returns (r: Option<(seq<seq<CheckPoint>>, seq<byte>)>)
    ensures r == CheckPointGroupStep(held, s)
  {
    var c := ReadInt(s);
    if c.None? {
      return None;
    }
    var (size, rest) := c.value;
    if size < 0 {
      return None;
    }
    if size == 0 {
      return Some((held, rest));
    }
    var g := DecodeN(rest, size as nat, DecodeCheckPoint);
    if g.None? {
      return None;
    }
    return Some((held + [g.value.0], g.value.1));
  }

  /** `readLevelCheckPoint`'s loop over `n` groups, appending each non-empty one to `held`. */
  method ReadCheckPointGroupLoop(held: seq<seq<CheckPoint>>, s: seq<byte>, n: nat) returns (r: Option<(seq<seq<CheckPoint>>, seq<byte>)>)
    ensures r == ReadCheckPointGroups(held, s, n)
  {
    var groups, cur := held, s;
    var left := n;
    while left > 0
      invariant ReadCheckPointGroups(held, s, n) == ReadCheckPointGroups(groups, cur, left)
    {
      var step := ReadCheckPointGroup(groups, cur);
      CheckPointGroupsUnfold(groups, cur, left);
      if step.None? {
        return None;
      }
      groups, cur := step.value.0, step.value.1;
      left := left - 1;
    }
    return Some((groups, cur));
  }

  /** `readLevelCheckPoint`: start, end, the number of groups, then the groups appended to `held`. */
  function ReadInstanceCheckPoints(held: seq<seq<CheckPoint>>, s: seq<byte>): (r: Option<(Float3, Float3, seq<seq<CheckPoint>>, seq<byte>)>)
  {
    match ReadFloat3(s)
    case None => None
    case Some((start, s1)) =>
      match ReadFloat3(s1)
      case None => None
      case Some((end, s2)) =>
        match ReadInt(s2)
        case None => None
        case Some((n, rest)) =>
          match ReadCheckPointGroups(held, rest, Iterations(n))
          case None => None
          case Some((groups, rest')) => Some((start, end, groups, rest'))
  }

  // ---------------------------------------------------------------------
  // Each reader undoes its writer.

  lemma InstanceHeaderRoundTrip(h: InstanceHeader, rest: seq<byte>)
    ensures ReadInstanceHeader(InstanceHeaderBytes(h) + rest) == Some((h, rest))
  {
    var s3 := IntToBytes(h.effects) + rest;
    assert InstanceHeaderBytes(h) + rest == LevelHeaderBytes(LevelHeader(h.models, h.lights, h.checkPoints)) + s3;
    LevelHeaderRoundTrip(LevelHeader(h.models, h.lights, h.checkPoints), s3);
    ReadIntRoundTrip(h.effects, rest);
  }

  lemma BoolRoundTrip(b: bool, rest: seq<byte>)
    ensures ReadBool(BoolToBytes(b) + rest) == Some((b, rest))
  {
    ReadIntRoundTrip(if b then 1 else 0, rest);
  }

  lemma FlagsRoundTrip(f: Flags, rest: seq<byte>)
    ensures DecodeFlags(FlagsBytes(f) + rest) == Some((f, rest))
  {
    var s2 := BoolToBytes(f.collidable) + rest;
    var s1 := BoolToBytes(f.transparent) + s2;
    assert FlagsBytes(f) + rest == BoolToBytes(f.animated) + s1;
    BoolRoundTrip(f.animated, s1);
    BoolRoundTrip(f.transparent, s2);
    BoolRoundTrip(f.collidable, rest);
  }

  lemma InstanceModelRoundTrip(m: InstanceModel, rest: seq<byte>)
    requires LevelModelFits(m.model)
    ensures DecodeInstanceModel(InstanceModelBytes(m) + rest) == Some((m, rest))
  {
    var lm := m.model;
    var s4 := Float3ListBytes(lm.scales) + rest;
    var s3 := Float3ListBytes(lm.rotations) + s4;
    var s2 := Float3ListBytes(lm.translations) + s3;
    var s1 := FlagsBytes(m.flags) + s2;
    InstanceModelSections(m, rest);
    StringRoundTrip(lm.meshName, s1);
    FlagsRoundTrip(m.flags, s2);
    Float3ListRoundTrip(lm.translations, s3);
    Float3ListRoundTrip(lm.rotations, s4);
    Float3ListRoundTrip(lm.scales, rest);
  }

  lemma InstanceModelSections(m: InstanceModel, rest: seq<byte>)
    ensures InstanceModelBytes(m) + rest
      == StringToBytes(m.model.meshName) + (FlagsBytes(m.flags) + (Float3ListBytes(m.model.translations)
         + (Float3ListBytes(m.model.rotations) + (Float3ListBytes(m.model.scales) + rest))))
  {
  }

  predicate InstanceModelFits(m: InstanceModel)
  {
    LevelModelFits(m.model)
  }

  lemma InstanceModelInverse()
    ensures Inverse(InstanceModelBytes, DecodeInstanceModel, InstanceModelFits)
  {
    forall m: InstanceModel, r: seq<byte> | InstanceModelFits(m)
      ensures DecodeInstanceModel(InstanceModelBytes(m) + r) == Some((m, r))
    {
      InstanceModelRoundTrip(m, r);
    }
  }

  /** A group the reader takes back: non-empty, with a size an int can hold. */
  predicate GroupReadable(g: seq<CheckPoint>)
  {
    g != [] && |g| < TWO31
  }

  lemma CheckPointGroupRoundTrip(held: seq<seq<CheckPoint>>, g: seq<CheckPoint>, rest: seq<byte>)
    requires GroupReadable(g)
    ensures CheckPointGroupStep(held, CheckPointGroupBytes(g) + rest) == Some((held + [g], rest))
  {
    var s1 := EncodeAll(g, CheckPointBytes) + rest;
    assert CheckPointGroupBytes(g) + rest == IntToBytes(|g| as int32) + s1;
    ReadIntRoundTrip(|g| as int32, s1);
    LightRecordInverses();
    DecodeNRoundTrip(g, rest, CheckPointBytes, DecodeCheckPoint, AnyCheckPoint);
  }

  /** A readable group at the front is read and appended, and the reading goes on after it. */
  lemma CheckPointGroupsStep(held: seq<seq<CheckPoint>>, g: seq<CheckPoint>, tail: seq<byte>, n: nat)
    requires GroupReadable(g)
    ensures ReadCheckPointGroups(held, CheckPointGroupBytes(g) + tail, n + 1) == ReadCheckPointGroups(held + [g], tail, n)
  {
    CheckPointGroupRoundTrip(held, g, tail);
  }

  lemma AppendFirst<T>(xs: seq<T>, ys: seq<T>)
    requires ys != []
    ensures xs + [ys[0]] + ys[1..] == xs + ys
  {
    assert ys == [ys[0]] + ys[1..];
  }

  /** Readable groups written back to back are appended, in order, to the groups held. */
  lemma {:induction false} CheckPointGroupsRoundTrip(held: seq<seq<CheckPoint>>, groups: seq<seq<CheckPoint>>, rest: seq<byte>)
    requires forall j :: 0 <= j < |groups| ==> GroupReadable(groups[j])
    ensures ReadCheckPointGroups(held, EncodeAll(groups, CheckPointGroupBytes) + rest, |groups|) == Some((held + groups, rest))
    decreases groups
  {
    if groups == [] {
      assert EncodeAll(groups, CheckPointGroupBytes) + rest == rest;
      assert held + groups == held;
    } else {
      var g := groups[0];
      var gs := groups[1..];
      var tail := EncodeAll(gs, CheckPointGroupBytes) + rest;
      assert EncodeAll(groups, CheckPointGroupBytes) + rest == CheckPointGroupBytes(g) + tail by {
        assert EncodeAll(groups, CheckPointGroupBytes) == CheckPointGroupBytes(g) + EncodeAll(gs, CheckPointGroupBytes);
      }
      assert forall j :: 0 <= j < |gs| ==> GroupReadable(gs[j]) by {
        assert forall j :: 0 <= j < |gs| ==> gs[j] == groups[j + 1];
      }
      calc {
        ReadCheckPointGroups(held, EncodeAll(groups, CheckPointGroupBytes) + rest, |groups|);
        ReadCheckPointGroups(held, CheckPointGroupBytes(g) + tail, |gs| + 1);
        { CheckPointGroupsStep(held, g, tail, |gs|); }
        ReadCheckPointGroups(held + [g], tail, |gs|);
        { CheckPointGroupsRoundTrip(held + [g], gs, rest); }
        Some((held + [g] + gs, rest));
        { AppendFirst(held, groups); }
        Some((held + groups, rest));
      }
    }
  }

  lemma InstanceCheckPointsRoundTrip(held: seq<seq<CheckPoint>>, start: Float3, end: Float3, groups: seq<seq<CheckPoint>>, rest: seq<byte>)
    requires |groups| < TWO31 && forall j :: 0 <= j < |groups| ==> GroupReadable(groups[j])
    ensures ReadInstanceCheckPoints(held, InstanceCheckPointBytes(start, end, groups) + rest) == Some((start, end, held + groups, rest))
  {
    var s3 := EncodeAll(groups, CheckPointGroupBytes) + rest;
    var s2 := IntToBytes(|groups| as int32) + s3;
    var s1 := Float3ToBytes(end) + s2;
    assert InstanceCheckPointBytes(start, end, groups) + rest == Float3ToBytes(start) + s1;
    Float3RoundTrip(start, s1);
    Float3RoundTrip(end, s2);
    ReadIntRoundTrip(|groups| as int32, s3);
    CheckPointGroupsRoundTrip(held, groups, rest);
  }
}
