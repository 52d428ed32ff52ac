/**
 * BinaryConverter's InstanceConverter: it holds a four-count header, the placed
 * model instances with the model-header flags of their meshes, the three light
 * lists, the check points and the placed effects, and writes them as a binary
 * instance-level file. Lights, check points and effects are mirrored like the
 * instances; the stored start and end points are mirrored in place.
 */
module InstanceConverter {
  import opened Bytes
  import opened Grouping
  import opened LevelFormat
  import opened LevelConverter
  import opened InstanceFormat

  /** Everything a file is written from. */
  datatype Scene = Scene(header: InstanceHeader, instances: seq<ModelStruct>, info: seq<ModelHeader>, lights: Lights,
                         checkPoints: seq<CheckPoint>, start: Float3, end: Float3, effects: seq<EffectStruct>)

  /** The records `createLevel` builds: the level's groups of mirrored instances, each with the flags of its mesh. */
  function InstanceLevel(data: seq<ModelStruct>, info: seq<ModelHeader>): (r: seq<InstanceModel>)
    ensures |r| == |GroupedLevel(data)|
  {
    var level := GroupedLevel(data);
    seq(|level|, j requires 0 <= j < |level| => InstanceModel(level[j], FlagsFor(info, level[j].meshName)))
  }

  function InstanceLevelBytes(data: seq<ModelStruct>, info: seq<ModelHeader>): seq<byte>
  {
    EncodeCounted(InstanceLevel(data, info), InstanceModelBytes)
  }

  /** The groups `createCheckPoints` builds: the mirrored check points grouped by number. */
  function CheckPointGroups(cps: seq<CheckPoint>): seq<seq<CheckPoint>>
  {
    GroupBy(Mapped(cps, FlipCheckPoint), NumberOf)
  }

  /** The records `createEffect` builds: the mirrored placements grouped by effect name. */
  function EffectGroups(effects: seq<EffectStruct>): (r: seq<EffectGroup>)
    ensures |r| == |GroupBy(Mapped(effects, FlipEffect), EffectNameOf)|
  {
    var groups := GroupBy(Mapped(effects, FlipEffect), EffectNameOf);
    seq(|groups|, j requires 0 <= j < |groups| => EffectSummary(groups[j]))
  }

  function EffectsBytes(effects: seq<EffectStruct>): seq<byte>
  {
    EncodeCounted(EffectGroups(effects), EffectGroupBytes)
  }

  function LightingPart(src: Scene): seq<byte>
  {
    if src.header.lights != 0 then LightingBytes(FlipLights(src.lights)) else []
  }

  function CheckPointPart(src: Scene): seq<byte>
  {
    if src.header.checkPoints != 0 then InstanceCheckPointBytes(NegateX(src.start), NegateX(src.end), CheckPointGroups(src.checkPoints))
    else []
  }

  function EffectPart(src: Scene): seq<byte>
  {
    if src.header.effects != 0 then EffectsBytes(src.effects) else []
  }

  /** The whole file: the four counts, the models, then each further section its count asks for. */
  function InstanceFileBytes(src: Scene): seq<byte>
  {
    InstanceHeaderBytes(src.header) + InstanceLevelBytes(src.instances, src.info) + LightingPart(src) + CheckPointPart(src) + EffectPart(src)
  }

  /** `writeFile`: no file when the output cannot be opened or the header lists no models. */
  function InstanceFileResult(canOpen: bool, src: Scene): (r: WriteResult)
    ensures r.Wrote? <==> canOpen && src.header.models != 0
    ensures !r.OutOfRange?
  {
    if !canOpen || src.header.models == 0 then Refused else Wrote(InstanceFileBytes(src))
  }

  // ---------------------------------------------------------------------
  // What the groupings produce, stated over the inputs themselves.

  /**
   * One record per distinct mesh name, in order of first appearance; the j-th
   * holds the mirrored instances of the j-th name in input order, and the
   * flags of the first model header with that name (all false if none has it).
   */
  lemma InstanceLevelContents(data: seq<ModelStruct>, info: seq<ModelHeader>)
    ensures |InstanceLevel(data, info)| == |FirstKeys(data, MeshNameOf)|
    ensures forall j :: 0 <= j < |InstanceLevel(data, info)| ==>
      && Filter(data, MeshNameOf, FirstKeys(data, MeshNameOf)[j]) != []
      && InstanceLevel(data, info)[j].model == Summary(FlipAll(Filter(data, MeshNameOf, FirstKeys(data, MeshNameOf)[j])))
      && InstanceLevel(data, info)[j].flags == FlagsFor(info, FirstKeys(data, MeshNameOf)[j])
    ensures forall i, j :: 0 <= i < j < |InstanceLevel(data, info)| ==>
      InstanceLevel(data, info)[i].model.meshName != InstanceLevel(data, info)[j].model.meshName
  {
    GroupedLevelContents(data);
  }

  /** `createLevel`'s i-th record, from the i-th group of mirrored instances. */
  lemma InstanceLevelAt(data: seq<ModelStruct>, info: seq<ModelHeader>, groups: seq<seq<ModelStruct>>, i: nat)
    requires groups == GroupBy(FlipAll(data), MeshNameOf) && i < |groups|
    ensures InstanceLevel(data, info)[i] == InstanceModel(Summary(groups[i]), FlagsFor(info, groups[i][0].meshName))
  {
    assert GroupedLevel(data)[i] == Summary(groups[i]);
  }

  /**
   * One group per distinct check-point number, in order of first appearance;
   * the j-th holds, in input order, exactly the mirrored check points with the
   * j-th number.
   */
  lemma CheckPointGroupsContents(cps: seq<CheckPoint>)
    ensures |CheckPointGroups(cps)| == |FirstKeys(cps, NumberOf)|
    ensures forall j :: 0 <= j < |CheckPointGroups(cps)| ==>
      Filter(cps, NumberOf, FirstKeys(cps, NumberOf)[j]) != []
      && CheckPointGroups(cps)[j] == Mapped(Filter(cps, NumberOf, FirstKeys(cps, NumberOf)[j]), FlipCheckPoint)
    ensures forall i, j :: 0 <= i < j < |CheckPointGroups(cps)| ==> FirstKeys(cps, NumberOf)[i] != FirstKeys(cps, NumberOf)[j]
  {
    GroupByMapped(cps, FlipCheckPoint, NumberOf);
  }

  /** One record per distinct effect name, in order of first appearance, holding that effect's mirrored placements. */
  lemma EffectGroupsContents(effects: seq<EffectStruct>)
    ensures |EffectGroups(effects)| == |FirstKeys(effects, EffectNameOf)|
    ensures forall j :: 0 <= j < |EffectGroups(effects)| ==>
      Filter(effects, EffectNameOf, FirstKeys(effects, EffectNameOf)[j]) != []
      && EffectGroups(effects)[j] == EffectSummary(Mapped(Filter(effects, EffectNameOf, FirstKeys(effects, EffectNameOf)[j]), FlipEffect))
  {
    GroupByMapped(effects, FlipEffect, EffectNameOf);
  }

  /** `createCheckPoints` mirrors the stored start and end in place: a second call gives them back. */
  lemma NegateXInvolution(v: Float3)
    ensures NegateX(NegateX(v)) == v
  {
    NegateWordInvolution(v.x);
  }

  // ---------------------------------------------------------------------
  // The loops.

  /** `createLevel`'s inner loop: the flags of the first model header with the name, zeros when none has it. */
  method FindFlags(info: seq<ModelHeader>, name: seq<byte>) returns (f: Flags)
    ensures f == FlagsFor(info, name)
  {
    f := NO_FLAGS;
    var j := 0;
    while j < |info|
      invariant 0 <= j <= |info|
      invariant FlagsFor(info, name) == FlagsFor(info[j..], name)
    {
      if info[j].meshName == name {
        return FlagsOf(info[j]);
      }
      assert info[j..][1..] == info[j + 1..];
      j := j + 1;
    }
  }

  /** The `for (auto& tempObj : temp) { ... *= -1; }` loops over a copied list. */
  method MirrorAll<T>(xs: seq<T>, flip: T -> T) returns (ys: seq<T>)
    ensures ys == Mapped(xs, flip)
  {
    ys := xs;
    var i := 0;
    while i < |ys|
      invariant 0 <= i <= |ys| == |xs|
      invariant forall k :: 0 <= k < i ==> ys[k] == flip(xs[k])
      invariant forall k :: i <= k < |ys| ==> ys[k] == xs[k]
    {
      ys := ys[i := flip(ys[i])];
      i := i + 1;
    }
  }

  const NO_COUNTS := InstanceHeader(0, 0, 0, 0)

  class Converter {
    var header: InstanceHeader
    var levelData: seq<ModelStruct>
    var levelDataSize: int
    var modelInformation: seq<ModelHeader>
    var directional: seq<DirectionalLight>
    var point: seq<PointLight>
    var spot: seq<SpotLight>
    var checkPoints: seq<CheckPoint>
    var checkPointStart: Float3
    var checkPointEnd: Float3
    var effectList: seq<EffectStruct>
    var effectDataSize: int

    /** `createLevel` and `createEffect` read only entries of the lists they were given. */
    predicate Valid()
      reads this`levelData, this`levelDataSize, this`effectList, this`effectDataSize
    {
      0 <= levelDataSize <= |levelData| && 0 <= effectDataSize <= |effectList|
    }

    function Held(): Scene
      reads this
      requires Valid()
    {
      Scene(header, levelData[..levelDataSize], modelInformation, Lights(directional, point, spot),
                   checkPoints, checkPointStart, checkPointEnd, effectList[..effectDataSize])
    }

    /** The counts start at zero; the lists the C++ leaves unset start empty here. */
    constructor ()
      ensures Valid()
      ensures Held() == Scene(NO_COUNTS, [], [], NO_LIGHTS, [], ORIGIN, ORIGIN, [])
    {
      header := NO_COUNTS;
      levelData, levelDataSize := [], 0;
      modelInformation := [];
      directional, point, spot := [], [], [];
      checkPoints := [];
      checkPointStart, checkPointEnd := ORIGIN, ORIGIN;
      effectList, effectDataSize := [], 0;
    }

    /** Zeroes the counts, the numbers of instances and effects to write, and the start and end points. */
    method Clear()
      modifies this`header, this`levelDataSize, this`effectDataSize, this`checkPointStart, this`checkPointEnd
      requires Valid()
      ensures Valid()
      ensures Held() == old(Held()).(header := NO_COUNTS, instances := [], effects := [], start := ORIGIN, end := ORIGIN)
    {
      header := NO_COUNTS;
      levelDataSize, effectDataSize := 0, 0;
      checkPointStart, checkPointEnd := ORIGIN, ORIGIN;
    }

    method SetLevelHead(h: InstanceHeader)
      modifies this`header
      requires Valid()
      ensures Held() == old(Held()).(header := h)
    {
      header := h;
    }

    /** The list is kept and all of its entries will be written. */
    method SetModelList(data: seq<ModelStruct>)
      modifies this`levelData, this`levelDataSize
      requires Valid()
      ensures Valid() && Held() == old(Held()).(instances := data)
    {
      levelData, levelDataSize := data, |data|;
      assert levelData[..levelDataSize] == data;
    }

    method SetModelInformation(info: seq<ModelHeader>)
      modifies this`modelInformation
      requires Valid()
      ensures Held() == old(Held()).(info := info)
    {
      modelInformation := info;
    }

    method SetLevelDirectionalLightList(ls: seq<DirectionalLight>)
      modifies this`directional
      requires Valid()
      ensures Held() == old(Held()).(lights := old(Held()).lights.(directional := ls))
    {
      directional := ls;
    }

    method SetLevelPointLightList(ls: seq<PointLight>)
      modifies this`point
      requires Valid()
      ensures Held() == old(Held()).(lights := old(Held()).lights.(point := ls))
    {
      point := ls;
    }

    method SetLevelSpotLightList(ls: seq<SpotLight>)
      modifies this`spot
      requires Valid()
      ensures Held() == old(Held()).(lights := old(Held()).lights.(spot := ls))
    {
      spot := ls;
    }

    method SetLevelCheckPointList(cps: seq<CheckPoint>)
      modifies this`checkPoints
      requires Valid()
      ensures Held() == old(Held()).(checkPoints := cps)
    {
      checkPoints := cps;
    }

    method SetLevelCheckPointStart(v: Float3)
      modifies this`checkPointStart
      requires Valid()
      ensures Held() == old(Held()).(start := v)
    {
      checkPointStart := v;
    }

    method SetLevelCheckPointEnd(v: Float3)
      modifies this`checkPointEnd
      requires Valid()
      ensures Held() == old(Held()).(end := v)
    {
      checkPointEnd := v;
    }

    /** The list is kept and all of its entries will be written. */
    method SetEffectList(effects: seq<EffectStruct>)
      modifies this`effectList, this`effectDataSize
      requires Valid()
      ensures Valid() && Held() == old(Held()).(effects := effects)
    {
      effectList, effectDataSize := effects, |effects|;
      assert effectList[..effectDataSize] == effects;
    }

    method CreateHeader() returns (out: seq<byte>)
      ensures out == InstanceHeaderBytes(header)
    {
      out := IntToBytes(header.models) + IntToBytes(header.lights) + IntToBytes(header.checkPoints) + IntToBytes(header.effects);
    }

    /** Groups the mirrored instances by mesh name, then writes each group with its mesh's flags. */
    method CreateLevel() returns (out: seq<byte>)
      requires Valid()
      ensures out == InstanceLevelBytes(Held().instances, modelInformation)
    {
      var data := levelData[..levelDataSize];
      var groups: seq<seq<ModelStruct>> := Group(FlipAll(data), MeshNameOf);
      ghost var level := InstanceLevel(data, modelInformation);
      var records: seq<InstanceModel> := [];
      var i := 0;
      while i < |groups|
        invariant 0 <= i <= |groups| == |level|
        invariant records == level[..i]
      {
        var f := FindFlags(modelInformation, groups[i][0].meshName);
        var record := InstanceModel(Summary(groups[i]), f);
        InstanceLevelAt(data, modelInformation, groups, i);
        assert level[..i + 1] == level[..i] + [record];
        records := records + [record];
        i := i + 1;
      }
      assert records == level;
      var body := WriteAll(records, InstanceModelBytes);
      out := IntToBytes(Int32Of(|groups|)) + body;
    }

    /** When lights are counted: the mirrored lists' kind count, then one tagged, counted block per non-empty list. */
    method CreateLighting() returns (out: seq<byte>)
      requires Valid()
      ensures out == LightingPart(Held())
    {
      out := [];
      if header.lights != 0 {
        var d := MirrorAll(directional, FlipDirectional);
        var p := MirrorAll(point, FlipPoint);
        var sp := MirrorAll(spot, FlipSpot);
        out := WriteLighting(Lights(d, p, sp));
      }
    }

    /**
     * When check points are counted: mirrors the stored start and end in
     * place and writes them, then the mirrored check points grouped by number.
     */
    method CreateCheckPoints() returns (out: seq<byte>)
      modifies this`checkPointStart, this`checkPointEnd
      requires Valid()
      ensures out == CheckPointPart(old(Held()))
      ensures Held() == if old(header.checkPoints) != 0
        then old(Held()).(start := NegateX(old(checkPointStart)), end := NegateX(old(checkPointEnd)))
        else old(Held())
    {
      out := [];
      if header.checkPoints != 0 {
        checkPointStart := NegateX(checkPointStart);
        checkPointEnd := NegateX(checkPointEnd);
        var flipped := MirrorAll(checkPoints, FlipCheckPoint);
        var groups := Group(flipped, NumberOf);
        var body := WriteAll(groups, CheckPointGroupBytes);
        out := Float3ToBytes(checkPointStart) + Float3ToBytes(checkPointEnd) + (IntToBytes(Int32Of(|groups|)) + body);
      }
    }

    /** When effects are counted: the mirrored placements grouped by effect name. */
    method CreateEffect() returns (out: seq<byte>)
      requires Valid()
      ensures out == EffectPart(Held())
    {
      out := [];
      if header.effects != 0 {
        var flipped := MirrorAll(effectList[..effectDataSize], FlipEffect);
        var groups := Group(flipped, EffectNameOf);
        var records := seq(|groups|, j requires 0 <= j < |groups| => EffectSummary(groups[j]));
        var body := WriteAll(records, EffectGroupBytes);
        out := IntToBytes(Int32Of(|records|)) + body;
      }
    }

    /**
     * `writeFile`, with `canOpen` standing for whether the output file could be
     * opened. Writing mirrors the stored start and end when check points are counted.
     */
    method WriteFile(canOpen: bool) returns (r: WriteResult)
      modifies this`checkPointStart, this`checkPointEnd
      requires Valid()
      ensures r == InstanceFileResult(canOpen, old(Held()))
      ensures Held() == if r.Wrote? && old(header.checkPoints) != 0
        then old(Held()).(start := NegateX(old(checkPointStart)), end := NegateX(old(checkPointEnd)))
        else old(Held())
    {
      if !canOpen {
        return Refused;
      }
      if header.models != 0 {
        var h := CreateHeader();
        var level := CreateLevel();
        var lighting := CreateLighting();
        var cps := CreateCheckPoints();
        var effects := CreateEffect();
        return Wrote(h + level + lighting + cps + effects);
      }
      return Refused;
    }
  }
}
