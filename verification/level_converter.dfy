/**
 * BinaryConverter's LevelConverter: it holds a level header, the placed model
 * instances, the three light lists and the check points, and writes them as a
 * binary level file (header, models grouped by mesh, lighting, check points).
 */
module LevelConverter {
  import opened Bytes
  import opened Grouping
  import opened LevelFormat

  /** The group records `createLevel` builds: instances grouped by mesh name, each mirrored. */
  function GroupedLevel(data: seq<ModelStruct>): (r: seq<LevelModel>)
    ensures |r| == |GroupBy(FlipAll(data), MeshNameOf)|
  {
    var groups := GroupBy(FlipAll(data), MeshNameOf);
    seq(|groups|, j requires 0 <= j < |groups| => Summary(groups[j]))
  }

  /** The level section: the number of groups, then each group's record. */
  function LevelBytes(data: seq<ModelStruct>): seq<byte>
  {
    EncodeCounted(GroupedLevel(data), LevelModelBytes)
  }

  /** The whole file as `writeFile` produces it when the header lists models. */
  function LevelFileBytes(h: LevelHeader, data: seq<ModelStruct>, l: Lights, cps: seq<CheckPoint>, start: Float3, end: Float3): seq<byte>
  {
    LevelHeaderBytes(h) + LevelBytes(data) + LightingBytes(l) + CheckPointSectionBytes(start, end, cps)
  }

  /** `writeFile`: no file when the output cannot be opened or the header lists no models. */
  function LevelFileResult(canOpen: bool, h: LevelHeader, data: seq<ModelStruct>, l: Lights, cps: seq<CheckPoint>,
                           start: Float3, end: Float3): (r: WriteResult)
    ensures r.Wrote? <==> canOpen && h.models != 0
    ensures !r.OutOfRange?
  {
    if !canOpen || h.models == 0 then Refused else Wrote(LevelFileBytes(h, data, l, cps, start, end))
  }

  /**
   * The lighting and check-point sections written only when the header counts
   * them, as the level readers expect (and as InstanceConverter does); see
   * `LevelRoundTrip.SkippedLightingMisreadsStart` for what the unguarded
   * writer leads to.
   */
  function GuardedLevelFileBytes(h: LevelHeader, data: seq<ModelStruct>, l: Lights, cps: seq<CheckPoint>, start: Float3, end: Float3): seq<byte>
  {
    LevelHeaderBytes(h) + LevelBytes(data) + GuardedTailBytes(h, l, cps, start, end)
  }

  /** The guarded writer's lighting and check-point sections. */
  function GuardedTailBytes(h: LevelHeader, l: Lights, cps: seq<CheckPoint>, start: Float3, end: Float3): seq<byte>
  {
    (if h.lights != 0 then LightingBytes(l) else []) + (if h.checkPoints != 0 then CheckPointSectionBytes(start, end, cps) else [])
  }

  function GuardedLevelFileResult(canOpen: bool, h: LevelHeader, data: seq<ModelStruct>, l: Lights, cps: seq<CheckPoint>,
                                  start: Float3, end: Float3): (r: WriteResult)
    ensures r.Wrote? <==> canOpen && h.models != 0
    ensures !r.OutOfRange?
  {
    if !canOpen || h.models == 0 then Refused else Wrote(GuardedLevelFileBytes(h, data, l, cps, start, end))
  }

  // ---------------------------------------------------------------------
  // What the grouping produces, stated over the instances themselves.

  lemma {:induction false} FlipAllPrefix(data: seq<ModelStruct>, n: nat)
    requires n <= |data|
    ensures FlipAll(data)[..n] == FlipAll(data[..n])
  {
  }

  lemma {:induction false} FlipAllFirstKeys(data: seq<ModelStruct>)
    ensures FirstKeys(FlipAll(data), MeshNameOf) == FirstKeys(data, MeshNameOf)
  {
    if data != [] {
      FlipAllPrefix(data, |data| - 1);
      FlipAllFirstKeys(data[..|data| - 1]);
    }
  }

  lemma {:induction false} FlipAllFilter(data: seq<ModelStruct>, k: seq<byte>)
    ensures Filter(FlipAll(data), MeshNameOf, k) == FlipAll(Filter(data, MeshNameOf, k))
  {
    if data != [] {
      var n := |data| - 1;
      FlipAllPrefix(data, n);
      FlipAllFilter(data[..n], k);
      var f := Filter(data[..n], MeshNameOf, k);
      if data[n].meshName == k {
        assert FlipAll(f + [data[n]]) == FlipAll(f) + [FlipModel(data[n])];
      }
    }
  }

  /**
   * `createLevel` writes one record per distinct mesh name, in order of first
   * appearance; the j-th record holds, in input order, the mirrored
   * translations and rotations and the scales of exactly the instances of the
   * j-th name.
   */
  lemma GroupedLevelContents(data: seq<ModelStruct>)
    ensures |GroupedLevel(data)| == |FirstKeys(data, MeshNameOf)|
    ensures forall j :: 0 <= j < |GroupedLevel(data)| ==>
      GroupedLevel(data)[j].meshName == FirstKeys(data, MeshNameOf)[j]
      && Filter(data, MeshNameOf, FirstKeys(data, MeshNameOf)[j]) != []
      && GroupedLevel(data)[j] == Summary(FlipAll(Filter(data, MeshNameOf, FirstKeys(data, MeshNameOf)[j])))
    ensures forall i, j :: 0 <= i < j < |GroupedLevel(data)| ==> GroupedLevel(data)[i].meshName != GroupedLevel(data)[j].meshName
  {
    var ks := FirstKeys(data, MeshNameOf);
    FlipAllFirstKeys(data);
    GroupByIsFilter(FlipAll(data), MeshNameOf);
    forall j | 0 <= j < |ks|
      ensures Filter(data, MeshNameOf, ks[j]) != []
      ensures GroupBy(FlipAll(data), MeshNameOf)[j] == FlipAll(Filter(data, MeshNameOf, ks[j]))
    {
      FlipAllFilter(data, ks[j]);
    }
  }

  /** `createLighting`'s block for the directional list: its first light's type, its size and its lights, if it has any. */
  method WriteDirectionalBlock(ls: seq<DirectionalLight>) returns (out: seq<byte>)
    ensures out == EncodeAll(DirectionalBlocks(ls), LightBlockBytes)
  {
    out := [];
    if ls != [] {
      var body := WriteAll(ls, DirectionalBytes);
      out := IntToBytes(TypeOf(ls[0])) + (IntToBytes(Int32Of(|ls|)) + body);
      assert out == LightBlockBytes(DirectionalBlocks(ls)[0]) + EncodeAll(DirectionalBlocks(ls)[1..], LightBlockBytes);
    }
  }

  method WritePointBlock(ls: seq<PointLight>) returns (out: seq<byte>)
    ensures out == EncodeAll(PointBlocks(ls), LightBlockBytes)
  {
    out := [];
    if ls != [] {
      var body := WriteAll(ls, PointBytes);
      out := IntToBytes(TypeOf(ls[0])) + (IntToBytes(Int32Of(|ls|)) + body);
      assert out == LightBlockBytes(PointBlocks(ls)[0]) + EncodeAll(PointBlocks(ls)[1..], LightBlockBytes);
    }
  }

  method WriteSpotBlock(ls: seq<SpotLight>) returns (out: seq<byte>)
    ensures out == EncodeAll(SpotBlocks(ls), LightBlockBytes)
  {
    out := [];
    if ls != [] {
      var body := WriteAll(ls, SpotBytes);
      out := IntToBytes(TypeOf(ls[0])) + (IntToBytes(Int32Of(|ls|)) + body);
      assert out == LightBlockBytes(SpotBlocks(ls)[0]) + EncodeAll(SpotBlocks(ls)[1..], LightBlockBytes);
    }
  }

  /** The body of `createLighting` over the three lists. */
  method WriteLighting(l: Lights) returns (out: seq<byte>)
    ensures out == LightingBytes(l)
  {
    var kinds := 0;
    if l.directional != [] { kinds := kinds + 1; }
    if l.point != [] { kinds := kinds + 1; }
    if l.spot != [] { kinds := kinds + 1; }
    var d := WriteDirectionalBlock(l.directional);
    var p := WritePointBlock(l.point);
    var sp := WriteSpotBlock(l.spot);
    LightingBytesSplit(l);
    out := IntToBytes(kinds as int32) + (d + p + sp);
  }

  class Converter {
    var header: LevelHeader
    /** The list `setLevelModelList` was given, and the number of its entries `createLevel` goes through. */
    var levelData: seq<ModelStruct>
    var levelDataSize: int
    var directional: seq<DirectionalLight>
    var point: seq<PointLight>
    var spot: seq<SpotLight>
    var checkPoints: seq<CheckPoint>
    var checkPointStart: Float3
    var checkPointEnd: Float3

    /** `createLevel` reads only entries of the list it was given. */
    predicate Valid()
      reads this`levelData, this`levelDataSize
    {
      0 <= levelDataSize <= |levelData|
    }

    function HeldLights(): Lights
      reads this`directional, this`point, this`spot
    {
      Lights(directional, point, spot)
    }

    /** The instances `createLevel` groups: the first `levelDataSize` of the list. */
    function Instances(): seq<ModelStruct>
      reads this`levelData, this`levelDataSize
      requires Valid()
    {
      levelData[..levelDataSize]
    }

    /** The header counts start at zero; the lists the C++ leaves unset start empty here. */
    constructor ()
      ensures Valid()
      ensures header == LevelHeader(0, 0, 0)
      ensures levelData == [] && levelDataSize == 0 && HeldLights() == NO_LIGHTS && checkPoints == []
      ensures checkPointStart == ORIGIN && checkPointEnd == ORIGIN
    {
      header := LevelHeader(0, 0, 0);
      levelData := [];
      levelDataSize := 0;
      directional, point, spot := [], [], [];
      checkPoints := [];
      checkPointStart, checkPointEnd := ORIGIN, ORIGIN;
    }

    method SetLevelHead(h: LevelHeader)
      modifies this`header
      ensures header == h
    {
      header := h;
    }

    /** The list is kept and all of its entries will be grouped. */
    method SetLevelModelList(data: seq<ModelStruct>)
      modifies this`levelData, this`levelDataSize
      ensures Valid() && Instances() == data
    {
      levelData := data;
      levelDataSize := |data|;
      assert levelData[..levelDataSize] == data;
    }

    method SetLevelDirectionalLightList(ls: seq<DirectionalLight>)
      modifies this`directional
      ensures directional == ls
    {
      directional := ls;
    }

    method SetLevelPointLightList(ls: seq<PointLight>)
      modifies this`point
      ensures point == ls
    {
      point := ls;
    }

    method SetLevelSpotLightList(ls: seq<SpotLight>)
      modifies this`spot
      ensures spot == ls
    {
      spot := ls;
    }

    method SetLevelCheckPointList(cps: seq<CheckPoint>)
      modifies this`checkPoints
      ensures checkPoints == cps
    {
      checkPoints := cps;
    }

    method SetLevelCheckPointStart(v: Float3)
      modifies this`checkPointStart
      ensures checkPointStart == v
    {
      checkPointStart := v;
    }

    method SetLevelCheckPointEnd(v: Float3)
      modifies this`checkPointEnd
      ensures checkPointEnd == v
    {
      checkPointEnd := v;
    }

    /**
     * Zeroes the header counts, the number of instances to group and the
     * start and end points; the light and check-point lists stay as they were.
     */
    method Clear()
      modifies this`header, this`levelDataSize, this`checkPointStart, this`checkPointEnd
      requires Valid()
      ensures Valid() && Instances() == []
      ensures header == LevelHeader(0, 0, 0) && checkPointStart == ORIGIN && checkPointEnd == ORIGIN
    {
      header := LevelHeader(0, 0, 0);
      levelDataSize := 0;
      checkPointStart, checkPointEnd := ORIGIN, ORIGIN;
    }

    method CreateHeader() returns (out: seq<byte>)
      ensures out == LevelHeaderBytes(header)
    {
      out := IntToBytes(header.models) + IntToBytes(header.lights) + IntToBytes(header.checkPoints);
    }

    /** Groups the instances by mesh name, mirroring each, then writes the groups. */
    method CreateLevel() returns (out: seq<byte>)
      requires Valid()
      ensures out == LevelBytes(Instances())
    {
      var groups := Group(FlipAll(levelData[..levelDataSize]), MeshNameOf);
      var level := seq(|groups|, j requires 0 <= j < |groups| => Summary(groups[j]));
      var body := WriteAll(level, LevelModelBytes);
      out := IntToBytes(Int32Of(|level|)) + body;
    }

    /** The number of non-empty light lists, then one tagged, counted block per non-empty list. */
    method CreateLighting() returns (out: seq<byte>)
      ensures out == LightingBytes(HeldLights())
    {
      out := WriteLighting(Lights(directional, point, spot));
    }

    /** Start, end, the number of check points and the check points as they are held. */
    method CreateCheckPoints() returns (out: seq<byte>)
      ensures out == CheckPointSectionBytes(checkPointStart, checkPointEnd, checkPoints)
    {
      var body := WriteAll(checkPoints, CheckPointBytes);
      out := Float3ToBytes(checkPointStart) + Float3ToBytes(checkPointEnd) + (IntToBytes(Int32Of(|checkPoints|)) + body);
    }

    /** `writeFile`, with `canOpen` standing for whether the output file could be opened. */
    method WriteFile(canOpen: bool) returns (r: WriteResult)
      requires Valid()
      ensures r == LevelFileResult(canOpen, header, Instances(), HeldLights(), checkPoints, checkPointStart, checkPointEnd)
    {
      if !canOpen {
        return Refused;
      }
      if header.models != 0 {
        var h := CreateHeader();
        var level := CreateLevel();
        var lighting := CreateLighting();
        var cps := CreateCheckPoints();
        return Wrote(h + level + lighting + cps);
      }
      return Refused;
    }

    /** `writeFile` with each optional section guarded by its header count. */
    method WriteGuardedFile(canOpen: bool) returns (r: WriteResult)
      requires Valid()
      ensures r == GuardedLevelFileResult(canOpen, header, Instances(), HeldLights(), checkPoints, checkPointStart, checkPointEnd)
    {
      if !canOpen || header.models == 0 {
        return Refused;
      }
      var h := CreateHeader();
      var level := CreateLevel();
      var lighting: seq<byte> := [];
      if header.lights != 0 {
        lighting := CreateLighting();
      }
      var cps: seq<byte> := [];
      if header.checkPoints != 0 {
        cps := CreateCheckPoints();
      }
      return Wrote(h + level + (lighting + cps));
    }
  }
}
