/**
 * What InstanceBinaryLoader makes of the files InstanceConverter writes: the
 * converter writes four counts and the reader reads three, so the reader takes
 * the effect count for the number of model records; read with the fourth count
 * skipped, every file the converter writes comes back as written.
 */
module InstanceRoundTrip {
  import opened Wrappers
  import opened Bytes
  import opened Grouping
  import opened LevelFormat
  import opened InstanceFormat
  import opened InstanceConverter
  import opened InstanceBinaryLoader
  import LevelConverter
  import LevelRoundTrip
  import LevelBinaryLoader

  lemma InstanceLevelFits(data: seq<ModelStruct>, info: seq<ModelHeader>)
    requires LevelRoundTrip.InstancesFit(data)
    ensures |InstanceLevel(data, info)| < TWO31
    ensures forall j :: 0 <= j < |InstanceLevel(data, info)| ==> InstanceModelFits(InstanceLevel(data, info)[j])
  {
    LevelRoundTrip.GroupedLevelFits(data);
  }

  lemma InstanceLevelSectionRoundTrip(data: seq<ModelStruct>, info: seq<ModelHeader>, rest: seq<byte>)
    requires LevelRoundTrip.InstancesFit(data)
    ensures ReadInstanceLevel(InstanceLevelBytes(data, info) + rest) == Some((InstanceLevel(data, info), rest))
  {
    var level := InstanceLevel(data, info);
    InstanceLevelFits(data, info);
    InstanceModelInverse();
    var s1 := EncodeAll(level, InstanceModelBytes) + rest;
    assert InstanceLevelBytes(data, info) + rest == IntToBytes(|level| as int32) + s1;
    ReadIntRoundTrip(|level| as int32, s1);
    DecodeNRoundTrip(level, rest, InstanceModelBytes, DecodeInstanceModel, InstanceModelFits);
  }

  /** Grouping at most 2^31 - 1 check points gives fewer than 2^31 groups, each one readable. */
  lemma CheckPointGroupsFit(cps: seq<CheckPoint>)
    requires |cps| < TWO31
    ensures |CheckPointGroups(cps)| < TWO31
    ensures forall j :: 0 <= j < |CheckPointGroups(cps)| ==> GroupReadable(CheckPointGroups(cps)[j])
  {
    CheckPointGroupsContents(cps);
    FirstKeysBound(cps, NumberOf);
    var ks := FirstKeys(cps, NumberOf);
    forall j | 0 <= j < |ks|
      ensures GroupReadable(CheckPointGroups(cps)[j])
    {
      FilterWithin(cps, NumberOf, ks[j]);
    }
  }

  /** The inputs a file can carry. */
  predicate Writable(src: Scene)
  {
    LevelRoundTrip.InstancesFit(src.instances) && LightsReadable(src.lights) && |src.checkPoints| < TWO31
  }

  /**
   * What a reader holding `st` holds after reading the file written from
   * `src`: the three counts, the records with their flags, the mirrored lights
   * merged over its own when lights are counted, and, when check points are
   * counted, the mirrored start and end and the grouped check points after the
   * groups it already held.
   */
  function Expected(st: InstanceState, src: Scene): InstanceState
  {
    var h := src.header;
    var s := st.(header := LevelHeader(h.models, h.lights, h.checkPoints), models := InstanceLevel(src.instances, src.info),
                 lights := if h.lights != 0 then MergeLights(st.lights, FlipLights(src.lights)) else st.lights);
    if h.checkPoints != 0
    then s.(start := NegateX(src.start), end := NegateX(src.end), checkPoints := st.checkPoints + CheckPointGroups(src.checkPoints))
    else s
  }

  /** The file as its header, its model section and the rest. */
  lemma FileSections(src: Scene)
    ensures InstanceFileBytes(src)
      == InstanceHeaderBytes(src.header) + (InstanceLevelBytes(src.instances, src.info) + (LightingPart(src) + (CheckPointPart(src) + EffectPart(src))))
  {
    Associate(InstanceHeaderBytes(src.header), InstanceLevelBytes(src.instances, src.info), LightingPart(src), CheckPointPart(src), EffectPart(src));
  }

  lemma Associate<T>(a: seq<T>, b: seq<T>, c: seq<T>, d: seq<T>, e: seq<T>)
    ensures a + b + c + d + e == a + (b + (c + (d + e)))
  {
  }

  /** The four counts are the reader's three counts followed by the effect count. */
  lemma HeaderSections(h: InstanceHeader, rest: seq<byte>)
    ensures InstanceHeaderBytes(h) + rest == LevelHeaderBytes(LevelHeader(h.models, h.lights, h.checkPoints)) + (IntToBytes(h.effects) + rest)
  {
  }

  lemma LightsStep(st: InstanceState, l: Lights, s: seq<byte>)
    requires st.header.lights != 0 && LightsReadable(l)
    ensures ReadLightsPart(st, LightingBytes(FlipLights(l)) + s)
      == ReadCheckPointsPart(st.(lights := MergeLights(st.lights, FlipLights(l))), s)
  {
    FlipLightsReadable(l);
    LevelRoundTrip.LightingSectionRoundTrip(st.lights, FlipLights(l), s);
  }

  lemma CheckPointsStep(st: InstanceState, src: Scene)
    requires st.header.checkPoints == src.header.checkPoints && |src.checkPoints| < TWO31
    ensures ReadCheckPointsPart(st, CheckPointPart(src) + EffectPart(src))
      == Some(if src.header.checkPoints != 0
              then st.(start := NegateX(src.start), end := NegateX(src.end), checkPoints := st.checkPoints + CheckPointGroups(src.checkPoints))
              else st)
  {
    if src.header.checkPoints != 0 {
      CheckPointGroupsFit(src.checkPoints);
      InstanceCheckPointsRoundTrip(st.checkPoints, NegateX(src.start), NegateX(src.end), CheckPointGroups(src.checkPoints), EffectPart(src));
    }
  }

  /** Everything after the model section is read back as written. */
  lemma TailRoundTrip(st: InstanceState, src: Scene)
    requires st.header == LevelHeader(src.header.models, src.header.lights, src.header.checkPoints)
    requires LightsReadable(src.lights) && |src.checkPoints| < TWO31
    ensures ReadLightsPart(st, LightingPart(src) + (CheckPointPart(src) + EffectPart(src)))
      == Some(var s := st.(lights := if src.header.lights != 0 then MergeLights(st.lights, FlipLights(src.lights)) else st.lights);
              if src.header.checkPoints != 0
              then s.(start := NegateX(src.start), end := NegateX(src.end), checkPoints := st.checkPoints + CheckPointGroups(src.checkPoints))
              else s)
  {
    var tail := CheckPointPart(src) + EffectPart(src);
    var st3 := st.(lights := if src.header.lights != 0 then MergeLights(st.lights, FlipLights(src.lights)) else st.lights);
    if src.header.lights != 0 {
      LightsStep(st, src.lights, tail);
    } else {
      assert LightingPart(src) + tail == tail;
    }
    CheckPointsStep(st3, src);
  }

  /**
   * Read with its four counts, every file InstanceConverter writes gives back
   * what it was written from: the grouped records with their flags, the
   * mirrored lights and check points, and the mirrored start and end.
   */
  lemma InstanceFileRoundTrip(canOpen: bool, st: InstanceState, src: Scene)
    requires Writable(src)
    ensures InstanceFileResult(canOpen, src).Wrote? ==>
      ReadStreamWithEffectCount(st, InstanceFileResult(canOpen, src).file) == Some(Expected(st, src))
  {
    if canOpen && src.header.models != 0 {
      var h := src.header;
      var tail := LightingPart(src) + (CheckPointPart(src) + EffectPart(src));
      var st1 := st.(header := LevelHeader(h.models, h.lights, h.checkPoints));
      FileSections(src);
      InstanceHeaderRoundTrip(h, InstanceLevelBytes(src.instances, src.info) + tail);
      InstanceLevelSectionRoundTrip(src.instances, src.info, tail);
      assert ReadModelsPart(st1, InstanceLevelBytes(src.instances, src.info) + tail)
        == ReadLightsPart(st1.(models := InstanceLevel(src.instances, src.info)), tail);
      TailRoundTrip(st1.(models := InstanceLevel(src.instances, src.info)), src);
    }
  }

  // ---------------------------------------------------------------------
  // The reader as written: three counts.

  /** An empty level has no records; a non-empty one has at least one. */
  lemma InstanceLevelEmpty(data: seq<ModelStruct>, info: seq<ModelHeader>)
    ensures InstanceLevel(data, info) == [] <==> data == []
  {
    InstanceLevelContents(data, info);
    if data != [] {
      GroupedElement(data, MeshNameOf, 0);
    }
  }

  /**
   * With no effects counted, the reader takes the effect count, 0, for the
   * number of model records: whatever it reads, it holds no records, although
   * the file holds one for every distinct mesh of a non-empty level.
   */
  lemma ReaderLosesModels(st: InstanceState, src: Scene)
    requires src.header.models != 0 && src.header.effects == 0 && src.instances != []
    ensures InstanceLevel(src.instances, src.info) != []
    ensures var r := ReadStream(st, InstanceFileBytes(src)); r.None? || r.value.models == []
  {
    InstanceLevelEmpty(src.instances, src.info);
    var h := src.header;
    var rest := InstanceLevelBytes(src.instances, src.info) + (LightingPart(src) + (CheckPointPart(src) + EffectPart(src)));
    var lh := LevelHeader(h.models, h.lights, h.checkPoints);
    FileSections(src);
    HeaderSections(h, rest);
    LevelHeaderRoundTrip(lh, IntToBytes(0) + rest);
    ReadIntRoundTrip(0, rest);
    assert ReadStream(st, InstanceFileBytes(src)) == ReadModelsPart(st.(header := lh), IntToBytes(0) + rest);
    assert ReadInstanceLevel(IntToBytes(0) + rest) == Some(([], rest));
  }
}
