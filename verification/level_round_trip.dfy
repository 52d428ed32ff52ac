/**
 * What the level readers make of the files LevelConverter writes: Common's
 * reader gets back the header, the grouped models, the lights and the check
 * points; and the two places where writer and readers disagree.
 */
module LevelRoundTrip {
  import opened Wrappers
  import opened Bytes
  import opened Grouping
  import opened LevelFormat
  import opened LevelConverter
  import opened LevelBinaryLoader
  import opened ClientLevelBinaryLoader

  /** Instances a file can carry: fewer than 2^31 of them, each mesh name shorter than 2^31 bytes. */
  predicate InstancesFit(data: seq<ModelStruct>)
  {
    |data| < TWO31 && forall i :: 0 <= i < |data| ==> |data[i].meshName| < TWO31
  }

  lemma GroupedLevelFits(data: seq<ModelStruct>)
    requires InstancesFit(data)
    ensures |GroupedLevel(data)| < TWO31
    ensures forall j :: 0 <= j < |GroupedLevel(data)| ==> LevelModelFits(GroupedLevel(data)[j])
  {
    var xs := FlipAll(data);
    GroupByIsFilter(xs, MeshNameOf);
    FirstKeysBound(xs, MeshNameOf);
    var g := GroupBy(xs, MeshNameOf);
    var ks := FirstKeys(xs, MeshNameOf);
    forall j | 0 <= j < |g|
      ensures LevelModelFits(GroupedLevel(data)[j])
    {
      FilterWithin(xs, MeshNameOf, ks[j]);
      assert g[j][0] in xs;
    }
  }

  lemma LevelSectionRoundTrip(data: seq<ModelStruct>, rest: seq<byte>)
    requires InstancesFit(data)
    ensures ReadLevel(LevelBytes(data) + rest) == Some((GroupedLevel(data), rest))
  {
    var level := GroupedLevel(data);
    GroupedLevelFits(data);
    forall m: LevelModel, r: seq<byte> | LevelModelFits(m)
      ensures DecodeLevelModel(LevelModelBytes(m) + r) == Some((m, r))
    {
      LevelModelRoundTrip(m, r);
    }
    var s1 := EncodeAll(level, LevelModelBytes) + rest;
    assert LevelBytes(data) + rest == IntToBytes(|level| as int32) + s1;
    ReadIntRoundTrip(|level| as int32, s1);
    DecodeNRoundTrip(level, rest, LevelModelBytes, DecodeLevelModel, LevelModelFits);
  }

  lemma LightingSectionRoundTrip(held: Lights, l: Lights, rest: seq<byte>)
    requires LightsReadable(l)
    ensures ReadLighting(held, LightingBytes(l) + rest) == Some((MergeLights(held, l), rest))
  {
    LightingRoundTrip(held, l, rest);
  }

  /**
   * What a reader holding `st` holds after reading a level file: the header,
   * the grouped models, the lights merged over its own when the header counts
   * lights, and the check points when the header counts check points.
   */
  function Expected(st: LevelState, h: LevelHeader, data: seq<ModelStruct>, l: Lights, cps: seq<CheckPoint>,
                    start: Float3, end: Float3): LevelState
  {
    var s := st.(header := h, models := GroupedLevel(data), lights := if h.lights != 0 then MergeLights(st.lights, l) else st.lights);
    if h.checkPoints != 0 then s.(start := start, end := end, checkPoints := cps) else s
  }

  /** The inputs a file can carry. */
  predicate Writable(data: seq<ModelStruct>, l: Lights, cps: seq<CheckPoint>)
  {
    InstancesFit(data) && LightsReadable(l) && |cps| < TWO31
  }

  lemma HeaderStep(st: LevelState, h: LevelHeader, s: seq<byte>)
    ensures ReadStream(st, LevelHeaderBytes(h) + s) == ReadModelsPart(st.(header := h), s)
  {
    LevelHeaderRoundTrip(h, s);
  }

  lemma ModelsStep(st: LevelState, data: seq<ModelStruct>, s: seq<byte>)
    requires st.header.models != 0 && InstancesFit(data)
    ensures ReadModelsPart(st, LevelBytes(data) + s) == ReadLightsPart(st.(models := GroupedLevel(data)), s)
  {
    LevelSectionRoundTrip(data, s);
  }

  lemma LightsStep(st: LevelState, l: Lights, s: seq<byte>)
    requires st.header.lights != 0 && LightsReadable(l)
    ensures ReadLightsPart(st, LightingBytes(l) + s) == ReadCheckPointsPart(st.(lights := MergeLights(st.lights, l)), s)
  {
    LightingSectionRoundTrip(st.lights, l, s);
  }

  lemma CheckPointsPartRoundTrip(st: LevelState, start: Float3, end: Float3, cps: seq<CheckPoint>)
    requires |cps| < TWO31
    ensures ReadCheckPointsPart(st, CheckPointSectionBytes(start, end, cps)) ==
      Some(if st.header.checkPoints != 0 then st.(start := start, end := end, checkPoints := cps) else st)
  {
    CheckPointSectionRoundTrip(start, end, cps, []);
    assert CheckPointSectionBytes(start, end, cps) + [] == CheckPointSectionBytes(start, end, cps);
  }

  /** The file as its four sections, each followed by the rest. */
  lemma FileSections(h: LevelHeader, data: seq<ModelStruct>, l: Lights, cps: seq<CheckPoint>, start: Float3, end: Float3)
    ensures LevelFileBytes(h, data, l, cps, start, end)
      == LevelHeaderBytes(h) + (LevelBytes(data) + (LightingBytes(l) + CheckPointSectionBytes(start, end, cps)))
  {
  }

  /**
   * A file LevelConverter wrote, with lights counted in its header, is read back
   * by Common's reader (and by LevelStreamReader) as what was written.
   */
  lemma LevelFileRoundTrip(canOpen: bool, st: LevelState, h: LevelHeader, data: seq<ModelStruct>, l: Lights,
                           cps: seq<CheckPoint>, start: Float3, end: Float3)
    requires h.lights != 0 && Writable(data, l, cps)
    ensures LevelFileResult(canOpen, h, data, l, cps, start, end).Wrote? ==>
      ReadStream(st, LevelFileResult(canOpen, h, data, l, cps, start, end).file) == Some(Expected(st, h, data, l, cps, start, end))
  {
    if canOpen && h.models != 0 {
      var cpBytes := CheckPointSectionBytes(start, end, cps);
      var s2 := LightingBytes(l) + cpBytes;
      var st1 := st.(header := h);
      var st2 := st1.(models := GroupedLevel(data));
      var st3 := st2.(lights := MergeLights(st.lights, l));
      FileSections(h, data, l, cps, start, end);
      HeaderStep(st, h, LevelBytes(data) + s2);
      ModelsStep(st1, data, s2);
      LightsStep(st2, l, cpBytes);
      CheckPointsPartRoundTrip(st3, start, end, cps);
    }
  }

  // ---------------------------------------------------------------------
  // LevelConverter writes the lighting section whatever the header says; the
  // readers skip it when the header counts no lights.

  /**
   * With no lights counted but check points counted, the reader takes the
   * lighting count for the first word of the start point, so it never gets
   * back the start that was written unless that word happens to equal it.
   */
  lemma SkippedLightingMisreadsStart(st: LevelState, h: LevelHeader, data: seq<ModelStruct>, l: Lights,
                                     cps: seq<CheckPoint>, start: Float3, end: Float3)
    requires h.models != 0 && h.lights == 0 && h.checkPoints != 0 && InstancesFit(data)
    requires start.x != IntToBytes(|LightBlocks(l)| as int32)
    ensures var r := ReadStream(st, LevelFileBytes(h, data, l, cps, start, end)); r.None? || r.value.start != start
  {
    var s2 := LightingBytes(l) + CheckPointSectionBytes(start, end, cps);
    var st1 := st.(header := h);
    FileSections(h, data, l, cps, start, end);
    HeaderStep(st, h, LevelBytes(data) + s2);
    ModelsStep(st1, data, s2);
    SkippedLighting(st1.(models := GroupedLevel(data)), l, s2[|LightingBytes(l)|..]);
  }

  /** With no lights counted, the check-point section is read from where the lighting count was written. */
  lemma SkippedLighting(st: LevelState, l: Lights, rest: seq<byte>)
    requires st.header.lights == 0 && st.header.checkPoints != 0
    ensures var r := ReadLightsPart(st, LightingBytes(l) + rest);
      r.None? || r.value.start.x == IntToBytes(|LightBlocks(l)| as int32)
  {
    var s := LightingBytes(l) + rest;
    assert ReadLightsPart(st, s) == ReadCheckPointsPart(st, s);
    CheckPointsPartStart(st, s);
    assert s[..4] == IntToBytes(|LightBlocks(l)| as int32);
  }

  /** The check-point section is read from wherever the reader stands: the start's first word is the next four bytes. */
  lemma CheckPointsPartStart(st: LevelState, s: seq<byte>)
    requires st.header.checkPoints != 0
    ensures ReadCheckPointsPart(st, s).Some? ==> |s| >= 4 && ReadCheckPointsPart(st, s).value.start.x == s[..4]
  {
  }

  /** The lighting and check points written only when counted: every header the writer accepts is read back. */
  lemma GuardedLevelFileRoundTrip(canOpen: bool, st: LevelState, h: LevelHeader, data: seq<ModelStruct>, l: Lights,
                                  cps: seq<CheckPoint>, start: Float3, end: Float3)
    requires Writable(data, l, cps)
    ensures GuardedLevelFileResult(canOpen, h, data, l, cps, start, end).Wrote? ==>
      ReadStream(st, GuardedLevelFileResult(canOpen, h, data, l, cps, start, end).file) == Some(Expected(st, h, data, l, cps, start, end))
  {
    if canOpen && h.models != 0 {
      var s2 := GuardedTailBytes(h, l, cps, start, end);
      var st1 := st.(header := h);
      assert GuardedLevelFileBytes(h, data, l, cps, start, end) == LevelHeaderBytes(h) + (LevelBytes(data) + s2) by {
        assert LevelHeaderBytes(h) + LevelBytes(data) + s2 == LevelHeaderBytes(h) + (LevelBytes(data) + s2);
      }
      HeaderStep(st, h, LevelBytes(data) + s2);
      ModelsStep(st1, data, s2);
      GuardedTailRoundTrip(st1.(models := GroupedLevel(data)), l, cps, start, end);
    }
  }

  lemma GuardedTailRoundTrip(st: LevelState, l: Lights, cps: seq<CheckPoint>, start: Float3, end: Float3)
    requires LightsReadable(l) && |cps| < TWO31
    ensures ReadLightsPart(st, GuardedTailBytes(st.header, l, cps, start, end))
      == Some(var s := st.(lights := if st.header.lights != 0 then MergeLights(st.lights, l) else st.lights);
              if st.header.checkPoints != 0 then s.(start := start, end := end, checkPoints := cps) else s)
  {
    var h := st.header;
    var cpBytes := if h.checkPoints != 0 then CheckPointSectionBytes(start, end, cps) else [];
    var st3 := st.(lights := if h.lights != 0 then MergeLights(st.lights, l) else st.lights);
    if h.lights != 0 {
      LightsStep(st, l, cpBytes);
    } else {
      assert GuardedTailBytes(h, l, cps, start, end) == cpBytes;
    }
    if h.checkPoints != 0 {
      CheckPointsPartRoundTrip(st3, start, end, cps);
    }
  }

  // ---------------------------------------------------------------------
  // The client's older loader reads three light blocks with no count in front.

  /** A directional light whose every word is zero, so its type is 0. */
  const DARK: DirectionalLight := seq(11, _ => ZERO_WORD)

  lemma ZeroWordIsZero()
    ensures IntToBytes(0) == ZERO_WORD && BytesToInt(ZERO_WORD) == 0
  {
    IntRoundTrip(0);
  }

  /**
   * The three fixed iterations over the lighting section of one all-zero
   * directional light: the count 1 is read as a point tag, the type 0 as a
   * point count, the size 1 as a point tag, the light's first zero word as a
   * point count, its second as a directional tag and its third as that
   * block's zero count.
   */
  lemma DarkLightingMisread(held: Lights, rest: seq<byte>)
    ensures ReadLightBlocks(held, LightingBytes(Lights([DARK], [], [])) + rest, LIGHT_BLOCKS)
      == Some((held.(point := [], directional := []), WordsToBytes(DARK[3..]) + rest))
  {
    ZeroWordIsZero();
    var l := Lights([DARK], [], []);
    var w3 := WordsToBytes(DARK[3..]) + rest;
    var s5 := ZERO_WORD + w3;
    var s4 := ZERO_WORD + s5;
    var s3 := ZERO_WORD + s4;
    var s2 := IntToBytes(1) + s3;
    var s1 := IntToBytes(0) + s2;
    assert TypeOf(DARK) == 0;
    assert LightBlocks(l) == [DirectionalBlock(0, [DARK])];
    assert DARK[1..][1..] == DARK[2..] && DARK[2..][1..] == DARK[3..];
    assert WordsToBytes(DARK[2..]) == DARK[2] + WordsToBytes(DARK[3..]);
    assert WordsToBytes(DARK[1..]) == DARK[1] + WordsToBytes(DARK[2..]);
    assert WordsToBytes(DARK) == DARK[0] + (DARK[1] + (DARK[2] + WordsToBytes(DARK[3..])));
    assert EncodeAll([DARK], DirectionalBytes) == DirectionalBytes(DARK);
    assert EncodeAll(LightBlocks(l), LightBlockBytes) == LightBlockBytes(DirectionalBlock(0, [DARK]));
    assert LightingBytes(l) + rest == IntToBytes(1) + s1;
    ReadIntRoundTrip(1, s1);
    ReadIntRoundTrip(0, s2);
    ReadIntRoundTrip(1, s3);
    ReadIntRoundTrip(0, s4);
    ReadIntRoundTrip(0, s5);
    ReadIntRoundTrip(0, w3);
    assert LightStep(held, IntToBytes(1) + s1) == Some((held.(point := []), s2));
    assert LightStep(held.(point := []), s2) == Some((held.(point := []), s4));
    assert LightStep(held.(point := []), s4) == Some((held.(point := [], directional := []), w3));
  }

  /**
   * A level file with a single directional light whose words are all zero:
   * whatever the client's older loader reads, it does not hold that light.
   */
  lemma ClientLoaderLosesDirectional(st: LevelState, h: LevelHeader, data: seq<ModelStruct>,
                                     cps: seq<CheckPoint>, start: Float3, end: Float3)
    requires InstancesFit(data)
    ensures var r := ReadFile(st, LevelFileBytes(h, data, Lights([DARK], [], []), cps, start, end));
      r.None? || r.value.lights.directional == []
  {
    var l := Lights([DARK], [], []);
    var cpBytes := CheckPointSectionBytes(start, end, cps);
    var s2 := LightingBytes(l) + cpBytes;
    FileSections(h, data, l, cps, start, end);
    LevelHeaderRoundTrip(h, LevelBytes(data) + s2);
    LevelSectionRoundTrip(data, s2);
    DarkLightingMisread(st.lights, cpBytes);
    assert ReadFile(st, LevelFileBytes(h, data, l, cps, start, end))
      == ReadAfterLevel(st.(header := h, models := GroupedLevel(data)), s2);
  }

  /**
   * The client loader with the lighting read as the converter writes it (a
   * count, then that many blocks) and every other section read unconditionally.
   */
  function ReadFileCounted(st: LevelState, s: seq<byte>): Option<LevelState>
  {
    match ReadLevelHeader(s)
    case None => None
    case Some((h, rest)) => CountedAfterHeader(st.(header := h), rest)
  }

  function CountedAfterHeader(st: LevelState, s: seq<byte>): Option<LevelState>
  {
    match ReadLevel(s)
    case None => None
    case Some((ms, rest)) => CountedAfterLevel(st.(models := ms), rest)
  }

  function CountedAfterLevel(st: LevelState, s: seq<byte>): Option<LevelState>
  {
    match ReadLighting(st.lights, s)
    case None => None
    case Some((l, rest)) => ReadAfterLighting(st.(lights := l), rest)
  }

  lemma CountedTailRoundTrip(st: LevelState, l: Lights, cps: seq<CheckPoint>, start: Float3, end: Float3)
    requires LightsReadable(l) && |cps| < TWO31
    ensures CountedAfterLevel(st, LightingBytes(l) + CheckPointSectionBytes(start, end, cps))
      == Some(st.(lights := MergeLights(st.lights, l), start := start, end := end, checkPoints := cps))
  {
    var cpBytes := CheckPointSectionBytes(start, end, cps);
    LightingSectionRoundTrip(st.lights, l, cpBytes);
    CheckPointSectionRoundTrip(start, end, cps, []);
    assert cpBytes + [] == cpBytes;
  }

  /** Reading the lighting by its count, the client gets back every file the converter writes. */
  lemma CountedClientRoundTrip(canOpen: bool, st: LevelState, h: LevelHeader, data: seq<ModelStruct>, l: Lights,
                               cps: seq<CheckPoint>, start: Float3, end: Float3)
    requires Writable(data, l, cps)
    ensures LevelFileResult(canOpen, h, data, l, cps, start, end).Wrote? ==>
      ReadFileCounted(st, LevelFileResult(canOpen, h, data, l, cps, start, end).file)
        == Some(LevelState(h, GroupedLevel(data), MergeLights(st.lights, l), cps, start, end))
  {
    if canOpen && h.models != 0 {
      var s2 := LightingBytes(l) + CheckPointSectionBytes(start, end, cps);
      FileSections(h, data, l, cps, start, end);
      LevelHeaderRoundTrip(h, LevelBytes(data) + s2);
      LevelSectionRoundTrip(data, s2);
      CountedTailRoundTrip(st.(header := h, models := GroupedLevel(data)), l, cps, start, end);
    }
  }
}
