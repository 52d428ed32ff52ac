/**
 * Common's InstanceBinaryLoader: it reads a three-count header, then each
 * section whose count is non-zero. The model records replace the held ones,
 * each light block replaces the held list of its kind, and the check-point
 * section replaces the start and end points and appends its non-empty groups
 * to the groups already held.
 */
module InstanceBinaryLoader {
  import opened Wrappers
  import opened Bytes
  import opened LevelFormat
  import opened InstanceFormat
  import LevelBinaryLoader

  /** What the reader holds. */
  datatype InstanceState = InstanceState(header: LevelHeader, models: seq<InstanceModel>, lights: Lights,
                                         checkPoints: seq<seq<CheckPoint>>, start: Float3, end: Float3)

  /** `readLevel`: the number of records, then that many records with their flags. */
  function ReadInstanceLevel(s: seq<byte>): (r: Option<(seq<InstanceModel>, seq<byte>)>)
  {
    match ReadInt(s)
    case None => None
    case Some((n, rest)) => DecodeN(rest, Iterations(n), DecodeInstanceModel)
  }

  /**
   * `readStreamData` over the state `st`: the three counts, then each section
   * its count asks for. Reading never drops check-point groups: those held
   * before a successful read are still at the front of those held after it.
   */
  function ReadStream(st: InstanceState, s: seq<byte>): (r: Option<InstanceState>)
    ensures r.Some? ==> |st.checkPoints| <= |r.value.checkPoints| && r.value.checkPoints[..|st.checkPoints|] == st.checkPoints
  {
    match ReadLevelHeader(s)
    case None => None
    case Some((h, rest)) => ReadModelsPart(st.(header := h), rest)
  }

  /**
   * The reader with the header read as InstanceConverter writes it: four
   * counts, the fourth (the number of effects) skipped, as this reader holds no
   * effects. See `InstanceRoundTrip.ReaderLosesModels` for the three-count reader.
   */
  function ReadStreamWithEffectCount(st: InstanceState, s: seq<byte>): (r: Option<InstanceState>)
    ensures r.Some? ==> |st.checkPoints| <= |r.value.checkPoints| && r.value.checkPoints[..|st.checkPoints|] == st.checkPoints
  {
    match ReadInstanceHeader(s)
    case None => None
    case Some((h, rest)) => ReadModelsPart(st.(header := LevelHeader(h.models, h.lights, h.checkPoints)), rest)
  }

  function ReadModelsPart(st: InstanceState, s: seq<byte>): (r: Option<InstanceState>)
    ensures r.Some? ==> r.value.header == st.header
    ensures r.Some? ==> |st.checkPoints| <= |r.value.checkPoints| && r.value.checkPoints[..|st.checkPoints|] == st.checkPoints
  {
    if st.header.models != 0 then
      match ReadInstanceLevel(s)
      case None => None
      case Some((ms, rest)) => ReadLightsPart(st.(models := ms), rest)
    else ReadLightsPart(st, s)
  }

  function ReadLightsPart(st: InstanceState, s: seq<byte>): (r: Option<InstanceState>)
    ensures r.Some? ==> r.value.header == st.header && r.value.models == st.models
    ensures r.Some? ==> |st.checkPoints| <= |r.value.checkPoints| && r.value.checkPoints[..|st.checkPoints|] == st.checkPoints
  {
    if st.header.lights != 0 then
      match LevelBinaryLoader.ReadLighting(st.lights, s)
      case None => None
      case Some((l, rest)) => ReadCheckPointsPart(st.(lights := l), rest)
    else ReadCheckPointsPart(st, s)
  }

  function ReadCheckPointsPart(st: InstanceState, s: seq<byte>): (r: Option<InstanceState>)
    ensures r.Some? ==> r.value.header == st.header && r.value.models == st.models && r.value.lights == st.lights
    ensures r.Some? && st.header.checkPoints == 0 ==> r.value == st
    ensures r.Some? ==> |st.checkPoints| <= |r.value.checkPoints| && r.value.checkPoints[..|st.checkPoints|] == st.checkPoints
  {
    if st.header.checkPoints != 0 then
      match ReadInstanceCheckPoints(st.checkPoints, s)
      case None => None
      case Some((start, end, groups, _)) => Some(st.(start := start, end := end, checkPoints := groups))
    else Some(st)
  }

  /** What `clear` leaves: every list emptied, the header and the start and end points kept. */
  function Cleared(st: InstanceState): (r: InstanceState)
    ensures r.models == [] && r.lights == NO_LIGHTS && r.checkPoints == []
    ensures r.header == st.header && r.start == st.start && r.end == st.end
  {
    st.(models := [], lights := NO_LIGHTS, checkPoints := [])
  }

  /** The state of a new reader: zero counts and empty lists (the C++ leaves the start and end unset). */
  const INITIAL := InstanceState(LevelHeader(0, 0, 0), [], NO_LIGHTS, [], ORIGIN, ORIGIN)

  /** `readLevel`'s loop over the records. */
  method ReadInstanceRecords(s: seq<byte>) returns (r: Option<(seq<InstanceModel>, seq<byte>)>)
    ensures r == ReadInstanceLevel(s)
  {
    var c := ReadInt(s);
    if c.None? {
      return None;
    }
    r := ReadEach(c.value.0, c.value.1, DecodeInstanceModel);
  }

  /** `readLevelCheckPoint`: start, end, the number of groups, then the loop over the groups. */
  method ReadCheckPointGroupsSection(held: seq<seq<CheckPoint>>, s: seq<byte>)
    returns (r: Option<(Float3, Float3, seq<seq<CheckPoint>>, seq<byte>)>)
    ensures r == ReadInstanceCheckPoints(held, s)
  {
    var start := ReadFloat3(s);
    if start.None? {
      return None;
    }
    var end := ReadFloat3(start.value.1);
    if end.None? {
      return None;
    }
    var c := ReadInt(end.value.1);
    if c.None? {
      return None;
    }
    var groups := ReadCheckPointGroupLoop(held, c.value.1, Iterations(c.value.0));
    if groups.None? {
      return None;
    }
    return Some((start.value.0, end.value.0, groups.value.0, groups.value.1));
  }

  class Loader {
    var header: LevelHeader
    var levelData: seq<InstanceModel>
    var directional: seq<DirectionalLight>
    var point: seq<PointLight>
    var spot: seq<SpotLight>
    var checkPointList: seq<seq<CheckPoint>>
    var checkPointStart: Float3
    var checkPointEnd: Float3
    /** Whether `m_Input` is open: a load opens it and only `clear` closes it. */
    var streamOpen: bool

    function State(): InstanceState
      reads this
    {
      InstanceState(header, levelData, Lights(directional, point, spot), checkPointList, checkPointStart, checkPointEnd)
    }

    constructor ()
      ensures State() == INITIAL && !streamOpen
    {
      streamOpen := false;
      header := LevelHeader(0, 0, 0);
      levelData, directional, point, spot, checkPointList := [], [], [], [], [];
      checkPointStart, checkPointEnd := ORIGIN, ORIGIN;
    }

    /** `readLevel` when the header lists models: the records replace the held ones. */
    method ReadLevelSection(s: seq<byte>) returns (next: Option<seq<byte>>)
      modifies this`levelData
      ensures ReadModelsPart(old(State()), s) == if next.None? then None else ReadLightsPart(State(), next.value)
    {
      if header.models == 0 {
        return Some(s);
      }
      var ms := ReadInstanceRecords(s);
      if ms.None? {
        return None;
      }
      levelData := ms.value.0;
      return Some(ms.value.1);
    }

    /** `readLevelLighting` when the header lists lights: each block replaces the held list of its kind. */
    method ReadLevelLighting(s: seq<byte>) returns (next: Option<seq<byte>>)
      modifies this`directional, this`point, this`spot
      ensures ReadLightsPart(old(State()), s) == if next.None? then None else ReadCheckPointsPart(State(), next.value)
    {
      if header.lights == 0 {
        return Some(s);
      }
      var l := LevelBinaryLoader.ReadLightingBlocks(Lights(directional, point, spot), s);
      if l.None? {
        return None;
      }
      directional, point, spot := l.value.0.directional, l.value.0.point, l.value.0.spot;
      return Some(l.value.1);
    }

    /** `readLevelCheckPoint` when the header lists check points: start and end replaced, groups appended. */
    method ReadLevelCheckPoint(s: seq<byte>) returns (ok: bool)
      modifies this`checkPointStart, this`checkPointEnd, this`checkPointList
      ensures ReadCheckPointsPart(old(State()), s) == if ok then Some(State()) else None
    {
      if header.checkPoints == 0 {
        return true;
      }
      var c := ReadCheckPointGroupsSection(checkPointList, s);
      if c.None? {
        return false;
      }
      checkPointStart, checkPointEnd, checkPointList := c.value.0, c.value.1, c.value.2;
      return true;
    }

    /**
     * `readStreamData`. It succeeds exactly when the stream holds every section
     * the header asks for; on success the reader holds what `ReadStream` gives.
     */
    method ReadStreamData(s: seq<byte>) returns (ok: bool)
      modifies this
      ensures streamOpen == old(streamOpen)
      ensures ok <==> ReadStream(old(State()), s).Some?
      ensures ok ==> State() == ReadStream(old(State()), s).value
    {
      var h := ReadLevelHeader(s);
      if h.None? {
        return false;
      }
      header := h.value.0;
      assert ReadStream(old(State()), s) == ReadModelsPart(State(), h.value.1);
      var afterLevel := ReadLevelSection(h.value.1);
      if afterLevel.None? {
        return false;
      }
      var afterLights := ReadLevelLighting(afterLevel.value);
      if afterLights.None? {
        return false;
      }
      ok := ReadLevelCheckPoint(afterLights.value);
    }

    /**
     * `loadBinaryFile`, with `file` the file's bytes or `None` when it cannot be
     * opened (the C++ throws a CommonException). A stream still open from an
     * earlier load cannot be opened again until `Clear`, so that load throws too. A stream too short for what its
     * header asks for, or with a negative group size, is reported as `Malformed`.
     */
    method LoadBinaryFile(file: Option<seq<byte>>) returns (r: LoadResult)
      modifies this
      ensures r == CannotOpen <==> old(streamOpen) || file.None?
      ensures r == CannotOpen ==> State() == old(State()) && streamOpen == old(streamOpen)
      ensures r != CannotOpen ==> streamOpen && (r == Loaded <==> ReadStream(old(State()), file.value).Some?)
      ensures r == Loaded ==> State() == ReadStream(old(State()), file.value).value
    {
      if streamOpen || file.None? {
        return CannotOpen;
      }
      streamOpen := true;
      var ok := ReadStreamData(file.value);
      r := if ok then Loaded else Malformed;
    }

    method Clear()
      modifies this
      ensures State() == Cleared(old(State())) && !streamOpen
    {
      streamOpen := false;
      levelData, directional, point, spot, checkPointList := [], [], [], [], [];
    }
  }
}
