/**
 * The level readers of Common (LevelBinaryLoader) and of the client
 * (LevelStreamReader): they read the header, then each section whose header
 * count is non-zero. The models replace the held models, each light block
 * replaces the held list of its kind, and the check-point section replaces
 * the start, end and check points.
 */
module LevelBinaryLoader {
  import opened Wrappers
  import opened Bytes
  import opened LevelFormat

  /** What a level reader holds. */
  datatype LevelState = LevelState(header: LevelHeader, models: seq<LevelModel>, lights: Lights,
                                   checkPoints: seq<CheckPoint>, start: Float3, end: Float3)

  /** `readLevel`: the number of groups, then that many group records. */
  function ReadLevel(s: seq<byte>): (r: Option<(seq<LevelModel>, seq<byte>)>)
  {
    match ReadInt(s)
    case None => None
    case Some((n, rest)) => DecodeN(rest, Iterations(n), DecodeLevelModel)
  }

  /** `readLevelLighting`: the number of blocks, then that many blocks read over the held lists. */
  function ReadLighting(held: Lights, s: seq<byte>): (r: Option<(Lights, seq<byte>)>)
  {
    match ReadInt(s)
    case None => None
    case Some((n, rest)) => ReadLightBlocks(held, rest, Iterations(n))
  }

  /** `readStreamData` over the state `st`: the header, then each section its count asks for. */
  function ReadStream(st: LevelState, s: seq<byte>): Option<LevelState>
  {
    match ReadLevelHeader(s)
    case None => None
    case Some((h, rest)) => ReadModelsPart(st.(header := h), rest)
  }

  function ReadModelsPart(st: LevelState, s: seq<byte>): (r: Option<LevelState>)
    ensures r.Some? ==> r.value.header == st.header
  {
    if st.header.models != 0 then
      match ReadLevel(s)
      case None => None
      case Some((ms, rest)) => ReadLightsPart(st.(models := ms), rest)
    else ReadLightsPart(st, s)
  }

  function ReadLightsPart(st: LevelState, s: seq<byte>): (r: Option<LevelState>)
    ensures r.Some? ==> r.value.header == st.header && r.value.models == st.models
  {
    if st.header.lights != 0 then
      match ReadLighting(st.lights, s)
      case None => None
      case Some((l, rest)) => ReadCheckPointsPart(st.(lights := l), rest)
    else ReadCheckPointsPart(st, s)
  }

  function ReadCheckPointsPart(st: LevelState, s: seq<byte>): (r: Option<LevelState>)
    ensures r.Some? ==> r.value.header == st.header && r.value.models == st.models && r.value.lights == st.lights
    ensures r.Some? && st.header.checkPoints == 0 ==> r.value == st
  {
    if st.header.checkPoints != 0 then
      match ReadCheckPointSection(s)
      case None => None
      case Some((start, end, cps, _)) => Some(st.(start := start, end := end, checkPoints := cps))
    else Some(st)
  }

  /** What `clear` leaves: every list emptied, the header and the start and end points kept. */
  function Cleared(st: LevelState): (r: LevelState)
    ensures r.models == [] && r.lights == NO_LIGHTS && r.checkPoints == []
    ensures r.header == st.header && r.start == st.start && r.end == st.end
  {
    st.(models := [], lights := NO_LIGHTS, checkPoints := [])
  }

  /** The state of a new reader: zero counts and empty lists (the C++ leaves the start and end unset). */
  const INITIAL := LevelState(LevelHeader(0, 0, 0), [], NO_LIGHTS, [], ORIGIN, ORIGIN)

  /** `readLevel`'s loop over the group records. */
  method ReadLevelRecords(s: seq<byte>) returns (r: Option<(seq<LevelModel>, seq<byte>)>)
    ensures r == ReadLevel(s)
  {
    var c := ReadInt(s);
    if c.None? {
      return None;
    }
    r := ReadEach(c.value.0, c.value.1, DecodeLevelModel);
  }

  /** `readLevelLighting`: the count, then the loop over the light blocks. */
  method ReadLightingBlocks(held: Lights, s: seq<byte>) returns (r: Option<(Lights, seq<byte>)>)
    ensures r == ReadLighting(held, s)
  {
    var c := ReadInt(s);
    if c.None? {
      return None;
    }
    r := ReadLightBlockLoop(held, c.value.1, Iterations(c.value.0));
  }

  /** Common's `LevelBinaryLoader`. */
  class Loader {
    var header: LevelHeader
    var levelData: seq<LevelModel>
    var directional: seq<DirectionalLight>
    var point: seq<PointLight>
    var spot: seq<SpotLight>
    var checkPoints: seq<CheckPoint>
    var checkPointStart: Float3
    var checkPointEnd: Float3
    /** Whether `m_Input` is open: a load opens it and only `clear` closes it. */
    var streamOpen: bool

    function State(): LevelState
      reads this
    {
      LevelState(header, levelData, Lights(directional, point, spot), checkPoints, checkPointStart, checkPointEnd)
    }

    constructor ()
      ensures State() == INITIAL && !streamOpen
    {
      streamOpen := false;
      header := LevelHeader(0, 0, 0);
      levelData, directional, point, spot, checkPoints := [], [], [], [], [];
      checkPointStart, checkPointEnd := ORIGIN, ORIGIN;
    }

    /** `readLevel` when the header lists models: the groups replace the held ones. */
    method ReadLevelSection(s: seq<byte>) returns (next: Option<seq<byte>>)
      modifies this`levelData
      ensures ReadModelsPart(old(State()), s) == if next.None? then None else ReadLightsPart(State(), next.value)
    {
      if header.models == 0 {
        return Some(s);
      }
      var ms := ReadLevelRecords(s);
      if ms.None? {
        return None;
      }
      levelData := ms.value.0;
      return Some(ms.value.1);
    }

    /** `readLevelLighting` when the header lists lights: each block replaces the held list of its kind. */
    method ReadLevelLighting(s: seq<byte>) returns (next: Option<seq<byte>>)
      modifies this`directional, this`point, this`spot
      ensures ReadLightsPart(old(State()), s) == if next.None? then None else ReadCheckPointsPart(State(), next.value)
    {
      if header.lights == 0 {
        return Some(s);
      }
      var l := ReadLightingBlocks(Lights(directional, point, spot), s);
      if l.None? {
        return None;
      }
      directional, point, spot := l.value.0.directional, l.value.0.point, l.value.0.spot;
      return Some(l.value.1);
    }

    /** `readLevelCheckPoint` when the header lists check points: start, end and the check points are replaced. */
    method ReadLevelCheckPoint(s: seq<byte>) returns (ok: bool)
      modifies this`checkPointStart, this`checkPointEnd, this`checkPoints
      ensures ReadCheckPointsPart(old(State()), s) == if ok then Some(State()) else None
    {
      if header.checkPoints == 0 {
        return true;
      }
      var c := ReadCheckPointSection(s);
      if c.None? {
        return false;
      }
      checkPointStart, checkPointEnd, checkPoints := c.value.0, c.value.1, c.value.2;
      return true;
    }

    /**
     * `readStreamData`. It succeeds exactly when the stream holds every section
     * the header asks for; on success the reader holds what `ReadStream` gives.
     */
    method ReadStreamData(s: seq<byte>) returns (ok: bool)
      modifies this
      ensures streamOpen == old(streamOpen)
      ensures ok <==> ReadStream(old(State()), s).Some?
      ensures ok ==> State() == ReadStream(old(State()), s).value
    {
      var h := ReadLevelHeader(s);
      if h.None? {
        return false;
      }
      header := h.value.0;
      assert ReadStream(old(State()), s) == ReadModelsPart(State(), h.value.1);
      var afterLevel := ReadLevelSection(h.value.1);
      if afterLevel.None? {
        return false;
      }
      var afterLights := ReadLevelLighting(afterLevel.value);
      if afterLights.None? {
        return false;
      }
      ok := ReadLevelCheckPoint(afterLights.value);
    }

    /**
     * `loadBinaryFile`, with `file` the file's bytes or `None` when it cannot be
     * opened (the C++ throws a CommonException). A stream still open from an
     * earlier load cannot be opened again until `Clear`, so that load throws too. A stream too short for what its
     * header asks for is reported as `Malformed`.
     */
    method LoadBinaryFile(file: Option<seq<byte>>) returns (r: LoadResult)
      modifies this
      ensures r == CannotOpen <==> old(streamOpen) || file.None?
      ensures r == CannotOpen ==> State() == old(State()) && streamOpen == old(streamOpen)
      ensures r != CannotOpen ==> streamOpen && (r == Loaded <==> ReadStream(old(State()), file.value).Some?)
      ensures r == Loaded ==> State() == ReadStream(old(State()), file.value).value
    {
      if streamOpen || file.None? {
        return CannotOpen;
      }
      streamOpen := true;
      var ok := ReadStreamData(file.value);
      r := if ok then Loaded else Malformed;
    }

    method Clear()
      modifies this
      ensures State() == Cleared(old(State())) && !streamOpen
    {
      streamOpen := false;
      levelData, directional, point, spot, checkPoints := [], [], [], [], [];
    }
  }
}
