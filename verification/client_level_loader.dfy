/**
 * The client's own LevelBinaryLoader, an older reader of the same level file:
 * it reads every section whatever the header counts say, and reads exactly
 * three light blocks with no count in front of them.
 */
module ClientLevelBinaryLoader {
  import opened Wrappers
  import opened Bytes
  import opened LevelFormat
  import opened LevelBinaryLoader

  /** `readLevelLighting` runs its loop a fixed three times. */
  const LIGHT_BLOCKS: nat := 3

  /** `loadBinaryFile` after the file was opened: header, level, lighting and check points, in that order. */
  function ReadFile(st: LevelState, s: seq<byte>): Option<LevelState>
  {
    match ReadLevelHeader(s)
    case None => None
    case Some((h, rest)) => ReadAfterHeader(st.(header := h), rest)
  }

  function ReadAfterHeader(st: LevelState, s: seq<byte>): (r: Option<LevelState>)
    ensures r.Some? ==> r.value.header == st.header
  {
    match ReadLevel(s)
    case None => None
    case Some((ms, rest)) => ReadAfterLevel(st.(models := ms), rest)
  }

  function ReadAfterLevel(st: LevelState, s: seq<byte>): (r: Option<LevelState>)
    ensures r.Some? ==> r.value.header == st.header && r.value.models == st.models
  {
    match ReadLightBlocks(st.lights, s, LIGHT_BLOCKS)
    case None => None
    case Some((l, rest)) => ReadAfterLighting(st.(lights := l), rest)
  }

  function ReadAfterLighting(st: LevelState, s: seq<byte>): (r: Option<LevelState>)
    ensures r.Some? ==> r.value.header == st.header && r.value.models == st.models && r.value.lights == st.lights
  {
    match ReadCheckPointSection(s)
    case None => None
    case Some((start, end, cps, _)) => Some(st.(start := start, end := end, checkPoints := cps))
  }

  class Loader {
    var header: LevelHeader
    var levelData: seq<LevelModel>
    var directional: seq<DirectionalLight>
    var point: seq<PointLight>
    var spot: seq<SpotLight>
    var checkPoints: seq<CheckPoint>
    var checkPointStart: Float3
    var checkPointEnd: Float3

    function State(): LevelState
      reads this
    {
      LevelState(header, levelData, Lights(directional, point, spot), checkPoints, checkPointStart, checkPointEnd)
    }

    /** The C++ constructor sets nothing; the model starts from zero counts and empty lists. */
    constructor ()
      ensures State() == INITIAL
    {
      header := LevelHeader(0, 0, 0);
      levelData, directional, point, spot, checkPoints := [], [], [], [], [];
      checkPointStart, checkPointEnd := ORIGIN, ORIGIN;
    }

    /** `readLevelLighting`: three tagged blocks, each replacing the held list of its kind. */
    method ReadLevelLighting(s: seq<byte>) returns (next: Option<seq<byte>>)
      modifies this`directional, this`point, this`spot
      ensures ReadAfterLevel(old(State()), s) == if next.None? then None else ReadAfterLighting(State(), next.value)
    {
      var l := ReadLightBlockLoop(Lights(directional, point, spot), s, LIGHT_BLOCKS);
      if l.None? {
        return None;
      }
      directional, point, spot := l.value.0.directional, l.value.0.point, l.value.0.spot;
      return Some(l.value.1);
    }

    /** `readLevelCheckPoint`: start, end and the check points are replaced. */
    method ReadLevelCheckPoint(s: seq<byte>) returns (ok: bool)
      modifies this`checkPointStart, this`checkPointEnd, this`checkPoints
      ensures ReadAfterLighting(old(State()), s) == if ok then Some(State()) else None
    {
      var c := ReadCheckPointSection(s);
      if c.None? {
        return false;
      }
      checkPointStart, checkPointEnd, checkPoints := c.value.0, c.value.1, c.value.2;
      return true;
    }

    /**
     * `loadBinaryFile`, with `file` the file's bytes or `None` when it cannot be
     * opened (the C++ returns false). The C++ returns true for a stream too short
     * for what it reads; the model reports that case as `Malformed`.
     */
    method LoadBinaryFile(file: Option<seq<byte>>) returns (r: LoadResult)
      modifies this
      ensures file.None? <==> r == CannotOpen
      ensures file.None? ==> State() == old(State())
      ensures file.Some? ==> (r == Loaded <==> ReadFile(old(State()), file.value).Some?)
      ensures r == Loaded ==> State() == ReadFile(old(State()), file.value).value
    {
      if file.None? {
        return CannotOpen;
      }
      var s := file.value;
      var h := ReadLevelHeader(s);
      if h.None? {
        return Malformed;
      }
      header := h.value.0;
      var ms := ReadLevelRecords(h.value.1);
      if ms.None? {
        return Malformed;
      }
      levelData := ms.value.0;
      assert ReadFile(old(State()), s) == ReadAfterLevel(State(), ms.value.1);
      var afterLights := ReadLevelLighting(ms.value.1);
      if afterLights.None? {
        return Malformed;
      }
      var ok := ReadLevelCheckPoint(afterLights.value);
      r := if ok then Loaded else Malformed;
    }
  }
}
