/**
 * LevelTextLoader: `LevelLoader`, which reads the text level file the level
 * converter starts from, and the binary model-header file that sits beside
 * it.
 *
 * A dispatch loop reads one line at a time; a line whose first word is a
 * known key hands the input to a section reader, and after the reader one
 * more line is skipped. The word after the key is still on the key line's
 * stream when a reader starts, so the mesh name and the checkpoint type come
 * from there. Each later line is read through a fresh `std::stringstream`,
 * as TextStream models it; floats are held as the words they were read from,
 * and a temporary that a failed extraction leaves unassigned holds None.
 *
 * The model-header file name comes from the level file's path (`getPath`);
 * its content is an input of the model, as is the level file's.
 */
module LevelTextLoader {
  import opened Wrappers
  import opened Text
  import opened TextStream
  import Bytes
  import MT = ModelTextLoader

  type Float3 = MT.Float3
  type byte = Bytes.byte
  type int32 = Bytes.int32

  /** The three counts of the level file's header blocks (None: the count's line held no value to read). */
  datatype LevelHeader = LevelHeader(models: Option<int>, lights: Option<int>, checkPoints: Option<int>)

  const ZERO_HEADER := LevelHeader(Some(0), Some(0), Some(0))

  /** `XMFLOAT3(0, 0, 0)`. */
  const ZERO3 := MT.Float3(MT.ZERO_WORD, MT.ZERO_WORD, MT.ZERO_WORD)

  /** One placed model. */
  datatype ModelStruct = ModelStruct(meshName: string, translation: Float3, rotation: Float3, scale: Float3)

  /** What every light has; `lightType` is 0, 1 or 2 for directional, point and spot. */
  datatype LightData = LightData(translation: Float3, color: Float3, lightType: int)

  datatype DirectionalLight = DirectionalLight(intensity: FloatWord, direction: Float3)

  datatype PointLight = PointLight(intensity: FloatWord)

  datatype SpotLight = SpotLight(intensity: FloatWord, direction: Float3, coneAngle: FloatWord, penumbraAngle: FloatWord)

  /** A numbered checkpoint (None: the number's line held no value to read). */
  datatype CheckPoint = CheckPoint(number: Option<int>, translation: Float3)

  /** One record of the model-header file. */
  datatype ModelHeader = ModelHeader(meshName: seq<byte>, animated: int32, transparency: int32, collidable: int32)

  /** Everything `LevelLoader` holds. */
  datatype Level = Level(header: LevelHeader, models: seq<ModelStruct>,
                         directional: seq<(LightData, DirectionalLight)>, point: seq<(LightData, PointLight)>,
                         spot: seq<(LightData, SpotLight)>, checkPointStart: Float3, checkPointEnd: Float3,
                         checkPoints: seq<CheckPoint>, modelHeaders: seq<ModelHeader>)

  /** What `clear` and `clearData` leave: no lists, zero counts, and start and end at the origin. */
  const CLEARED := Level(ZERO_HEADER, [], [], [], [], ZERO3, ZERO3, [], [])

  // ---------------------------------------------------------------------
  // One line through a stringstream.

  /** `>> key >> n` into an int that was never assigned. */
  function IntAfterKey(line: string): (r: Option<int>)
    ensures r == if |Words(line)| >= 2 then Some(StreamInt(Words(line)[1])) else None
  {
    TakeWordAt(Words(line), 0, "");
    var (_, c) := TakeWord(Open(line), "");
    TakeInt(c, None).0
  }

  /** `>> key >> s` into a fresh string: the second word of the line, or "" when it has none. */
  function WordAfterKey(line: string): (r: string)
    ensures r == WordValue(Second(line), "")
  {
    TakeWordAt(Words(line), 0, "");
    TakeWordAt(Words(line), 1, "");
    var (_, c) := TakeWord(Open(line), "");
    TakeWord(c, "").0
  }

  /** `>> filler >> f` into a fresh float. */
  function FloatAfterKey(line: string): (r: FloatWord)
    ensures r == WordAt(Words(line), 1, None)
  {
    TakeWordAt(Words(line), 0, "");
    var (_, c) := TakeWord(Open(line), "");
    TakeFloat(c, None).0
  }

  /** `>> filler >> f >> g` into two fresh floats. */
  function TwoFloatsAfterKey(line: string): (r: (FloatWord, FloatWord))
    ensures r == (WordAt(Words(line), 1, None), WordAt(Words(line), 2, None))
  {
    TakeWordAt(Words(line), 0, "");
    TakeFloatsAt(Words(line), 1, [None, None]);
    var (_, c) := TakeWord(Open(line), "");
    var (fs, _) := TakeFloats(c, [None, None]);
    (fs[0], fs[1])
  }

  /** `>> filler >> v.x >> v.y >> v.z` into a fresh XMFLOAT3. */
  function VectorOf(line: string): Float3
  {
    MT.Float3Of(line, MT.UNSET3, 3)
  }

  // ---------------------------------------------------------------------
  // The section readers. `p` is the line after the key line.

  /** `readMeshList`: the name from the key line, then translation, rotation and scale lines. */
  function MeshOf(line: string, ls: seq<string>, p: nat): (r: ModelStruct)
    ensures r.meshName == WordValue(Second(line), "")
  {
    ModelStruct(WordAfterKey(line), VectorOf(LineAt(ls, p)), VectorOf(LineAt(ls, p + 1)), VectorOf(LineAt(ls, p + 2)))
  }

  /** The light types `readLightList` knows. */
  datatype LightKind = DirectionalKind | PointKind | SpotKind | UnknownKind

  function KindOf(word: string): LightKind
  {
    if word == "kDirectionalLight" then DirectionalKind
    else if word == "kPointLight" then PointKind
    else if word == "kSpotLight" then SpotKind
    else UnknownKind
  }

  /** How many lines after the type line each kind of light reads. */
  function KindLines(k: LightKind): nat
  {
    match k
    case DirectionalKind => 2
    case PointKind => 1
    case SpotKind => 3
    case UnknownKind => 0
  }

  /**
   * `readLightList`: translation, color and type lines, then the lines of that
   * type, appended with its type number to the matching list. A type it does
   * not know appends nothing.
   */
  function Light(m: Level, ls: seq<string>, p: nat): (r: (Level, nat))
    ensures var kind := KindOf(WordAfterKey(LineAt(ls, p + 2)));
      r.1 == p + 3 + KindLines(kind) &&
      r.0 == m.(directional := r.0.directional, point := r.0.point, spot := r.0.spot) &&
      m.directional <= r.0.directional && m.point <= r.0.point && m.spot <= r.0.spot &&
      |r.0.directional| + |r.0.point| + |r.0.spot| ==
        |m.directional| + |m.point| + |m.spot| + (if kind == UnknownKind then 0 else 1)
    ensures |r.0.directional| > |m.directional| ==>
      KindOf(WordAfterKey(LineAt(ls, p + 2))) == DirectionalKind && r.0.directional[|m.directional|].0.lightType == 0
    ensures |r.0.point| > |m.point| ==>
      KindOf(WordAfterKey(LineAt(ls, p + 2))) == PointKind && r.0.point[|m.point|].0.lightType == 1
    ensures |r.0.spot| > |m.spot| ==>
      KindOf(WordAfterKey(LineAt(ls, p + 2))) == SpotKind && r.0.spot[|m.spot|].0.lightType == 2
  {
    var translation := VectorOf(LineAt(ls, p));
    var color := VectorOf(LineAt(ls, p + 1));
    match KindOf(WordAfterKey(LineAt(ls, p + 2)))
    case DirectionalKind =>
      var light := DirectionalLight(FloatAfterKey(LineAt(ls, p + 3)), VectorOf(LineAt(ls, p + 4)));
      (m.(directional := m.directional + [(LightData(translation, color, 0), light)]), p + 5)
    case PointKind =>
      var light := PointLight(FloatAfterKey(LineAt(ls, p + 3)));
      (m.(point := m.point + [(LightData(translation, color, 1), light)]), p + 4)
    case SpotKind =>
      var (cone, penumbra) := TwoFloatsAfterKey(LineAt(ls, p + 5));
      var light := SpotLight(FloatAfterKey(LineAt(ls, p + 3)), VectorOf(LineAt(ls, p + 4)), cone, penumbra);
      (m.(spot := m.spot + [(LightData(translation, color, 2), light)]), p + 6)
    case UnknownKind => (m, p + 3)
  }

  /**
   * `readCheckPointList`: the type is the word after the key. "Start" and
   * "End" read one line into the start or end position (a failed extraction
   * keeps what was there); any other type reads a number line and a
   * translation line and appends a checkpoint.
   */
  function CheckPointSection(m: Level, line: string, ls: seq<string>, p: nat): (r: (Level, nat))
    ensures WordAfterKey(line) == "Start" ==> r.0 == m.(checkPointStart := r.0.checkPointStart) && r.1 == p + 1
    ensures WordAfterKey(line) == "End" ==> r.0 == m.(checkPointEnd := r.0.checkPointEnd) && r.1 == p + 1
    ensures WordAfterKey(line) != "Start" && WordAfterKey(line) != "End" ==>
      r.0 == m.(checkPoints := r.0.checkPoints) && r.1 == p + 2 &&
      r.0.checkPoints == m.checkPoints + [CheckPoint(IntAfterKey(LineAt(ls, p)), VectorOf(LineAt(ls, p + 1)))]
  {
    var kind := WordAfterKey(line);
    if kind == "Start" then (m.(checkPointStart := MT.Float3Of(LineAt(ls, p), m.checkPointStart, 3)), p + 1)
    else if kind == "End" then (m.(checkPointEnd := MT.Float3Of(LineAt(ls, p), m.checkPointEnd, 3)), p + 1)
    else
      var cp := CheckPoint(IntAfterKey(LineAt(ls, p)), VectorOf(LineAt(ls, p + 1)));
      (m.(checkPoints := m.checkPoints + [cp]), p + 2)
  }

  /** The keys `startReading` knows. */
  datatype LevelKey = ObjectHeaderKey | LightHeaderKey | CheckPointHeaderKey | MeshKey | LightKey | TypeKey | OtherKey

  function KeyOf(key: string): LevelKey
  {
    if key == "*ObjectHeader*" then ObjectHeaderKey
    else if key == "*LightHeader*" then LightHeaderKey
    else if key == "*CheckPointHeader*" then CheckPointHeaderKey
    else if key == "#MESH:" then MeshKey
    else if key == "#Light:" then LightKey
    else if key == "#Type:" then TypeKey
    else OtherKey
  }

  /**
   * One pass of `startReading`'s loop for the key line `line`: the section
   * reader the key chooses, then the extra `getline`. A header key sets its
   * count from the next line (`readHeader`).
   */
  function Section(m: Level, line: string, ls: seq<string>, p: nat): (r: (Level, nat))
    ensures p <= r.1
    ensures r.0.modelHeaders == m.modelHeaders
    ensures KeyOf(KeyAfter(line, "")) == OtherKey ==> r == (m, p)
  {
    match KeyOf(KeyAfter(line, ""))
    case ObjectHeaderKey => (m.(header := m.header.(models := IntAfterKey(LineAt(ls, p)))), p + 2)
    case LightHeaderKey => (m.(header := m.header.(lights := IntAfterKey(LineAt(ls, p)))), p + 2)
    case CheckPointHeaderKey => (m.(header := m.header.(checkPoints := IntAfterKey(LineAt(ls, p)))), p + 2)
    case MeshKey => (m.(models := m.models + [MeshOf(line, ls, p)]), p + 4)
    case LightKey => var (m1, q) := Light(m, ls, p); (m1, q + 1)
    case TypeKey => var (m1, q) := CheckPointSection(m, line, ls, p); (m1, q + 1)
    case OtherKey => (m, p)
  }

  /** `startReading` from line `p` to the end of the file. */
  function Dispatch(m: Level, ls: seq<string>, p: nat): (r: Level)
    ensures r.modelHeaders == m.modelHeaders
    decreases |ls| - p
  {
    if p >= |ls| then m
    else
      var (m1, q) := Section(m, ls[p], ls, p + 1);
      Dispatch(m1, ls, q)
  }

  // ---------------------------------------------------------------------
  // The model-header file, as `readModelHeaders` writes it into the level.

  /** How a model-header record is stored: the name as a length and its bytes, then three ints. */
  function HeaderBytes(h: ModelHeader): seq<byte>
  {
    Bytes.StringToBytes(h.meshName) + Bytes.IntToBytes(h.animated) + Bytes.IntToBytes(h.transparency)
      + Bytes.IntToBytes(h.collidable)
  }

  /** What reading one record meets: a whole record, a file cut short, or a negative name length. */
  datatype RecordRead = Record(header: ModelHeader, rest: seq<byte>) | Cut | BadLength

  /**
   * `byteToString` then three `byteToInt`. A negative name length makes the
   * name buffer's allocation throw; too few bytes for any part is a failed read.
   */
  function ReadRecord(s: seq<byte>): (r: RecordRead)
    ensures r.Record? ==> |r.rest| + 16 <= |s|
    ensures r.BadLength? <==> |s| >= 4 && Bytes.BytesToInt(s[..4]) < 0
  {
    match Bytes.ReadString(s)
    case None => if |s| >= 4 && Bytes.BytesToInt(s[..4]) < 0 then BadLength else Cut
    case Some((name, r1)) =>
      match Bytes.ReadInt(r1)
      case None => Cut
      case Some((animated, r2)) =>
        match Bytes.ReadInt(r2)
        case None => Cut
        case Some((transparency, r3)) =>
          match Bytes.ReadInt(r3)
          case None => Cut
          case Some((collidable, r4)) => Record(ModelHeader(name, animated, transparency, collidable), r4)
  }

  lemma ReadRecordRoundTrip(h: ModelHeader, rest: seq<byte>)
    requires |h.meshName| < Bytes.TWO31
    ensures ReadRecord(HeaderBytes(h) + rest) == Record(h, rest)
  {
    var a := Bytes.IntToBytes(h.animated);
    var t := Bytes.IntToBytes(h.transparency);
    var c := Bytes.IntToBytes(h.collidable);
    assert HeaderBytes(h) + rest == Bytes.StringToBytes(h.meshName) + (a + t + c + rest);
    Bytes.StringRoundTrip(h.meshName, a + t + c + rest);
    assert a + t + c + rest == a + (t + c + rest);
    Bytes.ReadIntRoundTrip(h.animated, t + c + rest);
    assert t + c + rest == t + (c + rest);
    Bytes.ReadIntRoundTrip(h.transparency, c + rest);
    Bytes.ReadIntRoundTrip(h.collidable, rest);
  }

  /** Record readers that always move forward through the file. */
  ghost predicate Advances(read: seq<byte> -> RecordRead)
  {
    forall s :: read(s).Record? ==> |read(s).rest| < |s|
  }

  lemma ReadRecordAdvances()
    ensures Advances(ReadRecord)
  {
  }

  /**
   * The records `read` finds in a file, reading up to its end or up to the
   * first record that cannot be read whole; the flag says whether the end was
   * reached.
   */
  function RecordsWith(read: seq<byte> -> RecordRead, s: seq<byte>): (r: (seq<ModelHeader>, bool))
    requires Advances(read)
    decreases |s|
  {
    if s == [] then ([], true)
    else
      match read(s)
      case Record(h, rest) => var (hs, whole) := RecordsWith(read, rest); ([h] + hs, whole)
      case _ => ([], false)
  }

  /** The records of a model-header file. */
  function Records(s: seq<byte>): (seq<ModelHeader>, bool)
  {
    ReadRecordAdvances();
    RecordsWith(ReadRecord, s)
  }

  /** A file of records written one after the other reads back as those records, to its end. */
  lemma {:induction false} RecordsRoundTrip(hs: seq<ModelHeader>)
    requires forall i :: 0 <= i < |hs| ==> |hs[i].meshName| < Bytes.TWO31
    ensures Records(Bytes.EncodeAll(hs, HeaderBytes)) == (hs, true)
  {
    if hs != [] {
      var rest := Bytes.EncodeAll(hs[1..], HeaderBytes);
      ReadRecordRoundTrip(hs[0], rest);
      assert HeaderBytes(hs[0]) != [];
      RecordsRoundTrip(hs[1..]);
      assert [hs[0]] + hs[1..] == hs;
    }
  }

  /** The records `readModelHeaders` appends: none when the file cannot be opened. */
  function FileRecords(file: Option<seq<byte>>): seq<ModelHeader>
  {
    match file
    case None => []
    case Some(s) => Records(s).0
  }

  /**
   * `readModelHeaders` as written, one pass of `while (tellg() < size)` at a
   * time. `rest` is what is left to read, or None once a read has failed and
   * `tellg` reports -1. A record pushed after a failed read holds whatever the
   * failed reads left: None here.
   */
  datatype Scan = Scan(rest: Option<seq<byte>>, headers: seq<Option<ModelHeader>>)

  datatype ScanStep = Next(scan: Scan) | Threw

  /** `tellg()` in a file of `size` bytes. */
  function Tell(size: int, st: Scan): int
  {
    match st.rest
    case None => -1
    case Some(r) => size - |r|
  }

  /** The loop body: a record read and pushed, whatever the reads did. */
  function StepAsWritten(read: seq<byte> -> RecordRead, st: Scan): (r: ScanStep)
    ensures r.Next? ==> |r.scan.headers| == |st.headers| + 1
  {
    match st.rest
    case None => Next(Scan(None, st.headers + [None]))
    case Some(s) =>
      match read(s)
      case BadLength => Threw
      case Cut => Next(Scan(None, st.headers + [None]))
      case Record(h, rest) => Next(Scan(Some(rest), st.headers + [Some(h)]))
  }

  /**
   * Up to `k` passes of the loop over a file of `size` bytes, stopping when
   * `tellg() < size` no longer holds; `read` reads one record (`ReadRecord`).
   */
  function ScanAsWritten(read: seq<byte> -> RecordRead, size: int, st: Scan, k: nat): (r: ScanStep)
    decreases k
  {
    if k == 0 || Tell(size, st) >= size then Next(st)
    else
      match StepAsWritten(read, st)
      case Threw => Threw
      case Next(st1) => ScanAsWritten(read, size, st1, k - 1)
  }

  /** Once a read has failed, `tellg` stays -1: every further pass pushes a record and the loop goes on. */
  lemma {:induction false} FailedScanContinues(read: seq<byte> -> RecordRead, size: nat, hs: seq<Option<ModelHeader>>, k: nat)
    ensures var r := ScanAsWritten(read, size, Scan(None, hs), k);
      r.Next? && Tell(size, r.scan) < size && |r.scan.headers| == |hs| + k
    decreases k
  {
    if k > 0 {
      FailedScanContinues(read, size, hs + [None], k - 1);
    }
  }

  /**
   * A model-header file whose only record is cut short (a name length of 1
   * and no name byte) keeps the loop running: after any number of passes
   * `tellg() < size` still holds, and one more record has been pushed each time.
   */
  lemma TruncatedHeaderFileNeverEnds(k: nat)
    ensures var s: seq<byte> := [1, 0, 0, 0];
      var r := ScanAsWritten(ReadRecord, |s|, Scan(Some(s), []), k + 1);
      r.Next? && Tell(|s|, r.scan) < |s| && |r.scan.headers| == k + 1
  {
    var s: seq<byte> := [1, 0, 0, 0];
    assert s[..4] == s;
    assert Bytes.BytesToInt(s[..4]) == 1;
    assert Bytes.ReadString(s).None?;
    assert ReadRecord(s) == Cut;
    assert StepAsWritten(ReadRecord, Scan(Some(s), [])) == Next(Scan(None, [None]));
    assert Tell(|s|, Scan(Some(s), [])) == 0;
    assert ScanAsWritten(ReadRecord, |s|, Scan(Some(s), []), k + 1) == ScanAsWritten(ReadRecord, |s|, Scan(None, [None]), k);
    FailedScanContinues(ReadRecord, |s|, [None], k);
  }

  /** Every header as a record that was read whole. */
  function Somes(hs: seq<ModelHeader>): (r: seq<Option<ModelHeader>>)
    ensures |r| == |hs|
  {
    if hs == [] then [] else [Some(hs[0])] + Somes(hs[1..])
  }

  /**
   * Where the corrected reader reads a file to its end, the loop as written
   * reads the same records and stops there too; `acc` is what was pushed before.
   */
  lemma {:induction false} ScanAgreesWithRecords(read: seq<byte> -> RecordRead, size: int, rest: seq<byte>,
                                                 hs: seq<ModelHeader>, acc: seq<Option<ModelHeader>>, extra: nat)
    requires Advances(read) && RecordsWith(read, rest) == (hs, true)
    ensures ScanAsWritten(read, size, Scan(Some(rest), acc), |hs| + extra) == Next(Scan(Some([]), acc + Somes(hs)))
    decreases |rest|
  {
    if rest == [] {
      assert acc + Somes(hs) == acc;
    } else {
      var h := read(rest).header;
      var rest1 := read(rest).rest;
      var hs1 := RecordsWith(read, rest1).0;
      var acc1 := acc + [Some(h)];
      ScanAgreesWithRecords(read, size, rest1, hs1, acc1, extra);
      assert hs == [h] + hs1 && Somes(hs) == [Some(h)] + Somes(hs1) by {
        assert ([h] + hs1)[1..] == hs1;
      }
      ScanThen(read, size, Scan(Some(rest), acc), Scan(Some(rest1), acc1), |hs| + extra,
               Next(Scan(Some([]), acc1 + Somes(hs1))));
      assert acc1 + Somes(hs1) == acc + Somes(hs);
    }
  }

  /** A pass that reads on, followed by the rest of the loop. */
  lemma ScanThen(read: seq<byte> -> RecordRead, size: int, st: Scan, st1: Scan, k: nat, last: ScanStep)
    requires Tell(size, st) < size && 0 < k
    requires StepAsWritten(read, st) == Next(st1)
    requires ScanAsWritten(read, size, st1, k - 1) == last
    ensures ScanAsWritten(read, size, st, k) == last
  {
  }

  /** Where the corrected reader reads a file to its end, so does the loop as written, with the same records. */
  lemma ScanReadsWholeFile(s: seq<byte>, hs: seq<ModelHeader>)
    requires Records(s) == (hs, true)
    ensures ScanAsWritten(ReadRecord, |s|, Scan(Some(s), []), |hs|) == Next(Scan(Some([]), Somes(hs)))
  {
    ReadRecordAdvances();
    ScanReadsAll(ReadRecord, s, hs);
  }

  /** The same, for any reader that always moves on. */
  lemma ScanReadsAll(read: seq<byte> -> RecordRead, s: seq<byte>, hs: seq<ModelHeader>)
    requires Advances(read) && RecordsWith(read, s) == (hs, true)
    ensures ScanAsWritten(read, |s|, Scan(Some(s), []), |hs|) == Next(Scan(Some([]), Somes(hs)))
  {
    ScanAgreesWithRecords(read, |s|, s, hs, [], 0);
    assert |hs| + 0 == |hs| && [] + Somes(hs) == Somes(hs);
  }

  /** A well-formed header file: the loop as written reads exactly its records and stops at its end. */
  lemma ScanWellFormedFile(hs: seq<ModelHeader>)
    requires forall i :: 0 <= i < |hs| ==> |hs[i].meshName| < Bytes.TWO31
    ensures var s := Bytes.EncodeAll(hs, HeaderBytes);
      ScanAsWritten(ReadRecord, |s|, Scan(Some(s), []), |hs|) == Next(Scan(Some([]), Somes(hs)))
  {
    RecordsRoundTrip(hs);
    ScanReadsWholeFile(Bytes.EncodeAll(hs, HeaderBytes), hs);
  }

  // ---------------------------------------------------------------------
  // The model-header file's name.

  const HEADER_FILE := "ModelHeader.txx"

  /** The path without its trailing separators. */
  function TrimSeparators(s: string): (r: string)
    ensures |r| <= |s| && r == s[..|r|]
    ensures r == [] || r[|r| - 1] != '\\'
    ensures forall k :: |r| <= k < |s| ==> s[k] == '\\'
  {
    if s != [] && s[|s| - 1] == '\\' then TrimSeparators(s[..|s| - 1]) else s
  }

  /** How many characters at the end of `s` are not separators. */
  function TailLength(s: string): (k: nat)
    ensures k <= |s|
    ensures forall j :: |s| - k <= j < |s| ==> s[j] != '\\'
    ensures k < |s| ==> s[|s| - k - 1] == '\\'
  {
    if s != [] && s[|s| - 1] != '\\' then 1 + TailLength(s[..|s| - 1]) else 0
  }

  /**
   * `getPath`: the path with its last separator-delimited component cut off,
   * then "ModelHeader.txx" and a NUL character. A path with no component at
   * all leaves `strlen` a null pointer: None.
   */
  function GetPath(path: string): (r: Option<string>)
  {
    var t := TrimSeparators(path);
    if t == [] then None
    else Some(path[..|path| - TailLength(t)] + HEADER_FILE + [0 as char])
  }

  /** The first position at or after `i` that is not a separator. */
  function SkipSeparators(s: string, i: nat): (j: nat)
    requires i <= |s|
    ensures i <= j <= |s|
    ensures forall k :: i <= k < j ==> s[k] == '\\'
    ensures j < |s| ==> s[j] != '\\'
    decreases |s| - i
  {
    if i < |s| && s[i] == '\\' then SkipSeparators(s, i + 1) else i
  }

  /** The first position at or after `i` that is a separator, or the end. */
  function TokenEnd(s: string, i: nat): (j: nat)
    requires i <= |s|
    ensures i <= j <= |s|
    ensures forall k :: i <= k < j ==> s[k] != '\\'
    ensures j < |s| ==> s[j] == '\\'
    decreases |s| - i
  {
    if i < |s| && s[i] != '\\' then TokenEnd(s, i + 1) else i
  }

  /** A maximal run of non-separators `s[b..e]`. */
  predicate IsToken(s: string, b: nat, e: nat)
  {
    b < e <= |s| && (forall k :: b <= k < e ==> s[k] != '\\') &&
    (b == 0 || s[b - 1] == '\\') && (e == |s| || s[e] == '\\')
  }

  /** `strtok(.., "\\")` from position `i`: the next token's bounds, or None when only separators are left. */
  function Strtok(s: string, i: nat): (r: Option<(nat, nat)>)
    requires i <= |s|
    requires i == 0 || s[i - 1] == '\\' || i == |s| || s[i] == '\\'
    ensures r.Some? ==> IsToken(s, r.value.0, r.value.1) && i <= r.value.0
    ensures r.None? ==> forall k :: i <= k < |s| ==> s[k] == '\\'
  {
    var b := SkipSeparators(s, i);
    if b == |s| then None else Some((b, TokenEnd(s, b)))
  }

  /** Trailing separators from `e` on do not change the trimmed path. */
  lemma {:induction false} TrimTail(s: string, e: nat)
    requires e <= |s| && forall k :: e <= k < |s| ==> s[k] == '\\'
    ensures TrimSeparators(s) == TrimSeparators(s[..e])
    decreases |s| - e
  {
    if e < |s| {
      assert s[|s| - 1] == '\\';
      var s1 := s[..|s| - 1];
      assert s1[..e] == s[..e];
      TrimTail(s1, e);
    }
  }

  /** A token's length is the tail length of the path up to its end. */
  lemma {:induction false} TailOfToken(s: string, b: nat, e: nat)
    requires b <= e <= |s| && forall k :: b <= k < e ==> s[k] != '\\'
    requires b == 0 || s[b - 1] == '\\'
    ensures TailLength(s[..e]) == e - b
    decreases e - b
  {
    if b < e {
      assert s[..e][..e - 1] == s[..e - 1];
      TailOfToken(s, b, e - 1);
    } else if b > 0 {
      assert s[..e][e - 1] == '\\';
    }
  }

  /** `getPath` as written: the `strtok` loop keeps the last token, and its length decides how much of the path stays. */
  method GetPathScan(path: string) returns (r: Option<string>)
    ensures r == GetPath(path)
  {
    var tmp := Strtok(path, 0);
    var last: Option<(nat, nat)> := None;
    while tmp.Some?
      invariant tmp.Some? ==> IsToken(path, tmp.value.0, tmp.value.1)
      invariant last.Some? ==> IsToken(path, last.value.0, last.value.1)
      invariant last.None? ==> tmp == Strtok(path, 0)
      invariant last.Some? ==> tmp == Strtok(path, last.value.1)
      decreases if tmp.Some? then |path| - tmp.value.0 else 0
    {
      last := tmp;
      tmp := Strtok(path, tmp.value.1);
    }
    if last.None? {
      TrimTail(path, 0);
      return None;
    }
    var (b, e) := last.value;
    TrimTail(path, e);
    assert TrimSeparators(path[..e]) == path[..e];
    TailOfToken(path, b, e);
    var length := |path| + 1;
    var size := (e - b) + 1;
    r := Some(path[..length - size] + HEADER_FILE + [0 as char]);
  }

  /**
   * For a path that ends in a file name, `getPath` keeps everything up to and
   * including the last separator (nothing, when there is none) and appends the
   * header file's name and a NUL.
   */
  lemma GetPathKeepsDirectory(path: string)
    requires path != [] && path[|path| - 1] != '\\'
    ensures var k := |path| - TailLength(path);
      k < |path| && (k == 0 || path[k - 1] == '\\') && (forall j :: k <= j < |path| ==> path[j] != '\\') &&
      GetPath(path) == Some(path[..k] + HEADER_FILE + [0 as char])
  {
    assert TrimSeparators(path) == path;
  }

  /** `getPath` has no result exactly when the path is nothing but separators. */
  lemma GetPathNone(path: string)
    ensures GetPath(path).None? <==> forall k :: 0 <= k < |path| ==> path[k] == '\\'
  {
    var t := TrimSeparators(path);
    if t != [] {
      assert path[|t| - 1] == t[|t| - 1];
    }
  }

  // ---------------------------------------------------------------------
  // The loader.

  /** The level a successful `loadLevel` leaves: the file read from a cleared level, then the header records. */
  function Loaded(ls: seq<string>, headerFile: Option<seq<byte>>): (r: Level)
    ensures r.modelHeaders == FileRecords(headerFile)
  {
    var m := Dispatch(CLEARED, ls, 0);
    m.(modelHeaders := m.modelHeaders + FileRecords(headerFile))
  }

  /** `LevelLoader`: its fields are held as one `Level` value, updated in place by the methods. */
  class LevelLoader {
    var members: Level

    /** The three counts start at 0; the start and end positions are not set. */
    constructor()
      ensures members == Level(ZERO_HEADER, [], [], [], [], MT.UNSET3, MT.UNSET3, [], [])
    {
      members := Level(ZERO_HEADER, [], [], [], [], MT.UNSET3, MT.UNSET3, [], []);
    }

    /** `clear`, and `clearData`, which does the same. */
    method Clear()
      modifies this
      ensures members == CLEARED
    {
      members := members.(models := [], checkPointStart := ZERO3, checkPointEnd := ZERO3, checkPoints := []);
      members := members.(directional := [], point := [], spot := [], header := ZERO_HEADER, modelHeaders := []);
    }

    /**
     * `loadLevel`: `file` is the level file's lines and `headerFile` the bytes
     * of the file `GetPath` names (None: cannot be opened). Nothing changes
     * when the level file cannot be opened.
     */
    method LoadLevel(file: Option<seq<string>>, headerFile: Option<seq<byte>>) returns (ok: bool)
      modifies this
      ensures ok <==> file.Some?
      ensures !ok ==> members == old(members)
      ensures ok ==> members == Loaded(file.value, headerFile)
    {
      if file.None? {
        return false;
      }
      Clear();
      StartReading(file.value);
      ReadModelHeaders(headerFile);
      return true;
    }

    /** `startReading`: one key line at a time, to the end of the file. */
    method StartReading(ls: seq<string>)
      modifies this
      ensures members == Dispatch(old(members), ls, 0)
    {
      var p := 0;
      while p < |ls|
        invariant Dispatch(members, ls, p) == Dispatch(old(members), ls, 0)
        decreases |ls| - p
      {
        p := ReadSection(ls[p], ls, p + 1);
      }
    }

    /** The body of `startReading`'s loop for the key line `line`; `p` is the next line. */
    method ReadSection(line: string, ls: seq<string>, p: nat) returns (q: nat)
      modifies this
      ensures (members, q) == Section(old(members), line, ls, p)
    {
      match KeyOf(KeyAfter(line, "")) {
        case ObjectHeaderKey =>
          members := members.(header := members.header.(models := IntAfterKey(LineAt(ls, p))));
          q := p + 2;
        case LightHeaderKey =>
          members := members.(header := members.header.(lights := IntAfterKey(LineAt(ls, p))));
          q := p + 2;
        case CheckPointHeaderKey =>
          members := members.(header := members.header.(checkPoints := IntAfterKey(LineAt(ls, p))));
          q := p + 2;
        case MeshKey =>
          ReadMeshList(line, ls, p);
          q := p + 4;
        case LightKey =>
          q := ReadLightList(ls, p);
          q := q + 1;
        case TypeKey =>
          q := ReadCheckPointList(line, ls, p);
          q := q + 1;
        case OtherKey =>
          q := p;
      }
    }

    /** `readMeshList`. */
    method ReadMeshList(line: string, ls: seq<string>, p: nat)
      modifies this
      ensures members == old(members).(models := old(members).models + [MeshOf(line, ls, p)])
    {
      var mesh := ModelStruct(WordAfterKey(line), VectorOf(LineAt(ls, p)), VectorOf(LineAt(ls, p + 1)),
                              VectorOf(LineAt(ls, p + 2)));
      members := members.(models := members.models + [mesh]);
    }

    /** `readLightList`; returns the line after the last one it read. */
    method ReadLightList(ls: seq<string>, p: nat) returns (q: nat)
      modifies this
      ensures (members, q) == Light(old(members), ls, p)
    {
      var translation := VectorOf(LineAt(ls, p));
      var color := VectorOf(LineAt(ls, p + 1));
      var kind := KindOf(WordAfterKey(LineAt(ls, p + 2)));
      if kind == DirectionalKind {
        var light := DirectionalLight(FloatAfterKey(LineAt(ls, p + 3)), VectorOf(LineAt(ls, p + 4)));
        members := members.(directional := members.directional + [(LightData(translation, color, 0), light)]);
        return p + 5;
      }
      if kind == PointKind {
        var light := PointLight(FloatAfterKey(LineAt(ls, p + 3)));
        members := members.(point := members.point + [(LightData(translation, color, 1), light)]);
        return p + 4;
      }
      if kind == SpotKind {
        var (cone, penumbra) := TwoFloatsAfterKey(LineAt(ls, p + 5));
        var light := SpotLight(FloatAfterKey(LineAt(ls, p + 3)), VectorOf(LineAt(ls, p + 4)), cone, penumbra);
        members := members.(spot := members.spot + [(LightData(translation, color, 2), light)]);
        return p + 6;
      }
      q := p + 3;
    }

    /** `readCheckPointList`; returns the line after the last one it read. */
    method ReadCheckPointList(line: string, ls: seq<string>, p: nat) returns (q: nat)
      modifies this
      ensures (members, q) == CheckPointSection(old(members), line, ls, p)
    {
      var kind := WordAfterKey(line);
      if kind == "Start" {
        members := members.(checkPointStart := MT.Float3Of(LineAt(ls, p), members.checkPointStart, 3));
        q := p + 1;
      } else if kind == "End" {
        members := members.(checkPointEnd := MT.Float3Of(LineAt(ls, p), members.checkPointEnd, 3));
        q := p + 1;
      } else {
        var cp := CheckPoint(IntAfterKey(LineAt(ls, p)), VectorOf(LineAt(ls, p + 1)));
        members := members.(checkPoints := members.checkPoints + [cp]);
        q := p + 2;
      }
    }

    /**
     * `readModelHeaders`, reading records until the end of the file and
     * stopping at the first record that cannot be read whole.
     */
    method ReadModelHeaders(file: Option<seq<byte>>)
      modifies this
      ensures members == old(members).(modelHeaders := old(members).modelHeaders + FileRecords(file))
    {
      if file.None? {
        return;
      }
      var rest := file.value;
      var acc: seq<ModelHeader> := [];
      while rest != []
        invariant Records(file.value).0 == acc + Records(rest).0
        decreases |rest|
      {
        match ReadRecord(rest) {
          case Record(h, r) =>
            assert acc + Records(rest).0 == (acc + [h]) + Records(r).0;
            acc := acc + [h];
            rest := r;
          case Cut =>
            break;
          case BadLength =>
            break;
        }
      }
      assert acc + Records(rest).0 == acc;
      members := members.(modelHeaders := members.modelHeaders + acc);
    }
  }
}
