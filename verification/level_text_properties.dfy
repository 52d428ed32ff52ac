/**
 * LevelTextProperties: what the section readers of `LevelLoader` read from
 * lines written the way the level files write them (a leading word, then
 * the values one space apart), and what `startReading` does with lines that
 * hold no key it knows.
 */
module LevelTextProperties {
  import opened Wrappers
  import opened Text
  import opened TextStream
  import MT = ModelTextLoader
  import opened LevelTextLoader

  // ---------------------------------------------------------------------
  // One line.

  /** Three values written as words. */
  predicate IsTriple(t: (string, string, string))
  {
    IsWord(t.0) && IsWord(t.1) && IsWord(t.2)
  }

  /** A line holding a leading word and three values. */
  function TripleLine(lead: string, t: (string, string, string)): string
  {
    ValueLine(lead, [t.0, t.1, t.2])
  }

  /** The three values as the floats read from them. */
  function Vector(t: (string, string, string)): Float3
  {
    MT.Float3(Some(t.0), Some(t.1), Some(t.2))
  }

  /** `>> filler >> v.x >> v.y >> v.z` on a line of three values reads those values, whatever `v` held. */
  lemma VectorLine(lead: string, t: (string, string, string), held: Float3)
    requires IsWord(lead) && IsTriple(t)
    ensures MT.Float3Of(TripleLine(lead, t), held, 3) == Vector(t)
    ensures VectorOf(TripleLine(lead, t)) == Vector(t)
  {
    ValueLineWords(lead, [t.0, t.1, t.2]);
    MT.Float3OfWords(TripleLine(lead, t), held, 3);
    MT.Float3OfWords(TripleLine(lead, t), MT.UNSET3, 3);
  }

  /** `readHeader`: a count written with `std::to_string` after a leading word reads back as that count. */
  lemma CountLine(lead: string, n: int)
    requires IsWord(lead) && INT_MIN <= n <= INT_MAX
    ensures IntAfterKey(FieldLine(lead, IntToString(n))) == Some(n)
  {
    IntTextIsWord(n);
    FieldLineWords(lead, IntToString(n));
    StreamIntRoundTrip(n);
  }

  /** A line of a leading word and one value: `>> filler >> s` reads the value as a string and as a float. */
  lemma WordLine(lead: string, w: string)
    requires IsWord(lead) && IsWord(w)
    ensures WordAfterKey(FieldLine(lead, w)) == w
    ensures FloatAfterKey(FieldLine(lead, w)) == Some(w)
    ensures KeyAfter(FieldLine(lead, w), "") == lead
  {
    FieldLineWords(lead, w);
  }

  // ---------------------------------------------------------------------
  // One section, as `startReading` dispatches it. `p` is the line after the key line.

  /** A header key sets its count from the next line and skips one more line. */
  lemma HeaderSection(m: Level, line: string, ls: seq<string>, p: nat, lead: string, n: int)
    requires KeyAfter(line, "") in {"*ObjectHeader*", "*LightHeader*", "*CheckPointHeader*"}
    requires IsWord(lead) && INT_MIN <= n <= INT_MAX
    requires p < |ls| && ls[p] == FieldLine(lead, IntToString(n))
    ensures var key := KeyAfter(line, "");
      Section(m, line, ls, p) ==
        (if key == "*ObjectHeader*" then m.(header := m.header.(models := Some(n)))
         else if key == "*LightHeader*" then m.(header := m.header.(lights := Some(n)))
         else m.(header := m.header.(checkPoints := Some(n))),
         p + 2)
  {
    CountLine(lead, n);
  }

  /** `#MESH: name` and its translation, rotation and scale lines append that model, and the pass ends after one more line. */
  lemma MeshSection(m: Level, ls: seq<string>, p: nat, name: string, leads: seq<string>,
                    translation: (string, string, string), rotation: (string, string, string), scale: (string, string, string))
    requires IsWord(name) && |leads| == 3 && IsWord(leads[0]) && IsWord(leads[1]) && IsWord(leads[2])
    requires IsTriple(translation) && IsTriple(rotation) && IsTriple(scale)
    requires p + 2 < |ls|
    requires ls[p] == TripleLine(leads[0], translation)
    requires ls[p + 1] == TripleLine(leads[1], rotation)
    requires ls[p + 2] == TripleLine(leads[2], scale)
    ensures Section(m, FieldLine("#MESH:", name), ls, p) ==
      (m.(models := m.models + [ModelStruct(name, Vector(translation), Vector(rotation), Vector(scale))]), p + 4)
  {
    WordLine("#MESH:", name);
    VectorLine(leads[0], translation, MT.UNSET3);
    VectorLine(leads[1], rotation, MT.UNSET3);
    VectorLine(leads[2], scale, MT.UNSET3);
  }

  /** The translation, color and type lines every light starts with. */
  predicate LightStart(ls: seq<string>, p: nat, leads: seq<string>, translation: (string, string, string),
                       color: (string, string, string), kind: string)
  {
    |leads| == 3 && IsWord(leads[0]) && IsWord(leads[1]) && IsWord(leads[2]) &&
    IsTriple(translation) && IsTriple(color) && IsWord(kind) &&
    p + 2 < |ls| &&
    ls[p] == TripleLine(leads[0], translation) &&
    ls[p + 1] == TripleLine(leads[1], color) &&
    ls[p + 2] == FieldLine(leads[2], kind)
  }

  /** The translation, color and kind a light's first three lines give. */
  lemma LightStartRead(ls: seq<string>, p: nat, leads: seq<string>, translation: (string, string, string),
                        color: (string, string, string), kind: string)
    requires LightStart(ls, p, leads, translation, color, kind)
    ensures VectorOf(LineAt(ls, p)) == Vector(translation)
    ensures VectorOf(LineAt(ls, p + 1)) == Vector(color)
    ensures WordAfterKey(LineAt(ls, p + 2)) == kind
  {
    VectorLine(leads[0], translation, MT.UNSET3);
    VectorLine(leads[1], color, MT.UNSET3);
    WordLine(leads[2], kind);
  }

  /** A directional light: intensity and direction lines; appended with type 0. */
  lemma DirectionalSection(m: Level, ls: seq<string>, p: nat, starts: seq<string>, translation: (string, string, string),
                           color: (string, string, string), leads: seq<string>, intensity: string, direction: (string, string, string))
    requires LightStart(ls, p, starts, translation, color, "kDirectionalLight")
    requires |leads| == 2 && IsWord(leads[0]) && IsWord(leads[1]) && IsWord(intensity) && IsTriple(direction)
    requires p + 4 < |ls| && ls[p + 3] == FieldLine(leads[0], intensity) && ls[p + 4] == TripleLine(leads[1], direction)
    ensures Light(m, ls, p) ==
      (m.(directional := m.directional + [(LightData(Vector(translation), Vector(color), 0),
                                           DirectionalLight(Some(intensity), Vector(direction)))]), p + 5)
  {
    LightStartRead(ls, p, starts, translation, color, "kDirectionalLight");
    WordLine(leads[0], intensity);
    VectorLine(leads[1], direction, MT.UNSET3);
  }

  /** A point light: an intensity line; appended with type 1. */
  lemma PointSection(m: Level, ls: seq<string>, p: nat, starts: seq<string>, translation: (string, string, string),
                     color: (string, string, string), lead: string, intensity: string)
    requires LightStart(ls, p, starts, translation, color, "kPointLight")
    requires IsWord(lead) && IsWord(intensity)
    requires p + 3 < |ls| && ls[p + 3] == FieldLine(lead, intensity)
    ensures Light(m, ls, p) ==
      (m.(point := m.point + [(LightData(Vector(translation), Vector(color), 1), PointLight(Some(intensity)))]), p + 4)
  {
    LightStartRead(ls, p, starts, translation, color, "kPointLight");
    WordLine(lead, intensity);
  }

  /** A spot light: intensity, direction and cone lines; appended with type 2. */
  lemma SpotSection(m: Level, ls: seq<string>, p: nat, starts: seq<string>, translation: (string, string, string),
                    color: (string, string, string), leads: seq<string>, intensity: string,
                    direction: (string, string, string), cone: string, penumbra: string)
    requires LightStart(ls, p, starts, translation, color, "kSpotLight")
    requires |leads| == 3 && IsWord(leads[0]) && IsWord(leads[1]) && IsWord(leads[2])
    requires IsWord(intensity) && IsTriple(direction) && IsWord(cone) && IsWord(penumbra)
    requires p + 5 < |ls| && ls[p + 3] == FieldLine(leads[0], intensity) && ls[p + 4] == TripleLine(leads[1], direction)
    requires ls[p + 5] == ValueLine(leads[2], [cone, penumbra])
    ensures Light(m, ls, p) ==
      (m.(spot := m.spot + [(LightData(Vector(translation), Vector(color), 2),
                             SpotLight(Some(intensity), Vector(direction), Some(cone), Some(penumbra)))]), p + 6)
  {
    LightStartRead(ls, p, starts, translation, color, "kSpotLight");
    WordLine(leads[0], intensity);
    VectorLine(leads[1], direction, MT.UNSET3);
    ValueLineWords(leads[2], [cone, penumbra]);
  }

  /** A light of a type `readLightList` does not know is read past, three lines, with no change. */
  lemma UnknownLightSection(m: Level, ls: seq<string>, p: nat, starts: seq<string>, translation: (string, string, string),
                            color: (string, string, string), kind: string)
    requires LightStart(ls, p, starts, translation, color, kind)
    requires kind !in {"kDirectionalLight", "kPointLight", "kSpotLight"}
    ensures Light(m, ls, p) == (m, p + 3)
  {
    LightStartRead(ls, p, starts, translation, color, kind);
  }

  /** `#Type: name` for a numbered checkpoint: the number and translation lines append that checkpoint. */
  lemma CheckPointNumbered(m: Level, ls: seq<string>, p: nat, kind: string, leads: seq<string>,
                           n: int, translation: (string, string, string))
    requires IsWord(kind) && kind != "Start" && kind != "End"
    requires |leads| == 2 && IsWord(leads[0]) && IsWord(leads[1]) && INT_MIN <= n <= INT_MAX && IsTriple(translation)
    requires p + 1 < |ls| && ls[p] == FieldLine(leads[0], IntToString(n)) && ls[p + 1] == TripleLine(leads[1], translation)
    ensures Section(m, FieldLine("#Type:", kind), ls, p) ==
      (m.(checkPoints := m.checkPoints + [CheckPoint(Some(n), Vector(translation))]), p + 3)
  {
    var line := FieldLine("#Type:", kind);
    WordLine("#Type:", kind);
    CountLine(leads[0], n);
    VectorLine(leads[1], translation, MT.UNSET3);
    SectionOfType(m, line, ls, p);
    assert LineAt(ls, p) == ls[p] && LineAt(ls, p + 1) == ls[p + 1];
    assert CheckPointSection(m, line, ls, p)
        == (m.(checkPoints := m.checkPoints + [CheckPoint(Some(n), Vector(translation))]), p + 2);
  }

  /** A `#Type:` line runs the checkpoint reader, then the extra `getline`. */
  lemma SectionOfType(m: Level, line: string, ls: seq<string>, p: nat)
    requires KeyOf(KeyAfter(line, "")) == TypeKey
    ensures Section(m, line, ls, p) == (CheckPointSection(m, line, ls, p).0, CheckPointSection(m, line, ls, p).1 + 1)
  {
  }

  /** `#Type: Start` or `#Type: End`: the next line sets that end of the course, whatever it held. */
  lemma CheckPointEnds(m: Level, ls: seq<string>, p: nat, kind: string, lead: string, translation: (string, string, string))
    requires kind == "Start" || kind == "End"
    requires IsWord(lead) && IsTriple(translation)
    requires p < |ls| && ls[p] == TripleLine(lead, translation)
    ensures Section(m, FieldLine("#Type:", kind), ls, p) ==
      (if kind == "Start" then m.(checkPointStart := Vector(translation)) else m.(checkPointEnd := Vector(translation)),
       p + 2)
  {
    WordLine("#Type:", kind);
    VectorLine(lead, translation, m.checkPointStart);
    VectorLine(lead, translation, m.checkPointEnd);
  }

  // ---------------------------------------------------------------------
  // startReading and loadLevel.

  /** Lines none of which starts with a key `startReading` knows are read past without a change. */
  lemma {:induction false} DispatchNoKeys(m: Level, ls: seq<string>, p: nat)
    requires forall k :: p <= k < |ls| ==> KeyOf(KeyAfter(ls[k], "")) == OtherKey
    ensures Dispatch(m, ls, p) == m
    decreases |ls| - p
  {
    if p < |ls| {
      DispatchNoKeys(m, ls, p + 1);
    }
  }

  /** A level file without keys loads to the cleared level with the header records. */
  lemma LoadNoKeys(ls: seq<string>, headerFile: Option<seq<byte>>)
    requires forall k :: 0 <= k < |ls| ==> KeyOf(KeyAfter(ls[k], "")) == OtherKey
    ensures Loaded(ls, headerFile) == CLEARED.(modelHeaders := FileRecords(headerFile))
  {
    DispatchNoKeys(CLEARED, ls, 0);
  }
}
