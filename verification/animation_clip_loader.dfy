/**
 * AnimationClipLoader: the three block parsers over an .mlx text file. Each
 * scans the file line by line for its block header ("*Clip", "*IKgroup",
 * "*Path"), reads the block's fields one line each ("key value"), and inserts
 * the result into a map under its name, where an earlier entry of the same
 * name is kept. A file that cannot be opened yields a map holding only the
 * default entry.
 *
 * The file is its list of lines, `None` when it cannot be opened; every line
 * is taken to end with a line break.
 */
module AnimationClipLoader {
  import opened Wrappers
  import opened Text
  import opened AnimationData

  /** The field lines after a "*Clip" line. */
  const CLIP_FIELDS: nat := 13
  /** The field lines after a "*IKgroup" line. */
  const IK_FIELDS: nat := 4
  const END_PATH := "*EndPath"

  // ---------------------------------------------------------------------
  // Clips.

  /**
   * The field values of a "*Clip" block read into the clip variable, which
   * still holds the previous block's values: a line without a value leaves
   * its field as it was. Start and end are lowered by one after reading.
   */
  function ClipOf(fs: seq<Option<string>>, prev: Clip): Clip
    requires |fs| == CLIP_FIELDS
  {
    Clip(
      WordValue(fs[0], prev.name),
      WordValue(fs[1], prev.speed),
      IntValue(fs[2], prev.start) - 1,
      IntValue(fs[3], prev.end) - 1,
      BoolValue(fs[4], prev.loop),
      WordValue(fs[5], prev.firstJoint),
      IntValue(fs[6], prev.destinationTrack),
      BoolValue(fs[7], prev.layered),
      BoolValue(fs[8], prev.fadeIn),
      IntValue(fs[9], prev.fadeInFrames),
      BoolValue(fs[10], prev.fadeOut),
      IntValue(fs[11], prev.fadeOutFrames),
      WordValue(fs[12], prev.weight))
  }

  /** The clip read from the field lines `ls` after a "*Clip" line. */
  function ReadClip(ls: seq<string>, prev: Clip): Clip
  {
    ClipOf(FieldValues(ls, CLIP_FIELDS), prev)
  }

  function ClipName(c: Clip): string
  {
    c.name
  }

  /**
   * The clips found in `ls`, given the clip variable `prev` and the map `acc`
   * so far. Entries already in `acc` stay, and every clip is under its own
   * name.
   */
  function ClipsFrom(ls: seq<string>, prev: Clip, acc: map<string, Clip>): (r: map<string, Clip>)
    decreases |ls|
    ensures forall k :: k in acc ==> k in r && r[k] == acc[k]
    ensures forall k :: k in r ==> k in acc || r[k].name == k
  {
    if ls == [] then acc
    else if KeyAfter(ls[0], "") == "*Clip" then
      var c := ReadClip(ls[1..], prev);
      ClipsFrom(Drop(ls, 1 + CLIP_FIELDS), c, Insert(acc, c.name, c))
    else ClipsFrom(ls[1..], prev, acc)
  }

  /** `loadAnimationClip`. */
  function LoadedClips(file: Option<seq<string>>): map<string, Clip>
  {
    match file
    case None => map["default" := DEFAULT_CLIP]
    case Some(ls) => ClipsFrom(ls, DEFAULT_CLIP, map[])
  }

  /** `loadAnimationClip`'s line loop. */
  method LoadAnimationClip(file: Option<seq<string>>) returns (clips: map<string, Clip>)
    ensures clips == LoadedClips(file)
    ensures file.None? ==> clips == map["default" := DEFAULT_CLIP]
    ensures forall k :: k in clips ==> clips[k].name == k
  {
    if file.None? {
      return map["default" := DEFAULT_CLIP];
    }
    var lines := file.value;
    var ac := DEFAULT_CLIP;
    clips := map[];
    var rest := lines;
    while rest != []
      invariant ClipsFrom(rest, ac, clips) == ClipsFrom(lines, DEFAULT_CLIP, map[])
      decreases |rest|
    {
      if KeyAfter(rest[0], "") == "*Clip" {
        ac := ReadClip(rest[1..], ac);
        clips := Insert(clips, ac.name, ac);
        rest := Drop(rest, 1 + CLIP_FIELDS);
      } else {
        rest := rest[1..];
      }
    }
  }

  /** A clip the clip lines can describe: its words hold no white space and its numbers fit an int. */
  predicate ClipWritable(c: Clip)
  {
    IsWord(c.name) && IsWord(c.speed) && IsWord(c.firstJoint) && IsWord(c.weight) &&
    INT_MIN <= c.start + 1 <= INT_MAX && INT_MIN <= c.end + 1 <= INT_MAX &&
    INT_MIN <= c.destinationTrack <= INT_MAX &&
    INT_MIN <= c.fadeInFrames <= INT_MAX && INT_MIN <= c.fadeOutFrames <= INT_MAX
  }

  /** The values of a clip's field lines, in file order; start and end are one higher, as the loader lowers them. */
  function ClipValues(c: Clip): (r: seq<string>)
    ensures |r| == CLIP_FIELDS
  {
    [c.name, c.speed, IntToString(c.start + 1), IntToString(c.end + 1), BoolText(c.loop), c.firstJoint,
     IntToString(c.destinationTrack), BoolText(c.layered), BoolText(c.fadeIn), IntToString(c.fadeInFrames),
     BoolText(c.fadeOut), IntToString(c.fadeOutFrames), c.weight]
  }

  /** The "*Clip" block describing `c`. */
  function ClipLines(c: Clip): (r: seq<string>)
    ensures |r| == 1 + CLIP_FIELDS
  {
    ["*Clip"] + FieldLines(ClipValues(c))
  }

  function ClipsText(cs: seq<Clip>): seq<string>
  {
    if cs == [] then [] else ClipLines(cs[0]) + ClipsText(cs[1..])
  }

  lemma ClipValuesAreWords(c: Clip)
    requires ClipWritable(c)
    ensures forall i :: 0 <= i < CLIP_FIELDS ==> IsWord(ClipValues(c)[i])
  {
    IntTextIsWord(c.start + 1);
    IntTextIsWord(c.end + 1);
    IntTextIsWord(c.destinationTrack);
    IntTextIsWord(c.fadeInFrames);
    IntTextIsWord(c.fadeOutFrames);
    IntTextIsWord(0);
    IntTextIsWord(1);
  }

  /** A clip's values read into that clip, whatever the clip variable held. */
  lemma ReadClipValues(fs: seq<Option<string>>, c: Clip, prev: Clip)
    requires ClipWritable(c) && |fs| == CLIP_FIELDS
    requires forall k :: 0 <= k < CLIP_FIELDS ==> fs[k] == Some(ClipValues(c)[k])
    ensures ClipOf(fs, prev) == c
  {
    var vs := ClipValues(c);
    IntValueOf(fs[2], c.start + 1, prev.start);
    IntValueOf(fs[3], c.end + 1, prev.end);
    IntValueOf(fs[6], c.destinationTrack, prev.destinationTrack);
    IntValueOf(fs[9], c.fadeInFrames, prev.fadeInFrames);
    IntValueOf(fs[11], c.fadeOutFrames, prev.fadeOutFrames);
    BoolValueOf(fs[4], c.loop, prev.loop);
    BoolValueOf(fs[7], c.layered, prev.layered);
    BoolValueOf(fs[8], c.fadeIn, prev.fadeIn);
    BoolValueOf(fs[10], c.fadeOut, prev.fadeOut);
  }

  lemma ClipHeader(line: string)
    requires line == "*Clip"
    ensures KeyAfter(line, "") == "*Clip"
  {
    WordAlone("*Clip");
  }

  lemma ClipsTextSplit(cs: seq<Clip>)
    requires cs != []
    ensures ClipsText(cs) != [] && ClipsText(cs)[0] == "*Clip"
    ensures ClipsText(cs)[1..] == FieldLines(ClipValues(cs[0])) + ClipsText(cs[1..])
  {
    assert ClipsText(cs) == ["*Clip"] + (FieldLines(ClipValues(cs[0])) + ClipsText(cs[1..]));
  }

  /**
   * `ls` holds, for each clip in turn, a line whose key is "*Clip" and then
   * field lines that read into that clip whatever the clip variable held.
   */
  ghost predicate ClipBlocks(ls: seq<string>, cs: seq<Clip>)
    decreases |cs|
  {
    if cs == [] then ls == []
    else
      ls != [] && KeyAfter(ls[0], "") == "*Clip" &&
      (forall prev :: ReadClip(ls[1..], prev) == cs[0]) &&
      ClipBlocks(Drop(ls, 1 + CLIP_FIELDS), cs[1..])
  }

  /** Lines in the shape of a list of clip blocks load as inserting the clips one by one. */
  lemma {:induction false} ClipBlocksLoad(ls: seq<string>, cs: seq<Clip>, prev: Clip, acc: map<string, Clip>)
    requires forall i :: 0 <= i < |cs| ==> ClipWritable(cs[i])
    requires ClipBlocks(ls, cs)
    decreases |cs|
    ensures ClipsFrom(ls, prev, acc) == InsertAll(acc, cs, ClipName)
  {
    if cs != [] {
      ClipBlocksLoad(Drop(ls, 1 + CLIP_FIELDS), cs[1..], cs[0], Insert(acc, cs[0].name, cs[0]));
    }
  }

  /** The lines written for a list of clips have the shape `ClipBlocks` describes. */
  lemma {:induction false} ClipsTextBlocks(cs: seq<Clip>)
    requires forall i :: 0 <= i < |cs| ==> ClipWritable(cs[i])
    ensures ClipBlocks(ClipsText(cs), cs)
  {
    if cs != [] {
      var ls := ClipsText(cs);
      ClipsTextSplit(cs);
      ClipHeader(ls[0]);
      ClipValuesAreWords(cs[0]);
      FieldLinesRead(ClipValues(cs[0]), ClipsText(cs[1..]));
      forall prev
        ensures ReadClip(ls[1..], prev) == cs[0]
      {
        ReadClipValues(FieldValues(ls[1..], CLIP_FIELDS), cs[0], prev);
      }
      DropBlock(ls, FieldLines(ClipValues(cs[0])), ClipsText(cs[1..]));
      ClipsTextBlocks(cs[1..]);
    }
  }

  /** The blocks written for a list of clips load as inserting the clips one by one. */
  lemma ClipsTextLoads(cs: seq<Clip>, prev: Clip, acc: map<string, Clip>)
    requires forall i :: 0 <= i < |cs| ==> ClipWritable(cs[i])
    ensures ClipsFrom(ClipsText(cs), prev, acc) == InsertAll(acc, cs, ClipName)
  {
    ClipsTextBlocks(cs);
    ClipBlocksLoad(ClipsText(cs), cs, prev, acc);
  }

  /**
   * Loading the blocks written for a list of clips gives each clip under its
   * name, the first one where names repeat, and no other entry.
   */
  lemma ClipFileLoads(cs: seq<Clip>)
    requires forall i :: 0 <= i < |cs| ==> ClipWritable(cs[i])
    ensures forall i :: 0 <= i < |cs| && FirstWithKey(cs, i, ClipName) ==>
      cs[i].name in LoadedClips(Some(ClipsText(cs))) && LoadedClips(Some(ClipsText(cs)))[cs[i].name] == cs[i]
    ensures forall k :: k in LoadedClips(Some(ClipsText(cs))) ==> exists i :: 0 <= i < |cs| && cs[i].name == k
  {
    ClipsTextLoads(cs, DEFAULT_CLIP, map[]);
    InsertAllFirstWins(map[], cs, ClipName);
  }

  // ---------------------------------------------------------------------
  // Inverse-kinematics groups.

  /** The field values of a "*IKgroup" block read into the group variable left by the previous block. */
  function GroupOf(fs: seq<Option<string>>, prev: IKGroup): IKGroup
    requires |fs| == IK_FIELDS
  {
    IKGroup(
      WordValue(fs[0], prev.name),
      WordValue(fs[1], prev.shoulder),
      WordValue(fs[2], prev.elbow),
      WordValue(fs[3], prev.hand))
  }

  /** The group read from the field lines `ls` after a "*IKgroup" line. */
  function ReadIKGroup(ls: seq<string>, prev: IKGroup): IKGroup
  {
    GroupOf(FieldValues(ls, IK_FIELDS), prev)
  }

  function GroupName(g: IKGroup): string
  {
    g.name
  }

  /** The groups found in `ls`; entries already in `acc` stay, and every group is under its own name. */
  function GroupsFrom(ls: seq<string>, prev: IKGroup, acc: map<string, IKGroup>): (r: map<string, IKGroup>)
    decreases |ls|
    ensures forall k :: k in acc ==> k in r && r[k] == acc[k]
    ensures forall k :: k in r ==> k in acc || r[k].name == k
  {
    if ls == [] then acc
    else if KeyAfter(ls[0], "") == "*IKgroup" then
      var g := ReadIKGroup(ls[1..], prev);
      GroupsFrom(Drop(ls, 1 + IK_FIELDS), g, Insert(acc, g.name, g))
    else GroupsFrom(ls[1..], prev, acc)
  }

  /** `loadIKGroup`. */
  function LoadedGroups(file: Option<seq<string>>): map<string, IKGroup>
  {
    match file
    case None => map["default" := DEFAULT_IK_GROUP]
    case Some(ls) => GroupsFrom(ls, DEFAULT_IK_GROUP, map[])
  }

  /** `loadIKGroup`'s line loop. */
  method LoadIKGroup(file: Option<seq<string>>) returns (groups: map<string, IKGroup>)
    ensures groups == LoadedGroups(file)
    ensures file.None? ==> groups == map["default" := DEFAULT_IK_GROUP]
    ensures forall k :: k in groups ==> groups[k].name == k
  {
    if file.None? {
      return map["default" := DEFAULT_IK_GROUP];
    }
    var lines := file.value;
    var ik := DEFAULT_IK_GROUP;
    groups := map[];
    var rest := lines;
    while rest != []
      invariant GroupsFrom(rest, ik, groups) == GroupsFrom(lines, DEFAULT_IK_GROUP, map[])
      decreases |rest|
    {
      if KeyAfter(rest[0], "") == "*IKgroup" {
        ik := ReadIKGroup(rest[1..], ik);
        groups := Insert(groups, ik.name, ik);
        rest := Drop(rest, 1 + IK_FIELDS);
      } else {
        rest := rest[1..];
      }
    }
  }

  predicate GroupWritable(g: IKGroup)
  {
    IsWord(g.name) && IsWord(g.shoulder) && IsWord(g.elbow) && IsWord(g.hand)
  }

  function GroupValues(g: IKGroup): (r: seq<string>)
    ensures |r| == IK_FIELDS
  {
    [g.name, g.shoulder, g.elbow, g.hand]
  }

  /** The "*IKgroup" block describing `g`. */
  function GroupLines(g: IKGroup): (r: seq<string>)
    ensures |r| == 1 + IK_FIELDS
  {
    ["*IKgroup"] + FieldLines(GroupValues(g))
  }

  function GroupsText(gs: seq<IKGroup>): seq<string>
  {
    if gs == [] then [] else GroupLines(gs[0]) + GroupsText(gs[1..])
  }

  /** A "*IKgroup" line followed by the field lines of `g` loads `g` and goes on after them. */
  lemma GroupBlockLoads(ls: seq<string>, g: IKGroup, rest: seq<string>, prev: IKGroup, acc: map<string, IKGroup>)
    requires GroupWritable(g)
    requires ls != [] && KeyAfter(ls[0], "") == "*IKgroup" && ls[1..] == FieldLines(GroupValues(g)) + rest
    ensures GroupsFrom(ls, prev, acc) == GroupsFrom(rest, g, Insert(acc, g.name, g))
  {
    FieldLinesRead(GroupValues(g), rest);
    assert ReadIKGroup(ls[1..], prev) == g;
    DropBlock(ls, FieldLines(GroupValues(g)), rest);
  }

  lemma GroupHeader(line: string)
    requires line == "*IKgroup"
    ensures KeyAfter(line, "") == "*IKgroup"
  {
    WordAlone("*IKgroup");
  }

  lemma GroupsTextSplit(gs: seq<IKGroup>)
    requires gs != []
    ensures GroupsText(gs) != [] && GroupsText(gs)[0] == "*IKgroup"
    ensures GroupsText(gs)[1..] == FieldLines(GroupValues(gs[0])) + GroupsText(gs[1..])
  {
    assert GroupsText(gs) == ["*IKgroup"] + (FieldLines(GroupValues(gs[0])) + GroupsText(gs[1..]));
  }

  /** The blocks written for a list of groups load as inserting the groups one by one. */
  lemma {:induction false} GroupsTextLoads(gs: seq<IKGroup>, prev: IKGroup, acc: map<string, IKGroup>)
    requires forall i :: 0 <= i < |gs| ==> GroupWritable(gs[i])
    ensures GroupsFrom(GroupsText(gs), prev, acc) == InsertAll(acc, gs, GroupName)
  {
    if gs != [] {
      var ls := GroupsText(gs);
      GroupsTextSplit(gs);
      GroupHeader(ls[0]);
      GroupBlockLoads(ls, gs[0], GroupsText(gs[1..]), prev, acc);
      GroupsTextLoads(gs[1..], gs[0], Insert(acc, gs[0].name, gs[0]));
    }
  }

  /** Loading the blocks written for a list of groups gives each group under its name, the first one where names repeat. */
  lemma GroupFileLoads(gs: seq<IKGroup>)
    requires forall i :: 0 <= i < |gs| ==> GroupWritable(gs[i])
    ensures forall i :: 0 <= i < |gs| && FirstWithKey(gs, i, GroupName) ==>
      gs[i].name in LoadedGroups(Some(GroupsText(gs))) && LoadedGroups(Some(GroupsText(gs)))[gs[i].name] == gs[i]
    ensures forall k :: k in LoadedGroups(Some(GroupsText(gs))) ==> exists i :: 0 <= i < |gs| && gs[i].name == k
  {
    GroupsTextLoads(gs, DEFAULT_IK_GROUP, map[]);
    InsertAllFirstWins(map[], gs, GroupName);
  }

  // ---------------------------------------------------------------------
  // Animation paths.

  /** One point read from a value line and a timestamp line; a value line keyed "y" adds it to the Y path. */
  function AddPoint(path: AnimationPath, onY: bool, pt: PathPoint): AnimationPath
  {
    if onY then path.(yPath := path.yPath + [pt]) else path.(zPath := path.zPath + [pt])
  }

  /**
   * The do-while loop of a "*Path" block, from its value line `ls[0]` on,
   * with `key` the key variable's value: a (value, timestamp) pair of lines
   * per round, until the line after the pair is "*EndPath" or the end of the
   * file. Returns the path and what follows the "*EndPath" line.
   */
  function PathPoints(ls: seq<string>, key: string, path: AnimationPath): (r: (AnimationPath, seq<string>))
    decreases |ls|
    ensures |r.1| <= |ls| && (ls != [] ==> |r.1| < |ls|)
    ensures r.0.name == path.name
  {
    var valueKey := KeyAfter(LineAt(ls, 0), key);
    var stampKey := KeyAfter(LineAt(ls, 1), valueKey);
    var p := AddPoint(path, valueKey == "y", PathPoint(Second(LineAt(ls, 0)), Second(LineAt(ls, 1))));
    var next := Drop(ls, 2);
    if next == [] || next[0] == END_PATH then (p, Drop(next, 1))
    else PathPoints(next, stampKey, p)
  }

  function PathName(p: AnimationPath): string
  {
    p.name
  }

  /**
   * The paths found in `ls`; entries already in `acc` stay, and every path is
   * under its own name. Each block starts from a fresh default path.
   */
  function PathsFrom(ls: seq<string>, acc: map<string, AnimationPath>): (r: map<string, AnimationPath>)
    decreases |ls|
    ensures forall k :: k in acc ==> k in r && r[k] == acc[k]
    ensures forall k :: k in r ==> k in acc || r[k].name == k
  {
    if ls == [] then acc
    else if KeyAfter(ls[0], "") == "*Path" then
      var nameLine := LineAt(ls, 1);
      var block := PathPoints(Drop(ls, 2), KeyAfter(nameLine, ""), DEFAULT_PATH.(name := WordValue(Second(nameLine), DEFAULT_PATH.name)));
      PathsFrom(block.1, Insert(acc, block.0.name, block.0))
    else PathsFrom(ls[1..], acc)
  }

  /** `loadAnimationPath`. */
  function LoadedPaths(file: Option<seq<string>>): map<string, AnimationPath>
  {
    match file
    case None => map["default" := DEFAULT_PATH]
    case Some(ls) => PathsFrom(ls, map[])
  }

  /**
   * The do-while loop of a "*Path" block, from line `j` on; `next` is the line
   * after the block.
   */
  method ReadPathPoints(lines: seq<string>, j0: nat, key0: string, path0: AnimationPath)
    returns (path: AnimationPath, next: nat)
    ensures (path, Drop(lines, next)) == PathPoints(Drop(lines, j0), key0, path0)
  {
    var j: nat := j0;
    var key := key0;
    path := path0;
    var more := true;
    while more
      invariant more ==> PathPoints(Drop(lines, j), key, path) == PathPoints(Drop(lines, j0), key0, path0)
      invariant !more ==> (path, Drop(lines, j)) == PathPoints(Drop(lines, j0), key0, path0)
      decreases more, |lines| + 2 - j
    {
      ghost var ls := Drop(lines, j);
      assert LineAt(ls, 0) == LineAt(lines, j) && LineAt(ls, 1) == LineAt(lines, j + 1);
      var valueLine := LineAt(lines, j);
      key := KeyAfter(valueLine, key);
      var onY := key == "y";
      var stampLine := LineAt(lines, j + 1);
      key := KeyAfter(stampLine, key);
      path := AddPoint(path, onY, PathPoint(Second(valueLine), Second(stampLine)));
      assert Drop(ls, 2) == Drop(lines, j + 2);
      j := j + 2;
      if j < |lines| && lines[j] != END_PATH {
        assert Drop(lines, j)[0] == lines[j];
      } else {
        more := false;
        assert Drop(Drop(lines, j - 2), 2) == Drop(lines, j);
        if j < |lines| {
          assert Drop(lines, j)[0] == lines[j];
          assert Drop(Drop(lines, j), 1) == Drop(lines, j + 1);
        }
        j := if j < |lines| then j + 1 else j;
      }
    }
    next := j;
  }

  /** `loadAnimationPath`'s line loop. */
  method LoadAnimationPath(file: Option<seq<string>>) returns (paths: map<string, AnimationPath>)
    ensures paths == LoadedPaths(file)
    ensures file.None? ==> paths == map["default" := DEFAULT_PATH]
    ensures forall k :: k in paths ==> paths[k].name == k
  {
    if file.None? {
      return map["default" := DEFAULT_PATH];
    }
    var lines := file.value;
    paths := map[];
    var rest := lines;
    while rest != []
      invariant PathsFrom(rest, paths) == PathsFrom(lines, map[])
      decreases |rest|
    {
      if KeyAfter(rest[0], "") == "*Path" {
        var nameLine := LineAt(rest, 1);
        var path, next := ReadPathPoints(rest, 2, KeyAfter(nameLine, ""), DEFAULT_PATH.(name := WordValue(Second(nameLine), DEFAULT_PATH.name)));
        paths := Insert(paths, path.name, path);
        rest := Drop(rest, next);
      } else {
        rest := rest[1..];
      }
    }
  }

  /** A point as the file writes it: on the Y path or the Z path, with its value and timestamp words. */
  datatype WrittenPoint = WrittenPoint(onY: bool, value: string, timestamp: string)

  predicate PointWritable(p: WrittenPoint)
  {
    IsWord(p.value) && IsWord(p.timestamp)
  }

  function PointLines(pts: seq<WrittenPoint>): seq<string>
  {
    if pts == [] then []
    else [FieldLine(Axis(pts[0].onY), pts[0].value), FieldLine("t", pts[0].timestamp)] + PointLines(pts[1..])
  }

  /** The points of a list that lie on one path, as the loader stores them. */
  function Points(pts: seq<WrittenPoint>, onY: bool): seq<PathPoint>
  {
    if pts == [] then []
    else (if pts[0].onY == onY then [Stored(pts[0])] else []) + Points(pts[1..], onY)
  }

  /** A "*Path" block: header, name, at least one point, "*EndPath". */
  function PathLines(name: string, pts: seq<WrittenPoint>): seq<string>
  {
    ["*Path", FieldLine("name", name)] + PointLines(pts) + [END_PATH]
  }

  function Axis(onY: bool): string
  {
    if onY then "y" else "z"
  }

  /** The stored form of a written point. */
  function Stored(p: WrittenPoint): PathPoint
  {
    PathPoint(Some(p.value), Some(p.timestamp))
  }

  /** One round of the do-while over a value line and a timestamp line that split into the words of `p`. */
  lemma PathPointsStep(ls: seq<string>, p: WrittenPoint, key: string, path: AnimationPath)
    requires |ls| >= 2 && Words(ls[0]) == [Axis(p.onY), p.value] && Words(ls[1]) == ["t", p.timestamp]
    ensures PathPoints(ls, key, path) ==
      var added := AddPoint(path, p.onY, Stored(p));
      var next := ls[2..];
      if next == [] || next[0] == END_PATH then (added, Drop(next, 1)) else PathPoints(next, "t", added)
  {
    assert Drop(ls, 2) == ls[2..];
  }

  /**
   * `ls` holds, for each point, a line splitting into its axis and value and
   * one splitting into "t" and its timestamp, then "*EndPath", then `rest`;
   * no value line is the end line.
   */
  predicate PointPairs(ls: seq<string>, pts: seq<WrittenPoint>, rest: seq<string>)
    decreases |pts|
  {
    if pts == [] then ls == [END_PATH] + rest
    else
      |ls| >= 2 && ls[0] != END_PATH &&
      Words(ls[0]) == [Axis(pts[0].onY), pts[0].value] && Words(ls[1]) == ["t", pts[0].timestamp] &&
      PointPairs(ls[2..], pts[1..], rest)
  }

  lemma PointsStep(pts: seq<WrittenPoint>, onY: bool, held: seq<PathPoint>)
    requires pts != []
    ensures (if pts[0].onY == onY then held + [Stored(pts[0])] else held) + Points(pts[1..], onY) == held + Points(pts, onY)
  {
  }

  /** Lines in the shape of a block's points read back as those points, split by path. */
  lemma {:induction false} PointPairsLoad(ls: seq<string>, pts: seq<WrittenPoint>, rest: seq<string>, key: string, path: AnimationPath)
    requires pts != [] && PointPairs(ls, pts, rest)
    decreases |pts|
    ensures PathPoints(ls, key, path)
      == (path.(yPath := path.yPath + Points(pts, true), zPath := path.zPath + Points(pts, false)), rest)
  {
    var p := pts[0];
    PathPointsStep(ls, p, key, path);
    var added := AddPoint(path, p.onY, Stored(p));
    PointsStep(pts, true, path.yPath);
    PointsStep(pts, false, path.zPath);
    assert added.yPath + Points(pts[1..], true) == path.yPath + Points(pts, true);
    assert added.zPath + Points(pts[1..], false) == path.zPath + Points(pts, false);
    if pts[1..] == [] {
      assert Points(pts[1..], true) == [] && Points(pts[1..], false) == [];
      assert ls[2..][0] == END_PATH;
      assert Drop(ls[2..], 1) == rest;
      assert added.yPath + [] == added.yPath && added.zPath + [] == added.zPath;
      assert added == path.(yPath := path.yPath + Points(pts, true), zPath := path.zPath + Points(pts, false));
    } else {
      PointPairsLoad(ls[2..], pts[1..], rest, "t", added);
    }
  }

  /** The lines written for a block's points have the shape `PointPairs` describes. */
  lemma {:induction false} PointLinesPairs(pts: seq<WrittenPoint>, rest: seq<string>)
    requires forall i :: 0 <= i < |pts| ==> PointWritable(pts[i])
    ensures PointPairs(PointLines(pts) + [END_PATH] + rest, pts, rest)
  {
    if pts != [] {
      var p := pts[0];
      var ls := PointLines(pts) + [END_PATH] + rest;
      var valueLine := FieldLine(Axis(p.onY), p.value);
      assert ls == [valueLine, FieldLine("t", p.timestamp)] + (PointLines(pts[1..]) + [END_PATH] + rest);
      FieldLineWords(Axis(p.onY), p.value);
      FieldLineWords("t", p.timestamp);
      assert valueLine != END_PATH by {
        assert valueLine[0] != END_PATH[0];
      }
      assert ls[2..] == PointLines(pts[1..]) + [END_PATH] + rest;
      PointLinesPairs(pts[1..], rest);
    }
  }

  /**
   * A block written for a path with at least one point loads as that path:
   * its name, its Y points and its Z points each in written order; the scan
   * goes on after the "*EndPath" line.
   */
  lemma PathBlockLoads(name: string, pts: seq<WrittenPoint>, rest: seq<string>, acc: map<string, AnimationPath>)
    requires IsWord(name) && pts != [] && forall i :: 0 <= i < |pts| ==> PointWritable(pts[i])
    ensures PathsFrom(PathLines(name, pts) + rest, acc)
      == PathsFrom(rest, Insert(acc, name, AnimationPath(name, Points(pts, true), Points(pts, false))))
  {
    var ls := PathLines(name, pts) + rest;
    PathLinesSplit(name, pts, rest);
    PathHeader(ls[0]);
    FieldLineWords("name", name);
    PointLinesPairs(pts, rest);
    PathPairsLoad(ls, name, pts, rest, acc);
  }

  /** A "*Path" line, a name line and lines in the shape of the points load that path. */
  lemma PathPairsLoad(ls: seq<string>, name: string, pts: seq<WrittenPoint>, rest: seq<string>, acc: map<string, AnimationPath>)
    requires ls != [] && KeyAfter(ls[0], "") == "*Path" && Words(LineAt(ls, 1)) == ["name", name]
    requires pts != [] && PointPairs(Drop(ls, 2), pts, rest)
    ensures PathsFrom(ls, acc)
      == PathsFrom(rest, Insert(acc, name, AnimationPath(name, Points(pts, true), Points(pts, false))))
  {
    PointPairsLoad(Drop(ls, 2), pts, rest, "name", DEFAULT_PATH.(name := name));
    assert [] + Points(pts, true) == Points(pts, true) && [] + Points(pts, false) == Points(pts, false);
  }

  lemma PathHeader(line: string)
    requires line == "*Path"
    ensures KeyAfter(line, "") == "*Path"
  {
    WordAlone("*Path");
  }

  lemma PathLinesSplit(name: string, pts: seq<WrittenPoint>, rest: seq<string>)
    ensures |PathLines(name, pts) + rest| >= 2
    ensures (PathLines(name, pts) + rest)[0] == "*Path"
    ensures LineAt(PathLines(name, pts) + rest, 1) == FieldLine("name", name)
    ensures Drop(PathLines(name, pts) + rest, 2) == PointLines(pts) + [END_PATH] + rest
  {
    var ls := PathLines(name, pts) + rest;
    assert ls == ["*Path", FieldLine("name", name)] + (PointLines(pts) + [END_PATH] + rest);
  }

  /** A path as the file writes it: its name and its points, at least one. */
  datatype WrittenPath = WrittenPath(name: string, pts: seq<WrittenPoint>)

  predicate PathWritable(w: WrittenPath)
  {
    IsWord(w.name) && w.pts != [] && forall i :: 0 <= i < |w.pts| ==> PointWritable(w.pts[i])
  }

  /** The path the loader stores for a written path. */
  function Stores(w: WrittenPath): AnimationPath
  {
    AnimationPath(w.name, Points(w.pts, true), Points(w.pts, false))
  }

  function StoresAll(ws: seq<WrittenPath>): (r: seq<AnimationPath>)
    ensures |r| == |ws| && forall i :: 0 <= i < |ws| ==> r[i] == Stores(ws[i])
  {
    if ws == [] then [] else [Stores(ws[0])] + StoresAll(ws[1..])
  }

  function PathsText(ws: seq<WrittenPath>): seq<string>
  {
    if ws == [] then [] else PathLines(ws[0].name, ws[0].pts) + PathsText(ws[1..])
  }

  /** The blocks written for a list of paths load as inserting the stored paths one by one. */
  lemma {:induction false} PathsTextLoads(ws: seq<WrittenPath>, acc: map<string, AnimationPath>)
    requires forall i :: 0 <= i < |ws| ==> PathWritable(ws[i])
    ensures PathsFrom(PathsText(ws), acc) == InsertAll(acc, StoresAll(ws), PathName)
  {
    if ws != [] {
      var w := ws[0];
      PathBlockLoads(w.name, w.pts, PathsText(ws[1..]), acc);
      PathsTextLoads(ws[1..], Insert(acc, w.name, Stores(w)));
      assert StoresAll(ws)[1..] == StoresAll(ws[1..]);
    }
  }

  lemma PathsLoaded(ws: seq<WrittenPath>)
    requires forall i :: 0 <= i < |ws| ==> PathWritable(ws[i])
    ensures LoadedPaths(Some(PathsText(ws))) == InsertAll(map[], StoresAll(ws), PathName)
  {
    PathsTextLoads(ws, map[]);
  }

  /**
   * Loading the blocks written for a list of paths gives each path under its
   * name, its points split into the Y and Z lists in written order, the first
   * one where names repeat.
   */
  lemma PathFileLoads(ws: seq<WrittenPath>)
    requires forall i :: 0 <= i < |ws| ==> PathWritable(ws[i])
    ensures forall i :: 0 <= i < |ws| && FirstWithKey(StoresAll(ws), i, PathName) ==>
      ws[i].name in LoadedPaths(Some(PathsText(ws))) && LoadedPaths(Some(PathsText(ws)))[ws[i].name] == Stores(ws[i])
  {
    PathsLoaded(ws);
    InsertAllFirstWins(map[], StoresAll(ws), PathName);
  }

  /** Loading the blocks written for a list of paths gives no entry under a name none of them has. */
  lemma PathFileNamesOnly(ws: seq<WrittenPath>)
    requires forall i :: 0 <= i < |ws| ==> PathWritable(ws[i])
    ensures forall k :: k in LoadedPaths(Some(PathsText(ws))) ==> exists i :: 0 <= i < |ws| && ws[i].name == k
  {
    PathsLoaded(ws);
    StoredNames(ws);
  }

  /** Every key of the table built from the stored paths is the name of one of them. */
  lemma StoredNames(ws: seq<WrittenPath>)
    ensures forall k :: k in InsertAll(map[], StoresAll(ws), PathName) ==> exists i :: 0 <= i < |ws| && ws[i].name == k
  {
    var ps := StoresAll(ws);
    InsertAllFirstWins(map[], ps, PathName);
    forall k | k in InsertAll(map[], ps, PathName)
      ensures exists i :: 0 <= i < |ws| && ws[i].name == k
    {
      var i :| 0 <= i < |ps| && PathName(ps[i]) == k;
      assert ws[i].name == k;
    }
  }
}