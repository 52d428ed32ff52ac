/**
 * AnimationLoader: the resource loader for animation data. A binary animation
 * file gives the skeleton (a header and a joint list in the model file's joint
 * format); the .mlx text file beside it gives the clips, inverse-kinematics
 * groups and paths. Loaded resources are kept in a list, looked up and
 * released by resource name.
 */
module AnimationLoader {
  import opened Wrappers
  import opened Bytes
  import opened ModelFormat
  import opened ModelConverter
  import opened ModelBinaryLoader
  import opened ModelRoundTrip
  import opened AnimationData
  import opened AnimationClipLoader

  /** `AnimationLoader::Header`: the model name and the joint and frame counts. */
  datatype AnimHeader = AnimHeader(modelName: seq<byte>, numJoints: int32, numFrames: int32)

  /** The header `clearData` leaves. */
  const CLEARED_HEADER := AnimHeader([], 0, 0)

  /** `readHeader`: a length-prefixed string, then two ints; None where the stream runs out. */
  function ReadAnimHeader(s: seq<byte>): (r: Option<(AnimHeader, seq<byte>)>)
    ensures r.Some? ==> |r.value.1| + 12 + |r.value.0.modelName| == |s|
  {
    match ReadString(s)
    case None => None
    case Some((name, s1)) =>
      match ReadInt(s1)
      case None => None
      case Some((joints, s2)) =>
        match ReadInt(s2)
        case None => None
        case Some((frames, rest)) => Some((AnimHeader(name, joints, frames), rest))
  }

  /** A header as the animation file stores it. */
  function AnimHeaderBytes(h: AnimHeader): seq<byte>
  {
    StringToBytes(h.modelName) + IntToBytes(h.numJoints) + IntToBytes(h.numFrames)
  }

  lemma AnimHeaderRoundTrip(h: AnimHeader, rest: seq<byte>)
    requires |h.modelName| < TWO31
    ensures ReadAnimHeader(AnimHeaderBytes(h) + rest) == Some((h, rest))
  {
    var s2 := IntToBytes(h.numFrames) + rest;
    var s1 := IntToBytes(h.numJoints) + s2;
    assert AnimHeaderBytes(h) + rest == StringToBytes(h.modelName) + s1;
    StringRoundTrip(h.modelName, s1);
    ReadIntRoundTrip(h.numJoints, s2);
    ReadIntRoundTrip(h.numFrames, rest);
  }

  /** The header `loadAnimationData` keeps: the one read, or the cleared one when the file is too short. */
  function HeaderRead(file: seq<byte>): AnimHeader
  {
    match ReadAnimHeader(file)
    case None => CLEARED_HEADER
    case Some((h, _)) => h
  }

  /**
   * The joints `loadAnimationData` keeps: `readJointList` run on the header's
   * counts, or none where the header or a joint cannot be read.
   */
  function JointsRead(file: seq<byte>): (r: seq<Joint>)
    ensures ParentsValid(r)
    ensures r != [] ==> |r| == HeaderRead(file).numJoints as int
  {
    match ReadAnimHeader(file)
    case None => []
    case Some((h, rest)) =>
      match ReadJoints(rest, h.numJoints, h.numFrames)
      case None => []
      case Some((js, _)) => js
  }

  /**
   * Whether `loadAnimationData` throws: a header announcing a negative frame
   * count makes `readJointList`'s key-frame `resize` throw before any joint
   * is read.
   */
  predicate FramesThrow(file: seq<byte>)
  {
    ReadAnimHeader(file).Some? && ReadAnimHeader(file).value.0.numFrames < 0
  }

  /** A file whose frame count throws keeps no joints, and a file that keeps joints does not throw. */
  lemma FramesThrowKeepsNoJoints(file: seq<byte>)
    ensures FramesThrow(file) ==> JointsRead(file) == [] && HeaderRead(file).numFrames < 0
    ensures JointsRead(file) != [] ==> !FramesThrow(file) && HeaderRead(file).numFrames >= 0
  {
  }

  /**
   * Whether `readJointList`'s loop over `n` joints reaches a joint name whose
   * stored length is negative, where `byteToString` throws. A joint that cannot
   * be read whole fails the stream, and a failed stream leaves every later
   * length at 0, so no throw follows it.
   */
  predicate JointNameThrows(s: seq<byte>, n: nat, frames: nat)
    decreases n
  {
    n > 0 &&
    (NegativeLength(s) ||
     match DecodeJoint(s, frames)
     case None => false
     case Some((_, rest)) => JointNameThrows(rest, n - 1, frames))
  }

  /** A joint name read by the loop of a header that reads and has a non-negative frame count throws. */
  predicate JointNamesThrow(file: seq<byte>)
  {
    match ReadAnimHeader(file)
    case None => false
    case Some((h, rest)) => h.numFrames >= 0 && JointNameThrows(rest, Iterations(h.numJoints), h.numFrames as nat)
  }

  /**
   * Whether `loadAnimationData` throws: the model name's length is negative
   * (`readHeader`), the frame count is negative (the key-frame `resize`), or a
   * joint name's length is negative (`readJointList`).
   */
  predicate LoadThrows(file: seq<byte>)
  {
    NegativeLength(file) || FramesThrow(file) || JointNamesThrow(file)
  }

  /** The joint reader fails wherever the loop would throw on a joint name. */
  lemma {:induction false} JointNameThrowsFails(s: seq<byte>, n: nat, frames: nat)
    requires JointNameThrows(s, n, frames)
    ensures DecodeN(s, n, JointDecoder(frames)) == None
    decreases n
  {
    if !NegativeLength(s) {
      match DecodeJoint(s, frames)
      case Some((_, rest)) =>
        JointNameThrowsFails(rest, n - 1, frames);
    }
  }

  /**
   * A file whose load throws keeps no joints; a negative model-name length
   * throws before the header is read, so the header stays cleared.
   */
  lemma LoadThrowsKeepsNoJoints(file: seq<byte>)
    ensures LoadThrows(file) ==> JointsRead(file) == []
    ensures NegativeLength(file) ==> LoadThrows(file) && HeaderRead(file) == CLEARED_HEADER
  {
    if JointNamesThrow(file) {
      var rest := ReadAnimHeader(file).value.1;
      var h := ReadAnimHeader(file).value.0;
      JointNameThrowsFails(rest, Iterations(h.numJoints), h.numFrames as nat);
    }
  }

  /** Joints written with `frames` key frames each never carry a negative name length. */
  lemma {:induction false} WrittenJointsNoThrow(frames: int32, joints: seq<Joint>)
    requires 0 <= frames
    requires forall k :: 0 <= k < |joints| ==> JointOk(joints[k], frames as nat)
    ensures !JointNameThrows(EncodeAll(joints, JointEncoder(frames)), |joints|, frames as nat)
  {
    if joints != [] {
      var n := frames as nat;
      assert n as int32 == frames;
      var tail := EncodeAll(joints[1..], JointEncoder(frames));
      JointRoundTrip(joints[0], n, tail);
      assert EncodeAll(joints, JointEncoder(frames)) == JointBytes(joints[0], frames) + tail;
      WrittenJointsNoThrow(frames, joints[1..]);
    }
  }

  /** An animation file: its header, then each joint with `frames` key frames. */
  function AnimationFile(name: seq<byte>, frames: int32, joints: seq<Joint>): seq<byte>
    requires |joints| < TWO31
  {
    AnimHeaderBytes(AnimHeader(name, |joints| as int32, frames)) + EncodeAll(joints, JointEncoder(frames))
  }

  /**
   * An animation file whose joints each hold `frames` key frames and name
   * earlier parents loads back that header and exactly those joints.
   */
  lemma AnimationFileLoads(name: seq<byte>, frames: int32, joints: seq<Joint>)
    requires |name| < TWO31 && |joints| < TWO31 && 0 <= frames
    requires ParentsValid(joints)
    requires forall k :: 0 <= k < |joints| ==> JointOk(joints[k], frames as nat)
    ensures HeaderRead(AnimationFile(name, frames, joints)) == AnimHeader(name, |joints| as int32, frames)
    ensures JointsRead(AnimationFile(name, frames, joints)) == joints
    ensures !LoadThrows(AnimationFile(name, frames, joints))
  {
    var h := AnimHeader(name, |joints| as int32, frames);
    var body := EncodeAll(joints, JointEncoder(frames));
    AnimHeaderRoundTrip(h, body);
    JointListRoundTrip(frames, joints);
    WrittenJointsNoThrow(frames, joints);
    assert Iterations(|joints| as int32) == |joints|;
  }

  /** Each joint record written with `frames` key frames reads back as that joint. */
  lemma JointRecordsDecode(frames: int32, joints: seq<Joint>)
    requires 0 <= frames
    requires forall k :: 0 <= k < |joints| ==> JointOk(joints[k], frames as nat)
    ensures DecodeN(EncodeAll(joints, JointEncoder(frames)), |joints|, JointDecoder(frames as nat)) == Some((joints, []))
  {
    var n := frames as nat;
    assert n as int32 == frames;
    forall j: Joint, rest: seq<byte> | JointOkFor(n)(j)
      ensures JointDecoder(n)(JointEncoder(frames)(j) + rest) == Some((j, rest))
    {
      JointRoundTrip(j, n, rest);
    }
    DecodeNRoundTrip(joints, [], JointEncoder(frames), JointDecoder(n), JointOkFor(n));
    var body := EncodeAll(joints, JointEncoder(frames));
    assert body + [] == body;
  }

  /** The joint list written with `frames` key frames per joint reads back in full. */
  lemma JointListRoundTrip(frames: int32, joints: seq<Joint>)
    requires |joints| < TWO31 && 0 <= frames
    requires ParentsValid(joints)
    requires forall k :: 0 <= k < |joints| ==> JointOk(joints[k], frames as nat)
    ensures ReadJoints(EncodeAll(joints, JointEncoder(frames)), |joints| as int32, frames) == Some((joints, []))
  {
    JointRecordsDecode(frames, joints);
    assert Iterations(|joints| as int32) == |joints|;
  }

  // Paths: boost::filesystem's `replace_extension`, with '/' and '\' both separators.

  predicate IsSeparator(c: char)
  {
    c == '/' || c == '\\'
  }

  predicate IsDot(c: char)
  {
    c == '.'
  }

  /** The index of the last character of `s` that satisfies `p`. */
  function LastWhere(s: string, p: char -> bool): (r: Option<nat>)
    ensures r.Some? ==> r.value < |s| && p(s[r.value]) && forall j :: r.value < j < |s| ==> !p(s[j])
    ensures r.None? ==> forall j :: 0 <= j < |s| ==> !p(s[j])
    decreases |s|
  {
    if s == [] then None
    else if p(s[|s| - 1]) then Some(|s| - 1)
    else LastWhere(s[..|s| - 1], p)
  }

  /** `LastWhere` is fixed by its contract: the last index is the one after which nothing matches. */
  lemma {:induction false} LastWhereIs(s: string, p: char -> bool, i: nat)
    requires i < |s| && p(s[i]) && forall j :: i < j < |s| ==> !p(s[j])
    ensures LastWhere(s, p) == Some(i)
    decreases |s|
  {
    if i != |s| - 1 {
      assert !p(s[|s| - 1]);
      LastWhereIs(s[..|s| - 1], p, i);
    }
  }

  /** Where the file name starts: just after the last separator. */
  function FileNameStart(path: string): (r: nat)
    ensures r <= |path|
    ensures forall j :: r <= j < |path| ==> !IsSeparator(path[j])
    ensures r > 0 ==> IsSeparator(path[r - 1])
  {
    match LastWhere(path, IsSeparator)
    case None => 0
    case Some(i) => i + 1
  }

  /**
   * Where `extension()` starts: the file name's last dot, unless the file name
   * is "." or "..".
   */
  function ExtensionStart(path: string): (r: Option<nat>)
    ensures r.Some? ==> FileNameStart(path) <= r.value < |path| && path[r.value] == '.'
    ensures r.Some? ==> forall j :: r.value < j < |path| ==> path[j] != '.' && !IsSeparator(path[j])
    ensures r.None? ==> (path[FileNameStart(path)..] in {".", ".."} ||
      forall j :: FileNameStart(path) <= j < |path| ==> path[j] != '.')
  {
    var start := FileNameStart(path);
    var name := path[start..];
    if name == "." || name == ".." then None
    else
      match LastWhere(name, IsDot)
      case None => None
      case Some(i) => Some(start + i)
  }

  /** The path without its extension. */
  function Stem(path: string): (r: string)
    ensures r <= path && FileNameStart(path) <= |r|
  {
    match ExtensionStart(path)
    case None => path
    case Some(i) => path[..i]
  }

  /** What `replace_extension` appends: the new extension with a leading dot. */
  function DottedExtension(ext: string): (r: string)
  {
    if ext != [] && ext[0] != '.' then "." + ext else ext
  }

  /** `path::replace_extension(ext)`. */
  function ReplaceExtension(path: string, ext: string): (r: string)
    ensures |Stem(path)| <= |r| && r[..|Stem(path)|] == Stem(path)
    ensures path[..FileNameStart(path)] <= r
    ensures r[|Stem(path)|..] == DottedExtension(ext)
  {
    Stem(path) + DottedExtension(ext)
  }

  /** An extension made of one leading dot and at least one other character, no separator and no dot. */
  predicate PlainExtension(ext: string)
  {
    ext != [] && ext != "." &&
    forall k :: 0 <= k < |ext| ==> !IsSeparator(ext[k]) && (ext[k] == '.' ==> k == 0)
  }

  /** A dot, then at least one character, none of them a separator or another dot. */
  predicate DotThenPlain(a: string)
  {
    |a| >= 2 && a[0] == '.' &&
    forall k :: 0 <= k < |a| ==> !IsSeparator(a[k]) && (a[k] == '.' ==> k == 0)
  }

  lemma DottedPlain(ext: string)
    requires PlainExtension(ext)
    ensures DotThenPlain(DottedExtension(ext))
  {
    var a := DottedExtension(ext);
    if ext[0] != '.' {
      assert a == "." + ext;
      forall k | 0 < k < |a|
        ensures a[k] == ext[k - 1]
      {
      }
    } else {
      assert |ext| >= 2;
    }
  }

  /** Text without separators appended to the stem leaves the file name where it was. */
  lemma AppendKeepsFileNameStart(path: string, a: string)
    requires forall k :: 0 <= k < |a| ==> !IsSeparator(a[k])
    ensures FileNameStart(Stem(path) + a) == FileNameStart(path)
  {
    var s := Stem(path);
    var q := s + a;
    var st := FileNameStart(path);
    assert s[..st] == path[..st];
    forall j | st <= j < |q|
      ensures !IsSeparator(q[j])
    {
      if j >= |s| {
        assert q[j] == a[j - |s|];
      } else {
        assert q[j] == path[j];
      }
    }
    if st > 0 {
      assert IsSeparator(q[st - 1]);
      LastWhereIs(q, IsSeparator, st - 1);
    }
  }

  /** Replacing a plain extension a second time changes nothing. */
  lemma ReplaceExtensionIdempotent(path: string, ext: string)
    requires PlainExtension(ext)
    ensures ReplaceExtension(ReplaceExtension(path, ext), ext) == ReplaceExtension(path, ext)
  {
    var s := Stem(path);
    var a := DottedExtension(ext);
    var q := s + a;
    DottedPlain(ext);
    AppendKeepsFileNameStart(path, a);
    var st := FileNameStart(q);
    // The file name's last dot is the one a starts with.
    var name := q[st..];
    var i := |s| - st;
    assert name[i] == '.';
    forall j | i < j < |name|
      ensures !IsDot(name[j])
    {
      assert name[j] == a[j - i];
    }
    LastWhereIs(name, IsDot, i);
    assert name[|name| - 1] == a[|a| - 1] != '.';
    assert ExtensionStart(q) == Some(|s|);
    assert q[..|s|] == s;
  }

  /** The .mlx file read beside an animation file: `filepath.replace_extension("mlx")`. */
  function MlxPath(path: string): (r: string)
    ensures |r| >= 4 && r[|r| - 4..] == ".mlx"
  {
    ReplaceExtension(path, "mlx")
  }

  // The loaded resources.

  /** `LoadedAnimationData`: one loaded resource. */
  datatype LoadedAnimation = LoadedAnimation(resourceName: string, filename: string, data: Data)

  /**
   * The files the loader can read: binary files as bytes, text files as lines.
   * A missing binary file reads like an empty one.
   */
  datatype Files = Files(binary: map<string, seq<byte>>, text: map<string, seq<string>>)

  function BinaryFile(fs: Files, path: string): seq<byte>
  {
    if path in fs.binary then fs.binary[path] else []
  }

  function TextFile(fs: Files, path: string): Option<seq<string>>
  {
    if path in fs.text then Some(fs.text[path]) else None
  }

  /** The data `loadAnimationDataResource` builds for a file. */
  function ResourceData(fs: Files, path: string): (r: Data)
    ensures r.joints == JointsRead(BinaryFile(fs, path))
    ensures r.clips == LoadedClips(TextFile(fs, MlxPath(path)))
    ensures r.ikGroups == LoadedGroups(TextFile(fs, MlxPath(path)))
    ensures r.paths == LoadedPaths(TextFile(fs, MlxPath(path)))
  {
    var mlx := TextFile(fs, MlxPath(path));
    Data(JointsRead(BinaryFile(fs, path)), LoadedClips(mlx), LoadedGroups(mlx), LoadedPaths(mlx))
  }

  /** What `remove_if` followed by `erase` keeps: the other resources, in order. */
  function Released(ls: seq<LoadedAnimation>, name: string): (r: seq<LoadedAnimation>)
    ensures |r| <= |ls|
    ensures forall x :: x in r <==> x in ls && x.resourceName != name
  {
    if ls == [] then []
    else if ls[0].resourceName == name then Released(ls[1..], name)
    else [ls[0]] + Released(ls[1..], name)
  }

  /** Releasing distributes over a split of the list, so the order of the rest is kept. */
  lemma {:induction false} ReleasedConcat(a: seq<LoadedAnimation>, b: seq<LoadedAnimation>, name: string)
    ensures Released(a + b, name) == Released(a, name) + Released(b, name)
  {
    if a != [] {
      assert (a + b)[1..] == a[1..] + b;
      ReleasedConcat(a[1..], b, name);
    } else {
      assert a + b == b;
    }
  }

  /** A list with no resource of that name is released unchanged. */
  lemma {:induction false} ReleasedNothing(ls: seq<LoadedAnimation>, name: string)
    requires forall i :: 0 <= i < |ls| ==> ls[i].resourceName != name
    ensures Released(ls, name) == ls
  {
    if ls != [] {
      ReleasedNothing(ls[1..], name);
      assert [ls[0]] + ls[1..] == ls;
    }
  }

  /** The index `find_if` stops at. */
  function FirstNamed(ls: seq<LoadedAnimation>, name: string): (r: Option<nat>)
    ensures r.Some? ==> r.value < |ls| && ls[r.value].resourceName == name
    ensures r.Some? ==> forall j :: 0 <= j < r.value ==> ls[j].resourceName != name
    ensures r.None? ==> forall j :: 0 <= j < |ls| ==> ls[j].resourceName != name
  {
    if ls == [] then None
    else if ls[0].resourceName == name then Some(0)
    else match FirstNamed(ls[1..], name)
      case None => None
      case Some(i) => Some(i + 1)
  }

  /** `getAnimationData`: the data of the first resource of that name, or None (a null pointer). */
  function FindData(ls: seq<LoadedAnimation>, name: string): (r: Option<Data>)
    ensures r.None? <==> forall j :: 0 <= j < |ls| ==> ls[j].resourceName != name
  {
    match FirstNamed(ls, name)
    case None => None
    case Some(i) => Some(ls[i].data)
  }

  /** After a release, no resource of that name is found. */
  lemma FindAfterRelease(ls: seq<LoadedAnimation>, name: string)
    ensures FindData(Released(ls, name), name).None?
  {
    var r := Released(ls, name);
    forall j | 0 <= j < |r|
      ensures r[j].resourceName != name
    {
      assert r[j] in r;
    }
  }

  /** A first resource of another name is passed over by the lookup. */
  lemma FindDataSkip(ls: seq<LoadedAnimation>, other: string)
    requires ls != [] && ls[0].resourceName != other
    ensures FindData(ls, other) == FindData(ls[1..], other)
  {
    match FirstNamed(ls[1..], other)
    case None =>
    case Some(i) =>
      assert FirstNamed(ls, other) == Some(i + 1);
  }

  /** Releasing one name leaves the lookup of every other name as it was. */
  lemma {:induction false} FindOtherAfterRelease(ls: seq<LoadedAnimation>, name: string, other: string)
    requires other != name
    ensures FindData(Released(ls, name), other) == FindData(ls, other)
  {
    if ls != [] {
      FindOtherAfterRelease(ls[1..], name, other);
      if ls[0].resourceName != name {
        var r := Released(ls, name);
        assert r == [ls[0]] + Released(ls[1..], name);
        assert r[1..] == Released(ls[1..], name);
        if ls[0].resourceName != other {
          FindDataSkip(r, other);
          FindDataSkip(ls, other);
        }
      } else {
        FindDataSkip(ls, other);
      }
    }
  }

  /**
   * Appending a resource leaves earlier lookups alone, and makes its own name
   * find it when no earlier resource has that name.
   */
  lemma FindAfterLoad(ls: seq<LoadedAnimation>, x: LoadedAnimation, name: string)
    ensures FindData(ls + [x], name) ==
      if FindData(ls, name).Some? then FindData(ls, name)
      else if x.resourceName == name then Some(x.data)
      else None
  {
    var l2 := ls + [x];
    match FirstNamed(ls, name)
    case Some(i) =>
      assert l2[i] == ls[i];
      forall j | 0 <= j < i
        ensures l2[j].resourceName != name
      {
        assert l2[j] == ls[j];
      }
      FirstNamedIs(l2, name, i);
    case None =>
      if x.resourceName == name {
        forall j | 0 <= j < |ls|
          ensures l2[j].resourceName != name
        {
          assert l2[j] == ls[j];
        }
        FirstNamedIs(l2, name, |ls|);
      } else {
        forall j | 0 <= j < |l2|
          ensures l2[j].resourceName != name
        {
          if j < |ls| {
            assert l2[j] == ls[j];
          }
        }
      }
  }

  /** `FirstNamed` is fixed by its contract. */
  lemma {:induction false} FirstNamedIs(ls: seq<LoadedAnimation>, name: string, i: nat)
    requires i < |ls| && ls[i].resourceName == name
    requires forall j :: 0 <= j < i ==> ls[j].resourceName != name
    ensures FirstNamed(ls, name) == Some(i)
  {
    if i > 0 {
      FirstNamedIs(ls[1..], name, i - 1);
    }
  }

  /**
   * The name reads of `readJointList`'s loop: for each of `n` joints, a
   * negative name length throws, and a joint that cannot be read whole ends
   * the reads that could.
   */
  method ScanJointNames(s: seq<byte>, n: nat, frames: nat) returns (thrown: bool)
    ensures thrown == JointNameThrows(s, n, frames)
  {
    var i := 0;
    var t := s;
    while i < n
      invariant 0 <= i <= n
      invariant JointNameThrows(s, n, frames) == JointNameThrows(t, n - i, frames)
      decreases n - i
    {
      if NegativeLength(t) {
        return true;
      }
      var j := DecodeJoint(t, frames);
      if j.None? {
        return false;
      }
      t := j.value.1;
      i := i + 1;
    }
    return false;
  }

  /** `AnimationLoader`: the file header and joints last read, and the loaded resources. */
  class Loader {
    var header: AnimHeader
    var joints: seq<Joint>
    var loadedAnimations: seq<LoadedAnimation>

    constructor()
      ensures header == CLEARED_HEADER && joints == [] && loadedAnimations == []
    {
      header := CLEARED_HEADER;
      joints := [];
      loadedAnimations := [];
    }

    /** `clear`: drops the joints last read. */
    method Clear()
      modifies this
      ensures joints == []
      ensures header == old(header) && loadedAnimations == old(loadedAnimations)
    {
      joints := [];
    }

    /** `clearData`: empties the header and the joints. */
    method ClearData()
      modifies this
      ensures header == CLEARED_HEADER && joints == []
      ensures loadedAnimations == old(loadedAnimations)
    {
      header := CLEARED_HEADER;
      joints := [];
    }

    /**
     * `loadAnimationData`: reads the header, then the joint list it announces;
     * `thrown` is the exception a negative model-name length, frame count or
     * joint-name length raises, which leaves the header as far as it was read
     * and the joints cleared.
     */
    method LoadAnimationData(file: seq<byte>) returns (thrown: bool)
      modifies this
      ensures thrown <==> LoadThrows(file)
      ensures header == HeaderRead(file) && joints == JointsRead(file)
      ensures thrown ==> joints == []
      ensures loadedAnimations == old(loadedAnimations)
    {
      ClearData();
      LoadThrowsKeepsNoJoints(file);
      if NegativeLength(file) {
        return true;
      }
      var h := ReadAnimHeader(file);
      if h.None? {
        return false;
      }
      header := h.value.0;
      if header.numFrames < 0 {
        return true;
      }
      thrown := ScanJointNames(h.value.1, Iterations(header.numJoints), header.numFrames as nat);
      if thrown {
        return;
      }
      var js := ReadJointList(header.numJoints, header.numFrames, h.value.1);
      if js.Some? {
        joints := js.value.0;
      }
    }

    /**
     * `loadAnimationDataResource`: the joints of the binary file, and the
     * clips, groups and paths of the .mlx file beside it, appended under the
     * resource name. It returns true unless loading the binary file throws,
     * and that exception propagates with nothing appended.
     */
    method LoadAnimationDataResource(resourceName: string, filePath: string, fs: Files) returns (ok: bool)
      modifies this
      ensures ok <==> !LoadThrows(BinaryFile(fs, filePath))
      ensures ok ==> loadedAnimations == old(loadedAnimations) + [LoadedAnimation(resourceName, filePath, ResourceData(fs, filePath))]
      ensures ok ==> header == CLEARED_HEADER && joints == []
      ensures !ok ==> loadedAnimations == old(loadedAnimations)
                      && header == HeaderRead(BinaryFile(fs, filePath)) && joints == []
    {
      var thrown := LoadAnimationData(BinaryFile(fs, filePath));
      if thrown {
        return false;
      }
      var js := joints;
      ClearData();
      var mlx := TextFile(fs, MlxPath(filePath));
      var clips := LoadAnimationClip(mlx);
      var groups := LoadIKGroup(mlx);
      var paths := LoadAnimationPath(mlx);
      loadedAnimations := loadedAnimations + [LoadedAnimation(resourceName, filePath, Data(js, clips, groups, paths))];
      ok := true;
    }

    /** `releaseAnimationData`: drops every resource of that name, keeping the others in order. */
    method ReleaseAnimationData(resourceName: string) returns (ok: bool)
      modifies this
      ensures ok
      ensures loadedAnimations == Released(old(loadedAnimations), resourceName)
      ensures header == old(header) && joints == old(joints)
    {
      var ls := loadedAnimations;
      var kept: seq<LoadedAnimation> := [];
      var i := 0;
      while i < |ls|
        invariant 0 <= i <= |ls|
        invariant kept == Released(ls[..i], resourceName)
        invariant header == old(header) && joints == old(joints)
      {
        ReleasedConcat(ls[..i], [ls[i]], resourceName);
        assert ls[..i + 1] == ls[..i] + [ls[i]];
        if ls[i].resourceName != resourceName {
          kept := kept + [ls[i]];
        }
        i := i + 1;
      }
      assert ls[..i] == ls;
      loadedAnimations := kept;
      ok := true;
    }

    /** `getAnimationData`: the first resource of that name, scanned from the front. */
    method GetAnimationData(resourceName: string) returns (r: Option<Data>)
      ensures r == FindData(loadedAnimations, resourceName)
    {
      var i := 0;
      while i < |loadedAnimations|
        invariant 0 <= i <= |loadedAnimations|
        invariant forall j :: 0 <= j < i ==> loadedAnimations[j].resourceName != resourceName
      {
        if loadedAnimations[i].resourceName == resourceName {
          FirstNamedIs(loadedAnimations, resourceName, i);
          return Some(loadedAnimations[i].data);
        }
        i := i + 1;
      }
      return None;
    }
  }
}
