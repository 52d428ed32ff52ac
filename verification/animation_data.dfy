/**
 * AnimationData: what the animation loader hands an animated model: the
 * skeleton's joints, and the animation clips, inverse-kinematics groups and
 * animation paths of its .mlx file, each keyed by name.
 *
 * Float fields hold the text of the word they were read from; ints and bools
 * are read as numbers.
 */
module AnimationData {
  import opened Wrappers
  import opened ModelFormat

  /** `AnimationClip`: what one "*Clip" block of an .mlx file describes. */
  datatype Clip = Clip(
    name: string,
    speed: string,
    start: int,
    end: int,
    loop: bool,
    firstJoint: string,
    destinationTrack: int,
    layered: bool,
    fadeIn: bool,
    fadeInFrames: int,
    fadeOut: bool,
    fadeOutFrames: int,
    weight: string)

  /** The clip `AnimationClip()` constructs. */
  const DEFAULT_CLIP := Clip("default", "1.0", 1, 10, true, "Hip", 0, false, false, 0, false, 0, "0.0")

  /** `IKGroup`: the joints an inverse-kinematics chain runs through. */
  datatype IKGroup = IKGroup(name: string, shoulder: string, elbow: string, hand: string)

  /** The group `IKGroup()` constructs. */
  const DEFAULT_IK_GROUP := IKGroup("default", "defaultShoulder", "defaultElbow", "defaultHand")

  /**
   * One (value, timestamp) point of a path. Each is the word read for it, or
   * None where the line held none and the float was left uninitialised.
   */
  datatype PathPoint = PathPoint(value: Option<string>, timestamp: Option<string>)

  /** `AnimationPath`: a named path with separate Y and Z point lists. */
  datatype AnimationPath = AnimationPath(name: string, yPath: seq<PathPoint>, zPath: seq<PathPoint>)

  /** The path `AnimationPath()` constructs. */
  const DEFAULT_PATH := AnimationPath("default", [], [])

  /** `AnimationData`: joints from the binary file, the rest from the .mlx file. */
  datatype Data = Data(
    joints: seq<Joint>,
    clips: map<string, Clip>,
    ikGroups: map<string, IKGroup>,
    paths: map<string, AnimationPath>)

  /** `std::map::insert`: a key already present keeps its value. */
  function Insert<T>(m: map<string, T>, k: string, v: T): (r: map<string, T>)
    ensures k in r && r[k] == (if k in m then m[k] else v)
    ensures forall j :: j in m ==> j in r && r[j] == m[j]
    ensures forall j :: j in r ==> j in m || j == k
  {
    if k in m then m else m[k := v]
  }

  /** Inserting each element under its key, in order. */
  function InsertAll<T>(m: map<string, T>, xs: seq<T>, key: T -> string): (r: map<string, T>)
    decreases |xs|
  {
    if xs == [] then m else InsertAll(Insert(m, key(xs[0]), xs[0]), xs[1..], key)
  }

  /** `xs[i]` is the first element with its key. */
  predicate FirstWithKey<T>(xs: seq<T>, i: nat, key: T -> string)
    requires i < |xs|
  {
    forall j :: 0 <= j < i ==> key(xs[j]) != key(xs[i])
  }

  /**
   * After inserting a list, a key holds what it held before, or else the
   * first element with that key; nothing else is a key.
   */
  lemma {:induction false} InsertAllFirstWins<T>(m: map<string, T>, xs: seq<T>, key: T -> string)
    decreases |xs|
    ensures forall k :: k in m ==> k in InsertAll(m, xs, key) && InsertAll(m, xs, key)[k] == m[k]
    ensures forall i :: 0 <= i < |xs| ==> key(xs[i]) in InsertAll(m, xs, key)
    ensures forall i :: 0 <= i < |xs| && key(xs[i]) !in m && FirstWithKey(xs, i, key) ==>
      InsertAll(m, xs, key)[key(xs[i])] == xs[i]
    ensures forall k :: k in InsertAll(m, xs, key) ==> k in m || exists i :: 0 <= i < |xs| && key(xs[i]) == k
  {
    if xs != [] {
      var m1 := Insert(m, key(xs[0]), xs[0]);
      var r := InsertAll(m, xs, key);
      InsertAllFirstWins(m1, xs[1..], key);
      forall i | 0 <= i < |xs| && key(xs[i]) !in m && FirstWithKey(xs, i, key)
        ensures r[key(xs[i])] == xs[i]
      {
        if i > 0 {
          assert FirstWithKey(xs[1..], i - 1, key) by {
            forall j | 0 <= j < i - 1
              ensures key(xs[1..][j]) != key(xs[1..][i - 1])
            {
              assert key(xs[j + 1]) != key(xs[i]);
            }
          }
          assert key(xs[0]) != key(xs[i]);
        }
      }
      forall i | 0 <= i < |xs|
        ensures key(xs[i]) in r
      {
        if i > 0 {
          assert xs[1..][i - 1] == xs[i];
        }
      }
      forall k | k in r
        ensures k in m || exists i :: 0 <= i < |xs| && key(xs[i]) == k
      {
        if k !in m1 {
          var i :| 0 <= i < |xs[1..]| && key(xs[1..][i]) == k;
          assert key(xs[i + 1]) == k;
        } else if k !in m {
          assert key(xs[0]) == k;
        }
      }
    }
  }
}
