/**
 * AnimationPlayer: the track and queue state of `Animation`, the player
 * each animated model owns. Six tracks form three pairs (0,1), (2,3), (4,5):
 * the even track of a pair plays a clip and the odd one fades in or layers
 * over it. Clips are started by name from the animation data, or queued and
 * started later by the track they are meant for.
 *
 * Frame counters and weights are floats in the source; they are `real` here
 * and only ever copied or set to constants, so no rounding is involved. The
 * per-frame blending, fades and inverse kinematics are not part of this model.
 */
module AnimationPlayer {
  import opened Wrappers
  import opened Bytes
  import opened ModelFormat
  import opened AnimationData

  const TRACK_COUNT := 6

  /** `AnimationTrack`. */
  datatype Track = Track(
    clip: Option<Clip>,
    active: bool,
    fadedFrames: real,
    currentFrame: real,
    destinationFrame: real,
    dynamicWeight: real,
    fadeIn: bool,
    fadeOut: bool)

  /** Each track as the constructor leaves it. */
  const IDLE_TRACK := Track(None, false, 0.0, 0.0, 1.0, 1.0, false, false)

  /** Track `t` starting clip `c` from its first frame; the destination frame is left as it was. */
  function Started(t: Track, c: Clip): Track
  {
    t.(clip := Some(c), fadedFrames := 0.0, active := true, currentFrame := c.start as real,
       dynamicWeight := 1.0, fadeIn := c.fadeIn, fadeOut := c.fadeOut)
  }

  /** Track `to` taking over everything of `from` but the destination frame. */
  function TakenOver(to: Track, from: Track): Track
  {
    from.(destinationFrame := to.destinationFrame)
  }

  /** `c` plays on the track pair it names: the source indexes tracks d and d+1 unchecked. */
  predicate Fits(c: Clip)
  {
    0 <= c.destinationTrack <= TRACK_COUNT - 2
  }

  predicate AllFit(clips: map<string, Clip>)
  {
    forall name :: name in clips ==> Fits(clips[name])
  }

  /** `t` is playing `c`. */
  predicate Plays(t: Track, c: Clip)
  {
    t.active && t.clip == Some(c) && t.currentFrame == c.start as real && t.fadedFrames == 0.0
  }

  /**
   * The tracks after `playClip` has found clip `c`, d being its destination
   * track. An override starts it on d+1 and stops every track above; otherwise
   * it starts on d when d is idle, and else on d+1, after d has taken over
   * what d+1 was playing (when d+1 was active).
   */
  function Played(ts: seq<Track>, c: Clip, override: bool): (r: seq<Track>)
    requires |ts| == TRACK_COUNT && Fits(c)
    ensures |r| == TRACK_COUNT
    ensures var d := c.destinationTrack;
      override ==>
        Plays(r[d + 1], c) &&
        (forall i :: 0 <= i <= d ==> r[i] == ts[i]) &&
        (forall i :: d + 1 < i < TRACK_COUNT ==> !r[i].active && r[i] == ts[i].(active := false))
    ensures var d := c.destinationTrack;
      !override && !ts[d].active ==>
        Plays(r[d], c) && r[d].destinationFrame == ts[d].destinationFrame &&
        forall i :: 0 <= i < TRACK_COUNT && i != d ==> r[i] == ts[i]
    ensures var d := c.destinationTrack;
      !override && ts[d].active ==>
        Plays(r[d + 1], c) && r[d + 1].destinationFrame == ts[d + 1].destinationFrame &&
        r[d] == (if ts[d + 1].active then TakenOver(ts[d], ts[d + 1]) else ts[d]) &&
        forall i :: 0 <= i < TRACK_COUNT && i != d && i != d + 1 ==> r[i] == ts[i]
  {
    var d := c.destinationTrack;
    if override then
      seq(TRACK_COUNT, i requires 0 <= i < TRACK_COUNT =>
        if i == d + 1 then Started(ts[i], c) else if i > d + 1 then ts[i].(active := false) else ts[i])
    else if ts[d].active then
      var shifted := if ts[d + 1].active then ts[d := TakenOver(ts[d], ts[d + 1])] else ts;
      shifted[d + 1 := Started(shifted[d + 1], c)]
    else
      ts[d := Started(ts[d], c)]
  }

  /** `purgeQueue`: the queue without the clips meant for `track`, the others kept in order. */
  function Purged(q: seq<Clip>, track: int): (r: seq<Clip>)
    ensures |r| <= |q|
    ensures forall c :: c in r <==> c in q && c.destinationTrack != track
  {
    if q == [] then []
    else
      var last := q[|q| - 1];
      assert q == q[..|q| - 1] + [last];
      Purged(q[..|q| - 1], track) + (if last.destinationTrack == track then [] else [last])
  }

  /** Purging keeps a queue with no clip for that track as it is. */
  lemma {:induction false} PurgedNothing(q: seq<Clip>, track: int)
    requires forall i :: 0 <= i < |q| ==> q[i].destinationTrack != track
    ensures Purged(q, track) == q
  {
    if q != [] {
      PurgedNothing(q[..|q| - 1], track);
      assert q == q[..|q| - 1] + [q[|q| - 1]];
    }
  }

  /** Purging twice is purging once. */
  lemma PurgedTwice(q: seq<Clip>, track: int)
    ensures Purged(Purged(q, track), track) == Purged(q, track)
  {
    var r := Purged(q, track);
    forall i | 0 <= i < |r|
      ensures r[i].destinationTrack != track
    {
      assert r[i] in r;
    }
    PurgedNothing(r, track);
  }

  /**
   * The whole of `playClip(name, override)` on the tracks and the queue: an
   * unknown name changes nothing; otherwise the clip is played and the queue
   * loses every clip meant for its destination track.
   */
  function AfterPlay(ts: seq<Track>, q: seq<Clip>, clips: map<string, Clip>, name: string, override: bool): (r: (seq<Track>, seq<Clip>))
    requires |ts| == TRACK_COUNT && AllFit(clips)
    ensures |r.0| == TRACK_COUNT
    ensures name !in clips ==> r == (ts, q)
    ensures name in clips ==>
      var d := clips[name].destinationTrack;
      (Plays(r.0[d], clips[name]) || Plays(r.0[d + 1], clips[name])) &&
      forall c :: c in r.1 ==> c.destinationTrack != d
  {
    if name !in clips then (ts, q)
    else
      var c := clips[name];
      (Played(ts, c, override), Purged(q, c.destinationTrack))
  }

  /** The track `playQueuedClip(p)` looks for: an odd track stands for the even track of its pair. */
  function QueuedTarget(p: int): int
  {
    if p == 1 || p == 3 || p == 5 then p - 1 else p
  }

  /** The position of the first queued clip meant for `track`. */
  function FirstQueued(q: seq<Clip>, track: int): (r: Option<nat>)
    ensures r.Some? ==> (r.value < |q| && q[r.value].destinationTrack == track &&
      forall j :: 0 <= j < r.value ==> q[j].destinationTrack != track)
    ensures r.None? ==> forall j :: 0 <= j < |q| ==> q[j].destinationTrack != track
  {
    if q == [] then None
    else if q[0].destinationTrack == track then Some(0)
    else
      match FirstQueued(q[1..], track)
      case None => None
      case Some(k) => Some(k + 1)
  }

  /** Purging a queue that holds a clip for the track makes it shorter. */
  lemma {:induction false} PurgedShorter(q: seq<Clip>, track: int, i: nat)
    requires i < |q| && q[i].destinationTrack == track
    ensures |Purged(q, track)| < |q|
  {
    var init := q[..|q| - 1];
    if i < |q| - 1 {
      assert init[i] == q[i];
      PurgedShorter(init, track, i);
    }
  }

  /**
   * Playing the first queued clip for a pair, `i` being its position, starts
   * it on that pair and takes it and every other clip for the pair off the
   * queue.
   */
  lemma QueuedClipPlays(ts: seq<Track>, q: seq<Clip>, clips: map<string, Clip>, p: int, i: nat)
    requires |ts| == TRACK_COUNT && AllFit(clips)
    requires FirstQueued(q, QueuedTarget(p)) == Some(i)
    requires q[i].name in clips && clips[q[i].name] == q[i]
    ensures var r := AfterPlay(ts, q, clips, q[i].name, false);
      (Plays(r.0[QueuedTarget(p)], q[i]) || Plays(r.0[QueuedTarget(p) + 1], q[i])) &&
      |r.1| < |q| && forall x :: x in r.1 ==> x.destinationTrack != QueuedTarget(p)
  {
    PurgedShorter(q, QueuedTarget(p), i);
  }

  // ---------------------------------------------------------------------
  // changeWeight.

  /**
   * The tracks `changeWeight(p, w)` writes, as written: p and p+1 whenever
   * 0 < p < 6. For p = 5 that is track 6, one past the six tracks.
   */
  function WeightWritesAsWritten(p: int): seq<int>
  {
    if 0 < p < 6 then [p, p + 1] else []
  }

  /** `changeWeight(5, w)` writes past the track array. */
  lemma ChangeWeightOverruns()
    ensures exists k :: k in WeightWritesAsWritten(5) && k >= TRACK_COUNT
  {
    assert 6 in WeightWritesAsWritten(5);
  }

  /**
   * The tracks `changeWeight` writes with the guard bounded so that p+1 is a
   * track, 0 < p < 5: both tracks of a pair's weight, always inside the array.
   */
  function WeightWrites(p: int): (r: seq<int>)
    ensures forall k :: k in r ==> 0 < k < TRACK_COUNT
    ensures 0 < p < TRACK_COUNT - 1 ==> r == [p, p + 1]
    ensures !(0 < p < TRACK_COUNT - 1) ==> r == []
  {
    if 0 < p < TRACK_COUNT - 1 then [p, p + 1] else []
  }

  /** The bounded guard changes nothing but the out-of-range call. */
  lemma WeightWritesAgree(p: int)
    requires p != 5
    ensures WeightWrites(p) == WeightWritesAsWritten(p)
  {
  }

  /** The tracks after `changeWeight(p, w)`, bounded guard. */
  function Weighted(ts: seq<Track>, p: int, w: real): (r: seq<Track>)
    requires |ts| == TRACK_COUNT
    ensures |r| == TRACK_COUNT
    ensures forall i :: 0 <= i < TRACK_COUNT ==>
      r[i] == if i in WeightWrites(p) then ts[i].(dynamicWeight := w) else ts[i]
  {
    seq(TRACK_COUNT, i requires 0 <= i < TRACK_COUNT =>
      if i in WeightWrites(p) then ts[i].(dynamicWeight := w) else ts[i])
  }

  // ---------------------------------------------------------------------
  // Joints.

  /** Each joint's parent comes before it; the root is joint 0. Parents are 1-based ids. */
  predicate ParentsBefore(joints: seq<Joint>)
  {
    forall i :: 0 < i < |joints| ==> 0 <= joints[i].parent as int - 1 < i
  }

  /** `affected(id, name)`: whether a joint named `name` lies on the parent chain from `id` to the root. */
  function Affected(joints: seq<Joint>, id: nat, name: seq<byte>): bool
    requires id < |joints| && ParentsBefore(joints)
    decreases id
  {
    if joints[id].name == name then true
    else if id == 0 then false
    else Affected(joints, joints[id].parent as int - 1, name)
  }

  /** The joints from `id` up to the root, following the parents. */
  function Chain(joints: seq<Joint>, id: nat): (r: seq<nat>)
    requires id < |joints| && ParentsBefore(joints)
    decreases id
    ensures r != [] && r[0] == id && r[|r| - 1] == 0
    ensures forall k :: 0 <= k < |r| ==> r[k] < |joints|
  {
    if id == 0 then [0] else [id] + Chain(joints, joints[id].parent as int - 1)
  }

  /** `affected` is true exactly when some joint on the chain to the root has that name. */
  lemma {:induction false} AffectedOnChain(joints: seq<Joint>, id: nat, name: seq<byte>)
    requires id < |joints| && ParentsBefore(joints)
    decreases id
    ensures Affected(joints, id, name) <==> exists k :: k in Chain(joints, id) && joints[k].name == name
  {
    if id > 0 {
      var parent := joints[id].parent as int - 1;
      AffectedOnChain(joints, parent, name);
      assert Chain(joints, id) == [id] + Chain(joints, parent);
    }
  }

  /** The first joint with that name. */
  function FirstJoint(joints: seq<Joint>, name: seq<byte>): (r: Option<nat>)
    ensures r.Some? ==> (r.value < |joints| && joints[r.value].name == name &&
      forall j :: 0 <= j < r.value ==> joints[j].name != name)
    ensures r.None? ==> forall j :: 0 <= j < |joints| ==> joints[j].name != name
  {
    if joints == [] then None
    else if joints[0].name == name then Some(0)
    else
      match FirstJoint(joints[1..], name)
      case None => None
      case Some(k) => Some(k + 1)
  }

  /**
   * What `getJointPos` computes: the origin when no final transforms exist
   * yet, else the world position of a joint (float math, not modelled: the
   * joint stands for it).
   */
  datatype JointPosition = Origin | AtJoint(joint: Joint)

  /** `InvalidArgument("Joint does not exist: ...")`. */
  datatype JointError = JointDoesNotExist(name: seq<byte>)

  /** `getJointPos`'s outcome, as a function of the joints and the number of final transforms. */
  function JointPos(joints: seq<Joint>, finalTransforms: nat, name: seq<byte>): (r: Result<JointPosition, JointError>)
    ensures r.Err? <==> finalTransforms > 0 && forall j :: 0 <= j < |joints| ==> joints[j].name != name
    ensures r.Ok? && r.value.AtJoint? ==> r.value.joint.name == name
    ensures finalTransforms == 0 ==> r == Ok(Origin)
  {
    if finalTransforms == 0 then Ok(Origin)
    else
      match FirstJoint(joints, name)
      case None => Err(JointDoesNotExist(name))
      case Some(k) => Ok(AtJoint(joints[k]))
  }

  // ---------------------------------------------------------------------
  // The player.

  class Animation {
    /** `m_Tracks[6]`. */
    const tracks: array<Track>
    /** `m_Queue`: the queued clips, oldest first. */
    var queue: seq<Clip>
    /** `m_Data`; None until `setAnimationData`. */
    var data: Option<Data>
    /** `m_FinalTransform.size()`; filled by the per-frame update, which is not part of this model. */
    var finalTransforms: nat

    predicate Valid()
      reads this
    {
      tracks.Length == TRACK_COUNT && (data.Some? ==> AllFit(data.value.clips))
    }

    /** The constructor: six idle tracks, no clip, an empty queue. */
    constructor ()
      ensures Valid() && fresh(tracks)
      ensures forall i :: 0 <= i < TRACK_COUNT ==> tracks[i] == IDLE_TRACK
      ensures queue == [] && data.None? && finalTransforms == 0
    {
      tracks := new Track[TRACK_COUNT](_ => IDLE_TRACK);
      queue := [];
      data := None;
      finalTransforms := 0;
    }

    /** `playClip(name, override)`. */
    method PlayClip(name: string, override: bool)
      requires Valid() && data.Some?
      modifies this, tracks
      ensures Valid() && data == old(data) && finalTransforms == old(finalTransforms)
      ensures (tracks[..], queue) == AfterPlay(old(tracks[..]), old(queue), data.value.clips, name, override)
    {
      var clips := data.value.clips;
      if name !in clips {
        return;
      }
      var c := clips[name];
      var track := c.destinationTrack;
      if override {
        StartOverride(c);
      } else {
        Start(c);
      }
      PurgeQueue(track);
    }

    /** The override branch of `playClip`: start `c` on d+1 and stop every track above it. */
    method StartOverride(c: Clip)
      requires tracks.Length == TRACK_COUNT && Fits(c)
      modifies tracks
      ensures tracks[..] == Played(old(tracks[..]), c, true)
    {
      var track := c.destinationTrack;
      ghost var ts := tracks[..];
      tracks[track + 1] := Started(tracks[track + 1], c);
      var i := track + 2;
      while i < TRACK_COUNT
        invariant track + 2 <= i <= TRACK_COUNT
        invariant forall k :: 0 <= k < TRACK_COUNT ==>
          tracks[k] == (if k == track + 1 then Started(ts[k], c) else if track + 1 < k < i then ts[k].(active := false) else ts[k])
      {
        tracks[i] := tracks[i].(active := false);
        i := i + 1;
      }
      assert tracks[..] == Played(ts, c, true);
    }

    /** The plain branch of `playClip`: start `c` on d, or on d+1 with d taking over from d+1. */
    method Start(c: Clip)
      requires tracks.Length == TRACK_COUNT && Fits(c)
      modifies tracks
      ensures tracks[..] == Played(old(tracks[..]), c, false)
    {
      var track := c.destinationTrack;
      ghost var ts := tracks[..];
      if tracks[track].active {
        if tracks[track + 1].active {
          tracks[track] := TakenOver(tracks[track], tracks[track + 1]);
        }
        tracks[track + 1] := Started(tracks[track + 1], c);
      } else {
        tracks[track] := Started(tracks[track], c);
      }
      assert tracks[..] == Played(ts, c, false);
    }

    /**
     * `purgeQueue(track)`: `std::remove_if` and `erase` over the queue. The
     * source compares with an unsigned track number; for the tracks 0 to 4
     * that `playClip` passes, that is comparing the ints.
     */
    method PurgeQueue(track: int)
      modifies this
      ensures data == old(data) && finalTransforms == old(finalTransforms)
      ensures queue == Purged(old(queue), track)
    {
      if queue == [] {
        return;
      }
      var kept: seq<Clip> := [];
      var i := 0;
      while i < |queue|
        invariant 0 <= i <= |queue|
        invariant kept == Purged(queue[..i], track)
      {
        assert queue[..i + 1][..i] == queue[..i];
        if queue[i].destinationTrack != track {
          kept := kept + [queue[i]];
        }
        i := i + 1;
      }
      assert queue[..i] == queue;
      queue := kept;
    }

    /** `queueClip(name)`: queues the named clip; an unknown name changes nothing. */
    method QueueClip(name: string)
      requires data.Some?
      modifies this
      ensures data == old(data) && finalTransforms == old(finalTransforms)
      ensures name in data.value.clips ==> queue == old(queue) + [data.value.clips[name]]
      ensures name !in data.value.clips ==> queue == old(queue)
    {
      var clips := data.value.clips;
      if name !in clips {
        return;
      }
      queue := queue + [clips[name]];
    }

    /**
     * `playQueuedClip(p)`: plays, without override, the first queued clip
     * meant for p's pair, looked up again by its name; reports whether there
     * was one.
     */
    method PlayQueuedClip(p: int) returns (played: bool)
      requires Valid() && data.Some?
      modifies this, tracks
      ensures Valid() && data == old(data) && finalTransforms == old(finalTransforms)
      ensures played <==> FirstQueued(old(queue), QueuedTarget(p)).Some?
      ensures !played ==> queue == old(queue) && tracks[..] == old(tracks[..])
      ensures played ==>
        (tracks[..], queue) == AfterPlay(old(tracks[..]), old(queue), data.value.clips,
          old(queue)[FirstQueued(old(queue), QueuedTarget(p)).value].name, false)
    {
      var target := p;
      if target == 1 || target == 3 || target == 5 {
        target := target - 1;
      }
      if queue != [] {
        var i := 0;
        while i < |queue|
          invariant 0 <= i <= |queue|
          invariant forall j :: 0 <= j < i ==> queue[j].destinationTrack != target
        {
          if queue[i].destinationTrack == target {
            assert FirstQueued(queue, target) == Some(i) by {
              FirstQueuedAt(queue, target, i);
            }
            PlayClip(queue[i].name, false);
            return true;
          }
          i := i + 1;
        }
      }
      return false;
    }

    /** `changeWeight(p, w)`, with the guard bounded to the tracks. */
    method ChangeWeight(p: int, w: real)
      requires Valid()
      modifies tracks
      ensures tracks[..] == Weighted(old(tracks[..]), p, w)
    {
      if 0 < p < TRACK_COUNT - 1 {
        tracks[p] := tracks[p].(dynamicWeight := w);
        tracks[p + 1] := tracks[p + 1].(dynamicWeight := w);
      }
    }

    /** `setAnimationData(d)`: takes the data and plays its "default" clip with override. */
    method SetAnimationData(d: Data)
      requires Valid() && AllFit(d.clips)
      modifies this, tracks
      ensures Valid() && data == Some(d) && finalTransforms == old(finalTransforms)
      ensures (tracks[..], queue) == AfterPlay(old(tracks[..]), old(queue), d.clips, "default", true)
    {
      data := Some(d);
      PlayClip("default", true);
    }

    /** `getJointPos(name, world)`: the first joint with that name, once final transforms exist. */
    method GetJointPos(name: seq<byte>) returns (r: Result<JointPosition, JointError>)
      requires data.Some?
      ensures r == JointPos(data.value.joints, finalTransforms, name)
    {
      var joints := data.value.joints;
      if finalTransforms > 0 {
        var i := 0;
        while i < |joints|
          invariant 0 <= i <= |joints|
          invariant forall j :: 0 <= j < i ==> joints[j].name != name
        {
          if joints[i].name == name {
            FirstJointAt(joints, name, i);
            return Ok(AtJoint(joints[i]));
          }
          i := i + 1;
        }
        return Err(JointDoesNotExist(name));
      }
      return Ok(Origin);
    }
  }

  /** A position holding the first clip for a track is what `FirstQueued` finds. */
  lemma FirstQueuedAt(q: seq<Clip>, track: int, i: nat)
    requires i < |q| && q[i].destinationTrack == track
    requires forall j :: 0 <= j < i ==> q[j].destinationTrack != track
    ensures FirstQueued(q, track) == Some(i)
  {
    var r := FirstQueued(q, track);
    assert r.Some?;
    assert !(r.value < i) && !(i < r.value);
  }

  /** A position holding the first joint with a name is what `FirstJoint` finds. */
  lemma FirstJointAt(joints: seq<Joint>, name: seq<byte>, i: nat)
    requires i < |joints| && joints[i].name == name
    requires forall j :: 0 <= j < i ==> joints[j].name != name
    ensures FirstJoint(joints, name) == Some(i)
  {
    var r := FirstJoint(joints, name);
    assert r.Some?;
    assert !(r.value < i) && !(i < r.value);
  }
}
