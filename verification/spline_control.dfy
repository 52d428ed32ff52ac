/**
 * The spline control component: a camera path recorder and player. Points
 * (position, look-forward, look-up and the time since the previous point)
 * are recorded into numbered sequences; a sequence of two or more points
 * can then be run, stepping from point to point as time passes. The
 * physics and look components the recorder reads and drives are modelled
 * by one flag saying whether both are attached, and the pose it would set
 * is returned as an effect.
 */
module SplineControl {
  import opened Vectors
  import opened Bytes

  /** The most time recorded between two points. */
  const TIME_LIMIT: real := 20.0

  datatype Sequence = Sequence(positions: seq<Vector3>, forward: seq<Vector3>, up: seq<Vector3>, time: seq<real>)

  const EMPTY: Sequence := Sequence([], [], [], [])

  /** The four lists run in step, and no recorded time exceeds the limit. */
  predicate Aligned(s: Sequence)
  {
    |s.forward| == |s.positions| && |s.up| == |s.positions| && |s.time| == |s.positions|
  }

  predicate WellFormed(s: Sequence)
  {
    Aligned(s) && forall i :: 0 <= i < |s.time| ==> s.time[i] <= TIME_LIMIT
  }

  predicate AllWellFormed(seqs: seq<Sequence>)
  {
    forall k :: 0 <= k < |seqs| ==> WellFormed(seqs[k])
  }

  /** What an operation does outside the component's own state. */
  datatype Effect =
    | NoEffect
    | Thrown                                               // `std::vector::at` out of range
    | Logged                                               // the "Valid spline values" hint
    | Pose(position: Vector3, forward: Vector3, up: Vector3) // the body and look are moved to a recorded point
    | Moved(point: nat)                                    // interpolating from this point to the next
    | Finished                                             // the run reached its last point

  /** The time stored with a new point: zero for a sequence's first point, otherwise the time since the last one, capped. */
  function RecordedTime(elapsed: real, first: bool): (t: real)
    ensures t <= TIME_LIMIT
    ensures first ==> t == 0.0
    ensures !first ==> t == (if elapsed < TIME_LIMIT then elapsed else TIME_LIMIT)
  {
    var e := if first then 0.0 else elapsed;
    if e >= TIME_LIMIT then TIME_LIMIT else e
  }

  function Pushed(s: Sequence, p: Vector3, f: Vector3, u: Vector3, t: real): Sequence
  {
    Sequence(s.positions + [p], s.forward + [f], s.up + [u], s.time + [t])
  }

  function Popped(s: Sequence): (r: Sequence)
    requires Aligned(s) && |s.positions| > 0
    ensures Aligned(r) && |r.positions| == |s.positions| - 1
    ensures WellFormed(s) ==> WellFormed(r)
  {
    var n := |s.positions| - 1;
    Sequence(s.positions[..n], s.forward[..n], s.up[..n], s.time[..n])
  }

  /** Recording keeps a sequence well formed when the stored time is within the limit. */
  lemma PushedWellFormed(s: Sequence, p: Vector3, f: Vector3, u: Vector3, t: real)
    requires WellFormed(s) && t <= TIME_LIMIT
    ensures WellFormed(Pushed(s, p, f, u, t))
    ensures |Pushed(s, p, f, u, t).positions| == |s.positions| + 1
    ensures Pushed(s, p, f, u, t).time[|s.time|] == t
  {
    var r := Pushed(s, p, f, u, t);
    forall i | 0 <= i < |r.time|
      ensures r.time[i] <= TIME_LIMIT
    {
      if i < |s.time| {
        assert r.time[i] == s.time[i];
      }
    }
  }

  /** Removing the previous point undoes recording it. */
  lemma PopUndoesPush(s: Sequence, p: Vector3, f: Vector3, u: Vector3, t: real)
    requires Aligned(s)
    ensures Popped(Pushed(s, p, f, u, t)) == s
  {
    var r := Pushed(s, p, f, u, t);
    assert r.positions[..|s.positions|] == s.positions;
    assert r.forward[..|s.positions|] == s.forward;
    assert r.up[..|s.positions|] == s.up;
    assert r.time[..|s.positions|] == s.time;
  }

  /** `clearSequence`'s list: the sequence at `i` erased when it exists, and one empty sequence when none remain. */
  function Cleared(seqs: seq<Sequence>, i: nat): (r: seq<Sequence>)
    ensures r != []
    ensures i >= |seqs| && seqs != [] ==> r == seqs
    ensures i < |seqs| && |seqs| > 1 ==>
              |r| == |seqs| - 1
              && (forall k :: 0 <= k < i ==> r[k] == seqs[k])
              && (forall k :: i <= k < |r| ==> r[k] == seqs[k + 1])
    ensures (seqs == [] || (i < |seqs| && |seqs| == 1)) ==> r == [EMPTY]
  {
    var erased := if i < |seqs| then seqs[..i] + seqs[i + 1..] else seqs;
    if erased == [] then [EMPTY] else erased
  }

  /** Clearing keeps every sequence well formed. */
  lemma ClearedWellFormed(seqs: seq<Sequence>, i: nat)
    requires AllWellFormed(seqs)
    ensures AllWellFormed(Cleared(seqs, i))
  {
    var r := Cleared(seqs, i);
    forall k | 0 <= k < |r|
      ensures WellFormed(r[k])
    {
      if seqs == [] || (i < |seqs| && |seqs| == 1) {
        assert r[k] == EMPTY;
      } else if i >= |seqs| {
        assert r[k] == seqs[k];
      } else if k < i {
        assert r[k] == seqs[k];
      } else {
        assert r[k] == seqs[k + 1];
      }
    }
  }

  /**
   * Clearing the last of several sequences leaves the current index one past
   * the end: the next recording then throws out of range.
   */
  lemma ClearLastLeavesIndexPastEnd(seqs: seq<Sequence>)
    requires |seqs| >= 2
    ensures |seqs| - 1 >= |Cleared(seqs, |seqs| - 1)|
  {
  }

  class Recorder {
    var sequences: seq<Sequence>
    /** `m_SplineSequence`: the sequence recorded into and run. */
    var current: nat
    /** `m_CurrentPoint`: the point a run interpolates from. */
    var currentPoint: nat
    var currentTime: real
    var active: bool
    /** `m_RecTimeBetweenPoint`: the time since the last recorded point. */
    var recTime: real

    predicate Valid()
      reads this
    {
      AllWellFormed(sequences) && (!active ==> currentPoint == 0)
    }

    /** The constructor together with `postInit`: one empty sequence, selected. */
    constructor ()
      ensures Valid()
      ensures sequences == [EMPTY] && current == 0 && currentPoint == 0 && !active
      ensures currentTime == 0.0 && recTime == 0.0
    {
      sequences := [EMPTY];
      current := 0;
      currentPoint := 0;
      currentTime := 0.0;
      active := false;
      recTime := 0.0;
    }

    /** `recordPoint`: appends the pose and the capped time to the current sequence. */
    method RecordPoint(attached: bool, p: Vector3, f: Vector3, u: Vector3) returns (effect: Effect)
      requires Valid()
      modifies this
      ensures Valid()
      ensures effect == (if attached && current >= |old(sequences)| then Thrown else NoEffect)
      ensures effect.NoEffect? && attached ==>
                var s := old(sequences)[current];
                sequences == old(sequences)[current := Pushed(s, p, f, u, RecordedTime(old(recTime), |s.time| == 0))]
                && recTime == 0.0
      ensures !effect.NoEffect? || !attached ==> sequences == old(sequences) && recTime == old(recTime)
      ensures current == old(current) && active == old(active) && currentPoint == old(currentPoint)
      ensures currentTime == old(currentTime)
    {
      if !attached {
        return NoEffect;
      }
      if current >= |sequences| {
        return Thrown;
      }
      var s := sequences[current];
      var t := RecordedTime(recTime, |s.time| == 0);
      PushedWellFormed(s, p, f, u, t);
      sequences := sequences[current := Pushed(s, p, f, u, t)];
      recTime := 0.0;
      effect := NoEffect;
    }

    /** `removePreviousPoint`: drops the last point of the current sequence and moves back to it. */
    method RemovePreviousPoint(attached: bool) returns (effect: Effect)
      requires Valid()
      modifies this
      ensures Valid()
      ensures old(sequences) != [] && current >= |old(sequences)| <==> effect.Thrown?
      ensures effect.Pose? <==> attached && current < |old(sequences)| && |old(sequences)[current].positions| > 0
      ensures effect.Pose? ==>
                var s := old(sequences)[current];
                effect == Pose(s.positions[|s.positions| - 1], s.forward[|s.positions| - 1], s.up[|s.positions| - 1])
                && sequences == old(sequences)[current := Popped(s)] && recTime == 0.0
      ensures !effect.Pose? ==> sequences == old(sequences) && recTime == old(recTime)
      ensures effect.Pose? || effect.Thrown? || effect.NoEffect?
      ensures current == old(current) && active == old(active) && currentPoint == old(currentPoint)
      ensures currentTime == old(currentTime)
    {
      if |sequences| == 0 {
        return NoEffect;
      }
      if current >= |sequences| {
        return Thrown;
      }
      var s := sequences[current];
      if |s.positions| == 0 || !attached {
        return NoEffect;
      }
      var last := |s.positions| - 1;
      effect := Pose(s.positions[last], s.forward[last], s.up[last]);
      sequences := sequences[current := Popped(s)];
      recTime := 0.0;
    }

    /** `clearSequence`: the current index is left where it was, even past the end. */
    method ClearSequence()
      requires Valid()
      modifies this
      ensures Valid()
      ensures sequences == Cleared(old(sequences), current)
      ensures current == old(current) && active == old(active) && currentPoint == old(currentPoint)
      ensures currentTime == old(currentTime) && recTime == old(recTime)
    {
      ClearedWellFormed(sequences, current);
      if current < |sequences| {
        sequences := sequences[..current] + sequences[current + 1..];
      }
      if sequences == [] {
        sequences := [EMPTY];
      }
    }

    /**
     * `runSpline`: starts running sequence `p` when no run is active, `p`
     * names a sequence through its unsigned cast, and the sequence has at
     * least two points. A negative `p` whose cast is in range throws in `at`.
     */
    method RunSpline(p: int32) returns (effect: Effect)
      requires Valid()
      modifies this
      ensures Valid()
      ensures var inRange := !old(active) && |sequences| > 0 && |sequences| > Uint32Of(p as int) as int;
        (effect == if !inRange then Logged else if p < 0 then Thrown else NoEffect)
        && (active <==> old(active) || (inRange && 0 <= p && |sequences[p as int].positions| >= 2))
        && (active && !old(active) ==> current == p as int)
        && (!(active && !old(active)) ==> current == old(current))
      ensures sequences == old(sequences) && currentPoint == old(currentPoint)
      ensures currentTime == old(currentTime) && recTime == old(recTime)
    {
      if !active && |sequences| > 0 && |sequences| > Uint32Of(p as int) as int {
        if p < 0 {
          return Thrown;
        }
        if |sequences[p as int].positions| >= 2 {
          active := true;
          current := p as int;
        }
        effect := NoEffect;
      } else {
        effect := Logged;
      }
    }

    /** `newSequence`: appends an empty sequence and steps the current index by one. */
    method NewSequence()
      requires Valid()
      modifies this
      ensures Valid()
      ensures sequences == old(sequences) + [EMPTY] && current == old(current) + 1
      ensures active == old(active) && currentPoint == old(currentPoint)
      ensures currentTime == old(currentTime) && recTime == old(recTime)
    {
      sequences := sequences + [EMPTY];
      current := current + 1;
    }

    /**
     * `selectSequence`: any sequence but the first can be selected; with the
     * components attached the camera moves to its last point, which the
     * sequence must then have.
     */
    method SelectSequence(p: uint32, attached: bool) returns (effect: Effect)
      requires Valid()
      requires attached && 0 < p as int < |sequences| ==> |sequences[p as int].positions| > 0
      modifies this
      ensures Valid()
      ensures sequences == old(sequences) && active == old(active) && currentPoint == old(currentPoint)
      ensures currentTime == old(currentTime)
      ensures current == (if 0 < p as int < |sequences| then p as nat else old(current))
      ensures !(0 < p as int < |sequences|) ==> effect == Logged && recTime == old(recTime)
      ensures 0 < p as int < |sequences| && !attached ==> effect == NoEffect && recTime == old(recTime)
      ensures 0 < p as int < |sequences| && attached ==>
                var s := sequences[p as int];
                var n := |s.positions| - 1;
                effect == Pose(s.positions[n], s.forward[n], s.up[n]) && recTime == 0.0
    {
      if 0 < p as int < |sequences| {
        current := p as nat;
        if !attached {
          return NoEffect;
        }
        var s := sequences[current];
        var n := |s.positions| - 1;
        effect := Pose(s.positions[n], s.forward[n], s.up[n]);
        recTime := 0.0;
      } else {
        effect := Logged;
      }
    }

    /**
     * `move`: a running spline advances its clock and steps to the next
     * point once the time stored with that point has passed, and stops after
     * the last segment; otherwise the recording clock advances.
     */
    method Move(dt: real, attached: bool) returns (effect: Effect)
      requires Valid()
      modifies this
      ensures Valid()
      ensures !old(active) ==> effect == NoEffect && recTime == old(recTime) + dt && active == old(active)
                               && currentTime == old(currentTime) && currentPoint == old(currentPoint)
      ensures old(active) ==> recTime == old(recTime)
      ensures old(active) && !attached ==> effect == NoEffect && active && currentTime == old(currentTime)
                                           && currentPoint == old(currentPoint)
      ensures effect.Thrown? <==>
                old(active) && attached && (current >= |sequences| || old(currentPoint) + 1 >= |sequences[current].time|)
      ensures effect.Moved? ==>
                active && effect.point == currentPoint && current < |sequences|
                && currentPoint + 1 < |sequences[current].positions|
      ensures effect.Finished? <==> old(active) && !active
      ensures effect.Finished? ==> currentTime == 0.0
      ensures effect.NoEffect? || effect.Thrown? || effect.Moved? || effect.Finished?
      ensures sequences == old(sequences) && current == old(current)
      ensures effect.Thrown? ==>
                active && currentPoint == old(currentPoint)
                && currentTime == (if current >= |sequences| then old(currentTime) else old(currentTime) + dt)
      ensures old(active) && attached && !effect.Thrown? ==>
                var time := sequences[current].time;
                var clock := old(currentTime) + dt;
                var next := time[old(currentPoint) + 1];
                var point := if clock >= next then old(currentPoint) + 1 else old(currentPoint);
                (effect == Finished <==> point > |time| - 2)
                && (effect == Finished ==> currentPoint == 0 && currentTime == 0.0 && !active)
                && (effect != Finished ==>
                      effect == Moved(point) && currentPoint == point && active
                      && currentTime == (if clock >= next then clock - next else clock))
    {
      if !active {
        recTime := recTime + dt;
        return NoEffect;
      }
      if !attached {
        return NoEffect;
      }
      if current >= |sequences| {
        return Thrown;
      }
      var time := sequences[current].time;
      currentTime := currentTime + dt;
      if currentPoint + 1 >= |time| {
        return Thrown;
      }
      var nextTime := time[currentPoint + 1];
      if currentTime >= nextTime {
        currentPoint := currentPoint + 1;
        currentTime := currentTime - nextTime;
      }
      if currentPoint > |time| - 2 {
        currentTime := 0.0;
        currentPoint := 0;
        active := false;
        return Finished;
      }
      effect := Moved(currentPoint);
    }
  }
}
