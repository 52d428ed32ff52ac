/**
 * The client's EventManager: a map from event type to its listeners, and a
 * small ring of event queues. Events are queued on the active queue;
 * `tickUpdate` makes the next queue active and drains the old one in FIFO
 * order, within an optional time budget, handing what is left over to the
 * front of the new active queue.
 */
module EventManager {
  import opened Wrappers

  /** An event type's hash and a listener delegate; both are only compared. */
  type EventType = int
  type Delegate = int

  datatype Event = Event(kind: EventType, data: int)

  /** One invocation of a listener with an event. */
  datatype Call = Call(listener: Delegate, event: Event)

  type Listeners = map<EventType, seq<Delegate>>

  /** EVENTMANAGER_NUM_QUEUES; the header that defines it is not part of this model, and the value 2 is taken here. */
  const NUM_QUEUES := 2

  const OUT_OF_BOUNDS := "Error queue is out of bounds."

  function ListenersOf(m: Listeners, t: EventType): seq<Delegate>
  {
    if t in m then m[t] else []
  }

  /** `addListener`: the type's list is looked up (and created) first; a delegate already on it throws. */
  function AddListener(m: Listeners, d: Delegate, t: EventType): Result<Listeners, string>
  {
    var ls := ListenersOf(m, t);
    if d in ls then Err("Error when attempting to double-register a delegate")
    else Ok(m[t := ls + [d]])
  }

  /** The list without its first occurrence of `d`. */
  function RemoveFirst(ls: seq<Delegate>, d: Delegate): seq<Delegate>
  {
    if ls == [] then []
    else if ls[0] == d then ls[1..]
    else [ls[0]] + RemoveFirst(ls[1..], d)
  }

  /** `removeListener`: erases the first equal delegate; the type's entry stays, even when it empties. */
  function RemoveListener(m: Listeners, d: Delegate, t: EventType): (Listeners, bool)
  {
    if t in m && d in m[t] then (m[t := RemoveFirst(m[t], d)], true) else (m, false)
  }

  /** The listeners of an event's type, each called with the event, in registration order. */
  function Dispatch(m: Listeners, e: Event): seq<Call>
  {
    var ls := ListenersOf(m, e.kind);
    seq(|ls|, i requires 0 <= i < |ls| => Call(ls[i], e))
  }

  /** The calls made by handling `es` one after the other. */
  function DispatchAll(m: Listeners, es: seq<Event>): seq<Call>
  {
    if es == [] then [] else DispatchAll(m, es[..|es| - 1]) + Dispatch(m, es[|es| - 1])
  }

  /** The index of the earliest event of type `t`, `|q|` when there is none. */
  function FirstOf(q: seq<Event>, t: EventType): (i: nat)
    ensures i <= |q|
    ensures i < |q| ==> q[i].kind == t
    ensures forall j :: 0 <= j < i ==> q[j].kind != t
  {
    if q == [] then 0
    else if q[0].kind == t then 0
    else 1 + FirstOf(q[1..], t)
  }

  /** The queue without its earliest event of type `t`. */
  function AbortFirst(q: seq<Event>, t: EventType): seq<Event>
  {
    var i := FirstOf(q, t);
    if i == |q| then q else q[..i] + q[i + 1..]
  }

  /** The queue without any event of type `t`, the rest in order. */
  function AbortAll(q: seq<Event>, t: EventType): seq<Event>
  {
    if q == [] then []
    else (if q[0].kind == t then [] else [q[0]]) + AbortAll(q[1..], t)
  }

  function Abort(q: seq<Event>, t: EventType, all: bool): seq<Event>
  {
    if all then AbortAll(q, t) else AbortFirst(q, t)
  }

  predicate HasKind(q: seq<Event>, t: EventType)
  {
    exists i :: 0 <= i < |q| && q[i].kind == t
  }

  /**
   * How many events of an `n`-event queue `tickUpdate` handles: after the
   * i-th it reads the clock, `tick(i)`, and stops once that reaches the
   * deadline; without a deadline it handles them all.
   */
  function Handled(n: nat, deadline: Option<int>, tick: nat -> int): (k: nat)
    ensures k <= n && (n > 0 ==> k >= 1)
  {
    if n == 0 then 0 else HandledFrom(n, deadline, tick, 1)
  }

  function HandledFrom(n: nat, deadline: Option<int>, tick: nat -> int, i: nat): (k: nat)
    requires 1 <= i <= n
    ensures i <= k <= n
    decreases n - i
  {
    if i == n then n
    else if deadline.Some? && Reading(tick(i)) >= deadline.value then i
    else HandledFrom(n, deadline, tick, i + 1)
  }

  /** `getTickCount` returns the performance counter cast to a 32-bit `unsigned long`. */
  const TICK_MODULUS := 0x1_0000_0000

  /** The clock value `getTickCount` returns for the counter value `t`. */
  function Reading(t: int): (r: int)
    ensures 0 <= r < TICK_MODULUS && (0 <= t < TICK_MODULUS ==> r == t)
  {
    t % TICK_MODULUS
  }

  /**
   * The deadline for a budget of `maxMs` milliseconds from the counter value
   * `now`; none without a budget. The sum is taken in `unsigned long`, so it wraps.
   */
  function Deadline(maxMs: Option<nat>, now: int): Option<int>
  {
    match maxMs
    case None => None
    case Some(ms) => Some(Reading(Reading(now) + ms))
  }

  // ---------------------------------------------------------------------
  // What the operations promise.

  /** Adding a new delegate and removing it again restores the type's listeners (the entry itself stays). */
  lemma {:induction false} AddThenRemove(m: Listeners, d: Delegate, t: EventType)
    requires AddListener(m, d, t).Ok?
    ensures RemoveListener(AddListener(m, d, t).value, d, t) == (m[t := ListenersOf(m, t)], true)
  {
    var ls := ListenersOf(m, t);
    var m' := AddListener(m, d, t).value;
    RemoveFirstAppended(ls, d);
    assert m'[t] == ls + [d] && d in m'[t];
    assert m'[t := RemoveFirst(ls + [d], d)] == m[t := ls];
  }

  lemma {:induction false} RemoveFirstAppended(ls: seq<Delegate>, d: Delegate)
    requires d !in ls
    ensures RemoveFirst(ls + [d], d) == ls
  {
    if ls != [] {
      assert (ls + [d])[1..] == ls[1..] + [d];
      RemoveFirstAppended(ls[1..], d);
    }
  }

  /** Removing takes away exactly one occurrence of the delegate when there is one, and none otherwise. */
  lemma {:induction false} RemoveFirstCount(ls: seq<Delegate>, d: Delegate)
    ensures d in ls ==> multiset(RemoveFirst(ls, d)) == multiset(ls) - multiset{d} && |RemoveFirst(ls, d)| == |ls| - 1
    ensures d !in ls ==> RemoveFirst(ls, d) == ls
  {
    if ls != [] {
      RemoveFirstCount(ls[1..], d);
      assert ls == [ls[0]] + ls[1..];
    }
  }

  /** Handling one sequence of events and then another calls the listeners as handling both in order does. */
  lemma {:induction false} DispatchAllAppend(m: Listeners, a: seq<Event>, b: seq<Event>)
    ensures DispatchAll(m, a + b) == DispatchAll(m, a) + DispatchAll(m, b)
  {
    if b != [] {
      assert (a + b)[..|a + b| - 1] == a + b[..|b| - 1];
      assert (a + b)[|a + b| - 1] == b[|b| - 1];
      DispatchAllAppend(m, a, b[..|b| - 1]);
    } else {
      assert a + b == a;
    }
  }

  /** Aborting all events of a type leaves none of it, and every other event. */
  lemma {:induction false} AbortAllSpec(q: seq<Event>, t: EventType)
    ensures forall i :: 0 <= i < |AbortAll(q, t)| ==> AbortAll(q, t)[i].kind != t
    ensures forall e :: e in AbortAll(q, t) <==> e in q && e.kind != t
    ensures |AbortAll(q, t)| <= |q|
    ensures HasKind(q, t) <==> |AbortAll(q, t)| < |q|
  {
    if q != [] {
      AbortAllSpec(q[1..], t);
      assert q == [q[0]] + q[1..];
      assert HasKind(q, t) <==> q[0].kind == t || HasKind(q[1..], t) by {
        if HasKind(q[1..], t) {
          var i :| 0 <= i < |q[1..]| && q[1..][i].kind == t;
          assert q[i + 1].kind == t;
        }
        if HasKind(q, t) && q[0].kind != t {
          var i :| 0 <= i < |q| && q[i].kind == t;
          assert q[1..][i - 1].kind == t;
        }
      }
    }
  }

  lemma {:induction false} AbortAllAppend(a: seq<Event>, b: seq<Event>, t: EventType)
    ensures AbortAll(a + b, t) == AbortAll(a, t) + AbortAll(b, t)
  {
    if a != [] {
      assert (a + b)[0] == a[0];
      assert (a + b)[1..] == a[1..] + b;
      AbortAllAppend(a[1..], b, t);
    } else {
      assert a + b == b;
    }
  }

  lemma AbortAllAt(q: seq<Event>, i: nat, t: EventType)
    requires i < |q|
    ensures AbortAll(q[i..], t) == (if q[i].kind == t then [] else [q[i]]) + AbortAll(q[i + 1..], t)
  {
    assert q[i..][1..] == q[i + 1..];
  }

  /**
   * Aborting the earliest event of a type takes away one event exactly when
   * there is one of the type; aborting all of the type afterwards is the same
   * as aborting all of them at once.
   */
  lemma AbortFirstSpec(q: seq<Event>, t: EventType)
    ensures |AbortFirst(q, t)| == if HasKind(q, t) then |q| - 1 else |q|
    ensures AbortAll(AbortFirst(q, t), t) == AbortAll(q, t)
  {
    var i := FirstOf(q, t);
    if i < |q| {
      var before, after := q[..i], q[i + 1..];
      assert q == before + ([q[i]] + after);
      AbortAllAppend(before, [q[i]] + after, t);
      assert AbortAll([q[i]] + after, t) == AbortAll(after, t) by {
        assert ([q[i]] + after)[1..] == after;
      }
      AbortAllAppend(before, after, t);
    }
  }

  /** Without a budget the whole queue is handled; with one, at least one event is. */
  lemma NoBudgetHandlesAll(n: nat, tick: nat -> int)
    ensures Handled(n, None, tick) == n
  {
    if n > 0 {
      HandledFromNoDeadline(n, tick, 1);
    }
  }

  lemma {:induction false} HandledFromNoDeadline(n: nat, tick: nat -> int, i: nat)
    requires 1 <= i <= n
    ensures HandledFrom(n, None, tick, i) == n
    decreases n - i
  {
    if i < n {
      HandledFromNoDeadline(n, tick, i + 1);
    }
  }

  /** Handling stops at the first clock reading that reaches the deadline: every earlier one was short of it. */
  lemma {:induction false} HandledStopsAtDeadline(n: nat, d: int, tick: nat -> int, i: nat)
    requires 1 <= i <= n
    ensures var k := HandledFrom(n, Some(d), tick, i);
      (k < n ==> Reading(tick(k)) >= d) && forall j :: i <= j < k ==> Reading(tick(j)) < d
    decreases n - i
  {
    if i < n && Reading(tick(i)) < d {
      HandledStopsAtDeadline(n, d, tick, i + 1);
    }
  }

  /**
   * When the budget carries the deadline past 2^32 it wraps below the clock
   * value it started from: a clock that does not move is already past it, and
   * only the first event is handled.
   */
  lemma WrappedDeadlineStopsEarly(n: nat, now: int, ms: nat)
    requires n >= 1 && ms < TICK_MODULUS && Reading(now) + ms >= TICK_MODULUS
    ensures Deadline(Some(ms), now) == Some(Reading(now) + ms - TICK_MODULUS)
    ensures Handled(n, Deadline(Some(ms), now), _ => now) == 1
  {
  }

  // ---------------------------------------------------------------------
  // The manager itself.

  class Manager {
    var listeners: Listeners
    const queues: array<seq<Event>>
    var active: int

    /** The queue array has its fixed length. */
    predicate Valid()
      reads this
    {
      queues.Length == NUM_QUEUES
    }

    /** The active index is a queue: the bounds checks of `queueEvent` and `abortEvent` never fire. */
    predicate InBounds()
      reads this
    {
      0 <= active < NUM_QUEUES
    }

    constructor ()
      ensures Valid() && InBounds() && active == 0 && listeners == map[] && queues[..] == [[], []]
      ensures fresh(queues)
    {
      listeners := map[];
      queues := new seq<Event>[NUM_QUEUES](_ => []);
      active := 0;
    }

    method AddListenerTo(d: Delegate, t: EventType) returns (r: Result<(), string>)
      modifies this
      ensures AddListener(old(listeners), d, t).Ok? ==> r.Ok? && listeners == AddListener(old(listeners), d, t).value
      ensures AddListener(old(listeners), d, t).Err? ==> r == Err(AddListener(old(listeners), d, t).error) && listeners == old(listeners)
      ensures active == old(active)
    {
      var ls := ListenersOf(listeners, t);
      var i := 0;
      while i < |ls|
        invariant 0 <= i <= |ls|
        invariant d !in ls[..i]
      {
        if ls[i] == d {
          return Err("Error when attempting to double-register a delegate");
        }
        i := i + 1;
      }
      assert ls[..i] == ls;
      listeners := listeners[t := ls + [d]];
      return Ok(());
    }

    method RemoveListenerFrom(d: Delegate, t: EventType) returns (success: bool)
      modifies this
      ensures (listeners, success) == RemoveListener(old(listeners), d, t)
      ensures active == old(active)
    {
      if t !in listeners {
        return false;
      }
      var ls := listeners[t];
      var i := 0;
      while i < |ls|
        invariant 0 <= i <= |ls|
        invariant d !in ls[..i]
        invariant RemoveFirst(ls, d) == ls[..i] + RemoveFirst(ls[i..], d)
      {
        if ls[i] == d {
          listeners := listeners[t := ls[..i] + ls[i + 1..]];
          return true;
        }
        assert ls[i..] == [ls[i]] + ls[i + 1..];
        assert ls[..i + 1] == ls[..i] + [ls[i]];
        i := i + 1;
      }
      assert ls[..i] == ls;
      return false;
    }

    /** `triggerTriggerEvent`: every listener of the event's type is called now; true iff one was. */
    method TriggerEvent(e: Event) returns (calls: seq<Call>, processed: bool)
      ensures calls == Dispatch(listeners, e)
      ensures processed <==> ListenersOf(listeners, e.kind) != []
    {
      calls, processed := [], false;
      if e.kind in listeners {
        var ls := listeners[e.kind];
        for i := 0 to |ls|
          invariant calls == Dispatch(listeners, e)[..i]
          invariant processed <==> i > 0
        {
          calls := calls + [Call(ls[i], e)];
          processed := true;
        }
      }
    }

    /** `queueEvent`: appended to the active queue iff its type has an entry in the listener map. */
    method QueueEvent(e: Event) returns (r: Result<bool, string>)
      requires Valid()
      modifies queues
      ensures !old(InBounds()) ==> r == Err(OUT_OF_BOUNDS) && queues[..] == old(queues[..])
      ensures old(InBounds()) ==>
        && r == Ok(e.kind in listeners)
        && queues[..] == if e.kind in listeners then old(queues[..])[active := old(queues[active]) + [e]] else old(queues[..])
    {
      if !(0 <= active < NUM_QUEUES) {
        return Err(OUT_OF_BOUNDS);
      }
      if e.kind in listeners {
        queues[active] := queues[active] + [e];
        return Ok(true);
      }
      return Ok(false);
    }

    /** `abortEvent`: removes the earliest queued event of the type, or all of them; true iff one was removed. */
    method AbortEvent(t: EventType, all: bool) returns (r: Result<bool, string>)
      requires Valid()
      modifies queues
      ensures !old(InBounds()) ==> r == Err(OUT_OF_BOUNDS) && queues[..] == old(queues[..])
      ensures old(InBounds()) && t !in listeners ==> r == Ok(false) && queues[..] == old(queues[..])
      ensures old(InBounds()) && t in listeners ==>
        r == Ok(HasKind(old(queues[active]), t)) && queues[..] == old(queues[..])[active := Abort(old(queues[active]), t, all)]
    {
      if !(0 <= active < NUM_QUEUES) {
        return Err(OUT_OF_BOUNDS);
      }
      if t !in listeners {
        return Ok(false);
      }
      var q0 := queues[active];
      var q, success := Erase(q0, t, all);
      queues[active] := q;
      return Ok(success);
    }

    /** `tickUpdate`: makes the next queue active, drains the old one, and moves what the budget left to the new one. */
    method TickUpdate(maxMs: Option<nat>, tick: nat -> int) returns (flushed: bool, calls: seq<Call>)
      requires Valid() && InBounds()
      modifies this, queues
      ensures InBounds() && listeners == old(listeners)
      ensures active == (old(active) + 1) % NUM_QUEUES
      ensures var q0 := old(queues[active]);
        var k := Handled(|q0|, Deadline(maxMs, tick(0)), tick);
        && flushed == (k == |q0|)
        && calls == DispatchAll(listeners, q0[..k])
        && queues[old(active)] == []
        && queues[active] == q0[k..]
    {
      var deadline := Deadline(maxMs, tick(0));
      var toProcess := active;
      active := (active + 1) % NUM_QUEUES;
      queues[active] := [];
      ghost var q0 := queues[toProcess];
      assert q0 == old(queues[active]);
      assert queues[active] == [];
      var done;
      calls, done := Drain(toProcess, deadline, tick);
      assert done == Handled(|q0|, deadline, tick) && calls == DispatchAll(listeners, q0[..done]);
      flushed := queues[toProcess] == [];
      ghost var left := queues[toProcess];
      assert left == q0[done..] && queues[active] == [];
      assert flushed == (done == |q0|);
      MoveLeftovers(toProcess, active);
      assert queues[toProcess] == [];
      assert queues[active] == left + [];
    }

    /** The drain loop: handles events from the front of queue `from` until it is empty or the deadline is reached. */
    method Drain(from: int, deadline: Option<int>, tick: nat -> int) returns (calls: seq<Call>, done: nat)
      requires Valid() && 0 <= from < NUM_QUEUES
      modifies queues
      ensures done == Handled(|old(queues[from])|, deadline, tick)
      ensures calls == DispatchAll(listeners, old(queues[from])[..done])
      ensures queues[..] == old(queues[..])[from := old(queues[from])[done..]]
    {
      ghost var q0 := queues[from];
      ghost var n := |q0|;
      done := 0;
      calls := [];
      while queues[from] != []
        invariant 0 <= done <= n
        invariant queues[..] == old(queues[..])[from := q0[done..]]
        invariant calls == DispatchAll(listeners, q0[..done])
        invariant n > 0 ==> Handled(n, deadline, tick) == HandledFrom(n, deadline, tick, if done < n then done + 1 else n)
        decreases n - done
      {
        var e := queues[from][0];
        queues[from] := queues[from][1..];
        var c, _ := TriggerEvent(e);
        assert q0[..done + 1][..done] == q0[..done];
        calls := calls + c;
        done := done + 1;
        if deadline.Some? && Reading(tick(done)) >= deadline.value {
          break;
        }
      }
    }

    /** Moves the events left in queue `from`, last first, to the front of queue `to`: their order is kept. */
    method MoveLeftovers(from: int, to: int)
      requires Valid() && 0 <= from < NUM_QUEUES && 0 <= to < NUM_QUEUES && from != to
      modifies queues
      ensures queues[..] == old(queues[..])[from := []][to := old(queues[from]) + old(queues[to])]
    {
      while queues[from] != []
        invariant queues[from] + queues[to] == old(queues[from]) + old(queues[to])
        invariant queues[..] == old(queues[..])[from := queues[from]][to := queues[to]]
        decreases |queues[from]|
      {
        var rest := queues[from];
        var e := rest[|rest| - 1];
        queues[from] := rest[..|rest| - 1];
        queues[to] := [e] + queues[to];
        assert rest == rest[..|rest| - 1] + [e];
      }
      assert queues[to] == old(queues[from]) + old(queues[to]);
    }
  }

  /** The erase loop's first match is the queue's earliest event of the type. */
  lemma FoundFirst(q: seq<Event>, i: nat, t: EventType)
    requires i < |q| && i <= FirstOf(q, t) && q[i].kind == t
    ensures HasKind(q, t) && AbortFirst(q, t) == q[..i] + q[i + 1..]
  {
  }

  /** Erasing a matching event at `i` keeps what the erase-all loop owes. */
  lemma EraseStep(q0: seq<Event>, q: seq<Event>, i: nat, t: EventType)
    requires i < |q| && q[i].kind == t
    requires AbortAll(q0, t) == q[..i] + AbortAll(q[i..], t)
    ensures var q' := q[..i] + q[i + 1..];
      i <= |q'| && AbortAll(q0, t) == q'[..i] + AbortAll(q'[i..], t)
  {
    AbortAllAt(q, i, t);
    var q' := q[..i] + q[i + 1..];
    assert q'[..i] == q[..i];
    assert q'[i..] == q[i + 1..];
  }

  /** Passing over an event of another type keeps what the erase-all loop owes. */
  lemma KeepStep(q0: seq<Event>, q: seq<Event>, i: nat, t: EventType)
    requires i < |q| && q[i].kind != t
    requires AbortAll(q0, t) == q[..i] + AbortAll(q[i..], t)
    ensures AbortAll(q0, t) == q[..i + 1] + AbortAll(q[i + 1..], t)
  {
    AbortAllAt(q, i, t);
    assert q[..i + 1] == q[..i] + [q[i]];
  }

  /** The in-place erase loop of `abortEvent`. */
  method Erase(q0: seq<Event>, t: EventType, all: bool) returns (q: seq<Event>, success: bool)
    ensures q == Abort(q0, t, all)
    ensures success == HasKind(q0, t)
  {
    q, success := q0, false;
    var i := 0;
    while i < |q|
      invariant 0 <= i <= |q|
      invariant !success ==> q == q0 && i <= FirstOf(q0, t)
      invariant success ==> all && HasKind(q0, t)
      invariant all ==> AbortAll(q0, t) == q[..i] + AbortAll(q[i..], t)
      decreases |q| - i
    {
      if q[i].kind == t {
        if !success {
          FoundFirst(q0, i, t);
        }
        if all {
          EraseStep(q0, q, i, t);
        }
        q := q[..i] + q[i + 1..];
        success := true;
        if !all {
          break;
        }
      } else {
        if all {
          KeepStep(q0, q, i, t);
        }
        i := i + 1;
      }
    }
    if all {
      assert q[i..] == [];
    }
  }
}
