/**
 * A HID gamepad's remembered state: which buttons are down and the last
 * value of each axis. The HID parsing is outside the model; the pressed
 * buttons and axis values it yields (or the status code of a failed call)
 * are inputs. Logging is left out.
 */
module Gamepad {
  import opened Wrappers

  type Usage = nat

  /** The button-state map after one report: every listed button down, every other known button up. */
  function ButtonsAfter(states: map<Usage, bool>, pressed: seq<Usage>): (r: map<Usage, bool>)
    ensures r.Keys == states.Keys + set b | b in pressed
    ensures forall b :: b in pressed ==> r[b]
    ensures forall b :: b in states && b !in pressed ==> !r[b]
  {
    map b | b in states.Keys + (set b | b in pressed) :: b in pressed
  }

  /** Two reports with the same buttons leave the same state as one. */
  lemma ButtonsAfterIdempotent(states: map<Usage, bool>, pressed: seq<Usage>)
    ensures ButtonsAfter(ButtonsAfter(states, pressed), pressed) == ButtonsAfter(states, pressed)
  {
  }

  /** The axis-state map after the first |values| axis reads, each of which succeeded: every axis holds its last value. */
  function AxesAfter(axes: map<Usage, nat>, values: seq<Result<(Usage, nat), int>>): map<Usage, nat>
    requires forall k :: 0 <= k < |values| ==> values[k].Ok?
  {
    if values == [] then axes
    else
      var last := values[|values| - 1].value;
      AxesAfter(axes, values[..|values| - 1])[last.0 := last.1]
  }

  /**
   * After the axis reads every reported axis is known and holds the value of
   * its last report, and every other axis keeps what it held.
   */
  lemma {:induction false} AxesAfterSpec(axes: map<Usage, nat>, values: seq<Result<(Usage, nat), int>>)
    requires forall k :: 0 <= k < |values| ==> values[k].Ok?
    ensures forall a :: a in AxesAfter(axes, values) <==> a in axes || exists k :: 0 <= k < |values| && values[k].value.0 == a
    ensures forall a :: a in axes && (forall k :: 0 <= k < |values| ==> values[k].value.0 != a) ==>
                        AxesAfter(axes, values)[a] == axes[a]
    ensures forall k :: 0 <= k < |values| && (forall j :: k < j < |values| ==> values[j].value.0 != values[k].value.0) ==>
                        AxesAfter(axes, values)[values[k].value.0] == values[k].value.1
  {
    if values != [] {
      var n := |values| - 1;
      var init := values[..n];
      assert forall k :: 0 <= k < n ==> init[k] == values[k];
      AxesAfterSpec(axes, init);
    }
  }

  class Pad {
    /** `m_CurrentButtonStates`. */
    var buttons: map<Usage, bool>
    /** `m_CurrentAxisStates`. */
    var axes: map<Usage, nat>

    constructor ()
      ensures buttons == map[] && axes == map[]
    {
      buttons := map[];
      axes := map[];
    }

    /** `checkButtons`: releases known buttons missing from the report, then inserts and presses the reported ones. */
    method CheckButtons(pressed: seq<Usage>)
      modifies this
      ensures buttons == ButtonsAfter(old(buttons), pressed)
      ensures axes == old(axes)
    {
      var released := ReleaseMissing(buttons, pressed);
      buttons := PressListed(released, pressed);
    }
    /** `checkAxis`: a new axis is inserted with its value, a known one overwritten only when the value differs. */
    method CheckAxis(axis: Usage, value: nat)
      modifies this
      ensures axes == old(axes)[axis := value]
      ensures buttons == old(buttons)
    {
      if axis !in axes {
        axes := axes[axis := value];
      }
      if value != axes[axis] {
        axes := axes[axis := value];
      }
    }

    /**
     * `handleInput`: when the device has a button page its pressed buttons
     * are checked first, then each axis in turn; the first failed HID call
     * (an `Err` carrying its status) stops the report.
     */
    method HandleInput(buttonPage: bool, pressed: Result<seq<Usage>, int>, values: seq<Result<(Usage, nat), int>>)
      returns (r: Result<bool, int>)
      modifies this
      ensures buttonPage && pressed.Err? ==> r == Err(pressed.error) && buttons == old(buttons) && axes == old(axes)
      ensures r.Ok? ==> r.value && (forall k :: 0 <= k < |values| ==> values[k].Ok?)
      ensures r.Ok? ==> buttons == (if buttonPage then ButtonsAfter(old(buttons), pressed.value) else old(buttons))
      ensures r.Ok? ==> forall k :: 0 <= k < |values| ==> values[k].value.0 in axes
      ensures r.Ok? ==> axes == AxesAfter(old(axes), values)
      ensures r.Err? && !(buttonPage && pressed.Err?) ==> exists k :: 0 <= k < |values| && values[k] == Err(r.error)
      ensures r.Err? && !(buttonPage && pressed.Err?) ==>
                buttons == (if buttonPage then ButtonsAfter(old(buttons), pressed.value) else old(buttons))
                && exists k :: 0 <= k < |values| && values[k] == Err(r.error)
                               && (forall j :: 0 <= j < k ==> values[j].Ok?) && axes == AxesAfter(old(axes), values[..k])
    {
      if buttonPage {
        if pressed.Err? {
          return Err(pressed.error);
        }
        CheckButtons(pressed.value);
      }
      ghost var afterButtons := buttons;
      var i := 0;
      while i < |values|
        invariant 0 <= i <= |values|
        invariant forall k :: 0 <= k < i ==> values[k].Ok? && values[k].value.0 in axes
        invariant buttons == afterButtons
        invariant axes == AxesAfter(old(axes), values[..i])
      {
        if values[i].Err? {
          return Err(values[i].error);
        }
        CheckAxis(values[i].value.0, values[i].value.1);
        assert values[..i + 1][..i] == values[..i];
        i := i + 1;
      }
      assert values[..i] == values;
      r := Ok(true);
    }
  }

  /** A report's buttons never remove a known button: the map only grows. */
  lemma ButtonsOnlyGrow(states: map<Usage, bool>, pressed: seq<Usage>)
    ensures states.Keys <= ButtonsAfter(states, pressed).Keys
  {
  }

  /** The first loop of `checkButtons`: a known button that is down and not reported goes up. */
  method ReleaseMissing(states: map<Usage, bool>, pressed: seq<Usage>) returns (r: map<Usage, bool>)
    ensures r.Keys == states.Keys
    ensures forall b :: b in r ==> r[b] == (states[b] && b in pressed)
  {
    r := states;
    var unseen := states.Keys;
    while unseen != {}
      invariant unseen <= r.Keys == states.Keys
      invariant forall b :: b in r && b !in unseen ==> r[b] == (states[b] && b in pressed)
      invariant forall b :: b in unseen ==> r[b] == states[b]
      decreases unseen
    {
      var b :| b in unseen;
      if r[b] && b !in pressed {
        r := r[b := false];
      }
      unseen := unseen - {b};
    }
  }

  /** The second loop of `checkButtons`: every reported button is inserted if new and set down. */
  method PressListed(states: map<Usage, bool>, pressed: seq<Usage>) returns (r: map<Usage, bool>)
    ensures r.Keys == states.Keys + set b | b in pressed
    ensures forall b :: b in pressed ==> r[b]
    ensures forall b :: b in states && b !in pressed ==> r[b] == states[b]
  {
    r := states;
    var i := 0;
    while i < |pressed|
      invariant 0 <= i <= |pressed|
      invariant r.Keys == states.Keys + set k | 0 <= k < i :: pressed[k]
      invariant forall k :: 0 <= k < i ==> r[pressed[k]]
      invariant forall b :: b in states && (forall k :: 0 <= k < i ==> pressed[k] != b) ==> r[b] == states[b]
    {
      var b := pressed[i];
      if b !in r {
        r := r[b := false];
      }
      if !r[b] {
        r := r[b := true];
      }
      i := i + 1;
    }
    assert (set k | 0 <= k < i :: pressed[k]) == set b | b in pressed;
  }
}
