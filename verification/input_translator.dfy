/**
 * The raw-input translator: keyboard keys, mouse buttons and mouse axes are
 * mapped to named actions, and each raw input record is turned into the
 * (action, value) records passed to the registered record handler. The
 * handler's calls are modelled by the list of records it has received; the
 * window, the raw-input registration and the cursor position are inputs.
 */
module InputTranslator {
  import opened Wrappers

  type Flags = bv16

  /** `RI_KEY_BREAK`: the key was released. */
  const KEY_BREAK: Flags := 0x0001
  /** The Win32 raw-mouse "down" flags; each button's "up" flag is the next bit. */
  const LEFT_BUTTON_DOWN: Flags := 0x0001
  const RIGHT_BUTTON_DOWN: Flags := 0x0004
  const MIDDLE_BUTTON_DOWN: Flags := 0x0010
  const BUTTON_4_DOWN: Flags := 0x0040
  const BUTTON_5_DOWN: Flags := 0x0100

  const NULL_WINDOW: string := "Window must not be null"
  const REGISTER_FAILED: string := "Failed to register raw input devices"
  const INVALID_BUTTON: string := "Invalid button"
  const NO_INPUT_DATA: string := "Could not get raw input data"

  datatype MouseButton = Left | Right | Middle | Extra1 | Extra2 | OtherButton(code: int)
  datatype Axis = Horizontal | Vertical

  datatype InputRecord = InputRecord(action: string, value: real)
  datatype KeyMapping = KeyMapping(key: Flags, action: string)
  datatype ButtonMapping = ButtonMapping(button: Flags, action: string)
  datatype AxisMapping = AxisMapping(axis: Axis, positionAction: string, movementAction: string)

  /** One raw input record: a key with its flags, or mouse button flags with the relative movement and the cursor position relative to the window. */
  datatype RawInput =
    | KeyboardInput(key: Flags, keyFlags: Flags)
    | MouseInput(buttonFlags: Flags, moveX: real, moveY: real, posX: real, posY: real)
    | OtherInput

  /** `addMouseButtonMapping`'s switch: the five buttons have their down flag; anything else has none. */
  function ButtonFlag(b: MouseButton): (r: Option<Flags>)
    ensures r.None? <==> b.OtherButton?
    ensures r.Some? ==> r.value != 0 && r.value & (r.value << 1) == 0
  {
    match b
    case Left => Some(LEFT_BUTTON_DOWN)
    case Right => Some(RIGHT_BUTTON_DOWN)
    case Middle => Some(MIDDLE_BUTTON_DOWN)
    case Extra1 => Some(BUTTON_4_DOWN)
    case Extra2 => Some(BUTTON_5_DOWN)
    case OtherButton(_) => None
  }

  /** The records a key produces: one per matching mapping, in mapping order. */
  function KeyRecords(ms: seq<KeyMapping>, key: Flags, value: real): seq<InputRecord>
  {
    if ms == [] then []
    else
      var last := ms[|ms| - 1];
      KeyRecords(ms[..|ms| - 1], key, value) + (if last.key == key then [InputRecord(last.action, value)] else [])
  }

  /** A key produces records iff some mapping has that key. */
  lemma {:induction false} KeyRecordsEmpty(ms: seq<KeyMapping>, key: Flags, value: real)
    ensures KeyRecords(ms, key, value) == [] <==> forall k :: 0 <= k < |ms| ==> ms[k].key != key
  {
    if ms != [] {
      var init := ms[..|ms| - 1];
      KeyRecordsEmpty(init, key, value);
      assert forall k :: 0 <= k < |init| ==> init[k] == ms[k];
    }
  }

  /** Every record a key produces has the key's value and the action of a mapping for that key. */
  lemma {:induction false} KeyRecordsFromMappings(ms: seq<KeyMapping>, key: Flags, value: real)
    ensures forall r :: r in KeyRecords(ms, key, value) ==> r.value == value && KeyMapping(key, r.action) in ms
  {
    if ms != [] {
      var init := ms[..|ms| - 1];
      KeyRecordsFromMappings(init, key, value);
      assert forall m :: m in init ==> m in ms;
    }
  }

  /** `addKeyboardMapping` appends, so a key mapped twice produces both actions, in order. */
  lemma KeyMappedTwice(ms: seq<KeyMapping>, key: Flags, a: string, b: string, value: real)
    requires forall k :: 0 <= k < |ms| ==> ms[k].key != key
    ensures KeyRecords(ms + [KeyMapping(key, a), KeyMapping(key, b)], key, value) == [InputRecord(a, value), InputRecord(b, value)]
  {
    KeyRecordsEmpty(ms, key, value);
    KeyRecordsAppendTwo(ms, key, a, b, value);
  }

  lemma KeyRecordsAppendTwo(ms: seq<KeyMapping>, key: Flags, a: string, b: string, value: real)
    requires KeyRecords(ms, key, value) == []
    ensures KeyRecords(ms + [KeyMapping(key, a), KeyMapping(key, b)], key, value) == [InputRecord(a, value), InputRecord(b, value)]
  {
    var one := ms + [KeyMapping(key, a)];
    assert one[..|one| - 1] == ms;
    assert KeyRecords(one, key, value) == [InputRecord(a, value)];
    var both := ms + [KeyMapping(key, a), KeyMapping(key, b)];
    assert both[..|both| - 1] == one;
  }

  /** The records of one button mapping: 1 for its down flag, then 0 for its up flag. */
  function ButtonRecord(m: ButtonMapping, flags: Flags): seq<InputRecord>
  {
    (if flags & m.button != 0 then [InputRecord(m.action, 1.0)] else [])
    + (if flags & (m.button << 1) != 0 then [InputRecord(m.action, 0.0)] else [])
  }

  function ButtonRecords(ms: seq<ButtonMapping>, flags: Flags): seq<InputRecord>
  {
    if ms == [] then [] else ButtonRecords(ms[..|ms| - 1], flags) + ButtonRecord(ms[|ms| - 1], flags)
  }

  /** The records one button mapping yields: a press where its down flag is set, then a release where its up flag is. */
  method EmitButton(m: ButtonMapping, flags: Flags) returns (out: seq<InputRecord>)
    ensures out == ButtonRecord(m, flags)
  {
    var down := flags & m.button != 0;
    var up := flags & (m.button << 1) != 0;
    out := [];
    if down {
      out := [InputRecord(m.action, 1.0)];
    }
    if up {
      out := out + [InputRecord(m.action, 0.0)];
    }
  }

  /** A mapped button's down flag alone reports 1 and its up flag alone reports 0. */
  lemma ButtonDownAndUp(b: MouseButton, action: string)
    requires b.OtherButton? == false
    ensures var m := ButtonMapping(ButtonFlag(b).value, action);
      ButtonRecords([m], m.button) == [InputRecord(action, 1.0)]
      && ButtonRecords([m], m.button << 1) == [InputRecord(action, 0.0)]
  {
    var m := ButtonMapping(ButtonFlag(b).value, action);
    assert ButtonRecords([m], m.button) == ButtonRecords([], m.button) + ButtonRecord(m, m.button);
    assert ButtonRecords([m], m.button << 1) == ButtonRecords([], m.button << 1) + ButtonRecord(m, m.button << 1);
  }

  /** The value a mapping takes from the movement or the position on its axis. */
  function AxisValue(axis: Axis, x: real, y: real): real
  {
    match axis
    case Horizontal => x
    case Vertical => y
  }

  /** The records of the axis mappings: per mapping its movement record, then its position record. */
  function MovementRecords(ms: seq<AxisMapping>, moveX: real, moveY: real, posX: real, posY: real): (r: seq<InputRecord>)
    ensures |r| == 2 * |ms|
  {
    if ms == [] then []
    else
      var m := ms[|ms| - 1];
      MovementRecords(ms[..|ms| - 1], moveX, moveY, posX, posY)
      + [InputRecord(m.movementAction, AxisValue(m.axis, moveX, moveY)), InputRecord(m.positionAction, AxisValue(m.axis, posX, posY))]
  }

  function InWindow(posX: real, posY: real): bool
  {
    !(posX > 1.0 || posX < 0.0 || posY > 1.0 || posY < 0.0)
  }

  class Translator {
    var windowAttached: bool
    var hasRecordHandler: bool
    var keyMappings: seq<KeyMapping>
    var axisMappings: seq<AxisMapping>
    var buttonMappings: seq<ButtonMapping>
    /** Every record passed to the record handler, oldest first. */
    var records: seq<InputRecord>

    constructor ()
      ensures !windowAttached && !hasRecordHandler
      ensures keyMappings == [] && axisMappings == [] && buttonMappings == [] && records == []
    {
      windowAttached := false;
      hasRecordHandler := false;
      keyMappings := [];
      axisMappings := [];
      buttonMappings := [];
      records := [];
    }

    /** `init`: a null window throws before anything is registered; the raw-input registration is an input. */
    method Init(windowPresent: bool, registered: bool) returns (r: Result<(), string>)
      modifies this
      ensures r == (if !windowPresent then Err(NULL_WINDOW) else if !registered then Err(REGISTER_FAILED) else Ok(()))
      ensures windowAttached == (r.Ok? || old(windowAttached))
      ensures hasRecordHandler == old(hasRecordHandler) && records == old(records)
      ensures keyMappings == old(keyMappings) && axisMappings == old(axisMappings) && buttonMappings == old(buttonMappings)
    {
      if !windowPresent {
        return Err(NULL_WINDOW);
      }
      if !registered {
        return Err(REGISTER_FAILED);
      }
      windowAttached := true;
      r := Ok(());
    }

    /** `destroy`: drops the keyboard mappings, the handler and the window; the mouse mappings stay. */
    method Destroy()
      modifies this
      ensures keyMappings == [] && !hasRecordHandler && !windowAttached
      ensures axisMappings == old(axisMappings) && buttonMappings == old(buttonMappings) && records == old(records)
    {
      keyMappings := [];
      hasRecordHandler := false;
      windowAttached := false;
    }

    method SetRecordHandler(present: bool)
      modifies this
      ensures hasRecordHandler == present
      ensures windowAttached == old(windowAttached) && records == old(records)
      ensures keyMappings == old(keyMappings) && axisMappings == old(axisMappings) && buttonMappings == old(buttonMappings)
    {
      hasRecordHandler := present;
    }

    method AddKeyboardMapping(key: Flags, action: string)
      modifies this
      ensures keyMappings == old(keyMappings) + [KeyMapping(key, action)]
      ensures windowAttached == old(windowAttached) && hasRecordHandler == old(hasRecordHandler) && records == old(records)
      ensures axisMappings == old(axisMappings) && buttonMappings == old(buttonMappings)
    {
      keyMappings := keyMappings + [KeyMapping(key, action)];
    }

    method AddMouseMapping(axis: Axis, positionAction: string, movementAction: string)
      modifies this
      ensures axisMappings == old(axisMappings) + [AxisMapping(axis, positionAction, movementAction)]
      ensures windowAttached == old(windowAttached) && hasRecordHandler == old(hasRecordHandler) && records == old(records)
      ensures keyMappings == old(keyMappings) && buttonMappings == old(buttonMappings)
    {
      axisMappings := axisMappings + [AxisMapping(axis, positionAction, movementAction)];
    }

    /** `addMouseButtonMapping`: an unknown button throws and adds nothing. */
    method AddMouseButtonMapping(b: MouseButton, action: string) returns (r: Result<(), string>)
      modifies this
      ensures r.Err? <==> b.OtherButton?
      ensures r.Err? ==> r.error == INVALID_BUTTON && buttonMappings == old(buttonMappings)
      ensures r.Ok? ==> buttonMappings == old(buttonMappings) + [ButtonMapping(ButtonFlag(b).value, action)]
      ensures windowAttached == old(windowAttached) && hasRecordHandler == old(hasRecordHandler) && records == old(records)
      ensures keyMappings == old(keyMappings) && axisMappings == old(axisMappings)
    {
      var flag := ButtonFlag(b);
      if flag.None? {
        return Err(INVALID_BUTTON);
      }
      buttonMappings := buttonMappings + [ButtonMapping(flag.value, action)];
      r := Ok(());
    }

    /** `handleKeyboardInput`: value 1 for a press and 0 for a release, one record per matching mapping. */
    method HandleKeyboardInput(key: Flags, keyFlags: Flags) returns (handled: bool)
      modifies this
      ensures var value := if keyFlags & KEY_BREAK == 0 then 1.0 else 0.0;
        records == old(records) + KeyRecords(keyMappings, key, value)
      ensures handled <==> exists k :: 0 <= k < |keyMappings| && keyMappings[k].key == key
      ensures windowAttached == old(windowAttached) && hasRecordHandler == old(hasRecordHandler)
      ensures keyMappings == old(keyMappings) && axisMappings == old(axisMappings) && buttonMappings == old(buttonMappings)
    {
      var value := if keyFlags & KEY_BREAK == 0 then 1.0 else 0.0;
      handled := false;
      var i := 0;
      while i < |keyMappings|
        invariant 0 <= i <= |keyMappings|
        invariant records == old(records) + KeyRecords(keyMappings[..i], key, value)
        invariant handled <==> exists k :: 0 <= k < i && keyMappings[k].key == key
        invariant windowAttached == old(windowAttached) && hasRecordHandler == old(hasRecordHandler)
        invariant keyMappings == old(keyMappings) && axisMappings == old(axisMappings) && buttonMappings == old(buttonMappings)
      {
        assert keyMappings[..i + 1][..i] == keyMappings[..i];
        if keyMappings[i].key == key {
          records := records + [InputRecord(keyMappings[i].action, value)];
          handled := true;
        }
        i := i + 1;
      }
      assert keyMappings[..i] == keyMappings;
    }

    /** The button part of `handleMouseInput`. */
    method EmitButtonRecords(flags: Flags) returns (handled: bool)
      modifies this
      ensures records == old(records) + ButtonRecords(buttonMappings, flags)
      ensures handled <==> ButtonRecords(buttonMappings, flags) != []
      ensures windowAttached == old(windowAttached) && hasRecordHandler == old(hasRecordHandler)
      ensures keyMappings == old(keyMappings) && axisMappings == old(axisMappings) && buttonMappings == old(buttonMappings)
    {
      var ms := buttonMappings;
      var emitted: seq<InputRecord> := [];
      var i := 0;
      while i < |ms|
        invariant 0 <= i <= |ms|
        invariant emitted == ButtonRecords(ms[..i], flags)
        invariant unchanged(this)
      {
        assert ms[..i + 1][..i] == ms[..i];
        var out := EmitButton(ms[i], flags);
        emitted := emitted + out;
        i := i + 1;
      }
      assert ms[..i] == ms;
      records := records + emitted;
      handled := emitted != [];
    }

    /** The axis part of `handleMouseInput`. */
    method EmitMovementRecords(moveX: real, moveY: real, posX: real, posY: real)
      modifies this
      ensures records == old(records) + MovementRecords(axisMappings, moveX, moveY, posX, posY)
      ensures windowAttached == old(windowAttached) && hasRecordHandler == old(hasRecordHandler)
      ensures keyMappings == old(keyMappings) && axisMappings == old(axisMappings) && buttonMappings == old(buttonMappings)
    {
      var j := 0;
      while j < |axisMappings|
        invariant 0 <= j <= |axisMappings|
        invariant records == old(records) + MovementRecords(axisMappings[..j], moveX, moveY, posX, posY)
        invariant windowAttached == old(windowAttached) && hasRecordHandler == old(hasRecordHandler)
        invariant keyMappings == old(keyMappings) && axisMappings == old(axisMappings) && buttonMappings == old(buttonMappings)
      {
        assert axisMappings[..j + 1][..j] == axisMappings[..j];
        var m := axisMappings[j];
        records := records + [InputRecord(m.movementAction, AxisValue(m.axis, moveX, moveY)),
                              InputRecord(m.positionAction, AxisValue(m.axis, posX, posY))];
        j := j + 1;
      }
      assert axisMappings[..j] == axisMappings;
    }

    /**
     * `handleMouseInput`: button records first; then, when axis mappings
     * exist, the cursor is inside the window and the mouse moved, one
     * movement and one position record per axis mapping.
     */
    method HandleMouseInput(flags: Flags, moveX: real, moveY: real, posX: real, posY: real) returns (handled: bool)
      modifies this
      ensures var buttons := if flags != 0 then ButtonRecords(buttonMappings, flags) else [];
        var moves := axisMappings != [] && InWindow(posX, posY) && (moveX != 0.0 || moveY != 0.0);
        records == old(records) + buttons + (if moves then MovementRecords(axisMappings, moveX, moveY, posX, posY) else [])
        && (handled <==> buttons != [] || moves)
      ensures windowAttached == old(windowAttached) && hasRecordHandler == old(hasRecordHandler)
      ensures keyMappings == old(keyMappings) && axisMappings == old(axisMappings) && buttonMappings == old(buttonMappings)
    {
      handled := false;
      if flags != 0 {
        handled := EmitButtonRecords(flags);
      }
      if axisMappings == [] || !InWindow(posX, posY) || (moveX == 0.0 && moveY == 0.0) {
        return;
      }
      EmitMovementRecords(moveX, moveY, posX, posY);
      handled := true;
    }

    /**
     * `handleRawInput`: nothing is handled without a record handler; raw
     * data that cannot be read (`None`) throws; keyboard and mouse records
     * go to their handlers, anything else is not handled.
     */
    method HandleRawInput(raw: Option<RawInput>) returns (r: Result<bool, string>)
      modifies this
      ensures !old(hasRecordHandler) ==> r == Ok(false) && records == old(records)
      ensures old(hasRecordHandler) && raw.None? ==> r == Err(NO_INPUT_DATA) && records == old(records)
      ensures old(hasRecordHandler) && raw.Some? && raw.value.OtherInput? ==> r == Ok(false) && records == old(records)
      ensures old(hasRecordHandler) && raw.Some? && raw.value.KeyboardInput? ==>
                var value := if raw.value.keyFlags & KEY_BREAK == 0 then 1.0 else 0.0;
                records == old(records) + KeyRecords(keyMappings, raw.value.key, value)
                && (r == Ok(true) <==> exists k :: 0 <= k < |keyMappings| && keyMappings[k].key == raw.value.key)
      ensures old(hasRecordHandler) && raw.Some? && raw.value.MouseInput? ==>
                var m := raw.value;
                var buttons := if m.buttonFlags != 0 then ButtonRecords(buttonMappings, m.buttonFlags) else [];
                var moves := axisMappings != [] && InWindow(m.posX, m.posY) && (m.moveX != 0.0 || m.moveY != 0.0);
                records == old(records) + buttons + (if moves then MovementRecords(axisMappings, m.moveX, m.moveY, m.posX, m.posY) else [])
                && r.Ok? && (r.value <==> buttons != [] || moves)
      ensures r.Ok? || records == old(records)
      ensures windowAttached == old(windowAttached) && hasRecordHandler == old(hasRecordHandler)
      ensures keyMappings == old(keyMappings) && axisMappings == old(axisMappings) && buttonMappings == old(buttonMappings)
    {
      if !hasRecordHandler {
        return Ok(false);
      }
      if raw.None? {
        return Err(NO_INPUT_DATA);
      }
      var handled := false;
      match raw.value {
        case KeyboardInput(key, keyFlags) =>
          handled := HandleKeyboardInput(key, keyFlags);
        case MouseInput(flags, moveX, moveY, posX, posY) =>
          handled := HandleMouseInput(flags, moveX, moveY, posX, posY);
        case OtherInput =>
      }
      r := Ok(handled);
    }
  }
}
