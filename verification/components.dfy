/**
 * Actor components: the component type ids, the model component's list of
 * named scales that are composed onto its base scale, the pulse component
 * that drives one of those scales, and the XML-driven initialisation of the
 * model, pulse and light components. The event manager the components post
 * to is modelled by the list of events each component has posted.
 */
module Components {
  import opened Wrappers
  import opened Vectors

  // ---------------------------------------------------------------------
  // Component type ids.

  datatype ComponentKind = Physics | Model | Movement | Pulse | Light | Look | Particle | Animation

  /** The `m_ComponentId` constant of each component interface. */
  function ComponentId(k: ComponentKind): (id: nat)
    ensures 1 <= id <= 8
  {
    match k
    case Physics => 1
    case Model => 2
    case Movement => 3
    case Pulse => 4
    case Light => 5
    case Look => 6
    case Particle => 7
    case Animation => 8
  }

  /** Different kinds of component never share an id. */
  lemma ComponentIdsDistinct(a: ComponentKind, b: ComponentKind)
    ensures ComponentId(a) == ComponentId(b) ==> a == b
  {
  }

  // ---------------------------------------------------------------------
  // XML elements, as far as the components read them.

  /**
   * An element: its text attributes, the attributes that read as numbers,
   * and the first child element of each name.
   */
  datatype Element = Element(attributes: map<string, string>, numbers: map<string, real>, children: map<string, Element>)

  /** `QueryFloatAttribute`: the attribute's number, or the value already held when it is absent. */
  function Query(e: Element, key: string, current: real): real
  {
    if key in e.numbers then e.numbers[key] else current
  }

  /** A vector read from the named child's three attributes, each defaulting to `current`'s component. */
  function ChildVector(e: Element, child: string, kx: string, ky: string, kz: string, current: Vector3): Vector3
  {
    if child in e.children then
      var c := e.children[child];
      Vector3(Query(c, kx, current.x), Query(c, ky, current.y), Query(c, kz, current.z))
    else current
  }

  // ---------------------------------------------------------------------
  // The model component's named scales.

  type NamedScale = (string, Vector3)

  /** Where the scale of that name sits in the list, searching from the front. */
  function FindScale(scales: seq<NamedScale>, name: string): (r: Option<nat>)
    ensures r.Some? ==> r.value < |scales| && scales[r.value].0 == name
    ensures r.Some? ==> forall k :: 0 <= k < r.value ==> scales[k].0 != name
    ensures r.None? ==> forall k :: 0 <= k < |scales| ==> scales[k].0 != name
  {
    if |scales| == 0 then None
    else if scales[0].0 == name then Some(0)
    else
      match FindScale(scales[1..], name)
      case None => None
      case Some(i) => Some(i + 1)
  }

  /** The scale applied under a name, if any. */
  function ScaleOf(scales: seq<NamedScale>, name: string): Option<Vector3>
  {
    match FindScale(scales, name)
    case None => None
    case Some(i) => Some(scales[i].1)
  }

  predicate UniqueNames(scales: seq<NamedScale>)
  {
    forall i, j :: 0 <= i < j < |scales| ==> scales[i].0 != scales[j].0
  }

  /** `updateScale`'s list: the entry of that name replaced, or a new entry at the end. */
  function WithScale(scales: seq<NamedScale>, name: string, s: Vector3): seq<NamedScale>
  {
    match FindScale(scales, name)
    case Some(i) => scales[i := (name, s)]
    case None => scales + [(name, s)]
  }

  /** `removeScale`'s list: the entry of that name swapped with the last one, which is then dropped. */
  function WithoutScale(scales: seq<NamedScale>, name: string): seq<NamedScale>
  {
    match FindScale(scales, name)
    case Some(i) => scales[i := scales[|scales| - 1]][..|scales| - 1]
    case None => scales
  }

  /** `calculateScale`: the base scale multiplied by every applied scale, front to back. */
  function Composed(base: Vector3, scales: seq<NamedScale>): Vector3
  {
    if scales == [] then base else Scale(Composed(base, scales[..|scales| - 1]), scales[|scales| - 1].1)
  }

  /** After `updateScale` the name maps to the new scale, every other name keeps its scale, and names stay unique. */
  lemma WithScaleSpec(scales: seq<NamedScale>, name: string, s: Vector3, other: string)
    requires UniqueNames(scales)
    ensures UniqueNames(WithScale(scales, name, s))
    ensures ScaleOf(WithScale(scales, name, s), name) == Some(s)
    ensures other != name ==> ScaleOf(WithScale(scales, name, s), other) == ScaleOf(scales, other)
    ensures |WithScale(scales, name, s)| == |scales| + (if ScaleOf(scales, name).None? then 1 else 0)
  {
    var r := WithScale(scales, name, s);
    match FindScale(scales, name) {
      case Some(i) =>
        assert r[i] == (name, s);
      case None =>
        assert r[|scales|] == (name, s);
    }
    FindInUnique(r, name);
    if other != name {
      FindInUnique(r, other);
      FindInUnique(scales, other);
    }
  }

  /** In a list of unique names, an entry is found exactly where it sits. */
  lemma FindInUnique(scales: seq<NamedScale>, name: string)
    requires UniqueNames(scales)
    ensures forall k :: 0 <= k < |scales| && scales[k].0 == name ==> FindScale(scales, name) == Some(k)
  {
  }

  /** After `removeScale` the name is gone, every other name keeps its scale, and names stay unique. */
  lemma WithoutScaleSpec(scales: seq<NamedScale>, name: string, other: string)
    requires UniqueNames(scales)
    ensures UniqueNames(WithoutScale(scales, name))
    ensures ScaleOf(WithoutScale(scales, name), name) == None
    ensures other != name ==> ScaleOf(WithoutScale(scales, name), other) == ScaleOf(scales, other)
    ensures |WithoutScale(scales, name)| == |scales| - (if ScaleOf(scales, name).Some? then 1 else 0)
  {
    var r := WithoutScale(scales, name);
    FindInUnique(r, name);
    if other != name {
      FindInUnique(r, other);
      FindInUnique(scales, other);
    }
  }

  /** Removing a scale that was just added under a fresh name restores the list. */
  lemma RemoveUndoesAdd(scales: seq<NamedScale>, name: string, s: Vector3)
    requires ScaleOf(scales, name).None?
    ensures WithoutScale(WithScale(scales, name, s), name) == scales
  {
    var r := scales + [(name, s)];
    assert FindScale(scales, name).None?;
    FindLast(scales, name, s);
    assert r[|scales| := r[|r| - 1]][..|r| - 1] == scales;
  }

  lemma {:induction false} FindLast(scales: seq<NamedScale>, name: string, s: Vector3)
    requires FindScale(scales, name).None?
    ensures FindScale(scales + [(name, s)], name) == Some(|scales|)
  {
    if scales != [] {
      assert (scales + [(name, s)])[1..] == scales[1..] + [(name, s)];
      FindLast(scales[1..], name, s);
    }
  }

  class ModelComponent {
    var meshName: string
    var baseScale: Vector3
    var colorTone: Vector3
    var appliedScales: seq<NamedScale>
    /** The composed scales posted as scale-update events, oldest first. */
    var scaleEvents: seq<Vector3>

    constructor ()
      ensures appliedScales == [] && scaleEvents == []
    {
      meshName := "";
      baseScale := ONE;
      colorTone := ONE;
      appliedScales := [];
      scaleEvents := [];
    }

    /** `initialize`: the mesh is required; scale and colour tone default to one and are overridden attribute by attribute. */
    method Initialize(e: Element) returns (r: Result<(), string>)
      modifies this
      ensures r.Err? <==> "Mesh" !in e.attributes
      ensures r.Err? ==> (r.error == "Component lacks mesh" && meshName == old(meshName) && baseScale == old(baseScale)
                          && colorTone == old(colorTone))
      ensures r.Ok? ==> (meshName == e.attributes["Mesh"]
                          && baseScale == ChildVector(e, "Scale", "x", "y", "z", ONE)
                          && colorTone == ChildVector(e, "ColorTone", "x", "y", "z", ONE))
      ensures appliedScales == old(appliedScales) && scaleEvents == old(scaleEvents)
    {
      if "Mesh" !in e.attributes {
        return Err("Component lacks mesh");
      }
      meshName := e.attributes["Mesh"];
      baseScale := ChildVector(e, "Scale", "x", "y", "z", ONE);
      colorTone := ChildVector(e, "ColorTone", "x", "y", "z", ONE);
      r := Ok(());
    }

    /** `calculateScale`: posts the composed scale. */
    method CalculateScale()
      modifies this
      ensures scaleEvents == old(scaleEvents) + [Composed(baseScale, appliedScales)]
      ensures appliedScales == old(appliedScales) && baseScale == old(baseScale)
    {
      var composed := baseScale;
      var i := 0;
      while i < |appliedScales|
        invariant 0 <= i <= |appliedScales|
        invariant composed == Composed(baseScale, appliedScales[..i])
      {
        assert appliedScales[..i + 1][..i] == appliedScales[..i];
        composed := Scale(composed, appliedScales[i].1);
        i := i + 1;
      }
      assert appliedScales[..i] == appliedScales;
      scaleEvents := scaleEvents + [composed];
    }

    /** `updateScale`. */
    method UpdateScale(name: string, s: Vector3)
      modifies this
      ensures appliedScales == WithScale(old(appliedScales), name, s)
      ensures scaleEvents == old(scaleEvents) + [Composed(baseScale, appliedScales)]
      ensures baseScale == old(baseScale)
    {
      var i := 0;
      while i < |appliedScales|
        invariant 0 <= i <= |appliedScales|
        invariant forall k :: 0 <= k < i ==> appliedScales[k].0 != name
      {
        if appliedScales[i].0 == name {
          assert FindScale(appliedScales, name) == Some(i);
          appliedScales := appliedScales[i := (name, s)];
          CalculateScale();
          return;
        }
        i := i + 1;
      }
      appliedScales := appliedScales + [(name, s)];
      CalculateScale();
    }

    /** `removeScale`: swap-and-pop, without recomputing the composed scale. */
    method RemoveScale(name: string)
      modifies this
      ensures appliedScales == WithoutScale(old(appliedScales), name)
      ensures scaleEvents == old(scaleEvents) && baseScale == old(baseScale)
    {
      var i := 0;
      while i < |appliedScales|
        invariant 0 <= i <= |appliedScales|
        invariant forall k :: 0 <= k < i ==> appliedScales[k].0 != name
      {
        if appliedScales[i].0 == name {
          assert FindScale(appliedScales, name) == Some(i);
          var last := |appliedScales| - 1;
          appliedScales := appliedScales[i := appliedScales[last]][last := appliedScales[i]];
          appliedScales := appliedScales[..last];
          return;
        }
        i := i + 1;
      }
    }
  }

  // ---------------------------------------------------------------------
  // The pulse component.

  const PULSE_SCALE_NAME: string := "PulseComp"

  /** `initialize` as written: the "Strength" attribute is read into the pulse length; strength stays 0.5. */
  function PulseSettingsAsWritten(e: Element): (lengthAndStrength: (real, real))
  {
    (Query(e, "Strength", Query(e, "Length", 1.0)), 0.5)
  }

  /** A pulse of length 2 and strength 0.2 is set up with length 0.2 and strength 0.5. */
  lemma PulseSettingsAsWrittenSwap()
    ensures var e := Element(map[], map["Length" := 2.0, "Strength" := 0.2], map[]);
      PulseSettingsAsWritten(e) == (0.2, 0.5)
  {
  }

  /** The intended reading: length from "Length" (default 1), strength from "Strength" (default 0.5). */
  function PulseSettings(e: Element): (lengthAndStrength: (real, real))
    ensures "Length" in e.numbers ==> lengthAndStrength.0 == e.numbers["Length"]
    ensures "Length" !in e.numbers ==> lengthAndStrength.0 == 1.0
    ensures "Strength" in e.numbers ==> lengthAndStrength.1 == e.numbers["Strength"]
    ensures "Strength" !in e.numbers ==> lengthAndStrength.1 == 0.5
  {
    (Query(e, "Length", 1.0), Query(e, "Strength", 0.5))
  }

  class PulseComponent {
    var pulseLength: real
    var pulseStrength: real
    var currentTime: real

    constructor ()
    {
    }

    /**
     * `initialize`, reading each attribute into its own field as
     * `PulseSettings` says; the current time starts at the length, so no pulse
     * runs until `pulseOnce`.
     */
    method Initialize(e: Element)
      modifies this
      ensures (pulseLength, pulseStrength) == PulseSettings(e)
      ensures pulseLength == (if "Length" in e.numbers then e.numbers["Length"] else 1.0)
      ensures pulseStrength == (if "Strength" in e.numbers then e.numbers["Strength"] else 0.5)
      ensures currentTime == pulseLength
    {
      pulseLength := Query(e, "Length", 1.0);
      pulseStrength := Query(e, "Strength", 0.5);
      currentTime := pulseLength;
    }

    /** `pulseOnce`. */
    method PulseOnce()
      modifies this
      ensures currentTime == 0.0
      ensures pulseLength == old(pulseLength) && pulseStrength == old(pulseStrength)
    {
      currentTime := 0.0;
    }

    /**
     * `onUpdate`: while a pulse runs the time advances; inside the pulse the
     * owner's model gets the scale `applied` (the sine curve, outside the
     * model) under the pulse's name, and at the end that scale is removed.
     */
    method OnUpdate(dt: real, applied: Vector3, model: ModelComponent?)
      modifies this, model
      ensures pulseLength == old(pulseLength) && pulseStrength == old(pulseStrength)
      ensures currentTime == if old(currentTime) < pulseLength then old(currentTime) + dt else old(currentTime)
      ensures model != null && old(currentTime) < pulseLength && currentTime < pulseLength ==>
                model.appliedScales == WithScale(old(model.appliedScales), PULSE_SCALE_NAME, applied)
      ensures model != null && old(currentTime) < pulseLength && currentTime >= pulseLength ==>
                model.appliedScales == WithoutScale(old(model.appliedScales), PULSE_SCALE_NAME)
      ensures model != null && old(currentTime) >= pulseLength ==> model.appliedScales == old(model.appliedScales)
    {
      if currentTime < pulseLength {
        currentTime := currentTime + dt;
        if currentTime < pulseLength {
          if model != null {
            model.UpdateScale(PULSE_SCALE_NAME, applied);
          }
        } else {
          if model != null {
            model.RemoveScale(PULSE_SCALE_NAME);
          }
        }
      }
    }
  }

  /** A pulse that starts with no pulse scale applied leaves none behind once it has run out. */
  lemma PulseLeavesNoScale(scales: seq<NamedScale>, applied: Vector3)
    requires UniqueNames(scales)
    ensures ScaleOf(WithoutScale(WithScale(scales, PULSE_SCALE_NAME, applied), PULSE_SCALE_NAME), PULSE_SCALE_NAME) == None
  {
    WithScaleSpec(scales, PULSE_SCALE_NAME, applied, PULSE_SCALE_NAME);
    WithoutScaleSpec(WithScale(scales, PULSE_SCALE_NAME, applied), PULSE_SCALE_NAME, PULSE_SCALE_NAME);
  }

  // ---------------------------------------------------------------------
  // The light component.

  datatype LightSource =
    | PointLight(position: Vector3, range: real, color: Vector3)
    | SpotLight(position: Vector3, direction: Vector3, angles: (real, real), range: real, color: Vector3)
    | DirectionalLight(direction: Vector3, color: Vector3)

  const DOWN: Vector3 := Vector3(0.0, -1.0, 0.0)
  const DEFAULT_RANGE: real := 2000.0
  const MISSING_LIGHT_TYPE: string := "XML Light description missing valid type"

  function Angles(e: Element): (real, real)
  {
    if "Angles" in e.children then
      var a := e.children["Angles"];
      (Query(a, "min", 1.0), Query(a, "max", 1.0))
    else (1.0, 1.0)
  }

  /** `LightComponent::initialize`: the "Type" attribute picks the light; anything else throws. */
  function LightFrom(e: Element): (r: Result<LightSource, string>)
    ensures r.Err? <==> "Type" !in e.attributes || e.attributes["Type"] !in {"Point", "Spot", "Directional"}
    ensures r.Err? ==> r.error == MISSING_LIGHT_TYPE
    ensures r.Ok? && !r.value.DirectionalLight? ==> r.value.range == Query(e, "Range", DEFAULT_RANGE)
    ensures r.Ok? && !r.value.PointLight? ==> r.value.direction == ChildVector(e, "Direction", "x", "y", "z", DOWN)
    ensures r.Ok? ==> r.value.color == ChildVector(e, "Color", "r", "g", "b", ONE)
  {
    var kind := if "Type" in e.attributes then e.attributes["Type"] else "";
    var color := ChildVector(e, "Color", "r", "g", "b", ONE);
    if "Type" in e.attributes && kind == "Point" then
      Ok(PointLight(ChildVector(e, "Position", "x", "y", "z", ZERO), Query(e, "Range", DEFAULT_RANGE), color))
    else if "Type" in e.attributes && kind == "Spot" then
      Ok(SpotLight(ChildVector(e, "Position", "x", "y", "z", ZERO), ChildVector(e, "Direction", "x", "y", "z", DOWN),
                   Angles(e), Query(e, "Range", DEFAULT_RANGE), color))
    else if "Type" in e.attributes && kind == "Directional" then
      Ok(DirectionalLight(ChildVector(e, "Direction", "x", "y", "z", DOWN), color))
    else Err(MISSING_LIGHT_TYPE)
  }

  class LightComponent {
    var light: Option<LightSource>

    constructor ()
      ensures light.None?
    {
      light := None;
    }

    /** `initialize`: an unknown type throws and leaves the light as it was. */
    method Initialize(e: Element) returns (r: Result<(), string>)
      modifies this
      ensures r.Err? <==> LightFrom(e).Err?
      ensures r.Err? ==> r.error == MISSING_LIGHT_TYPE && light == old(light)
      ensures r.Ok? ==> light == Some(LightFrom(e).value)
    {
      var l := LightFrom(e);
      if l.Err? {
        return Err(l.error);
      }
      light := Some(l.value);
      r := Ok(());
    }
  }

  /** A point light with only a type takes every default: origin, range 2000, white. */
  lemma DefaultPointLight()
    ensures LightFrom(Element(map["Type" := "Point"], map[], map[])) == Ok(PointLight(ZERO, DEFAULT_RANGE, ONE))
  {
  }
}
