/**
 * The in-game scene: edge-triggered binary actions (scene changes,
 * debug-view cycling, camera and debug toggles, calls into the game logic)
 * and analog actions, the pending scene change it reports each frame, and
 * the light and mesh lists it keeps from the events it listens to. The
 * game logic, the graphics engine and the resource manager are modelled by
 * the list of calls the scene makes on them.
 */
module GameScene {
  import opened Wrappers
  import opened Scenes

  datatype RenderTarget = Final | Ssao | Normal | Csm

  /** The targets `init` makes selectable, in cycling order. */
  const SELECTABLE: seq<RenderTarget> := [Final, Ssao, Normal, Csm]

  /** The actions the scene reacts to, by the name the input mapping gives them. */
  datatype Action =
    | ChangeSceneN | ChangeSceneP | ChangeViewN | ChangeViewP | JumpAction | SwitchBVDraw | LeaveGameAction
    | ThirdPersonCamera | FlipCamera | SpellCast | DrawPivots | WaveAction | SplineRecord | SplineRemove | SplineClear
    | ClimbEdge | MouseMoveHori | MouseMoveVert | Unmapped
  {
    /** Handled on a rising edge; the rest are analog or ignored. */
    predicate Binary() {
      !(ClimbEdge? || MouseMoveHori? || MouseMoveVert? || Unmapped?)
    }
  }

  /** The action name the scene compares against. */
  function NameOf(a: Action): string
  {
    match a
    case ChangeSceneN => "changeSceneN"
    case ChangeSceneP => "changeSceneP"
    case ChangeViewN => "changeViewN"
    case ChangeViewP => "changeViewP"
    case JumpAction => "jump"
    case SwitchBVDraw => "switchBVDraw"
    case LeaveGameAction => "leaveGame"
    case ThirdPersonCamera => "thirdPersonCamera"
    case FlipCamera => "flipCamera"
    case SpellCast => "spellCast"
    case DrawPivots => "drawPivots"
    case WaveAction => "wave"
    case SplineRecord => "splineRecord"
    case SplineRemove => "splineRemove"
    case SplineClear => "splineClear"
    case ClimbEdge => "climbEdge"
    case MouseMoveHori => "mouseMoveHori"
    case MouseMoveVert => "mouseMoveVert"
    case Unmapped => ""
  }

  /** The comparison chain of `registeredInput`: the first name that matches; any other name is unmapped. */
  function ActionOf(name: string): Action
  {
    if name == "changeSceneN" then ChangeSceneN
    else if name == "changeSceneP" then ChangeSceneP
    else if name == "changeViewN" then ChangeViewN
    else if name == "changeViewP" then ChangeViewP
    else if name == "jump" then JumpAction
    else if name == "switchBVDraw" then SwitchBVDraw
    else if name == "leaveGame" then LeaveGameAction
    else if name == "thirdPersonCamera" then ThirdPersonCamera
    else if name == "flipCamera" then FlipCamera
    else if name == "spellCast" then SpellCast
    else if name == "drawPivots" then DrawPivots
    else if name == "wave" then WaveAction
    else if name == "splineRecord" then SplineRecord
    else if name == "splineRemove" then SplineRemove
    else if name == "splineClear" then SplineClear
    else if name == "climbEdge" then ClimbEdge
    else if name == "mouseMoveHori" then MouseMoveHori
    else if name == "mouseMoveVert" then MouseMoveVert
    else Unmapped
  }

  /** A game scene's `registeredInput` on its flags: "changeSceneN" asks for the pause scene, "changeSceneP" for a list switch. */
  function GameInputFlags(s: Scene, a: Action, press: bool): (r: Scene)
    ensures press && a == ChangeSceneN ==> r.changeScene && r.newSceneId == GAMEPAUSE
    ensures press && a == ChangeSceneP ==> r.changeList
    ensures !press || (a != ChangeSceneN && a != ChangeSceneP) ==> r == s
    ensures r.kind == s.kind && r.id == s.id && r.visible == s.visible
  {
    if !press then s
    else if a == ChangeSceneN then s.(newSceneId := GAMEPAUSE, changeScene := true)
    else if a == ChangeSceneP then s.(changeList := true)
    else s
  }

  /** A call the scene makes on the game logic. */
  datatype LogicCall =
    | Jump | LeaveGame | ThrowSpell(spell: string) | Wave
    | RecordSpline | RemoveSplineRecord | ClearSpline
    | Climb(on: bool) | MoveView(dx: real, dy: real)
    | SetPlayerDirection(forward: real, up: real, right: real)

  datatype Light = Light(id: int, data: nat)
  datatype MeshBinding = MeshBinding(meshId: int, resourceId: int, modelId: int)

  /** "changeViewN": the next selectable target, wrapping to the first after the last. */
  function NextView(v: nat, n: nat): (r: nat)
    requires n >= 1
    ensures r < n
    ensures v < n - 1 ==> r == v + 1
  {
    if v >= n - 1 then 0 else v + 1
  }

  /** "changeViewP": the previous selectable target, wrapping to the last from the first. */
  function PreviousView(v: nat, n: nat): (r: nat)
    requires n >= 1 && v < n
    ensures r < n
    ensures 0 < v ==> r == v - 1
  {
    if v == 0 then n - 1 else v - 1
  }

  /** Stepping forward and back again returns to the same view, in both orders. */
  lemma ViewStepsInverse(v: nat, n: nat)
    requires n >= 1 && v < n
    ensures PreviousView(NextView(v, n), n) == v
    ensures NextView(PreviousView(v, n), n) == v
  {
  }

  /** Stepping forward `k` times. */
  function StepViews(v: nat, n: nat, k: nat): (r: nat)
    requires n >= 1 && v < n
    ensures r < n
  {
    if k == 0 then v else NextView(StepViews(v, n, k - 1), n)
  }

  /** Up to `n` forward steps advance the view modulo `n`, so `n` steps come back to the start. */
  lemma {:induction false} ViewsCycle(v: nat, n: nat, k: nat)
    requires n >= 1 && v < n && k <= n
    ensures StepViews(v, n, k) == if v + k < n then v + k else v + k - n
  {
    if k > 0 {
      ViewsCycle(v, n, k - 1);
    }
  }

  /**
   * The direction call `onFrame` makes every frame: each axis is the value of
   * one input action minus that of its opposite, read from the current input
   * state `value`.
   */
  function Steering(value: string -> real): LogicCall
  {
    SetPlayerDirection(value("moveForward") - value("moveBackward"),
                       value("moveUp") - value("moveDown"),
                       value("moveRight") - value("moveLeft"))
  }

  /** The game-logic call a binary action makes, if any. */
  function BinaryCalls(a: Action): seq<LogicCall>
  {
    match a
    case JumpAction => [Jump]
    case LeaveGameAction => [LeaveGame]
    case SpellCast => [ThrowSpell("TestSpell")]
    case WaveAction => [Wave]
    case SplineRecord => [RecordSpline]
    case SplineRemove => [RemoveSplineRecord]
    case SplineClear => [ClearSpline]
    case _ => []
  }

  /** A look input scaled by the view sensitivity. */
  function Scaled(value: real, sensitivity: real): real
  {
    value * sensitivity
  }

  /** The game-logic call an analog action makes, if any: climbing above one half, looking scaled by the sensitivity. */
  function AnalogCalls(a: Action, value: real, sensitivity: real): seq<LogicCall>
  {
    match a
    case ClimbEdge => [Climb(value > 0.5)]
    case MouseMoveHori => [MoveView(Scaled(value, sensitivity), 0.0)]
    case MouseMoveVert => [MoveView(0.0, -Scaled(value, sensitivity))]
    case _ => []
  }

  /** The game-logic calls one input makes: a binary call on a rising edge, otherwise an analog one. */
  function InputCalls(a: Action, value: real, prev: real, sensitivity: real): seq<LogicCall>
  {
    if GamePress(value, prev) && a.Binary() then BinaryCalls(a) else AnalogCalls(a, value, sensitivity)
  }

  /** An analog action is never swallowed by the binary half, whatever the edge. */
  lemma AnalogAlwaysReaches(value: real, prev: real, sensitivity: real)
    ensures InputCalls(ActionOf("climbEdge"), value, prev, sensitivity) == [Climb(value > 0.5)]
    ensures InputCalls(ActionOf("mouseMoveVert"), value, prev, sensitivity) == [MoveView(0.0, -Scaled(value, sensitivity))]
  {
  }

  /** Holding a binary action down, or releasing it, calls nothing. */
  lemma HeldBinaryCallsNothing(a: Action, value: real, prev: real, sensitivity: real)
    requires a.Binary() && prev > 0.5
    ensures InputCalls(a, value, prev, sensitivity) == []
  {
  }

  /** `removeLight`'s list: every light with that id dropped, the others kept in order. */
  function WithoutLight(ls: seq<Light>, id: int): (r: seq<Light>)
    ensures forall l :: l in r ==> l in ls && l.id != id
    ensures forall l :: l in ls && l.id != id ==> l in r
    ensures |r| <= |ls|
  {
    if ls == [] then []
    else WithoutLight(ls[..|ls| - 1], id) + (if ls[|ls| - 1].id == id then [] else [ls[|ls| - 1]])
  }

  /** Swap-and-pop at index `i`. */
  function SwapPop<T>(s: seq<T>, i: nat): seq<T>
    requires i < |s|
  {
    s[i := s[|s| - 1]][..|s| - 1]
  }

  /** Swap-and-pop removes exactly the element at `i`. */
  lemma SwapPopRemoves<T>(s: seq<T>, i: nat)
    requires i < |s|
    ensures multiset(SwapPop(s, i)) == multiset(s) - multiset{s[i]}
  {
    var n := |s| - 1;
    if i == n {
      assert s == s[..n] + [s[n]];
      assert SwapPop(s, i) == s[..n];
    } else {
      var t := s[i := s[n]];
      assert s == s[..n] + [s[n]];
      assert t == t[..n] + [s[n]];
      assert multiset(t) == multiset(s) - multiset{s[i]} + multiset{s[n]};
    }
  }

  /** `erase(find(...))`: the first occurrence removed, if any. */
  function WithoutFirst(s: seq<int>, x: int): (r: seq<int>)
    ensures x in s ==> multiset(r) == multiset(s) - multiset{x}
    ensures x !in s ==> r == s
  {
    if s == [] then []
    else if s[0] == x then
      assert s == [s[0]] + s[1..];
      s[1..]
    else
      assert s == [s[0]] + s[1..];
      [s[0]] + WithoutFirst(s[1..], x)
  }

  /** Where the first binding of a mesh sits. */
  function FindMesh(ms: seq<MeshBinding>, meshId: int): (r: Option<nat>)
    ensures r.Some? ==> r.value < |ms| && ms[r.value].meshId == meshId
                        && forall k :: 0 <= k < r.value ==> ms[k].meshId != meshId
    ensures r.None? ==> forall k :: 0 <= k < |ms| ==> ms[k].meshId != meshId
  {
    if ms == [] then None
    else if ms[0].meshId == meshId then Some(0)
    else match FindMesh(ms[1..], meshId)
      case None => None
      case Some(i) => Some(i + 1)
  }

  /** The first binding with the mesh id is the one `FindMesh` reports. */
  lemma {:induction false} FindMeshAt(ms: seq<MeshBinding>, meshId: int, i: nat)
    requires i < |ms| && ms[i].meshId == meshId
    requires forall k :: 0 <= k < i ==> ms[k].meshId != meshId
    ensures FindMesh(ms, meshId) == Some(i)
  {
    if i > 0 {
      FindMeshAt(ms[1..], meshId, i - 1);
    }
  }

  class GameScene {
    var id: nat
    var visible: bool
    var newSceneId: int
    var changeScene: bool
    var changeList: bool
    var targets: seq<RenderTarget>
    /** `m_CurrentDebugView`: an index into the selectable targets. */
    var currentDebugView: nat
    var renderDebugBV: bool
    var useThirdPersonCamera: bool
    var useFlippedCamera: bool
    var debugAnimations: bool
    var viewSensitivity: real
    var lights: seq<Light>
    var models: seq<MeshBinding>
    var resourceIds: seq<int>
    /** Calls on the game logic, oldest first. */
    var calls: seq<LogicCall>
    /** Resources released and model instances erased by `removeMesh`, oldest first. */
    var releasedResources: seq<int>
    var erasedModels: seq<int>

    function State(): Scene
      reads this
    {
      Scene(GameKind, id, visible, changeScene, changeList, newSceneId)
    }

    /** After `init`: the debug view indexes a selectable target. */
    predicate Valid()
      reads this
    {
      |targets| >= 1 && currentDebugView < |targets|
    }

    constructor ()
      ensures State() == Fresh(GameKind, 0)
      ensures !useThirdPersonCamera && !useFlippedCamera && !debugAnimations && viewSensitivity == 0.01
      ensures targets == [] && lights == [] && models == [] && resourceIds == [] && calls == []
      ensures releasedResources == [] && erasedModels == []
    {
      id := 0;
      visible := false;
      newSceneId := 0;
      changeScene := false;
      changeList := false;
      targets := [];
      currentDebugView := 0;
      renderDebugBV := false;
      useThirdPersonCamera := false;
      useFlippedCamera := false;
      debugAnimations := false;
      viewSensitivity := 0.01;
      lights := [];
      models := [];
      resourceIds := [];
      calls := [];
      releasedResources := [];
      erasedModels := [];
    }

    /**
     * `init`: records the id, appends the four selectable targets, selects
     * the first, and pre-loads two resources (`preLoadModels`), whose ids the
     * resource manager hands back as `particleId` and `pivotId`.
     */
    method Init(sceneId: nat, particleId: int, pivotId: int)
      modifies this
      ensures Valid()
      ensures State() == old(State()).(id := sceneId)
      ensures targets == old(targets) + SELECTABLE && currentDebugView == 0 && !renderDebugBV
      ensures resourceIds == old(resourceIds) + [particleId, pivotId]
      ensures lights == old(lights) && models == old(models) && calls == old(calls)
    {
      id := sceneId;
      targets := targets + SELECTABLE;
      currentDebugView := 0;
      renderDebugBV := false;
      resourceIds := resourceIds + [particleId, pivotId];
    }

    method SetIsVisible(v: bool)
      modifies this
      ensures State() == WithVisible(old(State()), v)
    {
      visible := v;
    }

    /**
     * `onFrame`: the game logic's scene request (`goTo`) takes priority over
     * the scene's own; then the player's direction is set from the current
     * input state `value`, whatever the scene reported.
     */
    method OnFrame(goTo: int, value: string -> real) returns (report: Option<int>)
      modifies this
      ensures (State(), report) == Scenes.OnFrame(old(State()), goTo)
      ensures targets == old(targets) && currentDebugView == old(currentDebugView)
      ensures calls == old(calls) + [Steering(value)]
    {
      if goTo != NONE {
        changeScene := true;
        newSceneId := goTo;
      }
      report := None;
      if changeScene {
        report := Some(newSceneId);
        visible := false;
        changeScene := false;
      } else if changeList {
        report := Some(SWITCH_LIST);
        changeList := false;
      }
      calls := calls + [Steering(value)];
    }

    /**
     * The binary half of `registeredInput`, run on a rising edge: reports
     * whether the action is a binary one and applies it. The view index
     * steps through the selectable targets with wrap-around and the four
     * debug toggles each negate their own flag.
     */
    method BinaryInput(a: Action) returns (handled: bool)
      requires Valid()
      modifies this
      ensures targets == old(targets) && lights == old(lights) && models == old(models)
      ensures viewSensitivity == old(viewSensitivity)
      ensures Valid()
      ensures handled == a.Binary()
      ensures State() == GameInputFlags(old(State()), a, true)
      ensures currentDebugView == (if a == ChangeViewN then NextView(old(currentDebugView), |targets|)
                                   else if a == ChangeViewP then PreviousView(old(currentDebugView), |targets|)
                                   else old(currentDebugView))
      ensures renderDebugBV == (old(renderDebugBV) != (a == SwitchBVDraw))
      ensures useThirdPersonCamera == (old(useThirdPersonCamera) != (a == ThirdPersonCamera))
      ensures useFlippedCamera == (old(useFlippedCamera) != (a == FlipCamera))
      ensures debugAnimations == (old(debugAnimations) != (a == DrawPivots))
      ensures calls == old(calls) + if a.Binary() then BinaryCalls(a) else []
    {
      handled := true;
      match a {
        case ChangeSceneN =>
          newSceneId := GAMEPAUSE;
          changeScene := true;
        case ChangeSceneP =>
          changeList := true;
        case ChangeViewN =>
          currentDebugView := NextView(currentDebugView, |targets|);
        case ChangeViewP =>
          currentDebugView := PreviousView(currentDebugView, |targets|);
        case JumpAction =>
          calls := calls + [Jump];
        case SwitchBVDraw =>
          renderDebugBV := !renderDebugBV;
        case LeaveGameAction =>
          calls := calls + [LeaveGame];
        case ThirdPersonCamera =>
          useThirdPersonCamera := !useThirdPersonCamera;
        case FlipCamera =>
          useFlippedCamera := !useFlippedCamera;
        case SpellCast =>
          calls := calls + [ThrowSpell("TestSpell")];
        case DrawPivots =>
          debugAnimations := !debugAnimations;
        case WaveAction =>
          calls := calls + [Wave];
        case SplineRecord =>
          calls := calls + [RecordSpline];
        case SplineRemove =>
          calls := calls + [RemoveSplineRecord];
        case SplineClear =>
          calls := calls + [ClearSpline];
        case _ =>
          handled := false;
      }
    }

    /**
     * `registeredInput` once the action name is classified: a rising edge
     * of a binary action applies it and ends the call; anything else
     * reaches the analog actions.
     */
    method Input(a: Action, value: real, prev: real)
      requires Valid()
      modifies this
      ensures targets == old(targets) && lights == old(lights) && models == old(models)
      ensures viewSensitivity == old(viewSensitivity)
      ensures Valid()
      ensures State() == GameInputFlags(old(State()), a, GamePress(value, prev))
      ensures var press := GamePress(value, prev);
        currentDebugView == (if press && a == ChangeViewN then NextView(old(currentDebugView), |targets|)
                             else if press && a == ChangeViewP then PreviousView(old(currentDebugView), |targets|)
                             else old(currentDebugView))
        && renderDebugBV == (old(renderDebugBV) != (press && a == SwitchBVDraw))
        && useThirdPersonCamera == (old(useThirdPersonCamera) != (press && a == ThirdPersonCamera))
        && useFlippedCamera == (old(useFlippedCamera) != (press && a == FlipCamera))
        && debugAnimations == (old(debugAnimations) != (press && a == DrawPivots))
      ensures calls == old(calls) + InputCalls(a, value, prev, viewSensitivity)
    {
      if value > 0.5 && prev <= 0.5 {
        var handled := BinaryInput(a);
        if handled {
          return;
        }
      }
      AnalogInput(a, value);
    }

    /** The analog half of `registeredInput`. */
    method AnalogInput(a: Action, value: real)
      modifies this
      ensures targets == old(targets) && lights == old(lights) && models == old(models)
      ensures viewSensitivity == old(viewSensitivity)
      ensures State() == old(State())
      ensures currentDebugView == old(currentDebugView) && renderDebugBV == old(renderDebugBV)
      ensures useThirdPersonCamera == old(useThirdPersonCamera) && useFlippedCamera == old(useFlippedCamera)
      ensures debugAnimations == old(debugAnimations)
      ensures calls == old(calls) + AnalogCalls(a, value, viewSensitivity)
    {
      match a {
        case ClimbEdge =>
          calls := calls + [Climb(value > 0.5)];
        case MouseMoveHori =>
          calls := calls + [MoveView(Scaled(value, viewSensitivity), 0.0)];
        case MouseMoveVert =>
          calls := calls + [MoveView(0.0, -Scaled(value, viewSensitivity))];
        case _ =>
      }
    }

    /** `registeredInput`: the action name goes through the comparison chain, then `Input`. */
    method RegisteredInput(action: string, value: real, prev: real)
      requires Valid()
      modifies this
      ensures targets == old(targets) && lights == old(lights) && models == old(models)
      ensures viewSensitivity == old(viewSensitivity)
      ensures Valid()
      ensures State() == GameInputFlags(old(State()), ActionOf(action), GamePress(value, prev))
      ensures var press := GamePress(value, prev);
        var a := ActionOf(action);
        currentDebugView == (if press && a == ChangeViewN then NextView(old(currentDebugView), |targets|)
                             else if press && a == ChangeViewP then PreviousView(old(currentDebugView), |targets|)
                             else old(currentDebugView))
        && renderDebugBV == (old(renderDebugBV) != (press && a == SwitchBVDraw))
        && useThirdPersonCamera == (old(useThirdPersonCamera) != (press && a == ThirdPersonCamera))
        && useFlippedCamera == (old(useFlippedCamera) != (press && a == FlipCamera))
        && debugAnimations == (old(debugAnimations) != (press && a == DrawPivots))
      ensures calls == old(calls) + InputCalls(ActionOf(action), value, prev, viewSensitivity)
    {
      Input(ActionOf(action), value, prev);
    }

    /** `setMouseSensitivity`: scales the current sensitivity. */
    method SetMouseSensitivity(factor: real)
      modifies this
      ensures viewSensitivity == old(viewSensitivity) * factor
      ensures State() == old(State()) && calls == old(calls) && targets == old(targets)
      ensures currentDebugView == old(currentDebugView)
    {
      viewSensitivity := viewSensitivity * factor;
    }

    /** `addLight`. */
    method AddLight(l: Light)
      modifies this
      ensures lights == old(lights) + [l]
      ensures models == old(models) && resourceIds == old(resourceIds) && State() == old(State())
    {
      lights := lights + [l];
    }

    /** `removeLight`: `remove_if` on the id, then erase the tail. */
    method RemoveLight(lightId: int)
      modifies this
      ensures lights == WithoutLight(old(lights), lightId)
      ensures models == old(models) && resourceIds == old(resourceIds) && State() == old(State())
    {
      var kept: seq<Light> := [];
      var i := 0;
      while i < |lights|
        invariant 0 <= i <= |lights|
        invariant kept == WithoutLight(lights[..i], lightId)
      {
        assert lights[..i + 1][..i] == lights[..i];
        if lights[i].id != lightId {
          kept := kept + [lights[i]];
        }
        i := i + 1;
      }
      assert lights[..i] == lights;
      lights := kept;
    }

    /** `createMesh`: the loaded resource id is recorded and the binding appended. */
    method CreateMesh(meshId: int, resourceId: int, modelId: int)
      modifies this
      ensures resourceIds == old(resourceIds) + [resourceId]
      ensures models == old(models) + [MeshBinding(meshId, resourceId, modelId)]
      ensures lights == old(lights) && State() == old(State())
    {
      resourceIds := resourceIds + [resourceId];
      models := models + [MeshBinding(meshId, resourceId, modelId)];
    }

    /**
     * `removeMesh`: the first binding with the mesh id releases its
     * resource, drops the first matching resource id, erases its model
     * instance and is removed by swap-and-pop; without one nothing changes.
     */
    method RemoveMesh(meshId: int)
      modifies this
      ensures match FindMesh(old(models), meshId)
        case None =>
          models == old(models) && resourceIds == old(resourceIds)
          && releasedResources == old(releasedResources) && erasedModels == old(erasedModels)
        case Some(i) =>
          var b := old(models)[i];
          models == SwapPop(old(models), i)
          && resourceIds == WithoutFirst(old(resourceIds), b.resourceId)
          && releasedResources == old(releasedResources) + [b.resourceId]
          && erasedModels == old(erasedModels) + [b.modelId]
      ensures lights == old(lights) && State() == old(State())
    {
      var i := 0;
      while i < |models|
        invariant 0 <= i <= |models|
        invariant forall k :: 0 <= k < i ==> models[k].meshId != meshId
      {
        if models[i].meshId == meshId {
          var b := models[i];
          FindMeshAt(models, meshId, i);
          releasedResources := releasedResources + [b.resourceId];
          resourceIds := WithoutFirst(resourceIds, b.resourceId);
          erasedModels := erasedModels + [b.modelId];
          models := SwapPop(models, i);
          return;
        }
        i := i + 1;
      }
    }
  }

  /** Removing a mesh removes exactly its first binding and keeps every other binding. */
  lemma RemoveMeshKeepsOthers(ms: seq<MeshBinding>, meshId: int)
    requires FindMesh(ms, meshId).Some?
    ensures var i := FindMesh(ms, meshId).value;
      multiset(SwapPop(ms, i)) == multiset(ms) - multiset{ms[i]}
  {
    SwapPopRemoves(ms, FindMesh(ms, meshId).value);
  }
}
