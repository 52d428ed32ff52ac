/**
 * The scene-switching state every scene carries (the IScene interface's
 * visibility and pending-change flags), with the frame and input rules of
 * the two scene kinds the scene manager holds: menu scenes and game scenes.
 * Each scene reports a pending change to its manager through `onFrame`:
 * the id of the scene to show, or -1 to switch between the menu and run
 * lists.
 */
module Scenes {
  import opened Wrappers

  /** `MenuScenes`. */
  const MAIN: int := 0
  const OPTION: int := 1
  /** `RunScenes`. */
  const GAMEMAIN: int := 0
  const GAMEHUD: int := 1
  const GAMEPAUSE: int := 2
  /** `GameLogic::GoToScene`. */
  const NONE: int := -1
  const POSTGAME: int := 2
  /** What a scene reports to switch lists. */
  const SWITCH_LIST: int := -1

  datatype Kind = MenuKind | GameKind

  datatype Scene = Scene(kind: Kind, id: nat, visible: bool, changeScene: bool, changeList: bool, newSceneId: int)

  /** A scene as constructed and then initialised with its id: hidden, nothing pending. */
  function Fresh(kind: Kind, id: nat): (s: Scene)
    ensures !s.visible && !s.changeScene && !s.changeList && s.newSceneId == 0
  {
    Scene(kind, id, false, false, false, 0)
  }

  /** `setIsVisible`: a menu scene also drops a pending list switch; a game scene keeps it. */
  function WithVisible(s: Scene, v: bool): (r: Scene)
    ensures r.visible == v && r.changeScene == s.changeScene && r.newSceneId == s.newSceneId
    ensures r.changeList == (s.changeList && s.kind.GameKind?)
    ensures r.kind == s.kind && r.id == s.id
  {
    if s.kind.MenuKind? then s.(visible := v, changeList := false) else s.(visible := v)
  }

  /**
   * `onFrame`: a game scene first takes the game logic's scene request
   * (`goTo`). A pending scene change is reported and hides the scene; a
   * pending list switch is reported as -1; otherwise nothing is written.
   */
  function OnFrame(s: Scene, goTo: int): (r: (Scene, Option<int>))
    ensures var changing := s.changeScene || (s.kind == GameKind && goTo != NONE);
      var target := if s.kind == GameKind && goTo != NONE then goTo else s.newSceneId;
      (changing ==> r.1 == Some(target) && !r.0.visible && r.0.changeList == s.changeList)
      && (!changing && s.changeList ==> r.1 == Some(SWITCH_LIST) && !r.0.changeList && r.0.visible == s.visible)
      && (!changing && !s.changeList ==> r.1 == None && r.0 == s)
    ensures !r.0.changeScene && r.0.kind == s.kind && r.0.id == s.id
  {
    var s1 := if s.kind == GameKind && goTo != NONE then s.(changeScene := true, newSceneId := goTo) else s;
    if s1.changeScene then (s1.(visible := false, changeScene := false), Some(s1.newSceneId))
    else if s1.changeList then (s1.(changeList := false), Some(SWITCH_LIST))
    else (s1, None)
  }

  /** Once reported, a change is not reported again: two quiet frames in a row report nothing the second time. */
  lemma OnFrameSettles(s: Scene, goTo: int)
    ensures var s1 := OnFrame(s, goTo).0;
      var s2 := OnFrame(s1, NONE).0;
      OnFrame(s2, NONE).1 == None
  {
    var s1 := OnFrame(s, goTo).0;
    assert !s1.changeScene;
    var s2 := OnFrame(s1, NONE).0;
    assert !s2.changeScene && !s2.changeList;
  }

  /** A rising edge for a menu scene: at least one half now, below it before. */
  predicate MenuPress(value: real, prev: real)
  {
    value >= 0.5 && prev < 0.5
  }

  /** A rising edge for a game scene: above one half now, at most one half before. */
  predicate GamePress(value: real, prev: real)
  {
    value > 0.5 && prev <= 0.5
  }

  /**
   * A menu scene's `registeredInput` on its flags: "changeSceneN" flips
   * between MAIN and OPTION (scene 0 goes to OPTION, scene 1 to MAIN, any
   * other keeps its target) and always requests the change;
   * "changeSceneP" requests a list switch; "back" asks to quit.
   */
  function MenuInput(s: Scene, action: string, value: real, prev: real): (r: (Scene, bool))
    ensures !MenuPress(value, prev) ==> r == (s, false)
    ensures r.1 <==> MenuPress(value, prev) && action == "back"
    ensures MenuPress(value, prev) && action == "changeSceneN" ==>
              r.0.changeScene && r.0.newSceneId == (if s.id == 0 then OPTION else if s.id == 1 then MAIN else s.newSceneId)
    ensures MenuPress(value, prev) && action == "changeSceneP" ==> r.0.changeList
    ensures r.0.kind == s.kind && r.0.id == s.id && r.0.visible == s.visible
  {
    if !MenuPress(value, prev) then (s, false)
    else if action == "changeSceneN" then
      var target := if s.id == 0 then OPTION else if s.id == 1 then MAIN else s.newSceneId;
      (s.(newSceneId := target, changeScene := true), false)
    else if action == "changeSceneP" then (s.(changeList := true), false)
    else (s, action == "back")
  }
}
