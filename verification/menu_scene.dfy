/** A menu scene: edge-triggered menu actions and the pending scene change it reports each frame. */
module MenuScene {
  import opened Wrappers
  import opened Scenes

  class MenuScene {
    var id: nat
    var visible: bool
    var newSceneId: int
    var changeScene: bool
    var changeList: bool
    /** QuitGame events queued, one per "back" press. */
    var quitEvents: nat

    function State(): Scene
      reads this
    {
      Scene(MenuKind, id, visible, changeScene, changeList, newSceneId)
    }

    constructor ()
      ensures State() == Fresh(MenuKind, 0) && quitEvents == 0
    {
      id := 0;
      visible := false;
      newSceneId := 0;
      changeScene := false;
      changeList := false;
      quitEvents := 0;
    }

    /** `init`: records the scene's id. */
    method Init(sceneId: nat)
      modifies this
      ensures State() == old(State()).(id := sceneId) && quitEvents == old(quitEvents)
    {
      id := sceneId;
    }

    method GetIsVisible() returns (v: bool)
      ensures v == visible
    {
      v := visible;
    }

    /** `setIsVisible`: always drops a pending list switch. */
    method SetIsVisible(v: bool)
      modifies this
      ensures State() == WithVisible(old(State()), v) && quitEvents == old(quitEvents)
      ensures visible == v && !changeList
    {
      changeList := false;
      visible := v;
    }

    /** `registeredInput`: acts only on a rising edge. */
    method RegisteredInput(action: string, value: real, prev: real)
      modifies this
      ensures State() == MenuInput(old(State()), action, value, prev).0
      ensures quitEvents == old(quitEvents) + (if MenuInput(old(State()), action, value, prev).1 then 1 else 0)
    {
      if value >= 0.5 && prev < 0.5 {
        if action == "changeSceneN" {
          if id == 0 {
            newSceneId := OPTION;
          } else if id == 1 {
            newSceneId := MAIN;
          }
          changeScene := true;
        } else if action == "changeSceneP" {
          changeList := true;
        } else if action == "back" {
          quitEvents := quitEvents + 1;
        }
      }
    }

    /** `onFrame`: the value written through the out-pointer, if any, is returned. */
    method OnFrame() returns (report: Option<int>)
      modifies this
      ensures (State(), report) == Scenes.OnFrame(old(State()), NONE)
      ensures quitEvents == old(quitEvents)
    {
      report := None;
      if changeScene {
        report := Some(newSceneId);
        visible := false;
        changeScene := false;
      } else if changeList {
        report := Some(SWITCH_LIST);
        changeList := false;
      }
    }
  }

  /** From the main menu, a "changeSceneN" press makes the next frame report OPTION and hide the scene. */
  lemma MainMenuGoesToOption(s: Scene)
    requires s.kind == MenuKind && s.id == 0
    ensures var s1 := MenuInput(s, "changeSceneN", 1.0, 0.0).0;
      Scenes.OnFrame(s1, NONE).1 == Some(OPTION) && !Scenes.OnFrame(s1, NONE).0.visible
  {
  }

  /** Holding a key down does nothing: only the press counts. */
  lemma HeldKeyIgnored(s: Scene, action: string, value: real)
    requires value >= 0.5
    ensures MenuInput(s, action, value, value) == (s, false)
  {
  }
}
