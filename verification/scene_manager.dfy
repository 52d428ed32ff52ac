/**
 * The scene manager: a menu list of two menu scenes and a run list of two
 * game scenes and a pause menu, the flag saying which list is active, and
 * the index of the scene to show. Scenes are held as values of
 * `Scenes.Scene`; calling a scene's member is applying the matching rule
 * to that value.
 */
module SceneManager {
  import opened Wrappers
  import opened Scenes
  import GameScene

  /** `m_NumberOfMenuScene` and `m_NumberOfRunScene` after `init`. */
  const MENU_COUNT: nat := 2
  const RUN_COUNT: nat := 3

  /** The manager's state: both lists, `m_NowShowing` and `m_IsMenuState`. */
  datatype Screens = Screens(menu: seq<Scene>, run: seq<Scene>, nowShowing: int, isMenuState: bool)

  /** A scene of the given kind and id whose pending target is one of `targets`. */
  predicate SceneOk(s: Scene, kind: Kind, id: nat, targets: set<int>)
  {
    s.kind == kind && s.id == id && s.newSceneId in targets
  }

  /** Where a menu-list scene can ask to go: the main menu or the options. */
  const MENU_TARGETS: set<int> := {MAIN, OPTION}
  /** Where a run-list scene can ask to go: the game view or the pause menu (the game logic's POSTGAME is 2 as well). */
  const RUN_TARGETS: set<int> := {GAMEMAIN, GAMEPAUSE}

  /**
   * The state between frames after `init`: the two lists as built, every
   * pending target inside its list, and the shown index a target of the
   * active list.
   */
  predicate WellFormed(s: Screens)
  {
    |s.menu| == MENU_COUNT && |s.run| == RUN_COUNT
    && SceneOk(s.menu[0], MenuKind, 0, MENU_TARGETS) && SceneOk(s.menu[1], MenuKind, 1, MENU_TARGETS)
    && SceneOk(s.run[0], GameKind, 0, RUN_TARGETS) && SceneOk(s.run[1], GameKind, 1, RUN_TARGETS)
    && SceneOk(s.run[2], MenuKind, 2, RUN_TARGETS)
    && s.nowShowing in (if s.isMenuState then MENU_TARGETS else RUN_TARGETS)
  }

  /** The visible scenes of a list, in list order. */
  function Visible(l: seq<Scene>): (r: seq<Scene>)
    ensures forall s :: s in r <==> s in l && s.visible
    ensures |r| <= |l|
  {
    if l == [] then [] else Visible(l[..|l| - 1]) + (if l[|l| - 1].visible then [l[|l| - 1]] else [])
  }

  /** The index of the first visible scene, if any. */
  function FirstVisible(l: seq<Scene>): (r: Option<nat>)
    ensures r.Some? ==> r.value < |l| && l[r.value].visible && forall k :: 0 <= k < r.value ==> !l[k].visible
    ensures r.None? ==> forall k :: 0 <= k < |l| ==> !l[k].visible
  {
    if l == [] then None
    else if l[0].visible then Some(0)
    else match FirstVisible(l[1..])
      case None => None
      case Some(k) => Some(k + 1)
  }

  /** The first scene `getScene` returns is the first visible one. */
  lemma {:induction false} FirstVisibleHeadsVisible(l: seq<Scene>)
    requires FirstVisible(l).Some?
    ensures Visible(l) != [] && Visible(l)[0] == l[FirstVisible(l).value]
  {
    var n := |l| - 1;
    var k := FirstVisible(l).value;
    var p := l[..n];
    var last := if l[n].visible then [l[n]] else [];
    assert Visible(l) == Visible(p) + last;
    if k < n {
      forall j | 0 <= j < k
        ensures !p[j].visible
      {
        assert p[j] == l[j];
      }
      FirstVisibleAt(p, k);
      FirstVisibleHeadsVisible(p);
      assert Visible(p)[0] == l[k];
    } else {
      forall j | 0 <= j < n
        ensures !p[j].visible
      {
        assert p[j] == l[j];
      }
      NoneVisible(p);
      assert Visible(l) == [l[k]];
    }
  }

  /** `FirstVisible` finds the first visible index. */
  lemma {:induction false} FirstVisibleAt(l: seq<Scene>, k: nat)
    requires k < |l| && l[k].visible && forall j :: 0 <= j < k ==> !l[j].visible
    ensures FirstVisible(l) == Some(k)
  {
    if k > 0 {
      FirstVisibleAt(l[1..], k - 1);
    }
  }

  /** A list with no visible scene shows nothing. */
  lemma {:induction false} NoneVisible(l: seq<Scene>)
    requires forall k :: 0 <= k < |l| ==> !l[k].visible
    ensures Visible(l) == []
  {
    if l != [] {
      NoneVisible(l[..|l| - 1]);
    }
  }

  /** The list `getScene` reads: the menu list in menu state, the run list otherwise. */
  function Active(s: Screens): seq<Scene>
  {
    if s.isMenuState then s.menu else s.run
  }

  /** What `onFrame` writes into `m_NowShowing`: the reported id, or the old value when nothing is reported. */
  function Reported(now: int, report: Option<int>): int
  {
    match report
    case None => now
    case Some(v) => v
  }

  /** `l` with every scene from index `k` on hidden. */
  function HideFrom(l: seq<Scene>, k: nat): (r: seq<Scene>)
    ensures |r| == |l|
    ensures forall j :: 0 <= j < |l| ==> r[j] == if j < k then l[j] else WithVisible(l[j], false)
    decreases |l| - k
  {
    if |l| <= k then l else HideFrom(l, k + 1)[k := WithVisible(l[k], false)]
  }

  /** `startRun`: run state with the game view and the HUD scene shown, the rest hidden, index 0. */
  function RunStarted(s: Screens): (r: Screens)
    requires |s.run| >= 2
    ensures !r.isMenuState && r.nowShowing == 0 && r.menu == s.menu && |r.run| == |s.run|
    ensures r.run[0].visible && r.run[1].visible && forall j :: 2 <= j < |r.run| ==> !r.run[j].visible
  {
    var run := s.run[0 := WithVisible(s.run[0], true)][1 := WithVisible(s.run[1], true)];
    s.(isMenuState := false, run := HideFrom(run, 2), nowShowing := 0)
  }

  /** `startMenu`: menu state with only the first menu scene shown, index 0. */
  function MenuStarted(s: Screens): (r: Screens)
    requires |s.menu| >= 1
    ensures r.isMenuState && r.nowShowing == 0 && r.run == s.run && |r.menu| == |s.menu|
    ensures r.menu[0].visible && forall j :: 1 <= j < |r.menu| ==> !r.menu[j].visible
  {
    var menu := s.menu[0 := WithVisible(s.menu[0], true)];
    s.(isMenuState := true, menu := HideFrom(menu, 1), nowShowing := 0)
  }

  /**
   * `changeScene`: the scene at `p` in the active list is shown; in menu
   * state it is also given a frame at once, which may write the index.
   */
  function SceneChanged(s: Screens, p: int): (r: Screens)
    requires 0 <= p < |Active(s)|
    ensures r.isMenuState == s.isMenuState && |r.menu| == |s.menu| && |r.run| == |s.run|
    ensures !s.isMenuState ==> r == s.(run := s.run[p := WithVisible(s.run[p], true)])
    ensures s.isMenuState ==> r.run == s.run && r.menu[p].id == s.menu[p].id
  {
    if s.isMenuState then
      var framed := OnFrame(WithVisible(s.menu[p], true), NONE);
      s.(menu := s.menu[p := framed.0], nowShowing := Reported(s.nowShowing, framed.1))
    else
      s.(run := s.run[p := WithVisible(s.run[p], true)])
  }

  /**
   * `onFrameMenu` from scene `i` on: each visible menu scene gets a frame;
   * when the index it leaves differs from its own position the loop ends,
   * switching to the run list on -1 and showing the new scene otherwise.
   */
  function MenuFrameFrom(s: Screens, i: nat): (r: Screens)
    requires WellFormed(s) && s.isMenuState
    ensures WellFormed(r)
    decreases MENU_COUNT - i
  {
    if i >= MENU_COUNT then s
    else if !s.menu[i].visible then MenuFrameFrom(s, i + 1)
    else
      var framed := OnFrame(s.menu[i], NONE);
      var s1 := s.(menu := s.menu[i := framed.0], nowShowing := Reported(s.nowShowing, framed.1));
      if i == s1.nowShowing then MenuFrameFrom(s1, i + 1)
      else if s1.nowShowing != SWITCH_LIST then SceneChanged(s1, s1.nowShowing)
      else RunStarted(s1)
  }

  /**
   * `onFrameRun` from scene `i` on: every run scene gets a frame, visible or
   * not, the game scenes taking the game logic's request `goTo`; when the
   * index differs from the scene's position the scene at the index is
   * shown (or the menu list started on -1) and the loop index is set to
   * the MENU list's size, which ends the loop because it is one less than
   * the run list's.
   */
  function RunFrameFrom(s: Screens, i: nat, goTo: int): (r: Screens)
    requires WellFormed(s) && !s.isMenuState && goTo in {NONE, POSTGAME}
    ensures WellFormed(r)
    decreases RUN_COUNT - i
  {
    if i >= RUN_COUNT then s
    else
      var framed := OnFrame(s.run[i], goTo);
      var s1 := s.(run := s.run[i := framed.0], nowShowing := Reported(s.nowShowing, framed.1));
      if i == s1.nowShowing then RunFrameFrom(s1, i + 1, goTo)
      else if s1.nowShowing != SWITCH_LIST then RunFrameFrom(SceneChanged(s1, s1.nowShowing), MENU_COUNT + 1, goTo)
      else MenuStarted(s1)
  }

  /** `onFrame`: a frame of the active list. */
  function Frame(s: Screens, goTo: int): (r: Screens)
    requires WellFormed(s) && goTo in {NONE, POSTGAME}
    ensures WellFormed(r)
  {
    if s.isMenuState then MenuFrameFrom(s, 0) else RunFrameFrom(s, 0, goTo)
  }

  /** `setPause`: in run state the pause scene's visibility flips; in menu state nothing changes. */
  function Paused(s: Screens): (r: Screens)
    requires |s.run| == RUN_COUNT
    ensures |r.run| == |s.run| && r.isMenuState == s.isMenuState
    ensures s.isMenuState ==> r == s
    ensures !s.isMenuState ==>
              (r.run[GAMEPAUSE].visible == !s.run[GAMEPAUSE].visible
               && r.run[..GAMEPAUSE] == s.run[..GAMEPAUSE] && r.menu == s.menu && r.nowShowing == s.nowShowing)
  {
    if s.isMenuState then s
    else s.(run := s.run[GAMEPAUSE := WithVisible(s.run[GAMEPAUSE], !s.run[GAMEPAUSE].visible)])
  }

  /**
   * In run state the pause menu never gets a frame: the frame ends at the
   * HUD scene at the latest, so a change the pause menu asks for is never
   * reported; the frame can only show it.
   */
  lemma PauseSceneNeverFramed(s: Screens, goTo: int)
    requires WellFormed(s) && !s.isMenuState && goTo in {NONE, POSTGAME}
    ensures var r := Frame(s, goTo);
      r.run[GAMEPAUSE] == s.run[GAMEPAUSE] || r.run[GAMEPAUSE] == WithVisible(s.run[GAMEPAUSE], true)
  {
    var f0 := OnFrame(s.run[0], goTo);
    var s1 := s.(run := s.run[0 := f0.0], nowShowing := Reported(s.nowShowing, f0.1));
    if 0 == s1.nowShowing {
      var f1 := OnFrame(s1.run[1], goTo);
      var s2 := s1.(run := s1.run[1 := f1.0], nowShowing := Reported(s1.nowShowing, f1.1));
      assert s2.nowShowing != 1;
      assert RunFrameFrom(s1, 1, goTo) == if s2.nowShowing != SWITCH_LIST then SceneChanged(s2, s2.nowShowing) else MenuStarted(s2);
    }
  }

  /**
   * Pausing twice restores the pause menu's visibility and leaves the game
   * scenes alone, but a list switch the pause menu had pending is dropped.
   */
  lemma SetPauseTwice(s: Screens)
    requires |s.run| == RUN_COUNT && !s.isMenuState
    ensures var r := Paused(Paused(s));
      r.run[GAMEPAUSE].visible == s.run[GAMEPAUSE].visible && r.run[..GAMEPAUSE] == s.run[..GAMEPAUSE]
      && (s.run[GAMEPAUSE].kind == MenuKind ==> !r.run[GAMEPAUSE].changeList)
  {
  }

  /** What a key press does to the manager: 'K' pauses; 'L' and 'J' go to the first visible scene. */
  datatype KeyOutcome = KeyOutcome(handled: bool, screens: Screens, receiver: Option<nat>)

  /** `keyStroke` with `passKeyStroke`. */
  function KeyResult(s: Screens, key: char): (r: KeyOutcome)
    requires |s.run| == RUN_COUNT
    ensures r.handled <==> key in {'K', 'L', 'J'}
    ensures key == 'K' ==> r.screens == Paused(s) && r.receiver == None
    ensures key != 'K' ==> r.screens == s
    ensures key in {'L', 'J'} ==> r.receiver == FirstVisible(Active(s))
  {
    if key == 'K' then KeyOutcome(true, Paused(s), None)
    else if key == 'L' || key == 'J' then KeyOutcome(true, s, FirstVisible(Active(s)))
    else KeyOutcome(false, s, None)
  }

  /** The manager after `init`: only the main menu shown, the list flag left as it was found. */
  function Initial(isMenuState: bool): (r: Screens)
    ensures WellFormed(r) && r.nowShowing == 0 && r.isMenuState == isMenuState
    ensures Visible(r.menu) == [r.menu[0]] && Visible(r.run) == []
  {
    var menu := [WithVisible(Fresh(MenuKind, 0), true), Fresh(MenuKind, 1)];
    var run := [Fresh(GameKind, 0), Fresh(GameKind, 1), Fresh(MenuKind, 2)];
    assert menu == [menu[0]] + [menu[1]];
    assert run == [run[0]] + [run[1]] + [run[2]];
    Screens(menu, run, 0, isMenuState)
  }

  /** In the menu state after `init`, `getScene` yields the main menu alone. */
  lemma InitShowsMainMenu(isMenuState: bool)
    requires isMenuState
    ensures Visible(Active(Initial(isMenuState))) == [Fresh(MenuKind, 0).(visible := true)]
  {
  }

  class Manager {
    var menu: seq<Scene>
    var run: seq<Scene>
    var nowShowing: int
    var isMenuState: bool

    function State(): Screens
      reads this
    {
      Screens(menu, run, nowShowing, isMenuState)
    }

    /**
     * The constructor empties both lists and sets the index to 0; it leaves
     * `m_IsMenuState` unset, so its value is taken as a parameter.
     */
    constructor (isMenuState: bool)
      ensures State() == Screens([], [], 0, isMenuState)
    {
      menu := [];
      run := [];
      nowShowing := 0;
      this.isMenuState := isMenuState;
    }

    /** `init`: builds both lists, gives each scene its position as id, shows the main menu. */
    method Init()
      modifies this
      requires nowShowing == 0
      ensures State() == Initial(old(isMenuState))
    {
      var m := [Fresh(MenuKind, 0), Fresh(MenuKind, 1)];
      var r := [Fresh(GameKind, 0), Fresh(GameKind, 1), Fresh(MenuKind, 2)];
      m := m[0 := WithVisible(m[0], true)];
      menu := m;
      run := r;
    }

    /** `startRun`. */
    method StartRun()
      requires |run| >= 2
      modifies this
      ensures State() == RunStarted(old(State()))
    {
      isMenuState := false;
      var r := run[0 := WithVisible(run[0], true)][1 := WithVisible(run[1], true)];
      var i := 2;
      while i < |r|
        invariant 2 <= i <= |r|
        invariant HideFrom(r, i) == HideFrom(old(run)[0 := WithVisible(old(run)[0], true)][1 := WithVisible(old(run)[1], true)], 2)
      {
        r := r[i := WithVisible(r[i], false)];
        i := i + 1;
      }
      run := r;
      nowShowing := 0;
    }

    /** `startMenu`. */
    method StartMenu()
      requires |menu| >= 1
      modifies this
      ensures State() == MenuStarted(old(State()))
    {
      isMenuState := true;
      var m := menu[0 := WithVisible(menu[0], true)];
      var i := 1;
      while i < |m|
        invariant 1 <= i <= |m|
        invariant HideFrom(m, i) == HideFrom(old(menu)[0 := WithVisible(old(menu)[0], true)], 1)
      {
        m := m[i := WithVisible(m[i], false)];
        i := i + 1;
      }
      menu := m;
      nowShowing := 0;
    }

    /** `setPause`. */
    method SetPause()
      requires |run| == RUN_COUNT
      modifies this
      ensures State() == Paused(old(State()))
    {
      if !isMenuState {
        var current := run[GAMEPAUSE].visible;
        run := run[GAMEPAUSE := WithVisible(run[GAMEPAUSE], !current)];
      }
    }

    /** `changeScene`. */
    method ChangeScene(p: int)
      requires 0 <= p < |Active(State())|
      modifies this
      ensures State() == SceneChanged(old(State()), p)
    {
      if isMenuState {
        var shown := WithVisible(menu[p], true);
        var framed := Scenes.OnFrame(shown, NONE);
        menu := menu[p := framed.0];
        nowShowing := Reported(nowShowing, framed.1);
      } else {
        run := run[p := WithVisible(run[p], true)];
      }
    }

    /** `onFrameMenu`. */
    method OnFrameMenu()
      requires WellFormed(State()) && isMenuState
      modifies this
      ensures State() == MenuFrameFrom(old(State()), 0)
    {
      var i: nat := 0;
      while i < MENU_COUNT
        invariant WellFormed(State()) && isMenuState
        invariant MenuFrameFrom(State(), i) == MenuFrameFrom(old(State()), 0)
        decreases MENU_COUNT - i
      {
        if menu[i].visible {
          var framed := Scenes.OnFrame(menu[i], NONE);
          menu := menu[i := framed.0];
          nowShowing := Reported(nowShowing, framed.1);
          if i != nowShowing {
            if nowShowing != SWITCH_LIST {
              ChangeScene(nowShowing);
            } else {
              StartRun();
            }
            return;
          }
        }
        i := i + 1;
      }
    }

    /** `onFrameRun`, with the game logic's scene request `goTo`. */
    method OnFrameRun(goTo: int)
      requires WellFormed(State()) && !isMenuState && goTo in {NONE, POSTGAME}
      modifies this
      ensures State() == RunFrameFrom(old(State()), 0, goTo)
    {
      var i: nat := 0;
      while i < RUN_COUNT
        invariant WellFormed(State()) && !isMenuState
        invariant RunFrameFrom(State(), i, goTo) == RunFrameFrom(old(State()), 0, goTo)
        decreases RUN_COUNT - i
      {
        var framed := Scenes.OnFrame(run[i], goTo);
        run := run[i := framed.0];
        nowShowing := Reported(nowShowing, framed.1);
        if i != nowShowing {
          if nowShowing != SWITCH_LIST {
            ChangeScene(nowShowing);
            i := MENU_COUNT;
          } else {
            StartMenu();
            return;
          }
        }
        i := i + 1;
      }
    }

    /** `onFrame`. */
    method OnFrame(goTo: int)
      requires WellFormed(State()) && goTo in {NONE, POSTGAME}
      modifies this
      ensures State() == Frame(old(State()), goTo)
    {
      if isMenuState {
        OnFrameMenu();
      } else {
        OnFrameRun(goTo);
      }
    }

    /** `getScene`: the visible scenes of the active list, in list order. */
    method GetScene() returns (shown: seq<Scene>)
      ensures shown == Visible(Active(State()))
    {
      var l := if isMenuState then menu else run;
      shown := [];
      var i := 0;
      while i < |l|
        invariant 0 <= i <= |l|
        invariant shown == Visible(l[..i])
      {
        assert l[..i + 1][..i] == l[..i];
        if l[i].visible {
          shown := shown + [l[i]];
        }
        i := i + 1;
      }
      assert l[..i] == l;
    }

    /** `keyStroke`: returns whether the key was taken and, for 'L' and 'J', the scene it was passed to. */
    method KeyStroke(key: char) returns (handled: bool, receiver: Option<nat>)
      requires |run| == RUN_COUNT
      modifies this
      ensures (handled, State(), receiver) == (var o := KeyResult(old(State()), key); (o.handled, o.screens, o.receiver))
    {
      receiver := None;
      if key == 'K' {
        SetPause();
        return true, None;
      } else if key == 'L' || key == 'J' {
        receiver := PassKeyStroke();
        return true, receiver;
      }
      return false, None;
    }

    /** `passKeyStroke`: the first visible scene of the active list receives the key. */
    method PassKeyStroke() returns (receiver: Option<nat>)
      ensures receiver == FirstVisible(Active(State()))
    {
      var l := if isMenuState then menu else run;
      var i := 0;
      while i < |l|
        invariant 0 <= i <= |l|
        invariant forall k :: 0 <= k < i ==> !l[k].visible
      {
        if l[i].visible {
          FirstVisibleAt(l, i);
          return Some(i);
        }
        i := i + 1;
      }
      receiver := None;
    }

    /**
     * Input reaching a scene of the active list through the pointers
     * `getScene` hands out: the scene applies its own `registeredInput`
     * rule to its flags.
     */
    method SceneInput(p: nat, action: string, value: real, prev: real)
      requires WellFormed(State()) && p < |Active(State())|
      modifies this
      ensures WellFormed(State())
      ensures isMenuState == old(isMenuState) && nowShowing == old(nowShowing)
      ensures var s := old(Active(State()))[p];
        Active(State()) == old(Active(State()))[p := if s.kind == MenuKind then MenuInput(s, action, value, prev).0
                                                     else GameScene.GameInputFlags(s, GameScene.ActionOf(action), GamePress(value, prev))]
    {
      var s := if isMenuState then menu[p] else run[p];
      var s1 := if s.kind == MenuKind then MenuInput(s, action, value, prev).0
                else GameScene.GameInputFlags(s, GameScene.ActionOf(action), GamePress(value, prev));
      if isMenuState {
        menu := menu[p := s1];
      } else {
        run := run[p := s1];
      }
    }
  }
}
