/**
  The UI manager: one current screen, a history stack of earlier screens, and the list of all
  registered screens. Each UI event shows one screen; the history lets a closed screen fall back to
  the one below it.
*/
module UserInterface {
  import opened Optional

  /** The registered screens; each is one object of its own screen class. */
  datatype Screen =
    | Splash | Start | FirstMainMenu | MainMenu | AudioOptions | VideoOptions
    | GamePlay | Pause | InventoryView | Lose

  /** The order in which the manager registers its screens. */
  const Registered: seq<Screen> :=
    [Splash, Start, FirstMainMenu, MainMenu, AudioOptions, VideoOptions, GamePlay, Pause, InventoryView, Lose]

  /** A type argument of `GetScreen<T>` / `Show<T>`: the base screen class, or one screen class. */
  datatype ScreenType = AnyScreen | ScreenClass(of: Screen)

  /** `screen is T` */
  predicate IsOfType(s: Screen, t: ScreenType) {
    t.AnyScreen? || t.of == s
  }

  /** The first screen of `screens` that is a `t`, if any. */
  function FirstOfType(screens: seq<Screen>, t: ScreenType): (r: Option<Screen>)
    ensures r.None? <==> forall i :: 0 <= i < |screens| ==> !IsOfType(screens[i], t)
    ensures r.Some? ==> exists i :: 0 <= i < |screens| && screens[i] == r.value && IsOfType(r.value, t)
                                    && forall j :: 0 <= j < i ==> !IsOfType(screens[j], t)
  {
    if screens == [] then None
    else if IsOfType(screens[0], t) then Some(screens[0])
    else
      var r := FirstOfType(screens[1..], t);
      FirstOfTypeShift(screens, t, r);
      r
  }

  /** A search result in the tail of `screens` is one for `screens`, whose head does not match. */
  lemma FirstOfTypeShift(screens: seq<Screen>, t: ScreenType, r: Option<Screen>)
    requires screens != [] && !IsOfType(screens[0], t)
    requires r.None? <==> forall i :: 0 <= i < |screens[1..]| ==> !IsOfType(screens[1..][i], t)
    requires r.Some? ==> exists i :: 0 <= i < |screens[1..]| && screens[1..][i] == r.value && IsOfType(r.value, t)
                                     && forall j :: 0 <= j < i ==> !IsOfType(screens[1..][j], t)
    ensures r.None? <==> forall i :: 0 <= i < |screens| ==> !IsOfType(screens[i], t)
    ensures r.Some? ==> exists i :: 0 <= i < |screens| && screens[i] == r.value && IsOfType(r.value, t)
                                    && forall j :: 0 <= j < i ==> !IsOfType(screens[j], t)
  {
    if r.None? {
      forall i | 0 <= i < |screens| ensures !IsOfType(screens[i], t) {
        if i > 0 { assert screens[i] == screens[1..][i - 1]; }
      }
    } else {
      var i :| 0 <= i < |screens[1..]| && screens[1..][i] == r.value && IsOfType(r.value, t)
               && forall j :: 0 <= j < i ==> !IsOfType(screens[1..][j], t);
      assert screens[i + 1] == r.value;
      forall j | 0 <= j < i + 1 ensures !IsOfType(screens[j], t) {
        if j > 0 { assert screens[j] == screens[1..][j - 1]; }
      }
    }
  }

  /** Every registered screen class finds its own screen, and the base class finds the first one. */
  lemma RegisteredLookup(s: Screen)
    ensures FirstOfType(Registered, ScreenClass(s)) == Some(s)
    ensures FirstOfType(Registered, AnyScreen) == Some(Splash)
  {
    assert s in Registered;
  }

  /** Hiding every registered screen hides every screen. */
  lemma RegisteredAreAll(shown: set<Screen>)
    ensures shown - (set i | 0 <= i < |Registered| :: Registered[i]) == {}
  {
    forall s | s in shown
      ensures s in set i | 0 <= i < |Registered| :: Registered[i]
    {
      var i := match s
        case Splash => 0 case Start => 1 case FirstMainMenu => 2 case MainMenu => 3
        case AudioOptions => 4 case VideoOptions => 5 case GamePlay => 6 case Pause => 7
        case InventoryView => 8 case Lose => 9;
      assert Registered[i] == s;
    }
  }

  /** The screen that is no longer the current one: hidden, and maybe pushed on the history. */
  function Pushed(current: Option<Screen>, keepInHistory: bool): seq<Screen> {
    if current.Some? && keepInHistory then [current.value] else []
  }

  function AsSet(current: Option<Screen>): set<Screen> {
    if current.Some? then {current.value} else {}
  }

  class UIManager {
    const screens: seq<Screen>
    var current: Option<Screen>
    /** The history stack, bottom first: the top is the last element. */
    var history: seq<Screen>
    /** The screens currently displayed. */
    var shown: set<Screen>

    /** Only the current screen is displayed (and none before the first is shown). */
    ghost predicate Valid() reads this {
      screens == Registered && shown == AsSet(current)
    }

    /** OnEnable / Initialize: register every screen, then clear the history and hide everything. */
    constructor (initiallyShown: set<Screen>)
      ensures Valid() && current == None && history == []
    {
      screens := Registered;
      current := None;
      history := [];
      shown := initiallyShown;
      new;
      HideScreens();
      RegisteredAreAll(initiallyShown);
    }

    /** HideScreens: clear the history and hide every registered screen, one after another. */
    method HideScreens()
      modifies this`history, this`shown
      ensures history == []
      ensures shown == old(shown) - set i | 0 <= i < |screens| :: screens[i]
    {
      history := [];
      for k := 0 to |screens|
        invariant history == []
        invariant shown == old(shown) - set i | 0 <= i < k :: screens[i]
      {
        shown := shown - {screens[k]};
      }
    }

    /**
      Show(screen, keepInHistory): a null screen changes nothing. Otherwise the current screen, if
      any, is hidden and pushed only when `keepInHistory` holds; then `screen` is displayed and
      becomes the current screen.
    */
    method Show(screen: Option<Screen>, keepInHistory: bool)
      modifies this`current, this`history, this`shown
      ensures screen.None? ==> current == old(current) && history == old(history) && shown == old(shown)
      ensures screen.Some? ==>
        && current == screen
        && history == old(history) + Pushed(old(current), keepInHistory)
        && shown == old(shown) - AsSet(old(current)) + {screen.value}
      ensures old(Valid()) ==> Valid()
    {
      if screen.None? {
        return;
      }
      if current.Some? {
        shown := shown - {current.value};
        if keepInHistory {
          history := history + [current.value];
        }
      }
      shown := shown + {screen.value};
      current := screen;
    }

    /** GetScreen<T>: the first registered screen of type T, or null. */
    method GetScreen(t: ScreenType) returns (r: Option<Screen>)
      ensures r == FirstOfType(screens, t)
      ensures r.Some? ==> r.value in screens && IsOfType(r.value, t)
    {
      for k := 0 to |screens|
        invariant FirstOfType(screens, t) == FirstOfType(screens[k..], t)
      {
        if IsOfType(screens[k], t) {
          return Some(screens[k]);
        }
        assert screens[k..][1..] == screens[k + 1..];
      }
      return None;
    }

    /** Show<T>(keepInHistory): show the first registered screen of type T; without one nothing happens. */
    method ShowOfType(t: ScreenType, keepInHistory: bool)
      modifies this`current, this`history, this`shown
      ensures FirstOfType(screens, t).None? ==> current == old(current) && history == old(history) && shown == old(shown)
      ensures FirstOfType(screens, t).Some? ==>
        && current == FirstOfType(screens, t)
        && history == old(history) + Pushed(old(current), keepInHistory)
        && shown == old(shown) - AsSet(old(current)) + {current.value}
      ensures old(Valid()) ==> Valid()
    {
      for k := 0 to |screens|
        invariant FirstOfType(screens, t) == FirstOfType(screens[k..], t)
      {
        if IsOfType(screens[k], t) {
          Show(Some(screens[k]), keepInHistory);
          return;
        }
        assert screens[k..][1..] == screens[k + 1..];
      }
    }

    // Event handlers

    method SplashScreenShown()
      requires Valid()
      modifies this`current, this`history, this`shown
      ensures Valid() && current == Some(Splash) && history == old(history)
    {
      Show(Some(Splash), false);
    }

    method PreloadCompleted()
      requires Valid()
      modifies this`current, this`history, this`shown
      ensures Valid() && current == Some(Start) && history == old(history)
    {
      Show(Some(Start), false);
    }

    /** FirstMainMenuScreenShown: the first main menu becomes the only screen, shown and in the history. */
    method FirstMainMenuScreenShown()
      requires Valid()
      modifies this`current, this`history, this`shown
      ensures Valid() && current == Some(FirstMainMenu) && history == [FirstMainMenu]
    {
      current := Some(FirstMainMenu);
      ghost var before := shown;
      HideScreens();
      RegisteredAreAll(before);
      history := history + [FirstMainMenu];
      shown := shown + {FirstMainMenu};
    }

    /** MainMenuScreenShown: the main menu becomes the only screen, shown and in the history. */
    method MainMenuScreenShown()
      requires Valid()
      modifies this`current, this`history, this`shown
      ensures Valid() && current == Some(MainMenu) && history == [MainMenu]
    {
      current := Some(MainMenu);
      ghost var before := shown;
      HideScreens();
      RegisteredAreAll(before);
      history := history + [MainMenu];
      shown := shown + {MainMenu};
    }

    method AudioOptionsScreenShown()
      requires Valid()
      modifies this`current, this`history, this`shown
      ensures Valid() && current == Some(AudioOptions) && history == old(history)
    {
      Show(Some(AudioOptions), false);
    }

    method VideoOptionsScreenShown()
      requires Valid()
      modifies this`current, this`history, this`shown
      ensures Valid() && current == Some(VideoOptions) && history == old(history)
    {
      Show(Some(VideoOptions), false);
    }

    /** GamePlayScreenShown: the only handler that keeps the previous screen in the history. */
    method GamePlayScreenShown()
      requires Valid()
      modifies this`current, this`history, this`shown
      ensures Valid() && current == Some(GamePlay)
      ensures history == old(history) + Pushed(old(current), true)
    {
      Show(Some(GamePlay), true);
    }

    /**
      The three overlay handlers (pause, inventory, lose): show the overlay without pushing, then pop
      the history. `Stack.Pop` on an empty history throws after the overlay is already shown: `ok`
      is false and the history stays empty.
    */
    method ShowOverlayAndPop(overlay: Screen) returns (ok: bool)
      requires Valid()
      modifies this`current, this`history, this`shown
      ensures Valid() && current == Some(overlay)
      ensures ok <==> old(history) != []
      ensures history == if ok then old(history)[..|old(history)| - 1] else old(history)
    {
      Show(Some(overlay), false);
      if history == [] {
        return false;
      }
      history := history[..|history| - 1];
      ok := true;
    }

    method PauseScreenShown() returns (ok: bool)
      requires Valid()
      modifies this`current, this`history, this`shown
      ensures Valid() && current == Some(Pause)
      ensures ok <==> old(history) != []
      ensures history == if ok then old(history)[..|old(history)| - 1] else old(history)
    {
      ok := ShowOverlayAndPop(Pause);
    }

    method InventoryScreenShown() returns (ok: bool)
      requires Valid()
      modifies this`current, this`history, this`shown
      ensures Valid() && current == Some(InventoryView)
      ensures ok <==> old(history) != []
      ensures history == if ok then old(history)[..|old(history)| - 1] else old(history)
    {
      ok := ShowOverlayAndPop(InventoryView);
    }

    method LoseScreenShown() returns (ok: bool)
      requires Valid()
      modifies this`current, this`history, this`shown
      ensures Valid() && current == Some(Lose)
      ensures ok <==> old(history) != []
      ensures history == if ok then old(history)[..|old(history)| - 1] else old(history)
    {
      ok := ShowOverlayAndPop(Lose);
    }

    /**
      ScreenClosed: go back by showing the top of the history, which stays on the stack. With an
      empty history nothing happens.
    */
    method ScreenClosed()
      requires Valid()
      modifies this`current, this`history, this`shown
      ensures Valid() && history == old(history)
      ensures old(history) != [] ==> current == Some(old(history)[|old(history)| - 1])
      ensures old(history) == [] ==> current == old(current)
    {
      if history != [] {
        Show(Some(history[|history| - 1]), false);
      }
    }
  }

  /** Main menu, then an options screen, then closing it: back on the main menu with the same history. */
  method OptionsAndBack(m: UIManager)
    requires m.Valid()
    modifies m
    ensures m.Valid() && m.current == Some(MainMenu) && m.history == [MainMenu]
  {
    m.MainMenuScreenShown();
    m.AudioOptionsScreenShown();
    m.ScreenClosed();
  }

  /**
    Main menu, game play, pause, resume: the pause overlay pops the main menu pushed by game play,
    and resuming pushes the pause screen, so the history keeps the overlay below the game.
  */
  method PauseAndResume(m: UIManager)
    requires m.Valid()
    modifies m
    ensures m.Valid() && m.current == Some(GamePlay) && m.history == [MainMenu, Pause]
  {
    m.MainMenuScreenShown();
    m.GamePlayScreenShown();
    var ok := m.PauseScreenShown();
    m.GamePlayScreenShown();
  }
}
