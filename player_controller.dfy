/**
  The player controller's menu logic: the pause and inventory keys drive the `isPaused` and
  `inventoryShown` flags, the global time scale, the cursor lock and the UI overlay events; the
  mouse look clamps the camera pitch; the monster's discovery of the player freezes the controller.
  Movement, jumping, crouching, head-bob, zoom, leaning and interaction are physics and animation
  and are not part of this model.
*/
module Player {
  import opened Events
  import opened EngineTime

  /** The part of the controller (and of the engine globals it writes) that the menu keys drive. */
  datatype Controls = Controls(
    isPaused: bool,
    inventoryShown: bool,
    timeScale: real,
    cursorLocked: bool,
    events: seq<Event>)

  function ScaleFor(isPaused: bool): real {
    if isPaused then 0.0 else 1.0
  }

  /**
    HandleShowInventory: the inventory key toggles both flags, sets the time scale from the new
    pause flag, announces the game-play screen and locks the cursor; when that leaves the game
    paused, the inventory overlay is announced and the cursor is released.
  */
  function InventoryHandler(c: Controls, inventoryKey: bool): (r: Controls)
    ensures !inventoryKey ==> r == c
    ensures inventoryKey ==>
      && r.isPaused == !c.isPaused && r.inventoryShown == !c.inventoryShown
      && r.timeScale == ScaleFor(r.isPaused)
      && r.cursorLocked == !r.isPaused
      && r.events == c.events + [GamePlayScreenShown] + (if r.isPaused then [InventoryScreenShown] else [])
  {
    if !inventoryKey then c
    else
      var paused := !c.isPaused;
      Controls(paused, !c.inventoryShown, ScaleFor(paused), !paused,
               c.events + [GamePlayScreenShown] + (if paused then [InventoryScreenShown] else []))
  }

  /**
    HandlePauseGame: the pause key toggles only the pause flag, with the same time scale, event and
    cursor rules, and the pause overlay in place of the inventory one.
  */
  function PauseHandler(c: Controls, pauseKey: bool): (r: Controls)
    ensures !pauseKey ==> r == c
    ensures pauseKey ==>
      && r.isPaused == !c.isPaused && r.inventoryShown == c.inventoryShown
      && r.timeScale == ScaleFor(r.isPaused)
      && r.cursorLocked == !r.isPaused
      && r.events == c.events + [GamePlayScreenShown] + (if r.isPaused then [PauseScreenShown] else [])
  {
    if !pauseKey then c
    else
      var paused := !c.isPaused;
      Controls(paused, c.inventoryShown, ScaleFor(paused), !paused,
               c.events + [GamePlayScreenShown] + (if paused then [PauseScreenShown] else []))
  }

  /**
    The menu part of Update. Unpaused: the inventory handler (when the inventory option is on), then
    the pause handler. Paused: the inventory handler only while the inventory is shown, then the pause
    handler only if the inventory is not shown by then.
  */
  function MenuStep(c: Controls, inventoryOption: bool, inventoryKey: bool, pauseKey: bool): (r: Controls)
    ensures !inventoryKey && !pauseKey ==> r == c
    ensures c.isPaused && c.inventoryShown && !inventoryKey ==> r == c
    ensures !c.isPaused && !inventoryOption ==> r.inventoryShown == c.inventoryShown
    ensures r != c ==> r.timeScale == ScaleFor(r.isPaused) && r.cursorLocked == !r.isPaused
    ensures c.events <= r.events
  {
    if !c.isPaused then
      var afterInventory := if inventoryOption then InventoryHandler(c, inventoryKey) else c;
      PauseHandler(afterInventory, pauseKey)
    else
      var afterInventory := if inventoryOption && c.inventoryShown then InventoryHandler(c, inventoryKey) else c;
      if !afterInventory.inventoryShown then PauseHandler(afterInventory, pauseKey) else afterInventory
  }

  /** The intended consistency of the flags: the inventory is only ever shown over a paused game. */
  predicate Consistent(c: Controls) {
    c.inventoryShown ==> c.isPaused
  }

  /**
    From consistent flags a frame keeps them consistent exactly unless both keys are pressed in an
    unpaused frame with the inventory option on: then the inventory opens and the pause key unpauses
    the game under it.
  */
  lemma ConsistentPreserved(c: Controls, inventoryOption: bool, inventoryKey: bool, pauseKey: bool)
    requires Consistent(c)
    ensures Consistent(MenuStep(c, inventoryOption, inventoryKey, pauseKey))
            <==> !(!c.isPaused && inventoryOption && inventoryKey && pauseKey)
  {
  }

  /** The broken state reached from the initial flags by pressing both keys at once. */
  lemma BothKeysBreakConsistency()
    ensures var r := MenuStep(Controls(false, false, 1.0, true, []), true, true, true);
            r.inventoryShown && !r.isPaused && r.timeScale == 1.0
            && r.events == [GamePlayScreenShown, InventoryScreenShown, GamePlayScreenShown]
  {
  }

  /** With at most one key per frame, the flags stay consistent along any sequence of frames. */
  lemma {:induction false} ConsistentAlongFrames(c: Controls, inventoryOption: bool, keys: seq<(bool, bool)>)
    requires Consistent(c)
    requires forall i :: 0 <= i < |keys| ==> !(keys[i].0 && keys[i].1)
    ensures Consistent(Frames(c, inventoryOption, keys))
    decreases |keys|
  {
    if keys != [] {
      ConsistentPreserved(c, inventoryOption, keys[0].0, keys[0].1);
      ConsistentAlongFrames(MenuStep(c, inventoryOption, keys[0].0, keys[0].1), inventoryOption, keys[1..]);
    }
  }

  /** The menu flags after one frame per (inventory key, pause key) pair. */
  function Frames(c: Controls, inventoryOption: bool, keys: seq<(bool, bool)>): Controls
    decreases |keys|
  {
    if keys == [] then c
    else Frames(MenuStep(c, inventoryOption, keys[0].0, keys[0].1), inventoryOption, keys[1..])
  }

  /**
    While the inventory is open over a paused game, the pause key is ignored: without the inventory
    key nothing changes.
  */
  lemma OpenInventoryIgnoresPause(c: Controls, inventoryOption: bool, pauseKey: bool)
    requires c.isPaused && c.inventoryShown
    ensures MenuStep(c, inventoryOption, false, pauseKey) == c
  {
  }

  /**
    An overlay event is published in a frame only when a key press of that frame left the game
    paused, and the cursor is then released.
  */
  lemma OverlayOnlyWhenPaused(c: Controls, inventoryOption: bool, inventoryKey: bool, pauseKey: bool)
    requires Consistent(c)
    requires !(inventoryKey && pauseKey)
    ensures var r := MenuStep(c, inventoryOption, inventoryKey, pauseKey);
            var published := r.events[|c.events|..];
            && |c.events| <= |r.events| && r.events[..|c.events|] == c.events
            && ((InventoryScreenShown in published || PauseScreenShown in published)
                <==> r.isPaused && !c.isPaused)
            && (InventoryScreenShown in published ==> r.inventoryShown && !r.cursorLocked)
            && (PauseScreenShown in published ==> !r.inventoryShown && !r.cursorLocked)
  {
    var r := MenuStep(c, inventoryOption, inventoryKey, pauseKey);
    var published := r.events[|c.events|..];
    if !c.isPaused {
      if inventoryOption && inventoryKey {
        assert published == [GamePlayScreenShown, InventoryScreenShown];
      } else if pauseKey {
        assert published == [GamePlayScreenShown, PauseScreenShown];
      } else {
        assert published == [];
      }
    } else if inventoryOption && c.inventoryShown && inventoryKey {
      assert published == [GamePlayScreenShown];
    } else if !c.inventoryShown && pauseKey {
      assert published == [GamePlayScreenShown];
    } else {
      assert published == [];
    }
    assert r.events[..|c.events|] == c.events;
  }

  /** Once a key has been handled, the time scale reflects the pause flag, and it keeps doing so. */
  lemma TimeScaleFollowsPause(c: Controls, inventoryOption: bool, inventoryKey: bool, pauseKey: bool)
    requires c.timeScale == ScaleFor(c.isPaused)
    ensures var r := MenuStep(c, inventoryOption, inventoryKey, pauseKey);
            r.timeScale == ScaleFor(r.isPaused) && (r.timeScale == 0.0 <==> r.isPaused)
  {
  }

  /** Mathf.Clamp(value, min, max). */
  function Clamp(value: real, min: real, max: real): (r: real)
    requires min <= max
    ensures min <= r <= max
    ensures min <= value <= max ==> r == value
    ensures forall y :: min <= y <= max ==> Distance(r, value) <= Distance(y, value)
  {
    if value < min then min else if value > max then max else value
  }

  function Distance(a: real, b: real): real {
    if a <= b then b - a else a - b
  }

  /**
    HandleMouseLook's pitch: while the mouse is paused the pitch is untouched; otherwise the vertical
    mouse motion is applied and the result clamped to [-camLimit, camLimit].
  */
  function LookStep(rotationX: real, mouseY: real, pauseMouse: bool, lookSpeed: real, camLimit: real): (r: real)
    requires 0.0 <= camLimit
    ensures pauseMouse ==> r == rotationX
    ensures !pauseMouse ==> -camLimit <= r <= camLimit
    ensures !pauseMouse && -camLimit <= rotationX - mouseY * lookSpeed <= camLimit ==> r == rotationX - mouseY * lookSpeed
  {
    if pauseMouse then rotationX else Clamp(rotationX - mouseY * lookSpeed, -camLimit, camLimit)
  }

  /** A pitch in range stays in range whatever the mouse and pause state. */
  lemma PitchStaysInRange(rotationX: real, mouseY: real, pauseMouse: bool, lookSpeed: real, camLimit: real)
    requires 0.0 <= camLimit && -camLimit <= rotationX <= camLimit
    ensures -camLimit <= LookStep(rotationX, mouseY, pauseMouse, lookSpeed, camLimit) <= camLimit
  {
  }

  class PlayerController {
    var isPaused: bool
    var inventoryShown: bool
    var stop: bool
    var pauseMouse: bool
    var enabled: bool
    var rotationX: real
    /** `Cursor.lockState == Locked` (the cursor is visible exactly when it is not locked). */
    var cursorLocked: bool
    /** The UI events this controller published, in order. */
    var published: seq<Event>
    const time: GameTime
    const inventoryOption: bool
    const lookSpeed: real
    const camLimit: real

    function View(): Controls
      reads this, time
    {
      Controls(isPaused, inventoryShown, time.timeScale, cursorLocked, published)
    }

    /** Field initialisers and Awake: unpaused, nothing shown, cursor locked. */
    constructor (time: GameTime, inventoryOption: bool, lookSpeed: real, camLimit: real)
      requires 1.0 <= lookSpeed <= 10.0 && 1.0 <= camLimit <= 90.0
      ensures this.time == time && this.inventoryOption == inventoryOption
      ensures this.lookSpeed == lookSpeed && this.camLimit == camLimit
      ensures !isPaused && !inventoryShown && !stop && !pauseMouse && enabled
      ensures rotationX == 0.0 && cursorLocked && published == []
      ensures Consistent(View())
    {
      this.time := time;
      this.inventoryOption := inventoryOption;
      this.lookSpeed := lookSpeed;
      this.camLimit := camLimit;
      isPaused := false;
      inventoryShown := false;
      stop := false;
      pauseMouse := false;
      enabled := true;
      rotationX := 0.0;
      cursorLocked := true;
      published := [];
    }

    method HandleShowInventory(inventoryKey: bool)
      modifies this`isPaused, this`inventoryShown, this`cursorLocked, this`published, time
      ensures View() == InventoryHandler(old(View()), inventoryKey)
    {
      var once := false;
      if inventoryKey {
        isPaused := !isPaused;
        inventoryShown := !inventoryShown;
        time.timeScale := if isPaused then 0.0 else 1.0;
        once := true;
        published := published + [GamePlayScreenShown];
        cursorLocked := true;
      }
      if isPaused && once {
        published := published + [InventoryScreenShown];
        cursorLocked := false;
      }
    }

    method HandlePauseGame(pauseKey: bool)
      modifies this`isPaused, this`cursorLocked, this`published, time
      ensures View() == PauseHandler(old(View()), pauseKey)
    {
      var once := false;
      if pauseKey {
        isPaused := !isPaused;
        time.timeScale := if isPaused then 0.0 else 1.0;
        once := true;
        published := published + [GamePlayScreenShown];
        cursorLocked := true;
      }
      if isPaused && once {
        published := published + [PauseScreenShown];
        cursorLocked := false;
      }
    }

    method HandleMouseLook(mouseY: real)
      requires 0.0 <= camLimit
      modifies this`rotationX
      ensures rotationX == LookStep(old(rotationX), mouseY, pauseMouse, lookSpeed, camLimit)
    {
      if !pauseMouse {
        rotationX := rotationX - mouseY * lookSpeed;
        rotationX := Clamp(rotationX, -camLimit, camLimit);
      }
    }

    /**
      Update, as the engine calls it on an enabled controller. A set `stop` disables the controller,
      but the rest of this Update still runs. Unpaused, the pitch follows the mouse and the two menu
      handlers run; paused, only the menu dispatch runs.
    */
    method Update(inventoryKey: bool, pauseKey: bool, mouseY: real)
      requires enabled && 0.0 <= camLimit
      modifies this, time
      ensures enabled == !old(stop)
      ensures View() == MenuStep(old(View()), inventoryOption, inventoryKey, pauseKey)
      ensures rotationX == if old(isPaused) then old(rotationX)
                           else LookStep(old(rotationX), mouseY, pauseMouse, lookSpeed, camLimit)
      ensures stop == old(stop) && pauseMouse == old(pauseMouse)
    {
      if stop {
        enabled := false;
      }
      if !isPaused {
        HandleMouseLook(mouseY);
        if inventoryOption {
          HandleShowInventory(inventoryKey);
        }
        HandlePauseGame(pauseKey);
      } else {
        if inventoryOption && inventoryShown {
          HandleShowInventory(inventoryKey);
        }
        if !inventoryShown {
          HandlePauseGame(pauseKey);
        }
      }
    }

    /** GameEvents.noteShown: a shown note freezes the mouse look. */
    method NoteShown(val: bool)
      modifies this`pauseMouse
      ensures pauseMouse == val
    {
      pauseMouse := val;
    }

    /** GameEvents.GameMonesterFoundMe: being found freezes the mouse look and stops the controller. */
    method GameMonsterFoundMe(val: bool)
      modifies this`pauseMouse, this`stop
      ensures pauseMouse == val && stop == val
    {
      pauseMouse := val;
      stop := val;
    }
  }

  /** Once the monster has found the player, the next Update leaves the controller disabled. */
  method FoundThenUpdate(p: PlayerController, inventoryKey: bool, pauseKey: bool, mouseY: real)
    requires p.enabled && 0.0 <= p.camLimit
    modifies p, p.time
    ensures !p.enabled && p.stop && p.pauseMouse
    ensures p.rotationX == old(p.rotationX)
  {
    p.GameMonsterFoundMe(true);
    p.Update(inventoryKey, pauseKey, mouseY);
  }
}
