# Invasion of the Unknown — game logic model

This project models the gameplay logic of the Unity horror game *Invasion of the Unknown* (IOTU) in Dafny, and proves properties of that model.

- **Enemy AI (`EnemyScript`).** A five-state machine: Patrolling, Chasing, InvestigatingSound, ReturningToPatrol and Attacking.
  - Each frame the enemy runs the behaviour of its state, then checks its vision cone and its loss timer.
  - It patrols in the background, and attacks a player it is chasing once the player is in range.
  - Two coroutines may resume after Update: a 5-second return timer and a 5-second scene reload after the attack.
- **UI manager.** One current screen, a history stack, and the list of registered screens. Each UI event shows one screen.
- **Video options screen.** A cyclic resolution pointer (five resolutions) and a cyclic difficulty pointer (three levels), each with its label.
- **Player controller.** The pause/inventory flag machine, the time scale, the cursor lock, the clamped camera pitch, and the freeze when the monster finds the player.
- **Smaller components:**
  - the inventory list (add, and remove the first occurrence);
  - the house level's key-to-note mapping;
  - the door and note toggles;
  - the house trigger that swaps three active flags.

How the model is built:
- Components whose fields the game updates in place are Dafny classes.
  - Each method's `ensures` ties the new state to a specification function of the old state, or states the new fields outright.
  - The properties are lemmas about those functions.
- Engine inputs are parameters:
  - positions are integer triples, compared by squared distance;
  - `Time.deltaTime` is a frame input;
  - a vision sample is an angle plus the first collider a ray hits;
  - the NavMesh agent is a recorded destination plus its path-status values for the frame;
  - a key press is a boolean;
  - `Random.Range` is its result.
- An exception thrown by the game code is an `ok = false` / `Threw` outcome that carries the state changed so far, because Unity aborts only the callback that threw.

## How the code behaves, where a reader might expect otherwise

These follow from the code as written. The model keeps them.

- **ReturnToPatrol never uses the path status.** `ReturnToPatrol`'s test of `pathPending` and `remainingDistance` has no effect, because the nearest-point search has already set Patrolling whenever the route is non-empty (`EnemyProperties.ReturnIgnoresNavigation`).
- **An empty route throws while returning.** With an empty route, ReturnToPatrol throws on the route lookup in every Update. The enemy stays in ReturningToPatrol until its pending 5-second return timer forces Patrolling (`EnemyProperties.EmptyRouteReturnThrows`). The throw is not a silent no-op.
- **A stale return timer can cancel a chase or an attack.** The return timer is armed once and never cancelled. When it comes due it forces Patrolling even after the enemy has started a new chase, and even on the frame in which HandleState switched to Attacking. The attack is then dropped (`EnemyProperties.ReturnTimerForcesPatrol`, `EnemyProperties.CaughtButTimerFires`).
- **Attack publishes three events, and HandleState goes on.** `Attack` publishes the found, lose-screen and game-lost events, then disables the enemy. The rest of that HandleState still runs.
- **InvestigatingSound is unreachable.** No transition leads to it. Its behaviour is modelled, and the invariant proves the state never occurs.
- **Both menu keys in one unpaused frame break the flags.** The inventory opens and the pause key immediately unpauses the game underneath (`Player.ConsistentPreserved`, `Player.BothKeysBreakConsistency`).
- **Pause, inventory and lose pop the history.** These three screens each pop one history entry, and `Stack.Pop` on an empty history throws after the screen is already shown. Resuming from pause pushes the pause screen (`UserInterface.PauseAndResume`).

## Model

| member | source | states |
|---|---|---|
| EnemyRoute.Advance | IOTU/Assets/Scripts/AI/EnemyScript.cs:167-187 | a patrol step keeps the cursor inside the route `[0, n)` |
| EnemyRoute.PingPongCycle | IOTU/Assets/Scripts/AI/EnemyScript.cs:167-187 | on a route of at least two points, the cursor visits every index in order, and is back at index 0 heading forward after `2(n-1)` steps |
| EnemyRoute.SinglePointRoute | IOTU/Assets/Scripts/AI/EnemyScript.cs:170-187 | on a one-point route the cursor stays at 0 and only flips its direction |
| EnemyRoute.WalkForward | IOTU/Assets/Scripts/AI/EnemyScript.cs:179-187 | moving forward, the cursor counts up by one per step and clamps at the last point, setting `reversing` |
| EnemyRoute.WalkBackward | IOTU/Assets/Scripts/AI/EnemyScript.cs:170-178 | moving back, the cursor counts down by one per step and clamps at 0, clearing `reversing` |
| EnemyRoute.Nearest | IOTU/Assets/Scripts/AI/EnemyScript.cs:257-260 | the index is a closest waypoint to the target, and every earlier waypoint is strictly farther (the first closest one, as a stable `OrderBy` + `First` picks) |
| EnemyRoute.NearestUnique | IOTU/Assets/Scripts/AI/EnemyScript.cs:257-260 | any index that is closest and has every earlier waypoint strictly farther is the one `Nearest` finds |
| EnemyRoute.NearestOfWaypoint | IOTU/Assets/Scripts/AI/EnemyScript.cs:257-262 | searching from a waypoint's own position finds that waypoint's first occurrence |
| EnemyLogic.PatrolFn | IOTU/Assets/Scripts/AI/EnemyScript.cs:159-193 | nothing changes without a route or an agent; otherwise the cursor advances only within 2 units of its waypoint, the destination is the waypoint at the updated cursor, and no other field changes |
| EnemyLogic.NearestFn | IOTU/Assets/Scripts/AI/EnemyScript.cs:249-264 | an empty route changes nothing; otherwise the cursor is the first waypoint closest to the last known position, that waypoint becomes the last known position, and the state is Patrolling |
| EnemyLogic.ChaseFn | IOTU/Assets/Scripts/AI/EnemyScript.cs:196-216 | throws exactly when the player is in chase range or seen and there is no agent; only the state, cursor, last known position, loss timer and destination can change, and the state after is the old one or Patrolling |
| EnemyLogic.InvestigateFn | IOTU/Assets/Scripts/AI/EnemyScript.cs:219-228 | throws exactly without an agent; otherwise heads for the last known position, and patrols again within 1 unit of it |
| EnemyLogic.ReturnFn | IOTU/Assets/Scripts/AI/EnemyScript.cs:231-239 | throws exactly on an empty route or without an agent, after the nearest-point search; otherwise it adds a destination at the nearest waypoint to the search's result; the state after is the old one or Patrolling |
| EnemyLogic.AttackFn | IOTU/Assets/Scripts/AI/EnemyScript.cs:308-316 | publishes found(true), lose screen and game lost, disables the enemy, and schedules the reload 5 s ahead; nothing else changes |
| EnemyLogic.BehaviourFn | IOTU/Assets/Scripts/AI/EnemyScript.cs:91-108 | the attack state runs Attack; any other state changes only the movement and chase fields, and never enters Attacking |
| EnemyLogic.PerceiveFn | IOTU/Assets/Scripts/AI/EnemyScript.cs:110-125 | the vision check changes only the state, the last known position and the loss timer, and leaves the state as it was, Chasing or ReturningToPatrol |
| EnemyLogic.FinishFn | IOTU/Assets/Scripts/AI/EnemyScript.cs:127-137 | the state becomes Attacking exactly when chasing with the player within 2 units, and is otherwise unchanged; only the state and the patrol fields change |
| EnemyLogic.HandleStateFn | IOTU/Assets/Scripts/AI/EnemyScript.cs:89-138 | the cursor stays valid through a whole state update |
| EnemyLogic.UpdateFn | IOTU/Assets/Scripts/AI/EnemyScript.cs:78-86 | the cursor stays valid through Update, and Update does not move the clock |
| EnemyLogic.CoroutinesFn | IOTU/Assets/Scripts/AI/EnemyScript.cs:267-273 | the due coroutines change only the state, the waiting flag, the two deadlines and the published events |
| EnemyLogic.FrameFn | IOTU/Assets/Scripts/AI/EnemyScript.cs:78-86 | the cursor stays valid through a frame |
| EnemyDifficulty.ProfileFor | IOTU/Assets/Scripts/AI/EnemyScript.cs:276-305 | a label selects a profile exactly when it is "Easy", "Medium" or "Hard" |
| EnemyDifficulty.DifficultyTable | IOTU/Assets/Scripts/AI/EnemyScript.cs:276-305 | pointers 0, 1, 2 select Easy 5/10/15/45/5, Medium 10/20/30/60/10 and Hard 15/30/45/75/15; every field grows strictly with the difficulty; the inspector defaults equal Medium |
| EnemyDifficulty.LabelsAreCaseSensitive | IOTU/Assets/Scripts/AI/EnemyScript.cs:278-303 | labels differing only in case, and the empty label, select nothing |
| EnemyDifficulty.SettingsLabelsSelectProfiles | IOTU/Assets/Scripts/AI/EnemyScript.cs:54-74 | the settings screen's difficulty labels are the enemy's labels, so every pointer it stores selects a profile |
| EnemyPerception.VisionMonotone | IOTU/Assets/Scripts/AI/EnemyScript.cs:141-156 | a cone at least as wide and at least as long sees whatever a smaller one sees |
| EnemyPerception.HarderSeesMore | IOTU/Assets/Scripts/AI/EnemyScript.cs:284-299 | Easy sight implies Medium sight, Medium implies Hard, and a player at 35° and 12 units is seen only by Hard |
| EnemyPerception.OccludedIsUnseen | IOTU/Assets/Scripts/AI/EnemyScript.cs:147-153 | a ray that first hits another collider, or hits nothing within range, does not see the player |
| EnemyPerception.Visible | IOTU/Assets/Scripts/AI/EnemyScript.cs:141-156 | the player is seen only when the angle is at most half the vision angle and the first collider the ray hits, within the vision distance, is the player; no hit, or another collider first, means unseen |
| EnemyProperties.InitialInv | IOTU/Assets/Scripts/AI/EnemyScript.cs:45-75 | the state after Start satisfies the frame invariant |
| EnemyProperties.UpdateInv | IOTU/Assets/Scripts/AI/EnemyScript.cs:78-86 | an Update of an enabled enemy keeps the invariant, whether it completes or throws |
| EnemyProperties.CoroutinesInv | IOTU/Assets/Scripts/AI/EnemyScript.cs:267-273 | resuming the due coroutines keeps the invariant |
| EnemyProperties.FrameInv | IOTU/Assets/Scripts/AI/EnemyScript.cs:78-86 | every frame with a non-negative deltaTime keeps the invariant. The invariant: valid cursor; never investigating; waiting exactly while a return timer is pending, and always while returning; loss timer in `[0, 5)`; found(true) published once if disabled, never if enabled; scene 2 loaded at most once, and only after the reload fired |
| EnemyProperties.RunInv | IOTU/Assets/Scripts/AI/EnemyScript.cs:78-138 | the invariant holds after any sequence of frames |
| EnemyProperties.AttackAtMostOnce | IOTU/Assets/Scripts/AI/EnemyScript.cs:308-316 | from Start, the enemy publishes found(true) at most once, exactly when it has been disabled, and never investigates |
| EnemyProperties.PerceptionWins | IOTU/Assets/Scripts/AI/EnemyScript.cs:111-116 | seeing the player, after a behaviour that completed, ends the state update chasing from the player's position with the timer at 0, or attacking when in range, whatever the state before |
| EnemyProperties.LossTimer | IOTU/Assets/Scripts/AI/EnemyScript.cs:117-125 | in an unseen chase the timer grows by deltaTime; on reaching 5 s the enemy returns to patrol with the timer at 0 |
| EnemyProperties.FarAndUnseenEndsChase | IOTU/Assets/Scripts/AI/EnemyScript.cs:198-209 | a player beyond chase range and unseen ends the chase at once (Patrolling, timer 0), except with a recorded position on an empty route, where the search cannot run and the timer restarts |
| EnemyProperties.AttackEntry | IOTU/Assets/Scripts/AI/EnemyScript.cs:134-137 | the attack state is entered only with the player within attack range |
| EnemyProperties.DisabledFrame | IOTU/Assets/Scripts/AI/EnemyScript.cs:314-316 | a disabled enemy's frame only advances time and resumes due coroutines |
| EnemyProperties.ReturnIgnoresNavigation | IOTU/Assets/Scripts/AI/EnemyScript.cs:231-239 | ReturnToPatrol's result does not depend on the path status; a completed return is always Patrolling |
| EnemyProperties.EmptyRouteReturnThrows | IOTU/Assets/Scripts/AI/EnemyScript.cs:233-234 | returning on an empty route throws in Update and changes nothing, while the return timer is pending |
| EnemyProperties.TimerNotRearmed | IOTU/Assets/Scripts/AI/EnemyScript.cs:82-85 | while a return timer is pending, Update neither starts another nor moves its deadline |
| EnemyProperties.ReturnTimerForcesPatrol | IOTU/Assets/Scripts/AI/EnemyScript.cs:267-273 | a return timer due in the frame leaves the enemy Patrolling and not waiting, whatever Update did |
| EnemyProperties.CaughtButTimerFires | IOTU/Assets/Scripts/AI/EnemyScript.cs:267-273 | a concrete frame in which HandleState enters Attacking, but the frame ends Patrolling and still enabled |
| EnemyComponent.EnemyScript.constructor | IOTU/Assets/Scripts/AI/EnemyScript.cs:58-75 | Start publishes found(false) and applies the label under the stored pointer; the result satisfies the invariant |
| EnemyComponent.EnemyScript.SetDifficultyLevel | IOTU/Assets/Scripts/AI/EnemyScript.cs:276-305 | a known label sets its table profile; an unknown label leaves the profile unchanged |
| EnemyComponent.EnemyScript.Patrol | IOTU/Assets/Scripts/AI/EnemyScript.cs:159-193 | the fields after the call are `PatrolFn` of the fields before |
| EnemyComponent.EnemyScript.CheckTheNearestPoints | IOTU/Assets/Scripts/AI/EnemyScript.cs:249-264 | the fields after are `NearestFn` of the fields before |
| EnemyComponent.EnemyScript.ChasePlayer | IOTU/Assets/Scripts/AI/EnemyScript.cs:196-216 | the fields and `ok` are `ChaseFn` of the fields before |
| EnemyComponent.EnemyScript.InvestigateSound | IOTU/Assets/Scripts/AI/EnemyScript.cs:219-228 | the fields and `ok` are `InvestigateFn` of the fields before |
| EnemyComponent.EnemyScript.ReturnToPatrol | IOTU/Assets/Scripts/AI/EnemyScript.cs:231-239 | the fields and `ok` are `ReturnFn` of the fields before |
| EnemyComponent.EnemyScript.Attack | IOTU/Assets/Scripts/AI/EnemyScript.cs:308-322 | the fields after are `AttackFn` of the fields before |
| EnemyComponent.EnemyScript.Behave | IOTU/Assets/Scripts/AI/EnemyScript.cs:91-108 | the fields and `ok` are `BehaviourFn` of the fields before |
| EnemyComponent.EnemyScript.Perceive | IOTU/Assets/Scripts/AI/EnemyScript.cs:110-125 | the fields after are `PerceiveFn` of the fields before |
| EnemyComponent.EnemyScript.Finish | IOTU/Assets/Scripts/AI/EnemyScript.cs:127-137 | the fields after are `FinishFn` of the fields before |
| EnemyComponent.EnemyScript.HandleState | IOTU/Assets/Scripts/AI/EnemyScript.cs:89-138 | the fields and `ok` are `HandleStateFn` of the fields before |
| EnemyComponent.EnemyScript.Update | IOTU/Assets/Scripts/AI/EnemyScript.cs:78-86 | the fields and `ok` are `UpdateFn` of the fields before |
| EnemyComponent.EnemyScript.ResumeCoroutines | IOTU/Assets/Scripts/AI/EnemyScript.cs:267-273 | the fields after are `CoroutinesFn` of the fields before |
| EnemyComponent.EnemyScript.UpdateIfEnabled | IOTU/Assets/Scripts/AI/EnemyScript.cs:78-80 | Update runs exactly when the component is enabled |
| EnemyComponent.EnemyScript.Frame | IOTU/Assets/Scripts/AI/EnemyScript.cs:78-86 | the fields after are `FrameFn` of the fields before, and the invariant is kept |
| UserInterface.FirstOfType | IOTU/Assets/Scripts/UI/Base/UIManager.cs:252-262 | no result exactly when no screen has the type; otherwise a screen of that type with no earlier screen of it |
| UserInterface.RegisteredLookup | IOTU/Assets/Scripts/UI/Base/UIManager.cs:223-237 | each screen class finds its own registered screen, and the base class finds the splash screen |
| UserInterface.RegisteredAreAll | IOTU/Assets/Scripts/UI/Base/UIManager.cs:241-249 | hiding every registered screen hides every screen |
| UserInterface.UIManager.constructor | IOTU/Assets/Scripts/UI/Base/UIManager.cs:198-220 | after Initialize nothing is shown, the history is empty and there is no current screen |
| UserInterface.UIManager.HideScreens | IOTU/Assets/Scripts/UI/Base/UIManager.cs:241-249 | the history is empty and every registered screen is hidden |
| UserInterface.UIManager.Show | IOTU/Assets/Scripts/UI/Base/UIManager.cs:279-297 | a null screen changes nothing; otherwise the old screen is hidden and pushed iff it exists and `keepInHistory` holds, and the new screen is shown and current |
| UserInterface.UIManager.GetScreen | IOTU/Assets/Scripts/UI/Base/UIManager.cs:252-262 | the loop returns the first registered screen of the type, or null |
| UserInterface.UIManager.ShowOfType | IOTU/Assets/Scripts/UI/Base/UIManager.cs:266-276 | shows the first registered screen of the type as `Show` would; without one nothing changes |
| UserInterface.UIManager.SplashScreenShown | IOTU/Assets/Scripts/UI/Base/UIManager.cs:121-124 | the splash screen becomes current; the history is unchanged |
| UserInterface.UIManager.PreloadCompleted | IOTU/Assets/Scripts/UI/Base/UIManager.cs:128-131 | the start screen becomes current; the history is unchanged |
| UserInterface.UIManager.FirstMainMenuScreenShown | IOTU/Assets/Scripts/UI/Base/UIManager.cs:135-142 | the first main menu is the current and only shown screen, and the whole history |
| UserInterface.UIManager.MainMenuScreenShown | IOTU/Assets/Scripts/UI/Base/UIManager.cs:143-150 | the main menu is the current and only shown screen, and the whole history |
| UserInterface.UIManager.AudioOptionsScreenShown | IOTU/Assets/Scripts/UI/Base/UIManager.cs:152-155 | audio options become current without a push |
| UserInterface.UIManager.VideoOptionsScreenShown | IOTU/Assets/Scripts/UI/Base/UIManager.cs:157-160 | video options become current without a push |
| UserInterface.UIManager.GamePlayScreenShown | IOTU/Assets/Scripts/UI/Base/UIManager.cs:162-166 | game play becomes current, and the previous screen is pushed |
| UserInterface.UIManager.ShowOverlayAndPop | IOTU/Assets/Scripts/UI/Base/UIManager.cs:167-183 | the overlay becomes current without a push; then one entry is popped, or on an empty history the pop throws (`ok` false) |
| UserInterface.UIManager.PauseScreenShown | IOTU/Assets/Scripts/UI/Base/UIManager.cs:167-171 | the pause screen, shown and then popped as above |
| UserInterface.UIManager.InventoryScreenShown | IOTU/Assets/Scripts/UI/Base/UIManager.cs:173-177 | the inventory screen, shown and then popped as above |
| UserInterface.UIManager.LoseScreenShown | IOTU/Assets/Scripts/UI/Base/UIManager.cs:179-183 | the lose screen, shown and then popped as above |
| UserInterface.UIManager.ScreenClosed | IOTU/Assets/Scripts/UI/Base/UIManager.cs:186-192 | the top of the history becomes current without being popped; on an empty history nothing happens |
| UserInterface.OptionsAndBack | IOTU/Assets/Scripts/UI/Base/UIManager.cs:143-192 | main menu, then options, then close: back on the main menu with history `[main menu]` |
| UserInterface.PauseAndResume | IOTU/Assets/Scripts/UI/Base/UIManager.cs:143-171 | main menu, game play, pause, game play: the history is `[main menu, pause]` |
| VideoOptions.StepsAreCyclic | IOTU/Assets/Scripts/UI/Screens/VideoOptionsScreens.cs:121-134 | on a valid pointer, right is `(p+1) mod n` and left is `(p+n-1) mod n`, both in range |
| VideoOptions.StepRight | IOTU/Assets/Scripts/UI/Screens/VideoOptionsScreens.cs:121-122 | the right button never goes past the last index, gives a non-negative pointer from any pointer down to -1, and lands on 0 exactly from the last index (or beyond it) or from -1 |
| VideoOptions.StepLeft | IOTU/Assets/Scripts/UI/Screens/VideoOptionsScreens.cs:133-134 | the left button never goes below 0, stays within the last index from any pointer up to one past it, and lands on the last index exactly from 0 (or below it) or from one past the last index |
| VideoOptions.LeftRightInverse | IOTU/Assets/Scripts/UI/Screens/VideoOptionsScreens.cs:121-134 | left undoes right and right undoes left |
| VideoOptions.RightPressesCountUp | IOTU/Assets/Scripts/UI/Screens/VideoOptionsScreens.cs:121-122 | right presses that do not pass the last index count up by one each |
| VideoOptions.LeftPressesCountDown | IOTU/Assets/Scripts/UI/Screens/VideoOptionsScreens.cs:133-134 | left presses that do not pass 0 count down by one each |
| VideoOptions.FullTurnRestores | IOTU/Assets/Scripts/UI/Screens/VideoOptionsScreens.cs:121-156 | `n` presses in either direction bring an `n`-option pointer back to its start |
| VideoOptions.FivePressesRestoreResolution | IOTU/Assets/Scripts/UI/Screens/VideoOptionsScreens.cs:121-134 | five right or five left presses restore the resolution pointer |
| VideoOptions.DecimalString | IOTU/Assets/Scripts/UI/Screens/VideoOptionsScreens.cs:125 | the text of a number is a non-empty string of digits |
| VideoOptions.ResolutionLabels | IOTU/Assets/Scripts/UI/Screens/VideoOptionsScreens.cs:24-25 | the label under pointers 0 to 4 is, in order, "1920 x 1080", "1024 x 768", "1280 x 720", "1280 x 960" and "1600 x 1200" |
| VideoOptions.ResolutionLabelsDistinct | IOTU/Assets/Scripts/UI/Screens/VideoOptionsScreens.cs:125 | different resolution pointers show different labels |
| VideoOptions.VideoOptionsScreens.constructor | IOTU/Assets/Scripts/UI/Screens/VideoOptionsScreens.cs:35-43 | both pointers start at 0, and SettingsInitialized is published |
| VideoOptions.VideoOptionsScreens.RightSwitchResolution | IOTU/Assets/Scripts/UI/Screens/VideoOptionsScreens.cs:119-128 | the pointer steps right with wrap 4→0; from a valid pointer the resolution is applied, labelled and announced with the new pointer; from an out-of-range pointer the array access throws and nothing else changes |
| VideoOptions.VideoOptionsScreens.LeftSwitchResolution | IOTU/Assets/Scripts/UI/Screens/VideoOptionsScreens.cs:131-140 | the same, stepping left with wrap 0→4 |
| VideoOptions.VideoOptionsScreens.ApplyResolution | IOTU/Assets/Scripts/UI/Screens/VideoOptionsScreens.cs:124-127 | succeeds exactly for an in-range pointer, then applies, labels and announces that resolution |
| VideoOptions.VideoOptionsScreens.RightSwitchDifficulty | IOTU/Assets/Scripts/UI/Screens/VideoOptionsScreens.cs:143-150 | the difficulty pointer steps right with wrap 2→0; the label is `difficulty[pointerDiff]` and DifficultyChanged carries the new pointer |
| VideoOptions.VideoOptionsScreens.LeftSwitchDifficulty | IOTU/Assets/Scripts/UI/Screens/VideoOptionsScreens.cs:153-160 | the same, stepping left with wrap 0→2 |
| VideoOptions.VideoOptionsScreens.ShowDifficulty | IOTU/Assets/Scripts/UI/Screens/VideoOptionsScreens.cs:148-149 | succeeds exactly for an in-range pointer, then labels and announces it |
| VideoOptions.VideoOptionsScreens.ResolutionSet | IOTU/Assets/Scripts/UI/Screens/VideoOptionsScreens.cs:175-179 | the index is adopted unchecked; the label updates only for an in-range index, and otherwise the access throws |
| VideoOptions.VideoOptionsScreens.DifficultySet | IOTU/Assets/Scripts/UI/Screens/VideoOptionsScreens.cs:182-186 | the same for the difficulty pointer and label |
| Player.InventoryHandler | IOTU/Assets/Scripts/Player/playerController.cs:355-375 | a press toggles both flags; the time scale is 0 iff paused afterwards; the cursor is locked iff unpaused; game play is announced, then the inventory only if now paused; no press changes nothing |
| Player.PauseHandler | IOTU/Assets/Scripts/Player/playerController.cs:378-396 | a press toggles only the pause flag, with the same time-scale, cursor and event rules and the pause overlay |
| Player.MenuStep | IOTU/Assets/Scripts/Player/playerController.cs:192-212 | with no key pressed nothing changes; while the inventory is shown over a paused game only the inventory key acts (the pause key is ignored); unpaused without the inventory option the inventory flag is kept; any change leaves the time scale and the cursor lock following the pause flag; events are only appended |
| Player.ConsistentPreserved | IOTU/Assets/Scripts/Player/playerController.cs:192-212 | from `inventoryShown ⇒ isPaused`, a frame keeps that consistency exactly unless both keys are pressed in an unpaused frame with the inventory option on |
| Player.BothKeysBreakConsistency | IOTU/Assets/Scripts/Player/playerController.cs:192-197 | both keys from the initial state leave the inventory shown over an unpaused game at time scale 1 |
| Player.ConsistentAlongFrames | IOTU/Assets/Scripts/Player/playerController.cs:25-27 | with at most one key per frame, the flags stay consistent along any sequence of frames |
| Player.OpenInventoryIgnoresPause | IOTU/Assets/Scripts/Player/playerController.cs:201-212 | while the inventory is open over a paused game, the pause key alone changes nothing |
| Player.OverlayOnlyWhenPaused | IOTU/Assets/Scripts/Player/playerController.cs:369-374 | a frame announces an overlay exactly when it pauses the game; the inventory overlay leaves the inventory shown, the pause overlay leaves it hidden, and either releases the cursor; earlier events are kept |
| Player.TimeScaleFollowsPause | IOTU/Assets/Scripts/Player/playerController.cs:362-384 | once the time scale reflects the pause flag, every frame keeps it so: 0 exactly while paused |
| Player.Clamp | IOTU/Assets/Scripts/Player/playerController.cs:236 | the result is in `[min, max]`, equals an in-range value, and is the closest point of the range to the value |
| Player.LookStep | IOTU/Assets/Scripts/Player/playerController.cs:229-240 | with the mouse paused the pitch is untouched; otherwise it lies in `[-camLimit, camLimit]`, and equals the unclamped pitch when that is in range |
| Player.PitchStaysInRange | IOTU/Assets/Scripts/Player/playerController.cs:231-236 | a pitch in range stays in range |
| Player.PlayerController.constructor | IOTU/Assets/Scripts/Player/playerController.cs:25-131 | unpaused, nothing shown, not stopped, enabled, pitch 0, cursor locked |
| Player.PlayerController.HandleShowInventory | IOTU/Assets/Scripts/Player/playerController.cs:355-375 | the fields after are `InventoryHandler` of the fields before |
| Player.PlayerController.HandlePauseGame | IOTU/Assets/Scripts/Player/playerController.cs:378-396 | the fields after are `PauseHandler` of the fields before |
| Player.PlayerController.HandleMouseLook | IOTU/Assets/Scripts/Player/playerController.cs:229-240 | the pitch after is `LookStep` of the pitch before |
| Player.PlayerController.Update | IOTU/Assets/Scripts/Player/playerController.cs:147-214 | a set `stop` disables the controller, yet the rest of the Update runs; the menu flags follow `MenuStep`; the pitch moves only when unpaused |
| Player.PlayerController.NoteShown | IOTU/Assets/Scripts/Player/playerController.cs:452-455 | the mouse look is paused exactly while a note is shown |
| Player.PlayerController.GameMonsterFoundMe | IOTU/Assets/Scripts/Player/playerController.cs:457-461 | the event sets both `pauseMouse` and `stop` |
| Player.FoundThenUpdate | IOTU/Assets/Scripts/Player/playerController.cs:159 | once the monster has found the player, the next Update leaves the controller disabled with the pitch unchanged |
| Lists.IndexOf | IOTU/Assets/Scripts/ScriptableObjects/InventorySO.cs:45 | -1 exactly when the item is absent; otherwise the position of its first occurrence |
| Lists.RemoveAt | IOTU/Assets/Scripts/ScriptableObjects/InventorySO.cs:45 | one element shorter; the elements before `i` stay, and those after `i` shift down by one |
| Lists.RemoveAtMultiset | IOTU/Assets/Scripts/ScriptableObjects/InventorySO.cs:45 | removing at a position takes exactly one copy of the element there out of the multiset |
| Lists.RemoveFirstMultiset | IOTU/Assets/Scripts/ScriptableObjects/InventorySO.cs:45 | removing the first occurrence removes exactly one copy of the item |
| Lists.AppendThenRemoveFresh | IOTU/Assets/Scripts/ScriptableObjects/InventorySO.cs:37-46 | adding a new item and removing it restores the list |
| Lists.AppendThenRemoveExisting | IOTU/Assets/Scripts/ScriptableObjects/InventorySO.cs:37-46 | adding an item already present and then removing it takes out the earlier copy |
| Lists.IndexOfPrefix | IOTU/Assets/Scripts/ScriptableObjects/InventorySO.cs:45 | the search stops at the first match, whatever follows |
| Inventory.InventorySO.AddToList | IOTU/Assets/Scripts/ScriptableObjects/InventorySO.cs:37-40 | the item is appended and earlier items stay in place |
| Inventory.InventorySO.RemoveFromList | IOTU/Assets/Scripts/ScriptableObjects/InventorySO.cs:43-46 | succeeds exactly when the item is present, then removes its first occurrence (one copy fewer); an absent item throws and leaves the list unchanged |
| HouseLevel.NoteFor | IOTU/Assets/Scripts/HouseLevel/KeyRandomizer.cs:30-44 | keys 0, 2, 5 map to the first-floor note, keys 1, 3 to the second-floor note, and every other key to the basement note |
| HouseLevel.KeyRandomizer.SpawnRandomKeyWithNote | IOTU/Assets/Scripts/HouseLevel/KeyRandomizer.cs:23-45 | exactly the drawn key is activated, then exactly its note; with no keys, or a note index beyond the notes array, the call throws at that point |
| HouseLevel.EnoughNotesNeverFail | IOTU/Assets/Scripts/HouseLevel/KeyRandomizer.cs:25-44 | with keys and at least three notes, the note index is always valid |
| HouseLevel.Trigger | IOTU/Assets/Scripts/HouseLevel/HouseManager.cs:22-39 | the deactivator and turn-on flags take the old activator value, and the activator is negated |
| HouseLevel.TriggerSettles | IOTU/Assets/Scripts/HouseLevel/HouseManager.cs:25-38 | whatever the starting flags, one trigger settles them (`deactivator == turnOn == !activator`) |
| HouseLevel.TwoTriggersRestore | IOTU/Assets/Scripts/HouseLevel/HouseManager.cs:25-38 | two triggers restore the flags exactly when they were settled |
| HouseLevel.HouseManager.OnTriggerEnter | IOTU/Assets/Scripts/HouseLevel/HouseManager.cs:22-39 | the flags after are `Trigger` of the flags before |
| Interactables.DoorSignal | IOTU/Assets/Scripts/Door/Door.cs:51-58 | DoorOpen is published exactly when the door is now closed, and DoorClose exactly when it is now open |
| Interactables.Door.OnInteract | IOTU/Assets/Scripts/Door/Door.cs:32-60 | when interactable: toggles, sets both animator parameters and publishes the signal of the new state; otherwise nothing changes |
| Interactables.Door.OnFocus | IOTU/Assets/Scripts/Door/Door.cs:64-67 | publishes ShowInteractLabel |
| Interactables.Door.OnLoseFocus | IOTU/Assets/Scripts/Door/Door.cs:70-73 | publishes ShowDot |
| Interactables.InteractTwice | IOTU/Assets/Scripts/Door/Door.cs:32-60 | two interactions restore the door, having published one DoorOpen and one DoorClose |
| Interactables.NoteController.OnInteract | IOTU/Assets/Scripts/InteractionSystem/NoteController.cs:26-48 | toggles `isOpen`; the canvas is active iff open; the time scale is 0 iff open; the text is `noteText` when open and null when closed; noteShown(isOpen) is published, then HideAll or ShowInteractLabel |
| Interactables.NoteController.OnFocus | IOTU/Assets/Scripts/InteractionSystem/NoteController.cs:52-55 | publishes ShowInteractLabel |
| Interactables.NoteController.OnLoseFocus | IOTU/Assets/Scripts/InteractionSystem/NoteController.cs:59-62 | publishes ShowDot |

## Left out

- Physics and animation are not modelled: `Physics.Raycast` for interaction and leaning, `Vector3.Angle`, quaternion `RotateTowards`/`Slerp`, NavMesh path computation, player movement and gravity, head-bob, and the crouch and zoom `Lerp` coroutines. They are float engine numerics. Vision and the agent's path status are frame inputs instead.
- Positions are integer triples, and Unity's single-precision `Vector3.Distance` is compared as an exact squared distance. Float rounding at a distance bound or a tie is not modelled.
- `Time.deltaTime`, key presses, mouse motion and `Random.Range` are parameters.
  - The engine's frame order is taken as given: Update, then due coroutines.
  - Update runs only on an enabled component; coroutines keep running on a disabled one.
- Coroutine plumbing (`StartCoroutine`, `WaitForSeconds`) is modelled as deadlines against a clock that advances by each frame's deltaTime.
- The enemy's scene reload itself is left out; the model stops at the events load_again publishes. The same goes for the UI screens' own contents (each screen is a value with a shown flag), and for the inventory grid placement.
- PlayerPrefs and `Resources.Load` at the enemy's Start are left out. The constructor takes the stored difficulty pointer, and requires it to be in 0..2, because the label array access throws otherwise.
- The player's `CanMove` property is never set to false, so the unpaused branch always runs the handlers; the model has no `CanMove`.
- The player components are independent objects, so the cross-object wiring is not modelled: the events each component publishes are recorded in its own `published` log, and the subscription that delivers them to other components is left out.
- "Ghost Remover Collider" deactivation at the start of the player's Update is a physics raycast and is not modelled.
- The player controller and the note controller share one `GameTime` object, the global time scale; the interaction of their writes is not modelled beyond that sharing.
- `SequenceManager`, `InventoryScreen`, the settings presenter's slider conversions, brightness and audio are not part of this model.
- The screens' `Show`/`Hide` visual styles, and the initial label texts of the video options screen, are not modelled.
- `EnemyLogic.TimeToLosePlayer` and `EnemyLogic.AttackRange`: these constants stand for the inspector fields `timeToLosePlayer` and `attackRange` (EnemyScript.cs:38-39). The model fixes them at their initialisers, 5 seconds and 2 units. The proved bounds hold for those values only: `Inv`'s `lossTimer < 5`, `LossTimer`, `FinishFn` and `AttackEntry`, and `FarAndUnseenEndsChase`'s requirement that `AttackRange <= chaseRange`. A scene that overrides either field in the inspector is not covered.
- Engine diagnostics and float accumulation are not modelled:
  - `SetDifficultyLevel` logs a warning on an unknown label and changes nothing (EnemyScript.cs:301-303). The model changes nothing too, but has no log.
  - Start throws when no object is tagged Player (EnemyScript.cs:71). The model assumes that object is present. The NavMeshAgent (EnemyScript.cs:72) is not assumed: its presence is the `Scene.hasAgent` input. Without an agent, `ChaseFn`, `InvestigateFn` and `ReturnFn` throw, and `PatrolFn` returns unchanged.
  - `timeSinceLostPlayer` adds up single-precision `Time.deltaTime` values (EnemyScript.cs:119-120). The model adds them as exact reals.
- Missing references in the interactables are assumed present, and the model has no throw path for them:
  - the Door's Animator, fetched at Start (Door.cs:27). Without it `OnInteract` throws at Door.cs:47, after `isOpen` was toggled at Door.cs:37 and before any event;
  - `playerController.instance` (Door.cs:41), whose absence throws at the same point, after the toggle and before any event;
  - the note's `noteTextAreaUI` and `noteCanvas` (NoteController.cs:32-33 and 42-43). Without them `OnInteract` throws after the time scale was already written (NoteController.cs:31 and 41), before `isOpen` changes and before any event.
- `HouseLevel.HouseManager.OnTriggerEnter`: the activator, the deactivator and the object to turn on are three independent flags. The three serialized references could name the same object, and that aliasing is not modelled; the proved `Trigger` properties assume three distinct objects.
