/**
  The EnemyScript component: its fields, updated in place by the engine callbacks, each method
  matching the frame logic function of the same name on the fields' values.
*/
module EnemyComponent {
  import opened Optional
  import opened Events
  import opened Geometry
  import opened EnemyDifficulty
  import opened EnemyPerception
  import opened EnemyRoute
  import opened EnemyLogic
  import opened EnemyProperties

  class EnemyScript {
    var state: State
    var cursor: int
    var reversing: bool
    var lastKnown: Pos
    var lossTimer: real
    var destination: Option<Pos>
    var profile: Profile
    var enabled: bool
    var waiting: bool
    var returnDeadline: Option<real>
    var reloadDeadline: Option<real>
    var clock: real
    var published: seq<Event>
    /** The patrol points, and whether a NavMeshAgent is attached. */
    const scene: Scene

    function View(): Ai
      reads this
    {
      Ai(state, cursor, reversing, lastKnown, lossTimer, destination, profile, enabled, waiting,
         returnDeadline, reloadDeadline, clock, published)
    }

    ghost predicate Valid()
      reads this
    {
      CursorOk(cursor, |scene.points|)
    }

    /**
      Field initialisers and Start: announce that the player is not found, then apply the difficulty
      label under the stored pointer; a pointer outside the label array would throw there.
    */
    constructor (points: seq<Pos>, hasAgent: bool, difficultyPointer: int)
      requires 0 <= difficultyPointer < |DifficultyLabels|
      ensures Valid() && scene == Scene(points, hasAgent)
      ensures View() == Initial(ProfileFor(DifficultyLabels[difficultyPointer]).value)
      ensures Inv(View(), scene)
    {
      scene := Scene(points, hasAgent);
      state := Patrolling;
      cursor := 0;
      reversing := false;
      lastKnown := Zero;
      lossTimer := 0.0;
      destination := None;
      profile := InspectorDefaults;
      enabled := true;
      waiting := false;
      returnDeadline := None;
      reloadDeadline := None;
      clock := 0.0;
      published := [];
      new;
      published := published + [GameMonsterFoundMe(false)];
      SettingsLabelsSelectProfiles();
      SetDifficultyLevel(DifficultyLabels[difficultyPointer]);
      assert View() == Initial(profile);
      InitialInv(profile, scene);
    }

    /** SetDifficultyLevel: the table's profile for a known label; an unknown one changes nothing. */
    method SetDifficultyLevel(level: string)
      modifies this`profile
      ensures ProfileFor(level).Some? ==> profile == ProfileFor(level).value
      ensures ProfileFor(level).None? ==> profile == old(profile)
    {
      if level == "Easy" {
        profile := Profile(5, 10, 15, 45, 5);
      } else if level == "Medium" {
        profile := Profile(10, 20, 30, 60, 10);
      } else if level == "Hard" {
        profile := Profile(15, 30, 45, 75, 15);
      }
    }

    method Patrol(enemy: Pos)
      requires Valid()
      modifies this
      ensures Valid() && View() == PatrolFn(old(View()), scene, enemy)
    {
      var points := scene.points;
      if |points| == 0 || !scene.hasAgent {
        return;
      }
      if Within(points[cursor], enemy, WaypointReach) {
        if reversing {
          cursor := cursor - 1;
          if cursor <= 0 {
            reversing := false;
            cursor := 0;
          }
        } else {
          cursor := cursor + 1;
          if cursor >= |points| - 1 {
            reversing := true;
            cursor := |points| - 1;
          }
        }
      }
      destination := Some(points[cursor]);
    }

    method CheckTheNearestPoints()
      requires Valid()
      modifies this
      ensures Valid() && View() == NearestFn(old(View()), scene)
    {
      if |scene.points| == 0 {
        return;
      }
      cursor := Nearest(scene.points, lastKnown);
      lastKnown := scene.points[cursor];
      state := Patrolling;
    }

    method ChasePlayer(inp: Inputs) returns (ok: bool)
      requires Valid()
      modifies this
      ensures Valid()
      ensures ok <==> ChaseFn(old(View()), scene, inp).Completed?
      ensures View() == ChaseFn(old(View()), scene, inp).ai
    {
      if !Within(inp.enemy, inp.player, profile.chaseRange) && !Visible(profile, inp.chaseSight) {
        if lastKnown == Zero {
          state := Patrolling;
        } else {
          CheckTheNearestPoints();
        }
        lossTimer := 0.0;
      } else {
        if !scene.hasAgent {
          return false;
        }
        destination := Some(inp.player);
        lastKnown := inp.player;
      }
      ok := true;
    }

    method InvestigateSound(inp: Inputs) returns (ok: bool)
      requires Valid()
      modifies this
      ensures Valid()
      ensures ok <==> InvestigateFn(old(View()), scene, inp).Completed?
      ensures View() == InvestigateFn(old(View()), scene, inp).ai
    {
      if !scene.hasAgent {
        return false;
      }
      destination := Some(lastKnown);
      if Within(inp.enemy, lastKnown, InvestigateReach) {
        state := Patrolling;
      }
      ok := true;
    }

    method ReturnToPatrol(inp: Inputs) returns (ok: bool)
      requires Valid()
      modifies this
      ensures Valid()
      ensures ok <==> ReturnFn(old(View()), scene, inp).Completed?
      ensures View() == ReturnFn(old(View()), scene, inp).ai
    {
      CheckTheNearestPoints();
      if |scene.points| == 0 || !scene.hasAgent {
        return false;
      }
      destination := Some(scene.points[cursor]);
      if !inp.pathPending && inp.remainingDistance < 0.5 {
        state := Patrolling;
      }
      ok := true;
    }

    method Attack()
      modifies this
      ensures View() == AttackFn(old(View()))
    {
      published := published + [GameMonsterFoundMe(true), LoseScreenShown, GameLost];
      enabled := false;
      reloadDeadline := Some(clock + ReloadWait);
    }

    /** The switch at the head of HandleState. */
    method Behave(inp: Inputs) returns (ok: bool)
      requires Valid()
      modifies this
      ensures Valid()
      ensures ok <==> BehaviourFn(old(View()), scene, inp).Completed?
      ensures View() == BehaviourFn(old(View()), scene, inp).ai
    {
      ok := true;
      match state {
        case Patrolling => Patrol(inp.enemy);
        case Chasing => ok := ChasePlayer(inp);
        case InvestigatingSound => ok := InvestigateSound(inp);
        case ReturningToPatrol => ok := ReturnToPatrol(inp);
        case Attacking => Attack();
      }
    }

    /** HandleState's vision check and loss timer. */
    method Perceive(inp: Inputs)
      modifies this
      ensures View() == PerceiveFn(old(View()), inp)
    {
      if Visible(profile, inp.stateSight) {
        state := Chasing;
        lastKnown := inp.player;
        lossTimer := 0.0;
      } else if state == Chasing {
        lossTimer := lossTimer + inp.deltaTime;
        if lossTimer >= TimeToLosePlayer {
          state := ReturningToPatrol;
          lossTimer := 0.0;
        }
      }
    }

    /** HandleState's background patrol and attack check. */
    method Finish(inp: Inputs)
      requires Valid()
      modifies this
      ensures Valid() && View() == FinishFn(old(View()), scene, inp)
    {
      if state != Chasing && state != InvestigatingSound {
        Patrol(inp.enemy);
      }
      if Within(inp.enemy, inp.player, AttackRange) && state == Chasing {
        state := Attacking;
      }
    }

    method HandleState(inp: Inputs) returns (ok: bool)
      requires Valid()
      modifies this
      ensures Valid()
      ensures ok <==> HandleStateFn(old(View()), scene, inp).Completed?
      ensures View() == HandleStateFn(old(View()), scene, inp).ai
    {
      ok := Behave(inp);
      if !ok {
        return;
      }
      Perceive(inp);
      Finish(inp);
    }

    method Update(inp: Inputs) returns (ok: bool)
      requires Valid()
      modifies this
      ensures Valid()
      ensures ok <==> UpdateFn(old(View()), scene, inp).Completed?
      ensures View() == UpdateFn(old(View()), scene, inp).ai
    {
      ok := HandleState(inp);
      if !ok {
        return;
      }
      if state == ReturningToPatrol && !waiting {
        waiting := true;
        returnDeadline := Some(clock + ReturnWait);
      }
    }

    /** The engine resumes the coroutines that are due, after the frame's Update. */
    method ResumeCoroutines()
      modifies this
      ensures View() == CoroutinesFn(old(View()))
    {
      ghost var before := View();
      if returnDeadline.Some? && returnDeadline.value <= clock {
        state := Patrolling;
        waiting := false;
        returnDeadline := None;
      }
      assert View() == if before.returnDeadline.Some? && before.returnDeadline.value <= before.clock
                       then before.(state := Patrolling, waiting := false, returnDeadline := None)
                       else before;
      if reloadDeadline.Some? && reloadDeadline.value <= clock {
        published := published + [GamePlayScreenShown, LastSceneUnloaded, SceneIndexLoaded(ReloadedScene)];
        reloadDeadline := None;
      }
    }

    /** The engine calls Update only on an enabled component. */
    method UpdateIfEnabled(inp: Inputs)
      requires Valid()
      modifies this
      ensures Valid()
      ensures View() == if old(enabled) then UpdateFn(old(View()), scene, inp).ai else old(View())
    {
      if enabled {
        var _ := Update(inp);
      }
    }

    /** One engine frame: time advances, Update runs on an enabled enemy, coroutines resume. */
    method Frame(inp: Inputs)
      requires Valid()
      modifies this
      ensures Valid() && View() == FrameFn(old(View()), scene, inp)
      ensures old(Inv(View(), scene)) && 0.0 <= inp.deltaTime ==> Inv(View(), scene)
    {
      clock := clock + inp.deltaTime;
      ghost var ticked := View();
      UpdateIfEnabled(inp);
      ghost var updated := View();
      ResumeCoroutines();
      FrameSteps(old(View()), scene, inp, ticked, updated);
      if old(Inv(View(), scene)) && 0.0 <= inp.deltaTime {
        FrameInv(old(View()), scene, inp);
      }
    }
  }
}
