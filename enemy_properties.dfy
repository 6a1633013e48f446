/**
  What the enemy's frame logic guarantees: an invariant kept by every frame, and the rules of
  perception, the loss timer, the return timer and the attack.
*/
module EnemyProperties {
  import opened Optional
  import opened Events
  import opened Geometry
  import opened EnemyDifficulty
  import opened EnemyPerception
  import opened EnemyRoute
  import opened EnemyLogic

  /**
    Between frames: the cursor indexes the route; the enemy never investigates (no transition
    leads there); the waiting flag is set exactly while a return timer is pending, and always while
    returning; the loss timer is below TimeToLosePlayer; the enemy has announced finding the player
    once if disabled and never if enabled; a pending reload exists only once disabled; and scene 2
    has been loaded once, after the reload fired, and never before.
  */
  predicate Inv(ai: Ai, scene: Scene) {
    && CursorOk(ai.cursor, |scene.points|)
    && ai.state != InvestigatingSound
    && (ai.waiting <==> ai.returnDeadline.Some?)
    && (ai.state == ReturningToPatrol ==> ai.waiting)
    && 0.0 <= ai.lossTimer < TimeToLosePlayer
    && Occurrences(GameMonsterFoundMe(true), ai.events) == (if ai.enabled then 0 else 1)
    && (ai.enabled ==> ai.reloadDeadline.None?)
    && Occurrences(SceneIndexLoaded(ReloadedScene), ai.events)
       == (if ai.enabled || ai.reloadDeadline.Some? then 0 else 1)
  }

  lemma InitialInv(profile: Profile, scene: Scene)
    ensures Inv(Initial(profile), scene)
  {
  }

  lemma AttackInv(ai: Ai, scene: Scene)
    requires Inv(ai, scene) && ai.enabled
    ensures var r := AttackFn(ai);
            && Occurrences(GameMonsterFoundMe(true), r.events) == 1
            && Occurrences(SceneIndexLoaded(ReloadedScene), r.events) == 0
  {
    var tail := [GameMonsterFoundMe(true), LoseScreenShown, GameLost];
    OccurrencesAppend(GameMonsterFoundMe(true), ai.events, tail);
    OccurrencesAppend(SceneIndexLoaded(ReloadedScene), ai.events, tail);
    assert tail[1..][1..][1..] == [];
  }

  /** Inv without its returning clause, which holds between the steps of HandleState. */
  predicate Between(ai: Ai, scene: Scene) {
    && CursorOk(ai.cursor, |scene.points|)
    && ai.state != InvestigatingSound
    && (ai.waiting <==> ai.returnDeadline.Some?)
    && 0.0 <= ai.lossTimer < TimeToLosePlayer
    && Occurrences(GameMonsterFoundMe(true), ai.events) == (if ai.enabled then 0 else 1)
    && (ai.enabled ==> ai.reloadDeadline.None?)
    && Occurrences(SceneIndexLoaded(ReloadedScene), ai.events)
       == (if ai.enabled || ai.reloadDeadline.Some? then 0 else 1)
  }

  lemma BehaviourInv(ai: Ai, scene: Scene, inp: Inputs)
    requires Inv(ai, scene) && ai.enabled
    ensures Inv(BehaviourFn(ai, scene, inp).ai, scene)
  {
    if ai.state == Attacking {
      AttackInv(ai, scene);
    }
  }

  lemma PerceiveBetween(ai: Ai, scene: Scene, inp: Inputs)
    requires Between(ai, scene) && 0.0 <= inp.deltaTime
    ensures Between(PerceiveFn(ai, inp), scene)
  {
  }

  lemma FinishBetween(ai: Ai, scene: Scene, inp: Inputs)
    requires Between(ai, scene)
    ensures Between(FinishFn(ai, scene, inp), scene)
  {
  }

  /** What Update does after a behaviour that completed: perceive, finish, arm the return timer. */
  lemma AfterBehaviourInv(a: Ai, scene: Scene, inp: Inputs)
    requires Inv(a, scene) && 0.0 <= inp.deltaTime
    ensures var f := FinishFn(PerceiveFn(a, inp), scene, inp);
            Inv(if f.state == ReturningToPatrol && !f.waiting
                then f.(waiting := true, returnDeadline := Some(f.clock + ReturnWait))
                else f, scene)
  {
    PerceiveBetween(a, scene, inp);
    FinishBetween(PerceiveFn(a, inp), scene, inp);
  }

  lemma {:induction false} UpdateInv(ai: Ai, scene: Scene, inp: Inputs)
    requires Inv(ai, scene) && ai.enabled && 0.0 <= inp.deltaTime
    ensures Inv(UpdateFn(ai, scene, inp).ai, scene)
  {
    BehaviourInv(ai, scene, inp);
    var b := BehaviourFn(ai, scene, inp);
    if b.Completed? {
      AfterBehaviourInv(b.ai, scene, inp);
    }
  }

  lemma ReturnTimerInv(ai: Ai, scene: Scene)
    requires Inv(ai, scene)
    ensures Inv(ai.(state := Patrolling, waiting := false, returnDeadline := None), scene)
  {
  }

  lemma ReloadInv(a: Ai, scene: Scene)
    requires Inv(a, scene) && a.reloadDeadline.Some?
    ensures Inv(a.(events := a.events + [GamePlayScreenShown, LastSceneUnloaded, SceneIndexLoaded(ReloadedScene)],
                   reloadDeadline := None), scene)
  {
    var tail := [GamePlayScreenShown, LastSceneUnloaded, SceneIndexLoaded(ReloadedScene)];
    OccurrencesAppend(GameMonsterFoundMe(true), a.events, tail);
    OccurrencesAppend(SceneIndexLoaded(ReloadedScene), a.events, tail);
    OccurrencesOfThree(GameMonsterFoundMe(true), tail[0], tail[1], tail[2]);
    OccurrencesOfThree(SceneIndexLoaded(ReloadedScene), tail[0], tail[1], tail[2]);
  }

  lemma CoroutinesInv(ai: Ai, scene: Scene)
    requires Inv(ai, scene)
    ensures Inv(CoroutinesFn(ai), scene)
  {
    var a :=
      if ai.returnDeadline.Some? && ai.returnDeadline.value <= ai.clock
      then ai.(state := Patrolling, waiting := false, returnDeadline := None)
      else ai;
    ReturnTimerInv(ai, scene);
    if a.reloadDeadline.Some? && a.reloadDeadline.value <= a.clock {
      ReloadInv(a, scene);
    }
  }

  /** Every frame keeps the invariant. */
  lemma FrameInv(ai: Ai, scene: Scene, inp: Inputs)
    requires Inv(ai, scene) && 0.0 <= inp.deltaTime
    ensures Inv(FrameFn(ai, scene, inp), scene)
  {
    var a := Tick(ai, inp.deltaTime);
    assert Inv(a, scene);
    var b := if a.enabled then UpdateFn(a, scene, inp).ai else a;
    if a.enabled {
      UpdateInv(a, scene, inp);
    }
    CoroutinesInv(b, scene);
    FrameSteps(ai, scene, inp, a, b);
  }

  /** The state after a sequence of frames. */
  function Run(ai: Ai, scene: Scene, frames: seq<Inputs>): Ai
    requires CursorOk(ai.cursor, |scene.points|)
    decreases |frames|
  {
    if frames == [] then ai else Run(FrameFn(ai, scene, frames[0]), scene, frames[1..])
  }

  /**
    From the start, whatever the player, the route and the engine do, the enemy announces finding the
    player at most once (exactly once when it has stopped), and never investigates.
  */
  lemma {:induction false} RunInv(ai: Ai, scene: Scene, frames: seq<Inputs>)
    requires Inv(ai, scene)
    requires forall i :: 0 <= i < |frames| ==> 0.0 <= frames[i].deltaTime
    ensures Inv(Run(ai, scene, frames), scene)
    decreases |frames|
  {
    if frames != [] {
      FrameInv(ai, scene, frames[0]);
      RunInv(FrameFn(ai, scene, frames[0]), scene, frames[1..]);
    }
  }

  lemma AttackAtMostOnce(profile: Profile, scene: Scene, frames: seq<Inputs>)
    requires forall i :: 0 <= i < |frames| ==> 0.0 <= frames[i].deltaTime
    ensures var r := Run(Initial(profile), scene, frames);
            && Occurrences(GameMonsterFoundMe(true), r.events) <= 1
            && (Occurrences(GameMonsterFoundMe(true), r.events) == 1 <==> !r.enabled)
            && r.state != InvestigatingSound
  {
    InitialInv(profile, scene);
    RunInv(Initial(profile), scene, frames);
  }

  /**
    Seeing the player in HandleState's sample, after a behaviour that completed, always ends the
    state update chasing from the player's position with the loss timer at 0, or attacking when in
    attack range.
  */
  lemma PerceptionWins(ai: Ai, scene: Scene, inp: Inputs)
    requires CursorOk(ai.cursor, |scene.points|)
    requires BehaviourFn(ai, scene, inp).Completed?
    requires Visible(ai.profile, inp.stateSight)
    ensures var r := HandleStateFn(ai, scene, inp);
            && r.Completed?
            && r.ai.lastKnown == inp.player && r.ai.lossTimer == 0.0
            && r.ai.state == if Within(inp.enemy, inp.player, AttackRange) then Attacking else Chasing
  {
    if ai.state == Attacking {
      assert BehaviourFn(ai, scene, inp).ai.profile == ai.profile;
    }
  }

  /**
    A chase that goes on without sight of the player: the loss timer counts deltaTime, and on the
    frame it reaches TimeToLosePlayer the enemy returns to its patrol with the timer back at 0.
  */
  lemma LossTimer(ai: Ai, scene: Scene, inp: Inputs)
    requires CursorOk(ai.cursor, |scene.points|) && scene.hasAgent
    requires ai.state == Chasing
    requires Within(inp.enemy, inp.player, ai.profile.chaseRange) || Visible(ai.profile, inp.chaseSight)
    requires !Visible(ai.profile, inp.stateSight)
    ensures var r := HandleStateFn(ai, scene, inp);
            var t := ai.lossTimer + inp.deltaTime;
            && r.Completed?
            && r.ai.lastKnown == inp.player
            && (t >= TimeToLosePlayer ==> r.ai.state == ReturningToPatrol && r.ai.lossTimer == 0.0)
            && (t < TimeToLosePlayer ==>
                  && r.ai.lossTimer == t
                  && r.ai.state == if Within(inp.enemy, inp.player, AttackRange) then Attacking else Chasing)
  {
  }

  /**
    A player out of chase range and unseen by both samples ends the chase at once with the timer
    reset: to Patrolling, unless a position was recorded and the route is empty, in which case the
    search cannot run and the loss timer starts anew.
  */
  lemma FarAndUnseenEndsChase(ai: Ai, scene: Scene, inp: Inputs)
    requires CursorOk(ai.cursor, |scene.points|) && 0.0 <= inp.deltaTime < TimeToLosePlayer
    requires ai.state == Chasing && AttackRange <= ai.profile.chaseRange
    requires !Within(inp.enemy, inp.player, ai.profile.chaseRange)
    requires !Visible(ai.profile, inp.chaseSight) && !Visible(ai.profile, inp.stateSight)
    ensures var r := HandleStateFn(ai, scene, inp);
            && r.Completed?
            && (ai.lastKnown == Zero || |scene.points| > 0 ==> r.ai.state == Patrolling && r.ai.lossTimer == 0.0)
            && (ai.lastKnown != Zero && |scene.points| == 0 ==> r.ai.state == Chasing && r.ai.lossTimer == inp.deltaTime)
  {
    WithinMonotone(inp.enemy, inp.player, AttackRange, ai.profile.chaseRange);
  }

  /** The attack state is entered only from a chase with the player in attack range. */
  lemma AttackEntry(ai: Ai, scene: Scene, inp: Inputs)
    requires CursorOk(ai.cursor, |scene.points|)
    requires ai.state != Attacking
    ensures var r := HandleStateFn(ai, scene, inp);
            r.Completed? && r.ai.state == Attacking ==> Within(inp.enemy, inp.player, AttackRange)
  {
  }

  /** Once disabled (after the attack), a frame only advances time and resumes due coroutines. */
  lemma DisabledFrame(ai: Ai, scene: Scene, inp: Inputs)
    requires CursorOk(ai.cursor, |scene.points|) && !ai.enabled
    ensures FrameFn(ai, scene, inp) == CoroutinesFn(Tick(ai, inp.deltaTime))
  {
  }

  /** ReturnToPatrol's arrival test changes nothing: the result ignores the agent's path status. */
  lemma ReturnIgnoresNavigation(ai: Ai, scene: Scene, inp: Inputs, pathPending: bool, remainingDistance: real)
    requires CursorOk(ai.cursor, |scene.points|)
    ensures ReturnFn(ai, scene, inp.(pathPending := pathPending, remainingDistance := remainingDistance))
            == ReturnFn(ai, scene, inp)
    ensures ReturnFn(ai, scene, inp).Completed? ==> ReturnFn(ai, scene, inp).ai.state == Patrolling
  {
  }

  /**
    Returning on an empty route throws in every enemy Update without changing anything, so the
    enemy waits for its return timer, which is pending.
  */
  lemma EmptyRouteReturnThrows(ai: Ai, scene: Scene, inp: Inputs)
    requires Inv(ai, scene) && |scene.points| == 0
    requires ai.state == ReturningToPatrol
    ensures UpdateFn(ai, scene, inp) == Threw(ai)
    ensures ai.returnDeadline.Some?
  {
  }

  /** While a return timer is pending, Update does not start another or move it. */
  lemma TimerNotRearmed(ai: Ai, scene: Scene, inp: Inputs)
    requires CursorOk(ai.cursor, |scene.points|) && ai.waiting
    ensures UpdateFn(ai, scene, inp).ai.waiting
    ensures UpdateFn(ai, scene, inp).ai.returnDeadline == ai.returnDeadline
  {
  }

  /**
    A return timer that comes due forces Patrolling at the end of the frame, whatever Update decided,
    so a chase or an attack begun since the timer started is dropped.
  */
  lemma ReturnTimerForcesPatrol(ai: Ai, scene: Scene, inp: Inputs)
    requires CursorOk(ai.cursor, |scene.points|)
    requires ai.returnDeadline.Some? && ai.returnDeadline.value <= ai.clock + inp.deltaTime
    requires ai.waiting
    ensures FrameFn(ai, scene, inp).state == Patrolling
    ensures !FrameFn(ai, scene, inp).waiting
  {
    var a := Tick(ai, inp.deltaTime);
    var b := if a.enabled then UpdateFn(a, scene, inp).ai else a;
    if a.enabled {
      TimerNotRearmed(a, scene, inp);
    }
    FrameSteps(ai, scene, inp, a, b);
  }

  /** A concrete case: caught in range on the very frame the return timer fires, the enemy patrols. */
  lemma CaughtButTimerFires(scene: Scene)
    requires |scene.points| > 0 && scene.hasAgent
    ensures
      var ai := Initial(Medium).(state := Chasing, waiting := true, returnDeadline := Some(5.0),
                                 lastKnown := Pos(1, 0, 0), clock := 4.9);
      var inp := Inputs(Zero, Pos(1, 0, 0), 0.1, Sight(0.0, Hit(true, 1.0)), Sight(0.0, Hit(true, 1.0)), false, 0.0);
      && HandleStateFn(ai.(clock := 5.0), scene, inp).ai.state == Attacking
      && FrameFn(ai, scene, inp).state == Patrolling
      && FrameFn(ai, scene, inp).enabled
  {
  }
}
