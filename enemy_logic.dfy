/**
  The enemy's per-frame logic as functions on its state: the five behaviours, the perception
  update of HandleState, the return timer armed by Update, the two coroutines, and the frame that
  combines them. An exception thrown inside Update ends that Update early (`Threw`) with the state
  changed so far; the engine carries on with the next frame.
*/
module EnemyLogic {
  import opened Optional
  import opened Events
  import opened Geometry
  import opened EnemyDifficulty
  import opened EnemyPerception
  import opened EnemyRoute

  datatype State = Patrolling | Chasing | InvestigatingSound | ReturningToPatrol | Attacking

  const TimeToLosePlayer: real := 5.0
  const AttackRange: nat := 2
  /** Patrol moves on when this close to its waypoint. */
  const WaypointReach: nat := 2
  /** InvestigateSound gives up when this close to the last known position. */
  const InvestigateReach: nat := 1
  /** WaitAndCheckNextPoint's wait, and load_again's. */
  const ReturnWait: real := 5.0
  const ReloadWait: real := 5.0
  /** The build index load_again reloads. */
  const ReloadedScene: int := 2

  /** The enemy's fields, plus the clock and the pending coroutines, plus what it published. */
  datatype Ai = Ai(
    state: State,
    cursor: int,
    reversing: bool,
    lastKnown: Pos,
    lossTimer: real,
    /** The agent's destination, as last set. */
    destination: Option<Pos>,
    profile: Profile,
    enabled: bool,
    waiting: bool,
    /** When the pending WaitAndCheckNextPoint resumes. */
    returnDeadline: Option<real>,
    /** When the pending load_again resumes. */
    reloadDeadline: Option<real>,
    /** Game time: the sum of all frames' deltaTime. */
    clock: real,
    events: seq<Event>)

  /** What does not change while the game runs: the route, and whether a NavMeshAgent is attached. */
  datatype Scene = Scene(points: seq<Pos>, hasAgent: bool)

  /**
    One frame's engine inputs: both transforms, deltaTime, the two vision samples (ChasePlayer's,
    taken before the chase rotation, and HandleState's), and the agent's path status.
  */
  datatype Inputs = Inputs(
    enemy: Pos,
    player: Pos,
    deltaTime: real,
    chaseSight: Sight,
    stateSight: Sight,
    pathPending: bool,
    remainingDistance: real)

  datatype Outcome = Completed(ai: Ai) | Threw(ai: Ai)

  /** The cursor indexes the route, and is 0 on an empty route. */
  predicate CursorOk(cursor: int, n: nat) {
    if n == 0 then cursor == 0 else 0 <= cursor < n
  }

  /** Start: the selected profile, the announcement that the player is not found. */
  function Initial(profile: Profile): (ai: Ai) {
    Ai(Patrolling, 0, false, Zero, 0.0, None, profile, true, false, None, None, 0.0, [GameMonsterFoundMe(false)])
  }

  /**
    Patrol: nothing without a route or an agent. Otherwise the cursor steps on when the enemy is
    within reach of its waypoint, and the agent heads for the waypoint under the updated cursor.
  */
  function PatrolFn(ai: Ai, scene: Scene, enemy: Pos): (r: Ai)
    requires CursorOk(ai.cursor, |scene.points|)
    ensures r == ai.(cursor := r.cursor, reversing := r.reversing, destination := r.destination)
    ensures CursorOk(r.cursor, |scene.points|)
    ensures |scene.points| == 0 || !scene.hasAgent ==> r == ai
    ensures |scene.points| > 0 && scene.hasAgent ==>
      && r.destination == Some(scene.points[r.cursor])
      && Cursor(r.cursor, r.reversing)
         == if Within(scene.points[ai.cursor], enemy, WaypointReach)
            then Advance(Cursor(ai.cursor, ai.reversing), |scene.points|)
            else Cursor(ai.cursor, ai.reversing)
  {
    var points := scene.points;
    if |points| == 0 || !scene.hasAgent then ai
    else
      var c := Cursor(ai.cursor, ai.reversing);
      var next := if Within(points[ai.cursor], enemy, WaypointReach) then Advance(c, |points|) else c;
      ai.(cursor := next.index, reversing := next.reversing, destination := Some(points[next.index]))
  }

  /**
    CheckTheNearestPoints: on a non-empty route, the cursor moves to the waypoint nearest the last
    known position, that waypoint becomes the last known position, and the enemy patrols again.
  */
  function NearestFn(ai: Ai, scene: Scene): (r: Ai)
    requires CursorOk(ai.cursor, |scene.points|)
    ensures r == ai.(cursor := r.cursor, lastKnown := r.lastKnown, state := r.state)
    ensures CursorOk(r.cursor, |scene.points|)
    ensures |scene.points| == 0 ==> r == ai
    ensures |scene.points| > 0 ==>
      && r.state == Patrolling
      && r.lastKnown == scene.points[r.cursor]
      && (forall j :: 0 <= j < |scene.points| ==> SqDist(r.lastKnown, ai.lastKnown) <= SqDist(scene.points[j], ai.lastKnown))
      && (forall j :: 0 <= j < r.cursor ==> SqDist(r.lastKnown, ai.lastKnown) < SqDist(scene.points[j], ai.lastKnown))
  {
    if |scene.points| == 0 then ai
    else
      var i := Nearest(scene.points, ai.lastKnown);
      ai.(cursor := i, lastKnown := scene.points[i], state := Patrolling)
  }

  /**
    ChasePlayer. Player beyond the chase range and unseen: give up the chase (straight to Patrolling
    if no position was ever recorded, the zero vector marking that, else by the nearest-point
    search) and reset the loss timer. Otherwise follow the player, which needs the agent.
  */
  function ChaseFn(ai: Ai, scene: Scene, inp: Inputs): (r: Outcome)
    requires CursorOk(ai.cursor, |scene.points|)
    ensures r.ai == ai.(state := r.ai.state, cursor := r.ai.cursor, lastKnown := r.ai.lastKnown,
                        lossTimer := r.ai.lossTimer, destination := r.ai.destination)
    ensures CursorOk(r.ai.cursor, |scene.points|)
    ensures r.Threw? <==> (Within(inp.enemy, inp.player, ai.profile.chaseRange) || Visible(ai.profile, inp.chaseSight))
                          && !scene.hasAgent
    ensures r.Threw? ==> r.ai == ai
    ensures r.ai.state in {ai.state, Patrolling}
  {
    if !Within(inp.enemy, inp.player, ai.profile.chaseRange) && !Visible(ai.profile, inp.chaseSight) then
      var a := if ai.lastKnown == Zero then ai.(state := Patrolling) else NearestFn(ai, scene);
      Completed(a.(lossTimer := 0.0))
    else if !scene.hasAgent then Threw(ai)
    else Completed(ai.(destination := Some(inp.player), lastKnown := inp.player))
  }

  /** InvestigateSound: head for the last known position, and patrol again once there. */
  function InvestigateFn(ai: Ai, scene: Scene, inp: Inputs): (r: Outcome)
    ensures r.ai == ai.(state := r.ai.state, destination := r.ai.destination)
    ensures r.Threw? <==> !scene.hasAgent
    ensures r.Threw? ==> r.ai == ai
    ensures r.Completed? ==> r.ai.destination == Some(ai.lastKnown)
    ensures r.Completed? ==> r.ai.state == if Within(inp.enemy, ai.lastKnown, InvestigateReach) then Patrolling else ai.state
  {
    if !scene.hasAgent then Threw(ai)
    else
      var a := ai.(destination := Some(ai.lastKnown));
      Completed(if Within(inp.enemy, ai.lastKnown, InvestigateReach) then a.(state := Patrolling) else a)
  }

  /**
    ReturnToPatrol: the nearest-point search, then the agent heads for the waypoint under the
    cursor; that indexes the route without checking it is non-empty, and needs the agent. The final
    arrival test can only set Patrolling, which the search has already set.
  */
  function ReturnFn(ai: Ai, scene: Scene, inp: Inputs): (r: Outcome)
    requires CursorOk(ai.cursor, |scene.points|)
    ensures r.ai == ai.(state := r.ai.state, cursor := r.ai.cursor, lastKnown := r.ai.lastKnown,
                        destination := r.ai.destination)
    ensures CursorOk(r.ai.cursor, |scene.points|)
    ensures r.Threw? <==> |scene.points| == 0 || !scene.hasAgent
    ensures r.ai.state in {ai.state, Patrolling}
    ensures r.Threw? ==> r.ai == NearestFn(ai, scene)
    ensures r.Completed? ==> r.ai == NearestFn(ai, scene).(destination := Some(scene.points[r.ai.cursor]))
  {
    var a := NearestFn(ai, scene);
    if |scene.points| == 0 || !scene.hasAgent then Threw(a)
    else
      var b := a.(destination := Some(scene.points[a.cursor]));
      Completed(if !inp.pathPending && inp.remainingDistance < 0.5 then b.(state := Patrolling) else b)
  }

  /**
    Attack: announce that the player was found, show the lose screen, announce the loss, disable the
    enemy and start load_again.
  */
  function AttackFn(ai: Ai): (r: Ai)
    ensures r == ai.(events := r.events, enabled := false, reloadDeadline := Some(ai.clock + ReloadWait))
    ensures r.events == ai.events + [GameMonsterFoundMe(true), LoseScreenShown, GameLost]
  {
    ai.(events := ai.events + [GameMonsterFoundMe(true), LoseScreenShown, GameLost],
        enabled := false, reloadDeadline := Some(ai.clock + ReloadWait))
  }

  /** The switch at the head of HandleState. */
  function BehaviourFn(ai: Ai, scene: Scene, inp: Inputs): (r: Outcome)
    requires CursorOk(ai.cursor, |scene.points|)
    ensures CursorOk(r.ai.cursor, |scene.points|)
    ensures ai.state != Attacking ==>
      r.ai == ai.(state := r.ai.state, cursor := r.ai.cursor, reversing := r.ai.reversing,
                  lastKnown := r.ai.lastKnown, lossTimer := r.ai.lossTimer, destination := r.ai.destination)
    ensures ai.state == Attacking ==> r == Completed(AttackFn(ai))
    ensures ai.state != Attacking ==> r.ai.state != Attacking
  {
    match ai.state
    case Patrolling => Completed(PatrolFn(ai, scene, inp.enemy))
    case Chasing => ChaseFn(ai, scene, inp)
    case InvestigatingSound => InvestigateFn(ai, scene, inp)
    case ReturningToPatrol => ReturnFn(ai, scene, inp)
    case Attacking => Completed(AttackFn(ai))
  }

  /**
    The vision check of HandleState: seeing the player starts (or continues) the chase from the
    player's position with a fresh loss timer; a chase without sight of the player counts the loss
    timer up and, once it reaches TimeToLosePlayer, turns into a return to the patrol.
  */
  function PerceiveFn(ai: Ai, inp: Inputs): (r: Ai)
    ensures r == ai.(state := r.state, lastKnown := r.lastKnown, lossTimer := r.lossTimer)
    ensures r.state in {ai.state, Chasing, ReturningToPatrol}
  {
    if Visible(ai.profile, inp.stateSight) then
      ai.(state := Chasing, lastKnown := inp.player, lossTimer := 0.0)
    else if ai.state == Chasing then
      var t := ai.lossTimer + inp.deltaTime;
      if t >= TimeToLosePlayer then ai.(state := ReturningToPatrol, lossTimer := 0.0)
      else ai.(lossTimer := t)
    else ai
  }

  /** The rest of HandleState: patrol unless chasing or investigating, then the attack check. */
  function FinishFn(ai: Ai, scene: Scene, inp: Inputs): (r: Ai)
    requires CursorOk(ai.cursor, |scene.points|)
    ensures CursorOk(r.cursor, |scene.points|)
    ensures r == ai.(state := r.state, cursor := r.cursor, reversing := r.reversing, destination := r.destination)
    ensures r.state == if ai.state == Chasing && Within(inp.enemy, inp.player, AttackRange) then Attacking else ai.state
  {
    var a := if ai.state != Chasing && ai.state != InvestigatingSound then PatrolFn(ai, scene, inp.enemy) else ai;
    if Within(inp.enemy, inp.player, AttackRange) && a.state == Chasing then a.(state := Attacking) else a
  }

  function HandleStateFn(ai: Ai, scene: Scene, inp: Inputs): (r: Outcome)
    requires CursorOk(ai.cursor, |scene.points|)
    ensures CursorOk(r.ai.cursor, |scene.points|)
  {
    match BehaviourFn(ai, scene, inp)
    case Threw(a) => Threw(a)
    case Completed(a) => Completed(FinishFn(PerceiveFn(a, inp), scene, inp))
  }

  /** Update: HandleState, then start WaitAndCheckNextPoint when returning and none is pending. */
  function UpdateFn(ai: Ai, scene: Scene, inp: Inputs): (r: Outcome)
    requires CursorOk(ai.cursor, |scene.points|)
    ensures CursorOk(r.ai.cursor, |scene.points|)
    ensures r.ai.clock == ai.clock
  {
    match HandleStateFn(ai, scene, inp)
    case Threw(a) => Threw(a)
    case Completed(a) =>
      if a.state == ReturningToPatrol && !a.waiting
      then Completed(a.(waiting := true, returnDeadline := Some(a.clock + ReturnWait)))
      else Completed(a)
  }

  /**
    The coroutines that are due resume: WaitAndCheckNextPoint forces Patrolling and clears the
    waiting flag; load_again shows the game-play screen, unloads the last scene and loads scene 2.
  */
  function CoroutinesFn(ai: Ai): (r: Ai)
    ensures r == ai.(state := r.state, waiting := r.waiting, returnDeadline := r.returnDeadline,
                     reloadDeadline := r.reloadDeadline, events := r.events)
  {
    var a :=
      if ai.returnDeadline.Some? && ai.returnDeadline.value <= ai.clock
      then ai.(state := Patrolling, waiting := false, returnDeadline := None)
      else ai;
    if a.reloadDeadline.Some? && a.reloadDeadline.value <= a.clock
    then a.(events := a.events + [GamePlayScreenShown, LastSceneUnloaded, SceneIndexLoaded(ReloadedScene)],
            reloadDeadline := None)
    else a
  }

  /**
    One frame: game time advances; an enabled enemy runs Update (an exception there ends only that
    Update); then the due coroutines resume, whether or not the enemy is still enabled.
  */
  function FrameFn(ai: Ai, scene: Scene, inp: Inputs): (r: Ai)
    requires CursorOk(ai.cursor, |scene.points|)
    ensures CursorOk(r.cursor, |scene.points|)
  {
    var a := Tick(ai, inp.deltaTime);
    var b := if a.enabled then UpdateFn(a, scene, inp).ai else a;
    CoroutinesFn(b)
  }

  /** Game time advances by the frame's deltaTime; nothing else changes. */
  function Tick(ai: Ai, deltaTime: real): (r: Ai)
    ensures r.clock == ai.clock + deltaTime
  {
    ai.(clock := ai.clock + deltaTime)
  }

  /** FrameFn in its three steps, for callers that take them one at a time. */
  lemma FrameSteps(ai: Ai, scene: Scene, inp: Inputs, ticked: Ai, updated: Ai)
    requires CursorOk(ai.cursor, |scene.points|)
    requires ticked == Tick(ai, inp.deltaTime)
    requires updated == if ticked.enabled then UpdateFn(ticked, scene, inp).ai else ticked
    ensures FrameFn(ai, scene, inp) == CoroutinesFn(updated)
  {
  }
}
