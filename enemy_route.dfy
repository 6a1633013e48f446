/**
  The patrol route: a ping-pong cursor over the waypoint list, and the nearest-waypoint search.
*/
module EnemyRoute {
  import opened Geometry

  /** `currentWayToPointIndex` and `reversing`. */
  datatype Cursor = Cursor(index: int, reversing: bool)

  /**
    Patrol's step to the next waypoint on a route of `n` points: one index in the current
    direction; reaching the last point (or passing it) clamps there and turns back, reaching the
    first clamps there and turns forward again.
  */
  function Advance(c: Cursor, n: nat): (r: Cursor)
    requires 0 <= c.index < n
    ensures 0 <= r.index < n
  {
    if c.reversing then
      if c.index - 1 <= 0 then Cursor(0, false) else Cursor(c.index - 1, true)
    else
      if c.index + 1 >= n - 1 then Cursor(n - 1, true) else Cursor(c.index + 1, false)
  }

  /** The cursor after `k` steps. */
  function Walk(c: Cursor, n: nat, k: nat): (r: Cursor)
    requires 0 <= c.index < n
    ensures 0 <= r.index < n
  {
    if k == 0 then c else Advance(Walk(c, n, k - 1), n)
  }

  lemma {:induction false} WalkCompose(c: Cursor, n: nat, k: nat, m: nat)
    requires 0 <= c.index < n
    ensures Walk(c, n, k + m) == Walk(Walk(c, n, k), n, m)
  {
    if m > 0 {
      WalkCompose(c, n, k, m - 1);
    }
  }

  /** From the first point, the walk goes forward one index per step and turns at the last one. */
  lemma {:induction false} WalkForward(n: nat, k: nat)
    requires 2 <= n && k <= n - 1
    ensures Walk(Cursor(0, false), n, k) == if k < n - 1 then Cursor(k, false) else Cursor(n - 1, true)
  {
    if k > 0 {
      WalkForward(n, k - 1);
    }
  }

  /** From the last point, reversing, the walk goes back one index per step and turns at the first. */
  lemma {:induction false} WalkBackward(n: nat, k: nat)
    requires 2 <= n && k <= n - 1
    ensures Walk(Cursor(n - 1, true), n, k) == if k < n - 1 then Cursor(n - 1 - k, true) else Cursor(0, false)
  {
    if k > 0 {
      WalkBackward(n, k - 1);
    }
  }

  /**
    On a route of two or more points the cursor visits every waypoint and is back at the start,
    heading forward, after 2 * (n - 1) steps. A one-point route stays on its point and only toggles
    the direction.
  */
  lemma PingPongCycle(n: nat)
    requires 2 <= n
    ensures Walk(Cursor(0, false), n, 2 * (n - 1)) == Cursor(0, false)
    ensures forall i :: 0 <= i < n ==> Walk(Cursor(0, false), n, i).index == i
  {
    WalkForward(n, n - 1);
    WalkBackward(n, n - 1);
    WalkCompose(Cursor(0, false), n, n - 1, n - 1);
    forall i | 0 <= i < n
      ensures Walk(Cursor(0, false), n, i).index == i
    {
      WalkForward(n, i);
    }
  }

  lemma SinglePointRoute(reversing: bool)
    ensures Advance(Cursor(0, reversing), 1) == Cursor(0, !reversing)
  {
  }

  /**
    CheckTheNearestPoints' search: the index of the point closest to `target`; among equally close
    points the first one, as a stable ordering by distance followed by taking the first yields.
  */
  function Nearest(points: seq<Pos>, target: Pos): (i: nat)
    requires |points| > 0
    ensures i < |points|
    ensures forall j :: 0 <= j < |points| ==> SqDist(points[i], target) <= SqDist(points[j], target)
    ensures forall j :: 0 <= j < i ==> SqDist(points[i], target) < SqDist(points[j], target)
    decreases |points|
  {
    if |points| == 1 then 0
    else
      var front := points[..|points| - 1];
      var k := Nearest(front, target);
      assert forall j :: 0 <= j < |front| ==> front[j] == points[j];
      if SqDist(points[|points| - 1], target) < SqDist(points[k], target) then |points| - 1 else k
  }

  /** Those two properties determine the index: any first closest point is the one found. */
  lemma NearestUnique(points: seq<Pos>, target: Pos, i: nat)
    requires i < |points|
    requires forall j :: 0 <= j < |points| ==> SqDist(points[i], target) <= SqDist(points[j], target)
    requires forall j :: 0 <= j < i ==> SqDist(points[i], target) < SqDist(points[j], target)
    ensures Nearest(points, target) == i
  {
  }

  /** A waypoint at the target itself is found, the first one if it occurs several times. */
  lemma NearestOfWaypoint(points: seq<Pos>, i: nat)
    requires i < |points| && forall j :: 0 <= j < i ==> points[j] != points[i]
    ensures Nearest(points, points[i]) == i
  {
    NearestUnique(points, points[i], i);
  }
}
