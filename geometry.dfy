/**
  World positions on an integer grid. Distances are compared through their squares, so that
  "within d" becomes `SqDist(a, b) <= d * d` without square roots.
*/
module Geometry {

  datatype Pos = Pos(x: int, y: int, z: int)

  /** `Vector3.zero` */
  const Zero: Pos := Pos(0, 0, 0)

  /** The square of the Euclidean distance. */
  function SqDist(a: Pos, b: Pos): (d: int)
    ensures 0 <= d
    ensures d == 0 <==> a == b
  {
    var dx := a.x - b.x;
    var dy := a.y - b.y;
    var dz := a.z - b.z;
    SquareFacts(dx);
    SquareFacts(dy);
    SquareFacts(dz);
    dx * dx + dy * dy + dz * dz
  }

  lemma SquareFacts(d: int)
    ensures 0 <= d * d
    ensures d * d == 0 <==> d == 0
  {
    if d < 0 {
      assert d * d == (-d) * (-d);
    }
  }

  /** `Vector3.Distance(a, b) <= r` for a non-negative integer radius `r`. */
  predicate Within(a: Pos, b: Pos, r: nat) {
    SqDist(a, b) <= r * r
  }

  /** Within a radius is within every larger radius. */
  lemma WithinMonotone(a: Pos, b: Pos, r: nat, s: nat)
    requires r <= s
    ensures Within(a, b, r) ==> Within(a, b, s)
  {
    assert r * r <= r * s <= s * s;
  }
}
