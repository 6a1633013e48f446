/**
  IsPlayerInVisionCone, with the engine geometry as an oracle: the angle between the enemy's
  forward direction and the direction to the player, and the first collider a ray towards the
  player hits.
*/
module EnemyPerception {
  import opened EnemyDifficulty

  datatype RayHit = NoHit | Hit(isPlayer: bool, distance: real)

  /** One sample of what the enemy would see this instant. */
  datatype Sight = Sight(angle: real, firstHit: RayHit)

  /**
    The player is seen when within half the vision angle of the forward direction and the ray,
    limited to the vision distance, first hits a collider tagged Player.
  */
  predicate Visible(p: Profile, s: Sight): (seen: bool)
    ensures s.firstHit.NoHit? ==> !seen
    ensures s.firstHit.Hit? && !s.firstHit.isPlayer ==> !seen
    ensures seen ==> s.angle <= p.visionAngle as real / 2.0 && s.firstHit.distance <= p.visionDistance as real
  {
    && s.angle <= p.visionAngle as real / 2.0
    && s.firstHit.Hit?
    && s.firstHit.isPlayer
    && s.firstHit.distance <= p.visionDistance as real
  }

  /** A wider cone that reaches further sees at least what a narrower, shorter one sees. */
  lemma VisionMonotone(a: Profile, b: Profile, s: Sight)
    requires a.visionAngle <= b.visionAngle && a.visionDistance <= b.visionDistance
    ensures Visible(a, s) ==> Visible(b, s)
  {
  }

  /** So a harder enemy sees everything an easier one sees, and some sights only the harder one. */
  lemma HarderSeesMore(s: Sight)
    ensures Visible(Easy, s) ==> Visible(Medium, s)
    ensures Visible(Medium, s) ==> Visible(Hard, s)
    ensures Visible(Hard, Sight(35.0, Hit(true, 12.0))) && !Visible(Medium, Sight(35.0, Hit(true, 12.0)))
  {
    VisionMonotone(Easy, Medium, s);
    VisionMonotone(Medium, Hard, s);
  }

  /** Another collider in front of the player hides the player, however close. */
  lemma OccludedIsUnseen(p: Profile, angle: real, distance: real)
    ensures !Visible(p, Sight(angle, Hit(false, distance)))
    ensures !Visible(p, Sight(angle, NoHit))
  {
  }
}
