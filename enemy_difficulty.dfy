/**
  The enemy's search profile and its difficulty table (SetDifficultyLevel). The five inspector
  fields are floats in the game; every value the table or the inspector defaults assign is a whole
  number, so they are integers here.
*/
module EnemyDifficulty {
  import opened Optional
  import VideoOptions

  datatype Profile = Profile(
    detectionRange: nat,
    chaseRange: nat,
    searchRadius: nat,
    visionAngle: nat,
    visionDistance: nat)

  const Easy: Profile := Profile(5, 10, 15, 45, 5)
  const Medium: Profile := Profile(10, 20, 30, 60, 10)
  const Hard: Profile := Profile(15, 30, 45, 75, 15)

  /** The field initialisers of the enemy, before any difficulty is applied. */
  const InspectorDefaults: Profile := Profile(10, 20, 30, 60, 10)

  /** The enemy's own label array, indexed by the stored difficulty pointer. */
  const DifficultyLabels: seq<string> := ["Easy", "Medium", "Hard"]

  /** The profile a difficulty label selects; an unknown label selects none. */
  function ProfileFor(level: string): (r: Option<Profile>)
    ensures r.Some? <==> level in DifficultyLabels
  {
    if level == "Easy" then Some(Easy)
    else if level == "Medium" then Some(Medium)
    else if level == "Hard" then Some(Hard)
    else None
  }

  /** Every field grows strictly from Easy to Medium to Hard. */
  predicate StrictlyHarder(a: Profile, b: Profile) {
    && a.detectionRange < b.detectionRange
    && a.chaseRange < b.chaseRange
    && a.searchRadius < b.searchRadius
    && a.visionAngle < b.visionAngle
    && a.visionDistance < b.visionDistance
  }

  /**
    The labels at pointers 0, 1, 2 select Easy, Medium and Hard, each strictly harder than the one
    before; the inspector defaults are the Medium profile.
  */
  lemma DifficultyTable()
    ensures forall i :: 0 <= i < |DifficultyLabels| ==> ProfileFor(DifficultyLabels[i]).Some?
    ensures ProfileFor(DifficultyLabels[0]) == Some(Easy)
    ensures ProfileFor(DifficultyLabels[1]) == Some(Medium)
    ensures ProfileFor(DifficultyLabels[2]) == Some(Hard)
    ensures StrictlyHarder(Easy, Medium) && StrictlyHarder(Medium, Hard)
    ensures InspectorDefaults == Medium
  {
  }

  /** Labels differing only in letter case are unknown: the switch compares exact strings. */
  lemma LabelsAreCaseSensitive()
    ensures ProfileFor("easy").None? && ProfileFor("HARD").None? && ProfileFor("").None?
  {
    assert "easy" != "Easy" by { assert "easy"[0] != "Easy"[0]; }
    assert "HARD"[1] != "Hard"[1];
  }

  /**
    The settings screen offers the same labels, in the same order, so every difficulty pointer it
    can store selects a profile.
  */
  lemma SettingsLabelsSelectProfiles()
    ensures VideoOptions.Difficulties == DifficultyLabels
    ensures forall p :: 0 <= p <= VideoOptions.LastDifficulty ==> ProfileFor(VideoOptions.Difficulties[p]).Some?
  {
    DifficultyTable();
  }
}
