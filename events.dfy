/**
  The game's static event channels (GameEvents, UIEvents, SettingsEvents, SceneEvents), reduced to
  the signals the modelled components publish. A component records what it publishes, in order, in
  a sequence of these values.
*/
module Events {

  datatype Event =
    // GameEvents
    | GameMonsterFoundMe(found: bool)
    | GameLost
    | NoteShown(shown: bool)
    | ShowDot
    | ShowInteractLabel
    | HideAll
    | DoorOpen
    | DoorClose
    // UIEvents
    | GamePlayScreenShown
    | PauseScreenShown
    | InventoryScreenShown
    | LoseScreenShown
    // SceneEvents
    | LastSceneUnloaded
    | SceneIndexLoaded(index: int)
    // SettingsEvents
    | SettingsInitialized
    | ResolutionChanged(resolution: int)
    | DifficultyChanged(difficulty: int)

  /** How many times `e` occurs in the log `log`. */
  function Occurrences(e: Event, log: seq<Event>): (n: nat)
    ensures n <= |log|
    ensures n == 0 <==> e !in log
  {
    if log == [] then 0
    else (if log[0] == e then 1 else 0) + Occurrences(e, log[1..])
  }

  /** The count in a log of three events. */
  lemma OccurrencesOfThree(e: Event, x: Event, y: Event, z: Event)
    ensures Occurrences(e, [x, y, z])
            == (if x == e then 1 else 0) + (if y == e then 1 else 0) + (if z == e then 1 else 0)
  {
    assert [x, y, z][1..] == [y, z];
    assert [y, z][1..] == [z];
    assert [z][1..] == [];
  }

  lemma {:induction false} OccurrencesAppend(e: Event, a: seq<Event>, b: seq<Event>)
    ensures Occurrences(e, a + b) == Occurrences(e, a) + Occurrences(e, b)
  {
    if a == [] {
      assert a + b == b;
    } else {
      assert (a + b)[1..] == a[1..] + b;
      OccurrencesAppend(e, a[1..], b);
    }
  }
}
