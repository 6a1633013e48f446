/** The house level's start-up key placement (KeyRandomizer) and its three-object trigger switch (HouseManager). */
module HouseLevel {

  // ---------------------------------------------------------------------------------------------
  // KeyRandomizer

  /** Positions in the `notes` array: the basement note, the first-floor note, the second-floor note. */
  const BasementNote: nat := 0
  const FirstFloorNote: nat := 1
  const SecondFloorNote: nat := 2

  /**
    What the engine's `Random.Range(0, n)` can return: a value in [0, n), or 0 when n is 0
    (an empty range returns its lower bound).
  */
  predicate RandomRangeResult(v: int, n: nat) {
    if n > 0 then 0 <= v < n else v == 0
  }

  /** Which note tells where key number `selectedKey` is hidden. */
  function NoteFor(selectedKey: int): (note: nat)
    ensures note in {BasementNote, FirstFloorNote, SecondFloorNote}
    ensures note == FirstFloorNote <==> selectedKey in {0, 2, 5}
    ensures note == SecondFloorNote <==> selectedKey in {1, 3}
    ensures note == BasementNote <==> selectedKey !in {0, 1, 2, 3, 5}
  {
    if selectedKey == 0 || selectedKey == 5 || selectedKey == 2 then FirstFloorNote
    else if selectedKey == 3 || selectedKey == 1 then SecondFloorNote
    else BasementNote
  }

  /** The active flags of the key objects and of the note objects. */
  class KeyRandomizer {
    const keys: array<bool>
    const notes: array<bool>

    ghost predicate Valid() reads this {
      keys != notes
    }

    constructor (keyStates: seq<bool>, noteStates: seq<bool>)
      ensures Valid() && fresh(keys) && fresh(notes)
      ensures keys[..] == keyStates && notes[..] == noteStates
    {
      keys := new bool[|keyStates|](i requires 0 <= i < |keyStates| => keyStates[i]);
      notes := new bool[|noteStates|](i requires 0 <= i < |noteStates| => noteStates[i]);
    }

    /**
      SpawnRandomKeyWithNote, with the engine's random draw passed in as `selectedKey`. It activates
      exactly the selected key and then exactly one note. With no keys at all `keys[0]` throws first;
      with fewer than three notes the note lookup may throw after the key was activated. `ok` is false
      when either exception ends the call.
    */
    method SpawnRandomKeyWithNote(selectedKey: int) returns (ok: bool)
      requires Valid()
      requires RandomRangeResult(selectedKey, keys.Length)
      modifies keys, notes
      ensures ok <==> keys.Length > 0 && NoteFor(selectedKey) < notes.Length
      ensures keys.Length > 0 ==> keys[..] == old(keys[..])[selectedKey := true]
      ensures keys.Length == 0 ==> keys[..] == old(keys[..])
      ensures notes[..] == if ok then old(notes[..])[NoteFor(selectedKey) := true] else old(notes[..])
    {
      if keys.Length == 0 {
        return false;
      }
      keys[selectedKey] := true;
      var note := NoteFor(selectedKey);
      if note >= notes.Length {
        return false;
      }
      notes[note] := true;
      ok := true;
    }
  }

  /** With three or more notes, every call succeeds once any key exists. */
  lemma EnoughNotesNeverFail(selectedKey: int, keyCount: nat, noteCount: nat)
    requires keyCount > 0 && RandomRangeResult(selectedKey, keyCount)
    requires noteCount >= 3
    ensures NoteFor(selectedKey) < noteCount
  {
  }

  // ---------------------------------------------------------------------------------------------
  // HouseManager

  /** The `activeSelf` flags of the activator, the deactivator and the object to turn on. */
  datatype Switches = Switches(activator: bool, deactivator: bool, turnOn: bool)

  /** The state HouseManager keeps once it has fired: the two followers agree and oppose the activator. */
  predicate Settled(s: Switches) {
    s.deactivator == s.turnOn == !s.activator
  }

  /** OnTriggerEnter: an active activator hands over to the other two objects, and back. */
  function Trigger(s: Switches): (r: Switches)
    ensures r.deactivator == s.activator && r.turnOn == s.activator
    ensures r.activator == !s.activator
  {
    if s.activator then Switches(false, true, true) else Switches(true, false, false)
  }

  /** Whatever the starting flags, one trigger leaves them settled. */
  lemma TriggerSettles(s: Switches)
    ensures Settled(Trigger(s))
  {
  }

  /** Two triggers restore settled flags; flags that were not settled are not restored. */
  lemma TwoTriggersRestore(s: Switches)
    ensures Trigger(Trigger(s)) == s <==> Settled(s)
  {
  }

  class HouseManager {
    var activatorActive: bool
    var deactivatorActive: bool
    var turnOnActive: bool

    function Flags(): Switches reads this {
      Switches(activatorActive, deactivatorActive, turnOnActive)
    }

    constructor (initial: Switches)
      ensures Flags() == initial
    {
      activatorActive, deactivatorActive, turnOnActive := initial.activator, initial.deactivator, initial.turnOn;
    }

    method OnTriggerEnter()
      modifies this
      ensures Flags() == Trigger(old(Flags()))
    {
      if activatorActive {
        deactivatorActive := true;
        turnOnActive := true;
        activatorActive := false;
      } else {
        deactivatorActive := false;
        turnOnActive := false;
        activatorActive := true;
      }
    }
  }
}
