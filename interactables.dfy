/**
  The two interactable objects of the core: a door and a readable note. Each answers the player's
  interact, focus and lose-focus calls.
*/
module Interactables {
  import opened Optional
  import opened Events
  import opened EngineTime

  // ---------------------------------------------------------------------------------------------
  // Door

  /** The event a door publishes after a toggle; the game's sound wiring names them the other way round. */
  function DoorSignal(isOpen: bool): (e: Event)
    ensures e == DoorOpen <==> !isOpen
    ensures e == DoorClose <==> isOpen
  {
    if !isOpen then DoorOpen else DoorClose
  }

  class Door {
    var isOpen: bool
    var canBeInteractedWith: bool
    /** The animator's "isOpen" and "dot" parameters. */
    var animIsOpen: bool
    var animDot: real
    var published: seq<Event>

    constructor ()
      ensures !isOpen && canBeInteractedWith && !animIsOpen && published == []
    {
      isOpen, canBeInteractedWith := false, true;
      animIsOpen, animDot := false, 0.0;
      published := [];
    }

    /**
      OnInteract, with the dot product of the door's right vector and the direction to the player
      passed in as `dot`: the door toggles, both animator parameters are set, and one event follows.
    */
    method OnInteract(dot: real)
      modifies this
      ensures canBeInteractedWith == old(canBeInteractedWith)
      ensures old(canBeInteractedWith) ==>
        && isOpen == !old(isOpen)
        && animIsOpen == isOpen && animDot == dot
        && published == old(published) + [DoorSignal(isOpen)]
      ensures !old(canBeInteractedWith) ==>
        isOpen == old(isOpen) && animIsOpen == old(animIsOpen) && animDot == old(animDot) && published == old(published)
    {
      if canBeInteractedWith {
        isOpen := !isOpen;
        animDot := dot;
        animIsOpen := isOpen;
        published := published + [DoorSignal(isOpen)];
      }
    }

    method OnFocus()
      modifies this`published
      ensures published == old(published) + [ShowInteractLabel]
    {
      published := published + [ShowInteractLabel];
    }

    method OnLoseFocus()
      modifies this`published
      ensures published == old(published) + [ShowDot]
    {
      published := published + [ShowDot];
    }
  }

  /** Two interactions in a row bring a door back to where it was, after one DoorClose and one DoorOpen. */
  method InteractTwice(d: Door, dot1: real, dot2: real)
    requires d.canBeInteractedWith
    modifies d
    ensures d.isOpen == old(d.isOpen) && d.animIsOpen == d.isOpen && d.canBeInteractedWith
    ensures d.published == old(d.published) + [DoorSignal(!old(d.isOpen)), DoorSignal(old(d.isOpen))]
    ensures multiset(d.published[|old(d.published)|..]) == multiset{DoorOpen, DoorClose}
  {
    d.OnInteract(dot1);
    d.OnInteract(dot2);
    assert d.published[|old(d.published)|..] == [DoorSignal(!old(d.isOpen)), DoorSignal(old(d.isOpen))];
  }

  // ---------------------------------------------------------------------------------------------
  // NoteController

  class NoteController {
    /** The engine's global time settings, shared with the player controller. */
    const time: GameTime
    const noteText: string
    var isOpen: bool
    var canvasActive: bool
    /** The text of the note's UI text area; `None` is the null the closing branch writes. */
    var textArea: Option<string>
    var published: seq<Event>

    /** A note starts closed, with its canvas hidden and its text area empty. */
    constructor (time: GameTime, noteText: string)
      ensures this.time == time && this.noteText == noteText
      ensures !isOpen && !canvasActive && textArea == None && published == []
    {
      this.time := time;
      this.noteText := noteText;
      isOpen, canvasActive, textArea := false, false, None;
      published := [];
    }

    /**
      OnInteract: opening freezes game time, shows the text and the canvas, then announces the note
      and hides the other prompts; closing resumes time, hides the canvas, clears the text, then
      announces the closing and shows the interact prompt again.
    */
    method OnInteract()
      modifies this, time
      ensures isOpen == !old(isOpen)
      ensures canvasActive == isOpen
      ensures time.timeScale == if isOpen then 0.0 else 1.0
      ensures textArea == if isOpen then Some(noteText) else None
      ensures published == old(published) + [NoteShown(isOpen), if isOpen then HideAll else ShowInteractLabel]
    {
      if !isOpen {
        time.timeScale := 0.0;
        textArea := Some(noteText);
        canvasActive := true;
        isOpen := true;
        published := published + [NoteShown(isOpen)];
        published := published + [HideAll];
      } else {
        time.timeScale := 1.0;
        canvasActive := false;
        textArea := None;
        isOpen := false;
        published := published + [NoteShown(isOpen)];
        published := published + [ShowInteractLabel];
      }
    }

    method OnFocus()
      modifies this`published
      ensures published == old(published) + [ShowInteractLabel]
    {
      published := published + [ShowInteractLabel];
    }

    method OnLoseFocus()
      modifies this`published
      ensures published == old(published) + [ShowDot]
    {
      published := published + [ShowDot];
    }
  }
}
