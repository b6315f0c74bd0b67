/** The side effects the engine issues. Pointer commands go to the OS-input
    collaborator (pyautogui in the source); sounds go to the audio collaborator
    (SoundManager). Neither is modelled beyond the event it receives. */
module Events {
  import opened Common

  datatype Event =
    // pyautogui
    | MoveTo(x: int, y: int)
    | ClickAt(x: int, y: int)
    | RightClickAt(x: int, y: int)
    | MiddleClickAction
    | DoubleClickAction
    | MouseDownAt(x: int, y: int)
    | MouseUpAction
    | ScrollBy(amount: int)
    // SoundManager
    | PlayActive
    | PlayDeactive
    | PlayCalibrationTick
    | PlayCalibrationDone
  {
    predicate IsPointerCommand() {
      !(PlayActive? || PlayDeactive? || PlayCalibrationTick? || PlayCalibrationDone?)
    }
  }

  /** No event of the log acts on the pointer. */
  predicate SoundsOnly(evs: seq<Event>) {
    forall i :: 0 <= i < |evs| ==> !evs[i].IsPointerCommand()
  }

  predicate IsMouseDown(e: Event) { e.MouseDownAt? }
  predicate IsMouseUp(e: Event) { e.MouseUpAction? }
  predicate IsClick(e: Event) { e.ClickAt? }
  predicate IsRightClick(e: Event) { e.RightClickAt? }
  predicate IsDoubleClick(e: Event) { e.DoubleClickAction? }
  predicate IsMiddleClick(e: Event) { e.MiddleClickAction? }

  /** Appending two batches of events one after the other appends their
      concatenation. */
  lemma {:induction false} AppendTwice(log: seq<Event>, first: seq<Event>, second: seq<Event>)
    ensures log + first + second == log + (first + second)
  {
  }
}
