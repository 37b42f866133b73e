/**
 * The text area of src/components/WritingCanvas.tsx: which key presses and
 * clipboard events it cancels, and the one-bit flag that tells the next change
 * event whether it came from the keyboard.
 */
module WritingCanvas {

  /** The fields of a `keydown` event the handler reads. */
  datatype KeyEvent = KeyEvent(key: string, ctrlKey: bool, metaKey: bool, altKey: bool)

  /** The events that reach the text area, in the order the browser delivers them. */
  datatype CanvasEvent = KeyDown(e: KeyEvent) | BeforeInput | Change

  /** A key that may produce or delete text (`isTypingKey`). */
  predicate IsTypingKey(key: string) {
    |key| == 1 || key == "Enter" || key == "Backspace" || key == "Unidentified" || key == "Process"
  }

  /** Ctrl or Meta with lower-case `c`, `x`, `v` or `a`. */
  predicate IsClipboardShortcut(e: KeyEvent) {
    (e.metaKey || e.ctrlKey) && (e.key == "c" || e.key == "x" || e.key == "v" || e.key == "a")
  }

  /** Whether `handleKeyDown` calls `preventDefault`, and if not, whether it marks a keypress. */
  datatype KeyOutcome = Cancelled | Marked | Ignored

  /** `handleKeyDown`: the Backspace guard, then the clipboard guard, then the typing-key test. */
  function KeyDownOutcome(e: KeyEvent, noBackspaceMode: bool, goalAchieved: bool): (r: KeyOutcome)
    ensures r == Cancelled <==> (noBackspaceMode && e.key == "Backspace") || (!goalAchieved && IsClipboardShortcut(e))
    ensures r == Marked <==> r != Cancelled && IsTypingKey(e.key) && !e.metaKey && !e.ctrlKey && !e.altKey
  {
    if noBackspaceMode && e.key == "Backspace" then Cancelled
    else if !goalAchieved && (e.metaKey || e.ctrlKey) && (e.key == "c" || e.key == "x" || e.key == "v" || e.key == "a") then Cancelled
    else if IsTypingKey(e.key) && !e.metaKey && !e.ctrlKey && !e.altKey then Marked
    else Ignored
  }

  /** In no-backspace mode Backspace is cancelled whatever else is held, and never marks a keypress. */
  lemma BackspaceBlocked(e: KeyEvent, goalAchieved: bool)
    requires e.key == "Backspace"
    ensures KeyDownOutcome(e, true, goalAchieved) == Cancelled
    ensures !goalAchieved || !IsClipboardShortcut(e) ==> KeyDownOutcome(e, false, goalAchieved) != Cancelled
  {
  }

  /**
   * Before the goal the clipboard shortcuts are cancelled; once the goal is
   * reached they pass (unless it is Backspace in no-backspace mode, which none is).
   */
  lemma ShortcutsFreedByGoal(e: KeyEvent, noBackspaceMode: bool)
    requires IsClipboardShortcut(e)
    ensures KeyDownOutcome(e, noBackspaceMode, false) == Cancelled
    ensures KeyDownOutcome(e, noBackspaceMode, true) == Ignored
  {
    assert e.key != "Backspace";
  }

  /**
   * Only lower-case letters are caught at the key: Ctrl+Shift+V arrives as `V`
   * and passes, which leaves the paste to the clipboard guard.
   */
  lemma ShiftedShortcutPassesKeyGuard(ctrl: bool, meta: bool, alt: bool, noBackspaceMode: bool)
    ensures KeyDownOutcome(KeyEvent("V", ctrl, meta, alt), noBackspaceMode, false) != Cancelled
    ensures ClipboardCancelled(false)
  {
  }

  /** `handlePaste`, `handleCopy`, `handleCut`: cancelled exactly while the goal is unmet. */
  function ClipboardCancelled(goalAchieved: bool): (r: bool)
    ensures r <==> !goalAchieved
  {
    !goalAchieved
  }

  /** The flag after one event; a change event reads it and clears it. */
  function FlagAfter(pending: bool, ev: CanvasEvent, noBackspaceMode: bool, goalAchieved: bool): bool {
    match ev
    case KeyDown(e) => pending || KeyDownOutcome(e, noBackspaceMode, goalAchieved) == Marked
    case BeforeInput => true
    case Change => false
  }

  /** The flag after the events `evs`, from `pending`. */
  function FlagAfterAll(pending: bool, evs: seq<CanvasEvent>, noBackspaceMode: bool, goalAchieved: bool): bool {
    if evs == [] then pending
    else FlagAfter(FlagAfterAll(pending, evs[..|evs| - 1], noBackspaceMode, goalAchieved), evs[|evs| - 1],
                   noBackspaceMode, goalAchieved)
  }

  /** An event that sets the flag. */
  predicate Marks(ev: CanvasEvent, noBackspaceMode: bool, goalAchieved: bool) {
    ev.BeforeInput? || (ev.KeyDown? && KeyDownOutcome(ev.e, noBackspaceMode, goalAchieved) == Marked)
  }

  predicate NoChange(evs: seq<CanvasEvent>) {
    forall j :: 0 <= j < |evs| ==> !evs[j].Change?
  }

  /** Some event of `evs` sets the flag and no change event follows it. */
  ghost predicate MarkedSinceLastChange(evs: seq<CanvasEvent>, noBackspaceMode: bool, goalAchieved: bool) {
    exists i :: 0 <= i < |evs| && Marks(evs[i], noBackspaceMode, goalAchieved) && NoChange(evs[i + 1..])
  }

  /**
   * The next change reports a keypress exactly when, since the last change, a
   * `beforeinput` or a typing key arrived; or, with no change at all in between,
   * when the flag was already set.
   */
  lemma {:induction false} FlagMeaning(pending: bool, evs: seq<CanvasEvent>, noBackspaceMode: bool, goalAchieved: bool)
    ensures FlagAfterAll(pending, evs, noBackspaceMode, goalAchieved) <==>
            MarkedSinceLastChange(evs, noBackspaceMode, goalAchieved) || (pending && NoChange(evs))
  {
    if evs != [] {
      var init, last := evs[..|evs| - 1], evs[|evs| - 1];
      assert evs == init + [last];
      FlagMeaning(pending, init, noBackspaceMode, goalAchieved);
      if last.Change? {
        ChangeForgets(init, noBackspaceMode, goalAchieved);
      } else {
        OtherEventExtends(init, last, noBackspaceMode, goalAchieved);
      }
    }
  }

  /** After a change event nothing is marked and some change has happened. */
  lemma ChangeForgets(init: seq<CanvasEvent>, noBackspaceMode: bool, goalAchieved: bool)
    ensures !MarkedSinceLastChange(init + [Change], noBackspaceMode, goalAchieved)
    ensures !NoChange(init + [Change])
  {
    var evs := init + [Change];
    assert evs[|evs| - 1].Change?;
    forall i | 0 <= i < |evs| ensures !(Marks(evs[i], noBackspaceMode, goalAchieved) && NoChange(evs[i + 1..])) {
      if i == |evs| - 1 {
        assert !Marks(evs[i], noBackspaceMode, goalAchieved);
      } else {
        assert evs[i + 1..][|evs| - i - 2] == Change;
      }
    }
  }

  /** Any other event keeps what was marked and marks itself if it sets the flag. */
  lemma OtherEventExtends(init: seq<CanvasEvent>, last: CanvasEvent, noBackspaceMode: bool, goalAchieved: bool)
    requires !last.Change?
    ensures MarkedSinceLastChange(init + [last], noBackspaceMode, goalAchieved) <==>
            MarkedSinceLastChange(init, noBackspaceMode, goalAchieved) || Marks(last, noBackspaceMode, goalAchieved)
    ensures NoChange(init + [last]) <==> NoChange(init)
  {
    var evs := init + [last];
    if MarkedSinceLastChange(init, noBackspaceMode, goalAchieved) {
      var i :| 0 <= i < |init| && Marks(init[i], noBackspaceMode, goalAchieved) && NoChange(init[i + 1..]);
      assert evs[i + 1..] == init[i + 1..] + [last];
      assert evs[i] == init[i];
    }
    if Marks(last, noBackspaceMode, goalAchieved) {
      assert evs[|evs| - 1 + 1..] == [];
      assert evs[|evs| - 1] == last;
    }
    if MarkedSinceLastChange(evs, noBackspaceMode, goalAchieved) && !Marks(last, noBackspaceMode, goalAchieved) {
      var i :| 0 <= i < |evs| && Marks(evs[i], noBackspaceMode, goalAchieved) && NoChange(evs[i + 1..]);
      assert i != |evs| - 1;
      assert init[i + 1..] == evs[i + 1..][..|init| - i - 1];
      assert init[i] == evs[i];
    }
    if NoChange(init) {
      forall j | 0 <= j < |evs| ensures !evs[j].Change? {
        if j < |init| { assert evs[j] == init[j]; }
      }
    }
    if NoChange(evs) {
      forall j | 0 <= j < |init| ensures !init[j].Change? { assert init[j] == evs[j]; }
    }
  }

  /** Two changes in a row: the second never reports a keypress. */
  lemma SecondChangeIsNotKeypress(pending: bool, evs: seq<CanvasEvent>, noBackspaceMode: bool, goalAchieved: bool)
    requires evs != [] && evs[|evs| - 1] == Change
    ensures !FlagAfterAll(pending, evs, noBackspaceMode, goalAchieved)
  {
  }

  /** The component's one piece of mutable state, `pendingKeypressRef`. */
  class Canvas {
    var pendingKeypress: bool

    constructor ()
      ensures !pendingKeypress
    {
      pendingKeypress := false;
    }

    /** `handleKeyDown`; `cancelled` is the `preventDefault` call. */
    method HandleKeyDown(e: KeyEvent, noBackspaceMode: bool, goalAchieved: bool) returns (cancelled: bool)
      modifies this
      ensures cancelled <==> KeyDownOutcome(e, noBackspaceMode, goalAchieved) == Cancelled
      ensures pendingKeypress == FlagAfter(old(pendingKeypress), KeyDown(e), noBackspaceMode, goalAchieved)
    {
      if noBackspaceMode && e.key == "Backspace" {
        return true;
      }
      if !goalAchieved && (e.metaKey || e.ctrlKey) {
        if e.key == "c" || e.key == "x" || e.key == "v" || e.key == "a" {
          return true;
        }
      }
      var isTypingKey := |e.key| == 1 || e.key == "Enter" || e.key == "Backspace" || e.key == "Unidentified" || e.key == "Process";
      if isTypingKey && !e.metaKey && !e.ctrlKey && !e.altKey {
        pendingKeypress := true;
      }
      cancelled := false;
    }

    /** `handleBeforeInput`. */
    method HandleBeforeInput()
      modifies this
      ensures pendingKeypress == FlagAfter(old(pendingKeypress), BeforeInput, false, false)
      ensures pendingKeypress
    {
      pendingKeypress := true;
    }

    /** `handleChange`: what `onChange` is told about the change, with the flag cleared. */
    method HandleChange() returns (isKeypress: bool)
      modifies this
      ensures isKeypress == old(pendingKeypress)
      ensures pendingKeypress == FlagAfter(old(pendingKeypress), Change, false, false)
      ensures !pendingKeypress
    {
      isKeypress := pendingKeypress;
      pendingKeypress := false;
    }
  }
}
