/**
 * `AccessibilityControls` (src/components/ui/AccessibilityControls.tsx): when
 * the three font-size buttons are enabled, and the panel's open/closed state.
 */
module AccessibilityControls {
  import opened Base
  import opened Accessibility

  /** "Smaller" is disabled at 'normal'. */
  predicate SmallerDisabled(f: FontSize) {
    f == Normal
  }

  /** "Larger" is disabled at 'x-large'. */
  predicate LargerDisabled(f: FontSize) {
    f == XLarge
  }

  /** "Reset" is disabled at 'normal'. */
  predicate ResetDisabled(f: FontSize) {
    f == Normal
  }

  /**
   * For the three declared sizes, a button is enabled exactly when pressing
   * it would change the size.
   */
  lemma {:induction false} EnabledIffEffective(f: FontSize)
    requires Recognized(f)
    ensures !SmallerDisabled(f) <==> Decrease(f) != f
    ensures !LargerDisabled(f) <==> Increase(f) != f
    ensures !ResetDisabled(f) <==> Normal != f
  {
    match f
    case Normal =>
    case Large =>
    case XLarge =>
  }

  /**
   * As written, a garbage stored size ("huge") reaches the state, where
   * "Smaller" and "Larger" are both enabled yet neither changes anything.
   */
  lemma GarbageStoredSizeEnablesNoOps()
    ensures var f := InitialFontSize(Some("huge"));
            !SmallerDisabled(f) && Decrease(f) == f &&
            !LargerDisabled(f) && Increase(f) == f
  {
    var f := InitialFontSize(Some("huge"));
    assert "huge"[0] != "normal"[0] && "huge"[0] != "large"[0] && "huge"[0] != "x-large"[0];
    assert f == Unrecognized("huge");
  }

  /**
   * With the stored size checked at start, every enabled button changes the
   * size, whatever was stored, and after any sequence of presses.
   */
  lemma {:induction false} ValidatedStartKeepsButtonsEffective(saved: Option<string>, presses: seq<Button>)
    ensures var f := Presses(ValidatedInitialFontSize(saved), presses);
            Recognized(f) &&
            (!SmallerDisabled(f) <==> Decrease(f) != f) &&
            (!LargerDisabled(f) <==> Increase(f) != f)
  {
    PressesKeepRecognized(ValidatedInitialFontSize(saved), presses);
    EnabledIffEffective(Presses(ValidatedInitialFontSize(saved), presses));
  }

  /** The three font-size buttons. */
  datatype Button = Smaller | Larger | Reset

  /** The size after pressing one button (the context transition it is wired to). */
  function Press(f: FontSize, b: Button): FontSize {
    match b
    case Smaller => Decrease(f)
    case Larger => Increase(f)
    case Reset => Normal
  }

  /** The size after a series of presses. */
  function Presses(f: FontSize, presses: seq<Button>): FontSize
    decreases |presses|
  {
    if presses == [] then f
    else
      var g := Press(f, presses[0]);
      Presses(g, presses[1..])
  }

  lemma {:induction false} PressesKeepRecognized(f: FontSize, presses: seq<Button>)
    requires Recognized(f)
    ensures Recognized(Presses(f, presses))
    decreases |presses|
  {
    if presses != [] {
      StepsAreSaturating(f);
      var g := Press(f, presses[0]);
      PressesKeepRecognized(g, presses[1..]);
    }
  }

  /** The floating button and the dialog: `isOpen`. */
  class Panel {
    var isOpen: bool

    /** The panel starts closed. */
    constructor ()
      ensures !isOpen
    {
      isOpen := false;
    }

    /** The floating "Open accessibility controls" button. */
    method Open()
      modifies this
      ensures isOpen
    {
      isOpen := true;
    }

    /** The "Close accessibility panel" button. */
    method Close()
      modifies this
      ensures !isOpen
    {
      isOpen := false;
    }
  }
}
