/**
 * `AccessibilityProvider` (src/contexts/AccessibilityContext.tsx): a
 * saturating three-step font size, four independent switches, and how
 * each is read from and written to storage.
 */
module Accessibility {
  import opened Base

  /**
   * The font size as held in state. The source's type admits three values,
   * but the stored string is taken unchecked, so any other non-empty
   * string can end up in state too: `Unrecognized(raw)`.
   */
  datatype FontSize = Normal | Large | XLarge | Unrecognized(raw: string)

  /** One of the three sizes the type declares. */
  predicate Recognized(f: FontSize) {
    !f.Unrecognized?
  }

  /** `increaseFontSize`: normal → large → x-large, which stays put; anything else is kept. */
  function Increase(f: FontSize): (r: FontSize)
    ensures f == Normal ==> r == Large
    ensures f == Large ==> r == XLarge
    ensures f != Normal && f != Large ==> r == f
  {
    match f
    case Normal => Large
    case Large => XLarge
    case _ => f
  }

  /** `decreaseFontSize`: x-large → large → normal, which stays put; anything else is kept. */
  function Decrease(f: FontSize): (r: FontSize)
    ensures f == XLarge ==> r == Large
    ensures f == Large ==> r == Normal
    ensures f != XLarge && f != Large ==> r == f
  {
    match f
    case XLarge => Large
    case Large => Normal
    case _ => f
  }

  /** The order of the three sizes, for stating that the transitions move one step. */
  function Level(f: FontSize): int {
    match f
    case Normal => 0
    case Large => 1
    case XLarge => 2
    case Unrecognized(_) => -1
  }

  /** Increase and decrease move one level up or down, saturating at the ends, and keep a size recognized. */
  lemma StepsAreSaturating(f: FontSize)
    requires Recognized(f)
    ensures Recognized(Increase(f)) && Recognized(Decrease(f))
    ensures Level(Increase(f)) == if Level(f) < 2 then Level(f) + 1 else 2
    ensures Level(Decrease(f)) == if Level(f) > 0 then Level(f) - 1 else 0
  {
  }

  /** Decrease undoes increase below the top size, and increase undoes decrease above the bottom one. */
  lemma IncreaseThenDecrease(f: FontSize)
    ensures f == Normal || f == Large ==> Decrease(Increase(f)) == f
    ensures f == XLarge ==> Decrease(Increase(f)) == Large
    ensures f == Large || f == XLarge ==> Increase(Decrease(f)) == f
    ensures f == Normal ==> Increase(Decrease(f)) == Large
  {
  }

  /** The string stored under 'accessibility-font-size'. */
  function EncodeFontSize(f: FontSize): string {
    match f
    case Normal => "normal"
    case Large => "large"
    case XLarge => "x-large"
    case Unrecognized(raw) => raw
  }

  /** A stored string other than the three size names, and not empty. */
  predicate Garbage(s: string) {
    s != "" && s != "normal" && s != "large" && s != "x-large"
  }

  /** What the state can hold: the three sizes, or a garbage string. */
  predicate WellFormed(f: FontSize) {
    f.Unrecognized? ==> Garbage(f.raw)
  }

  /**
   * The initial font size as written: the stored string, cast without a
   * check, or 'normal' when it is absent or empty.
   */
  function InitialFontSize(saved: Option<string>): (f: FontSize)
    ensures WellFormed(f)
    ensures saved.None? || saved == Some("") ==> f == Normal
    ensures saved.Some? && saved.value != "" ==> EncodeFontSize(f) == saved.value
  {
    match saved
    case None => Normal
    case Some(s) =>
      if s == "" || s == "normal" then Normal
      else if s == "large" then Large
      else if s == "x-large" then XLarge
      else Unrecognized(s)
  }

  /** Writing the size and reading it back at the next start gives the same size. */
  lemma FontSizeRoundTrip(f: FontSize)
    requires WellFormed(f)
    ensures InitialFontSize(Some(EncodeFontSize(f))) == f
  {
  }

  /** The initial font size with the stored string checked: anything but a size name gives 'normal'. */
  function ValidatedInitialFontSize(saved: Option<string>): (f: FontSize)
    ensures Recognized(f)
    ensures saved.Some? && !Garbage(saved.value) ==> f == InitialFontSize(saved)
    ensures saved.Some? && Garbage(saved.value) ==> f == Normal
  {
    var f := InitialFontSize(saved);
    if f.Unrecognized? then Normal else f
  }

  /** `b.toString()`, as the provider stores a switch. */
  function EncodeBool(b: bool): string {
    if b then "true" else "false"
  }

  /** `getItem(k) === 'true'`: only the exact string "true" reads as on. */
  function DecodeBool(saved: Option<string>): (b: bool)
    ensures b <==> saved == Some("true")
  {
    saved == Some("true")
  }

  /** A stored switch reads back as the value written. */
  lemma BoolRoundTrip(b: bool)
    ensures DecodeBool(Some(EncodeBool(b))) == b
  {
  }

  /** Reduce motion: a stored preference wins; without one, the `prefers-reduced-motion` query decides. */
  function InitialReduceMotion(saved: Option<string>, prefersReducedMotion: bool): (b: bool)
    ensures saved.Some? ==> b == (saved.value == "true")
    ensures saved.None? ==> b == prefersReducedMotion
  {
    if saved.Some? then DecodeBool(saved) else prefersReducedMotion
  }

  /** What the provider reads from storage at start; `None` for a missing key. */
  datatype Stored = Stored(
    fontSize: Option<string>, highContrast: Option<string>, reduceMotion: Option<string>,
    screenReader: Option<string>, focusIndicators: Option<string>)

  /** The five settings as values. */
  datatype Snapshot = Snapshot(
    fontSize: FontSize, highContrast: bool, reduceMotion: bool,
    enhanceScreenReaderCompatibility: bool, focusIndicatorsEnhanced: bool)

  /** The initial settings read from storage, as written: the font size is the unchecked cast of `InitialFontSize`. */
  function Load(stored: Stored, prefersReducedMotion: bool): (s: Snapshot)
    ensures WellFormed(s.fontSize)
    ensures stored.fontSize.None? || stored.fontSize == Some("") ==> s.fontSize == Normal
    ensures stored.fontSize.Some? && stored.fontSize.value != "" ==> EncodeFontSize(s.fontSize) == stored.fontSize.value
    ensures s.highContrast <==> stored.highContrast == Some("true")
    ensures s.enhanceScreenReaderCompatibility <==> stored.screenReader == Some("true")
    ensures s.focusIndicatorsEnhanced <==> stored.focusIndicators == Some("true")
    ensures stored.reduceMotion.Some? ==> (s.reduceMotion <==> stored.reduceMotion == Some("true"))
    ensures stored.reduceMotion.None? ==> s.reduceMotion == prefersReducedMotion
  {
    Snapshot(InitialFontSize(stored.fontSize), DecodeBool(stored.highContrast),
             InitialReduceMotion(stored.reduceMotion, prefersReducedMotion),
             DecodeBool(stored.screenReader), DecodeBool(stored.focusIndicators))
  }

  /** The corrected start: `Load` with the font size checked (see `ValidatedInitialFontSize`). */
  function ValidatedLoad(stored: Stored, prefersReducedMotion: bool): (s: Snapshot)
    ensures Recognized(s.fontSize)
    ensures stored.fontSize.Some? && Garbage(stored.fontSize.value) ==> s.fontSize == Normal
    ensures s == Load(stored, prefersReducedMotion) <==> Recognized(Load(stored, prefersReducedMotion).fontSize)
  {
    var s := Load(stored, prefersReducedMotion);
    if s.fontSize.Unrecognized? then s.(fontSize := Normal) else s
  }

  /** What the effect writes back: the size name and four "true"/"false" strings. */
  function Persist(s: Snapshot): Stored {
    Stored(Some(EncodeFontSize(s.fontSize)), Some(EncodeBool(s.highContrast)), Some(EncodeBool(s.reduceMotion)),
           Some(EncodeBool(s.enhanceScreenReaderCompatibility)), Some(EncodeBool(s.focusIndicatorsEnhanced)))
  }

  /**
   * Settings written by the effect are read back unchanged at the next start,
   * whatever the media query says; a garbage size such as "huge" included.
   */
  lemma {:induction false} LoadPersist(s: Snapshot, prefersReducedMotion: bool)
    requires WellFormed(s.fontSize)
    ensures Load(Persist(s), prefersReducedMotion) == s
  {
    FontSizeRoundTrip(s.fontSize);
    BoolRoundTrip(s.highContrast);
    BoolRoundTrip(s.reduceMotion);
    BoolRoundTrip(s.enhanceScreenReaderCompatibility);
    BoolRoundTrip(s.focusIndicatorsEnhanced);
  }

  /** With the corrected start, declared sizes round-trip and a garbage size is replaced by 'normal'. */
  lemma {:induction false} ValidatedLoadPersist(s: Snapshot, prefersReducedMotion: bool)
    requires WellFormed(s.fontSize)
    ensures Recognized(s.fontSize) ==> ValidatedLoad(Persist(s), prefersReducedMotion) == s
    ensures !Recognized(s.fontSize) ==> ValidatedLoad(Persist(s), prefersReducedMotion) == s.(fontSize := Normal)
  {
    LoadPersist(s, prefersReducedMotion);
  }

  /** The provider's five settings. */
  class Settings {
    var fontSize: FontSize
    var highContrast: bool
    var reduceMotion: bool
    var enhanceScreenReaderCompatibility: bool
    var focusIndicatorsEnhanced: bool

    /** The size held is a declared size or a non-empty garbage string read from storage. */
    predicate Valid()
      reads this
    {
      WellFormed(fontSize)
    }

    /** The settings as a value. */
    function Current(): Snapshot
      reads this
    {
      Snapshot(fontSize, highContrast, reduceMotion, enhanceScreenReaderCompatibility, focusIndicatorsEnhanced)
    }

    /** Mounting the provider as written: the settings `Load` reads from storage, an unchecked size included. */
    constructor (stored: Stored, prefersReducedMotion: bool)
      ensures Valid() && Current() == Load(stored, prefersReducedMotion)
    {
      var s := Load(stored, prefersReducedMotion);
      fontSize := s.fontSize;
      highContrast := s.highContrast;
      reduceMotion := s.reduceMotion;
      enhanceScreenReaderCompatibility := s.enhanceScreenReaderCompatibility;
      focusIndicatorsEnhanced := s.focusIndicatorsEnhanced;
    }

    /** Mounting the corrected provider: only a declared size is ever held. */
    constructor Validated(stored: Stored, prefersReducedMotion: bool)
      ensures Valid() && Recognized(fontSize) && Current() == ValidatedLoad(stored, prefersReducedMotion)
    {
      var s := ValidatedLoad(stored, prefersReducedMotion);
      fontSize := s.fontSize;
      highContrast := s.highContrast;
      reduceMotion := s.reduceMotion;
      enhanceScreenReaderCompatibility := s.enhanceScreenReaderCompatibility;
      focusIndicatorsEnhanced := s.focusIndicatorsEnhanced;
    }

    /** `increaseFontSize`: one step up; a garbage size is kept. */
    method IncreaseFontSize()
      requires Valid()
      modifies this
      ensures Valid() && fontSize == Increase(old(fontSize))
      ensures Recognized(old(fontSize)) ==> Recognized(fontSize)
      ensures highContrast == old(highContrast) && reduceMotion == old(reduceMotion)
      ensures enhanceScreenReaderCompatibility == old(enhanceScreenReaderCompatibility)
      ensures focusIndicatorsEnhanced == old(focusIndicatorsEnhanced)
    {
      fontSize := Increase(fontSize);
    }

    /** `decreaseFontSize`: one step down; a garbage size is kept. */
    method DecreaseFontSize()
      requires Valid()
      modifies this
      ensures Valid() && fontSize == Decrease(old(fontSize))
      ensures Recognized(old(fontSize)) ==> Recognized(fontSize)
      ensures highContrast == old(highContrast) && reduceMotion == old(reduceMotion)
      ensures enhanceScreenReaderCompatibility == old(enhanceScreenReaderCompatibility)
      ensures focusIndicatorsEnhanced == old(focusIndicatorsEnhanced)
    {
      fontSize := Decrease(fontSize);
    }

    /** `resetFontSize`: normal from any size. */
    method ResetFontSize()
      modifies this
      ensures Valid() && fontSize == Normal
      ensures highContrast == old(highContrast) && reduceMotion == old(reduceMotion)
      ensures enhanceScreenReaderCompatibility == old(enhanceScreenReaderCompatibility)
      ensures focusIndicatorsEnhanced == old(focusIndicatorsEnhanced)
    {
      fontSize := Normal;
    }

    method ToggleHighContrast()
      modifies this
      ensures highContrast == !old(highContrast)
      ensures fontSize == old(fontSize) && reduceMotion == old(reduceMotion)
      ensures enhanceScreenReaderCompatibility == old(enhanceScreenReaderCompatibility)
      ensures focusIndicatorsEnhanced == old(focusIndicatorsEnhanced)
    {
      highContrast := !highContrast;
    }

    method ToggleReduceMotion()
      modifies this
      ensures reduceMotion == !old(reduceMotion)
      ensures fontSize == old(fontSize) && highContrast == old(highContrast)
      ensures enhanceScreenReaderCompatibility == old(enhanceScreenReaderCompatibility)
      ensures focusIndicatorsEnhanced == old(focusIndicatorsEnhanced)
    {
      reduceMotion := !reduceMotion;
    }

    method ToggleScreenReaderCompatibility()
      modifies this
      ensures enhanceScreenReaderCompatibility == !old(enhanceScreenReaderCompatibility)
      ensures fontSize == old(fontSize) && highContrast == old(highContrast)
      ensures reduceMotion == old(reduceMotion) && focusIndicatorsEnhanced == old(focusIndicatorsEnhanced)
    {
      enhanceScreenReaderCompatibility := !enhanceScreenReaderCompatibility;
    }

    method ToggleFocusIndicators()
      modifies this
      ensures focusIndicatorsEnhanced == !old(focusIndicatorsEnhanced)
      ensures fontSize == old(fontSize) && highContrast == old(highContrast)
      ensures reduceMotion == old(reduceMotion)
      ensures enhanceScreenReaderCompatibility == old(enhanceScreenReaderCompatibility)
    {
      focusIndicatorsEnhanced := !focusIndicatorsEnhanced;
    }
  }
}
