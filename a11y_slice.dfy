/**
 * The accessibility settings slice: four level counters that cycle, a text
 * alignment that cycles left, center, right, four on/off switches, a reset to
 * the initial settings, and two ways of merging a partial set of settings in.
 */
module A11ySlice {
  import opened Util

  datatype Settings = Settings(
    contrastLevel: int,
    textSizeLevel: int,
    textSpacingLevel: int,
    textAlign: string,
    lineHeightLevel: int,
    screenReader: bool,
    smartContrast: bool,
    highlightLinks: bool,
    cursorHighlight: bool)

  const InitialSettings := Settings(0, 0, 0, "left", 0, false, false, false, false)

  /** `(level + 1) % period`, with JavaScript's remainder. */
  function Cycle(level: int, period: int): (next: int)
    requires period > 0
    ensures level >= -1 ==> 0 <= next < period
    ensures 0 <= level < period - 1 ==> next == level + 1
    ensures level == period - 1 ==> next == 0
  {
    JsRem(level + 1, period)
  }

  /** Four contrast steps come back to the start, and no fewer do. */
  lemma ContrastPeriod(level: int)
    requires 0 <= level < 4
    ensures Cycle(Cycle(Cycle(Cycle(level, 4), 4), 4), 4) == level
    ensures Cycle(level, 4) != level && Cycle(Cycle(level, 4), 4) != level && Cycle(Cycle(Cycle(level, 4), 4), 4) != level
  {
  }

  /** Three steps of a three-level setting come back to the start, and no fewer do. */
  lemma LevelPeriod(level: int)
    requires 0 <= level < 3
    ensures Cycle(Cycle(Cycle(level, 3), 3), 3) == level
    ensures Cycle(level, 3) != level && Cycle(Cycle(level, 3), 3) != level
  {
  }

  /** A level pushed below -1 by a payload never cycles to a positive level: the remainder keeps the sign. */
  lemma NegativeLevelStaysOut(level: int, period: int)
    requires period > 0 && level < -1
    ensures Cycle(level, period) <= 0
  {
  }

  /** The next alignment: left, center, right, then left again; anything else becomes left. */
  function NextAlign(align: string): (next: string)
    ensures align == "left" ==> next == "center"
    ensures align == "center" ==> next == "right"
    ensures align != "left" && align != "center" ==> next == "left"
  {
    if align == "left" then "center" else if align == "center" then "right" else "left"
  }

  /** Three steps bring a known alignment back; an unknown one is replaced by left and then cycles. */
  lemma AlignCycle(align: string)
    ensures align in {"left", "center", "right"} ==> NextAlign(NextAlign(NextAlign(align))) == align
    ensures NextAlign(NextAlign(NextAlign(align))) in {"left", "center", "right"}
  {
  }

  /** A partial settings payload: a missing key is `None`. */
  datatype SettingsUpdate = SettingsUpdate(
    contrastLevel: Option<int>,
    textSizeLevel: Option<int>,
    textSpacingLevel: Option<int>,
    textAlign: Option<string>,
    lineHeightLevel: Option<int>,
    screenReader: Option<bool>,
    smartContrast: Option<bool>,
    highlightLinks: Option<bool>,
    cursorHighlight: Option<bool>)

  function Pick<T>(update: Option<T>, current: T): T
  {
    if update.Some? then update.value else current
  }

  /** `{ ...s, ...payload }`. */
  function Merge(s: Settings, u: SettingsUpdate): (r: Settings)
    ensures u.contrastLevel.Some? ==> r.contrastLevel == u.contrastLevel.value
    ensures u.contrastLevel.None? ==> r.contrastLevel == s.contrastLevel
    ensures u.textSizeLevel.Some? ==> r.textSizeLevel == u.textSizeLevel.value
    ensures u.textSizeLevel.None? ==> r.textSizeLevel == s.textSizeLevel
    ensures u.textSpacingLevel.Some? ==> r.textSpacingLevel == u.textSpacingLevel.value
    ensures u.textSpacingLevel.None? ==> r.textSpacingLevel == s.textSpacingLevel
    ensures u.textAlign.Some? ==> r.textAlign == u.textAlign.value
    ensures u.textAlign.None? ==> r.textAlign == s.textAlign
    ensures u.lineHeightLevel.Some? ==> r.lineHeightLevel == u.lineHeightLevel.value
    ensures u.lineHeightLevel.None? ==> r.lineHeightLevel == s.lineHeightLevel
    ensures u.screenReader.Some? ==> r.screenReader == u.screenReader.value
    ensures u.screenReader.None? ==> r.screenReader == s.screenReader
    ensures u.smartContrast.Some? ==> r.smartContrast == u.smartContrast.value
    ensures u.smartContrast.None? ==> r.smartContrast == s.smartContrast
    ensures u.highlightLinks.Some? ==> r.highlightLinks == u.highlightLinks.value
    ensures u.highlightLinks.None? ==> r.highlightLinks == s.highlightLinks
    ensures u.cursorHighlight.Some? ==> r.cursorHighlight == u.cursorHighlight.value
    ensures u.cursorHighlight.None? ==> r.cursorHighlight == s.cursorHighlight
  {
    Settings(
      Pick(u.contrastLevel, s.contrastLevel),
      Pick(u.textSizeLevel, s.textSizeLevel),
      Pick(u.textSpacingLevel, s.textSpacingLevel),
      Pick(u.textAlign, s.textAlign),
      Pick(u.lineHeightLevel, s.lineHeightLevel),
      Pick(u.screenReader, s.screenReader),
      Pick(u.smartContrast, s.smartContrast),
      Pick(u.highlightLinks, s.highlightLinks),
      Pick(u.cursorHighlight, s.cursorHighlight))
  }

  /** Every key given: the payload replaces the settings outright. */
  function Full(s: Settings): SettingsUpdate
  {
    SettingsUpdate(Some(s.contrastLevel), Some(s.textSizeLevel), Some(s.textSpacingLevel), Some(s.textAlign),
                   Some(s.lineHeightLevel), Some(s.screenReader), Some(s.smartContrast), Some(s.highlightLinks),
                   Some(s.cursorHighlight))
  }

  /** An empty payload changes nothing, a full one replaces everything, and merging twice is merging once. */
  lemma MergeLaws(s: Settings, t: Settings, u: SettingsUpdate)
    ensures Merge(s, SettingsUpdate(None, None, None, None, None, None, None, None, None)) == s
    ensures Merge(s, Full(t)) == t
    ensures Merge(Merge(s, u), u) == Merge(s, u)
  {
  }

  /** Levels that a cycle keeps in range. */
  ghost predicate InRange(s: Settings)
  {
    0 <= s.contrastLevel < 4 && 0 <= s.textSizeLevel < 3 && 0 <= s.textSpacingLevel < 3 &&
    0 <= s.lineHeightLevel < 3 && s.textAlign in {"left", "center", "right"}
  }

  class A11yStore {
    var contrastLevel: int
    var textSizeLevel: int
    var textSpacingLevel: int
    var textAlign: string
    var lineHeightLevel: int
    var screenReader: bool
    var smartContrast: bool
    var highlightLinks: bool
    var cursorHighlight: bool

    /** The fields as one value. */
    function Current(): Settings
      reads this
    {
      Settings(contrastLevel, textSizeLevel, textSpacingLevel, textAlign, lineHeightLevel,
               screenReader, smartContrast, highlightLinks, cursorHighlight)
    }

    constructor()
      ensures Current() == InitialSettings
    {
      contrastLevel := 0;
      textSizeLevel := 0;
      textSpacingLevel := 0;
      textAlign := "left";
      lineHeightLevel := 0;
      screenReader := false;
      smartContrast := false;
      highlightLinks := false;
      cursorHighlight := false;
    }

    method CycleContrast()
      modifies this
      ensures Current() == old(Current()).(contrastLevel := Cycle(old(contrastLevel), 4))
      ensures InRange(old(Current())) ==> InRange(Current())
    {
      contrastLevel := JsRem(contrastLevel + 1, 4);
    }

    method CycleTextSize()
      modifies this
      ensures Current() == old(Current()).(textSizeLevel := Cycle(old(textSizeLevel), 3))
      ensures InRange(old(Current())) ==> InRange(Current())
    {
      textSizeLevel := JsRem(textSizeLevel + 1, 3);
    }

    method CycleTextSpacing()
      modifies this
      ensures Current() == old(Current()).(textSpacingLevel := Cycle(old(textSpacingLevel), 3))
      ensures InRange(old(Current())) ==> InRange(Current())
    {
      textSpacingLevel := JsRem(textSpacingLevel + 1, 3);
    }

    method CycleLineHeight()
      modifies this
      ensures Current() == old(Current()).(lineHeightLevel := Cycle(old(lineHeightLevel), 3))
      ensures InRange(old(Current())) ==> InRange(Current())
    {
      lineHeightLevel := JsRem(lineHeightLevel + 1, 3);
    }

    method CycleTextAlign()
      modifies this
      ensures Current() == old(Current()).(textAlign := NextAlign(old(textAlign)))
      ensures InRange(old(Current())) ==> InRange(Current())
    {
      if textAlign == "left" {
        textAlign := "center";
      } else if textAlign == "center" {
        textAlign := "right";
      } else {
        textAlign := "left";
      }
    }

    method ToggleScreenReader()
      modifies this
      ensures Current() == FlipScreenReader(old(Current()))
    {
      screenReader := !screenReader;
    }

    method ToggleSmartContrast()
      modifies this
      ensures Current() == FlipSmartContrast(old(Current()))
    {
      smartContrast := !smartContrast;
    }

    method ToggleHighlightLinks()
      modifies this
      ensures Current() == FlipHighlightLinks(old(Current()))
    {
      highlightLinks := !highlightLinks;
    }

    method ToggleCursorHighlight()
      modifies this
      ensures Current() == FlipCursorHighlight(old(Current()))
    {
      cursorHighlight := !cursorHighlight;
    }

    /** `Object.assign(state, initialState)`. */
    method ResetAll()
      modifies this
      ensures Current() == InitialSettings
    {
      SetFields(InitialSettings);
    }

    /** `{ ...state, ...payload }` returned as the new state. */
    method SetAllA11y(payload: SettingsUpdate)
      modifies this
      ensures Current() == Merge(old(Current()), payload)
    {
      SetFields(Merge(Current(), payload));
    }

    /** `Object.assign(state, payload)`: the same merge, done in place. */
    method LoadA11y(payload: SettingsUpdate)
      modifies this
      ensures Current() == Merge(old(Current()), payload)
    {
      contrastLevel := Pick(payload.contrastLevel, contrastLevel);
      textSizeLevel := Pick(payload.textSizeLevel, textSizeLevel);
      textSpacingLevel := Pick(payload.textSpacingLevel, textSpacingLevel);
      textAlign := Pick(payload.textAlign, textAlign);
      lineHeightLevel := Pick(payload.lineHeightLevel, lineHeightLevel);
      screenReader := Pick(payload.screenReader, screenReader);
      smartContrast := Pick(payload.smartContrast, smartContrast);
      highlightLinks := Pick(payload.highlightLinks, highlightLinks);
      cursorHighlight := Pick(payload.cursorHighlight, cursorHighlight);
    }

    method SetFields(s: Settings)
      modifies this
      ensures Current() == s
    {
      contrastLevel := s.contrastLevel;
      textSizeLevel := s.textSizeLevel;
      textSpacingLevel := s.textSpacingLevel;
      textAlign := s.textAlign;
      lineHeightLevel := s.lineHeightLevel;
      screenReader := s.screenReader;
      smartContrast := s.smartContrast;
      highlightLinks := s.highlightLinks;
      cursorHighlight := s.cursorHighlight;
    }
  }

  /** The toggles on the settings value: each flips one switch. */
  function FlipScreenReader(s: Settings): Settings { s.(screenReader := !s.screenReader) }
  function FlipSmartContrast(s: Settings): Settings { s.(smartContrast := !s.smartContrast) }
  function FlipHighlightLinks(s: Settings): Settings { s.(highlightLinks := !s.highlightLinks) }
  function FlipCursorHighlight(s: Settings): Settings { s.(cursorHighlight := !s.cursorHighlight) }

  /** Each toggle is an involution and leaves the other eight settings alone. */
  lemma TogglesAreInvolutions(s: Settings)
    ensures FlipScreenReader(FlipScreenReader(s)) == s && FlipSmartContrast(FlipSmartContrast(s)) == s
    ensures FlipHighlightLinks(FlipHighlightLinks(s)) == s && FlipCursorHighlight(FlipCursorHighlight(s)) == s
    ensures FlipScreenReader(s).screenReader != s.screenReader && FlipScreenReader(s).(screenReader := s.screenReader) == s
    ensures FlipSmartContrast(s).smartContrast != s.smartContrast && FlipSmartContrast(s).(smartContrast := s.smartContrast) == s
    ensures FlipHighlightLinks(s).highlightLinks != s.highlightLinks && FlipHighlightLinks(s).(highlightLinks := s.highlightLinks) == s
    ensures FlipCursorHighlight(s).cursorHighlight != s.cursorHighlight && FlipCursorHighlight(s).(cursorHighlight := s.cursorHighlight) == s
  {
  }

  /** The initial settings are in range, so every cycle keeps them there. */
  lemma InitialInRange()
    ensures InRange(InitialSettings)
  {
  }
}
