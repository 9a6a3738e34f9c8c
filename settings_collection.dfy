/**
 * The settings collection edited in the settings window
 * (code/Packages/settings_collection.py). IP validity (Python's ipaddress
 * module) and the operating system's dark-mode detection are oracles given
 * as parameters.
 */
module SettingsCollection {
  import opened Wrappers

  const AUTO_THEME := "Automatisch"
  const LIGHT_THEME := "Hell"
  const DARK_THEME := "Dunkel"
  const VALID_THEMES: seq<string> := [AUTO_THEME, LIGHT_THEME, DARK_THEME]

  /** ValueError raised by the constructor (three causes), AssertionError raised by set_theme. */
  datatype CollectionError = InvalidIp | InvalidTheme | InvalidInterval | ThemeAssertion

  /** The interval argument: an int, or any other Python value (rejected by isinstance). */
  datatype IntervalArg = IntArg(ms: int) | NonIntArg

  /** The field values of one collection. */
  datatype CollectionState = CollectionState(
    ip: string,
    intervall: int,
    theme: string,
    themeWasAuto: bool,
    speedWarningTreshold: real,
    speedWarningMinDiff: int,
    speedWarningMaxDiff: int)

  /** The dictionary of to_dict/from_dict; a missing key is None. */
  datatype CollectionDict = CollectionDict(
    ip: Option<string>,
    intervall: Option<IntervalArg>,
    theme: Option<string>,
    speedTreshold: Option<real>,
    minDiff: Option<int>,
    maxDiff: Option<int>)

  /** What set_theme stores: the resolved theme and whether it came from "Automatisch". */
  function ResolveTheme(theme: string, systemIsDark: bool): (r: Result<(string, bool), CollectionError>)
    ensures r.Failure? <==> theme !in VALID_THEMES
    ensures r.Failure? ==> r.error == ThemeAssertion
    ensures r.Success? ==> r.value.0 == LIGHT_THEME || r.value.0 == DARK_THEME
    ensures r.Success? ==> (r.value.1 <==> theme == AUTO_THEME)
    ensures r.Success? && theme != AUTO_THEME ==> r.value.0 == theme
    ensures r.Success? && theme == AUTO_THEME ==> (r.value.0 == DARK_THEME <==> systemIsDark)
  {
    if theme !in VALID_THEMES then Failure(ThemeAssertion)
    else if theme == AUTO_THEME then Success((if systemIsDark then DARK_THEME else LIGHT_THEME, true))
    else Success((theme, false))
  }

  /** The constructor: the three checks in order, then the fields with the theme resolved. */
  function Validate(ip: string, intervall: IntervalArg, theme: string, treshold: real, minDiff: int,
                    maxDiff: int, isValidIp: string -> bool, systemIsDark: bool): (r: Result<CollectionState, CollectionError>)
    ensures !isValidIp(ip) ==> r == Failure(InvalidIp)
    ensures isValidIp(ip) && theme !in VALID_THEMES ==> r == Failure(InvalidTheme)
    ensures isValidIp(ip) && theme in VALID_THEMES && intervall.NonIntArg? ==> r == Failure(InvalidInterval)
    ensures r.Success? <==> isValidIp(ip) && theme in VALID_THEMES && intervall.IntArg?
    ensures r.Success? ==> (
      && r.value.ip == ip && r.value.intervall == intervall.ms
      && r.value.speedWarningTreshold == treshold && r.value.speedWarningMinDiff == minDiff
      && r.value.speedWarningMaxDiff == maxDiff
      && (r.value.theme, r.value.themeWasAuto) == ResolveTheme(theme, systemIsDark).value)
  {
    if !isValidIp(ip) then Failure(InvalidIp)
    else if theme !in VALID_THEMES then Failure(InvalidTheme)
    else if intervall.NonIntArg? then Failure(InvalidInterval)
    else
      var resolved := ResolveTheme(theme, systemIsDark).value;
      Success(CollectionState(ip, intervall.ms, resolved.0, resolved.1, treshold, minDiff, maxDiff))
  }

  /** from_dict: defaults for missing keys, then the constructor. */
  function FromDictState(d: CollectionDict, isValidIp: string -> bool, systemIsDark: bool): (r: Result<CollectionState, CollectionError>)
    ensures d.ip.None? && !isValidIp("") ==> r == Failure(InvalidIp)
    ensures r == Validate(d.ip.GetOr(""), d.intervall.GetOr(IntArg(1000)), d.theme.GetOr(AUTO_THEME),
                          d.speedTreshold.GetOr(90.0), d.minDiff.GetOr(10), d.maxDiff.GetOr(50),
                          isValidIp, systemIsDark)
  {
    var theme := d.theme.GetOr(AUTO_THEME);
    var r := Validate(d.ip.GetOr(""), d.intervall.GetOr(IntArg(1000)), theme,
                      d.speedTreshold.GetOr(90.0), d.minDiff.GetOr(10), d.maxDiff.GetOr(50),
                      isValidIp, systemIsDark);
    if r.Success? && theme == AUTO_THEME then Success(r.value.(themeWasAuto := true)) else r
  }

  class Collection {
    var ip: string
    var intervall: int
    var theme: string
    var themeWasAuto: bool
    var speedWarningTreshold: real
    var speedWarningMinDiff: int
    var speedWarningMaxDiff: int

    ghost function State(): CollectionState
      reads this
    {
      CollectionState(ip, intervall, theme, themeWasAuto, speedWarningTreshold, speedWarningMinDiff, speedWarningMaxDiff)
    }

    /**
     * Fields that __init__ sets before and after set_theme. The source leaves
     * the theme unset until set_theme; the placeholder "Hell" here is never
     * seen, because Create always calls SetTheme next and overwrites it.
     */
    constructor Init(ip: string, intervall: int, treshold: real, minDiff: int, maxDiff: int)
      ensures this.ip == ip && this.intervall == intervall && !themeWasAuto && theme == LIGHT_THEME
      ensures speedWarningTreshold == treshold && speedWarningMinDiff == minDiff && speedWarningMaxDiff == maxDiff
    {
      this.ip := ip;
      this.intervall := intervall;
      this.theme := LIGHT_THEME;
      this.themeWasAuto := false;
      this.speedWarningTreshold := treshold;
      this.speedWarningMinDiff := minDiff;
      this.speedWarningMaxDiff := maxDiff;
    }

    /** set_theme: "Automatisch" is resolved by the dark-mode oracle; anything outside the three names fails the assertion. */
    method SetTheme(newTheme: string, systemIsDark: bool) returns (r: Option<CollectionError>)
      modifies this
      ensures r.Some? <==> ResolveTheme(newTheme, systemIsDark).Failure?
      ensures r.Some? ==> r.value == ThemeAssertion && State() == old(State())
      ensures r.None? ==> (theme, themeWasAuto) == ResolveTheme(newTheme, systemIsDark).value
      ensures r.None? ==> State() == old(State()).(theme := theme, themeWasAuto := themeWasAuto)
      ensures old(theme) in {LIGHT_THEME, DARK_THEME} ==> theme in {LIGHT_THEME, DARK_THEME}
    {
      if newTheme !in VALID_THEMES {
        return Some(ThemeAssertion);
      }
      if newTheme == AUTO_THEME {
        themeWasAuto := true;
        if systemIsDark {
          theme := DARK_THEME;
        } else {
          theme := LIGHT_THEME;
        }
      } else {
        themeWasAuto := false;
        theme := newTheme;
      }
      return None;
    }

    /** to_dict: "Automatisch" iff the theme was resolved automatically, otherwise the stored theme. */
    function ToDict(): (d: CollectionDict)
      reads this
      ensures d.ip == Some(ip) && d.intervall == Some(IntArg(intervall))
      ensures d.theme == Some(if themeWasAuto then AUTO_THEME else theme)
      ensures d.speedTreshold == Some(speedWarningTreshold)
      ensures d.minDiff == Some(speedWarningMinDiff) && d.maxDiff == Some(speedWarningMaxDiff)
    {
      CollectionDict(Some(ip), Some(IntArg(intervall)), Some(if themeWasAuto then AUTO_THEME else theme),
                     Some(speedWarningTreshold), Some(speedWarningMinDiff), Some(speedWarningMaxDiff))
    }
  }

  /** A collection state the constructor can produce under the given oracles. */
  ghost predicate Constructible(s: CollectionState, isValidIp: string -> bool, systemIsDark: bool) {
    && isValidIp(s.ip)
    && (s.theme == LIGHT_THEME || s.theme == DARK_THEME)
    && (s.themeWasAuto ==> (s.theme == DARK_THEME <==> systemIsDark))
  }

  /** Every state the constructor returns is Constructible. */
  lemma ValidateConstructible(ip: string, intervall: IntervalArg, theme: string, treshold: real, minDiff: int,
                              maxDiff: int, isValidIp: string -> bool, systemIsDark: bool)
    requires Validate(ip, intervall, theme, treshold, minDiff, maxDiff, isValidIp, systemIsDark).Success?
    ensures Constructible(Validate(ip, intervall, theme, treshold, minDiff, maxDiff, isValidIp, systemIsDark).value,
                          isValidIp, systemIsDark)
  {
  }

  /** The constructor, raising ValueError for a bad IP, then a bad theme, then a non-int interval. */
  method Create(ip: string, intervall: IntervalArg, theme: string, treshold: real, minDiff: int, maxDiff: int,
                isValidIp: string -> bool, systemIsDark: bool) returns (r: Result<Collection, CollectionError>)
    ensures r.Failure? <==> Validate(ip, intervall, theme, treshold, minDiff, maxDiff, isValidIp, systemIsDark).Failure?
    ensures r.Failure? ==> r.error == Validate(ip, intervall, theme, treshold, minDiff, maxDiff, isValidIp, systemIsDark).error
    ensures r.Success? ==> fresh(r.value)
    ensures r.Success? ==>
      r.value.State() == Validate(ip, intervall, theme, treshold, minDiff, maxDiff, isValidIp, systemIsDark).value
  {
    if !isValidIp(ip) {
      return Failure(InvalidIp);
    }
    if theme !in VALID_THEMES {
      return Failure(InvalidTheme);
    }
    if intervall.NonIntArg? {
      return Failure(InvalidInterval);
    }
    var c := new Collection.Init(ip, intervall.ms, treshold, minDiff, maxDiff);
    var failed := c.SetTheme(theme, systemIsDark);
    assert failed.None?;
    return Success(c);
  }

  /** from_dict: the constructor on the dictionary's values or their defaults. */
  method FromDict(d: CollectionDict, isValidIp: string -> bool, systemIsDark: bool) returns (r: Result<Collection, CollectionError>)
    ensures r.Failure? <==> FromDictState(d, isValidIp, systemIsDark).Failure?
    ensures r.Failure? ==> r.error == FromDictState(d, isValidIp, systemIsDark).error
    ensures r.Success? ==> fresh(r.value) && r.value.State() == FromDictState(d, isValidIp, systemIsDark).value
  {
    var theme := d.theme.GetOr(AUTO_THEME);
    r := Create(d.ip.GetOr(""), d.intervall.GetOr(IntArg(1000)), theme, d.speedTreshold.GetOr(90.0),
                d.minDiff.GetOr(10), d.maxDiff.GetOr(50), isValidIp, systemIsDark);
    if r.Success? && theme == AUTO_THEME {
      r.value.themeWasAuto := true;
    }
  }

  /**
   * Round trip: with the same dark-mode answer, rebuilding a constructible
   * collection from its dictionary gives back every field.
   */
  lemma FromDictToDict(c: Collection, isValidIp: string -> bool, systemIsDark: bool)
    requires Constructible(c.State(), isValidIp, systemIsDark)
    ensures FromDictState(c.ToDict(), isValidIp, systemIsDark) == Success(c.State())
  {
    var d := c.ToDict();
    if c.themeWasAuto {
      assert d.theme == Some(AUTO_THEME);
    } else {
      assert d.theme == Some(c.theme);
    }
  }
}
