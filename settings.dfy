/** The application's settings groups and their dictionary form (code/backend/settings.py). */
module Settings {
  import opened Wrappers
  import opened Themes
  import SC = SettingsCollection

  datatype GeneralSettings = GeneralSettings(ip: string, intervall: int, theme: Theme)

  datatype WarningSettings = WarningSettings(
    speedTreshold: real,
    minDiff: int,
    maxDiff: int,
    machThreshold: real,
    minMachDiff: real,
    maxMachDiff: real)

  datatype GlobalSettings = GlobalSettings(general: GeneralSettings, warning: WarningSettings)

  /** The dataclass defaults. */
  const DEFAULT_GENERAL := GeneralSettings("127.0.0.1", 100, Auto)
  const DEFAULT_WARNING := WarningSettings(90.0, 10, 50, 95.0, 0.05, 0.2)

  /** GlobalSettings.__init__: a missing group takes its defaults. */
  function NewGlobalSettings(general: Option<GeneralSettings>, warning: Option<WarningSettings>): (s: GlobalSettings)
    ensures general.Some? ==> s.general == general.value
    ensures general.None? ==> s.general.ip == "127.0.0.1" && s.general.intervall == 100 && s.general.theme == Auto
    ensures warning.Some? ==> s.warning == warning.value
    ensures warning.None? ==> s.warning.speedTreshold == 90.0 && s.warning.minDiff == 10 && s.warning.maxDiff == 50
    ensures warning.None? ==> s.warning.machThreshold == 95.0 && s.warning.minMachDiff == 0.05 && s.warning.maxMachDiff == 0.2
  {
    GlobalSettings(general.GetOr(DEFAULT_GENERAL), warning.GetOr(DEFAULT_WARNING))
  }

  /** A theme as it sits in a settings dictionary: the integer to_dict writes, or the enum from_dict writes back. */
  datatype ThemeEntry = IntTheme(i: int) | EnumTheme(t: Theme)

  /** Dictionaries; a missing key is None. */
  datatype GeneralDict = GeneralDict(ip: Option<string>, intervall: Option<int>, theme: Option<ThemeEntry>)
  datatype WarningDict = WarningDict(
    speedTreshold: Option<real>,
    minDiff: Option<int>,
    maxDiff: Option<int>,
    machThreshold: Option<real>,
    minMachDiff: Option<real>,
    maxMachDiff: Option<real>)
  datatype SettingsDict = SettingsDict(general: Option<GeneralDict>, warning: Option<WarningDict>)

  datatype SettingsError = ThemeValueError | NotGlobalSettings

  /** GeneralSettings.to_dict: the theme is written as its integer value. */
  function GeneralToDict(g: GeneralSettings): (d: GeneralDict)
    ensures d.theme == Some(IntTheme(Value(g.theme)))
    ensures d.ip == Some(g.ip) && d.intervall == Some(g.intervall)
  {
    GeneralDict(Some(g.ip), Some(g.intervall), Some(IntTheme(Value(g.theme))))
  }

  /** The warning group's field dictionary (its __dict__). */
  function WarningToDict(w: WarningSettings): WarningDict {
    WarningDict(Some(w.speedTreshold), Some(w.minDiff), Some(w.maxDiff),
                Some(w.machThreshold), Some(w.minMachDiff), Some(w.maxMachDiff))
  }

  function ToDict(s: GlobalSettings): (d: SettingsDict)
    ensures d.general == Some(GeneralToDict(s.general)) && d.warning == Some(WarningToDict(s.warning))
  {
    SettingsDict(Some(GeneralToDict(s.general)), Some(WarningToDict(s.warning)))
  }

  /**
   * GeneralSettings(**d): missing fields take their defaults. An integer
   * theme yields None here, although the dataclass would store the int:
   * from_dict, the only caller, converts an integer theme to the enum
   * first, so that case never reaches this function.
   */
  function GeneralFromDict(d: GeneralDict): (g: Option<GeneralSettings>)
    ensures g.Some? <==> (d.theme.None? || d.theme.value.EnumTheme?)
    ensures g.Some? ==> g.value.ip == d.ip.GetOr("127.0.0.1") && g.value.intervall == d.intervall.GetOr(100)
    ensures g.Some? && d.theme.Some? ==> g.value.theme == d.theme.value.t
    ensures g.Some? && d.theme.None? ==> g.value.theme == Auto
  {
    if d.theme.Some? && d.theme.value.IntTheme? then None
    else Some(GeneralSettings(d.ip.GetOr("127.0.0.1"), d.intervall.GetOr(100),
                              if d.theme.Some? then d.theme.value.t else Auto))
  }

  /** WarningSettings(**d): missing fields take their defaults. */
  function WarningFromDict(d: WarningDict): (w: WarningSettings)
    ensures w.speedTreshold == d.speedTreshold.GetOr(90.0) && w.minDiff == d.minDiff.GetOr(10)
    ensures w.maxDiff == d.maxDiff.GetOr(50) && w.machThreshold == d.machThreshold.GetOr(95.0)
    ensures w.minMachDiff == d.minMachDiff.GetOr(0.05) && w.maxMachDiff == d.maxMachDiff.GetOr(0.2)
  {
    WarningSettings(d.speedTreshold.GetOr(90.0), d.minDiff.GetOr(10), d.maxDiff.GetOr(50),
                    d.machThreshold.GetOr(95.0), d.minMachDiff.GetOr(0.05), d.maxMachDiff.GetOr(0.2))
  }

  /**
   * from_dict. An integer theme is converted with Theme(...) (ValueError when
   * it names no member) and written back into the caller's dictionary; the
   * result pairs the settings with the dictionary as the caller sees it afterwards.
   */
  function FromDict(data: SettingsDict): (r: Result<(GlobalSettings, SettingsDict), SettingsError>)
    ensures r.Failure? <==>
      (data.general.Some? && data.general.value.theme.Some? && data.general.value.theme.value.IntTheme?
       && FromValue(data.general.value.theme.value.i).None?)
    ensures r.Success? && data.general.None? ==> r.value.0.general == DEFAULT_GENERAL
    ensures r.Success? && data.warning.None? ==> r.value.0.warning == DEFAULT_WARNING
    ensures r.Success? && data.warning.Some? ==> r.value.0.warning == WarningFromDict(data.warning.value)
    ensures r.Success? && data.general.Some? ==>
      r.value.0.general.ip == data.general.value.ip.GetOr("127.0.0.1")
      && r.value.0.general.intervall == data.general.value.intervall.GetOr(100)
    ensures r.Success? && data.general.Some? && data.general.value.theme.Some?
            && data.general.value.theme.value.IntTheme? ==>
      Value(r.value.0.general.theme) == data.general.value.theme.value.i
    ensures r.Success? && data.general.Some? && data.general.value.theme.Some?
            && data.general.value.theme.value.EnumTheme? ==>
      r.value.0.general.theme == data.general.value.theme.value.t
    ensures r.Success? && data.general.Some? && data.general.value.theme.None? ==>
      r.value.0.general.theme == Auto
    ensures r.Success? ==> r.value.1.warning == data.warning
    ensures r.Success? ==>
      r.value.1.general ==
        if data.general.Some? && data.general.value.theme.Some? && data.general.value.theme.value.IntTheme?
        then Some(data.general.value.(theme := Some(EnumTheme(FromValue(data.general.value.theme.value.i).value))))
        else data.general
  {
    var data' :=
      if data.general.Some? && data.general.value.theme.Some? && data.general.value.theme.value.IntTheme? then
        var t := FromValue(data.general.value.theme.value.i);
        if t.None? then None
        else Some(data.(general := Some(data.general.value.(theme := Some(EnumTheme(t.value))))))
      else Some(data);
    if data'.None? then Failure(ThemeValueError)
    else
      var general := if data'.value.general.Some? then GeneralFromDict(data'.value.general.value).value else DEFAULT_GENERAL;
      var warning := if data'.value.warning.Some? then WarningFromDict(data'.value.warning.value) else DEFAULT_WARNING;
      Success((GlobalSettings(general, warning), data'.value))
  }

  /**
   * The caller's dictionary after from_dict holds no integer theme, so
   * reading it again gives the same settings and leaves it as it is.
   */
  lemma FromDictIdempotent(data: SettingsDict)
    requires FromDict(data).Success?
    ensures FromDict(FromDict(data).value.1) == FromDict(data)
  {
  }

  /** Round trip: reading back what to_dict wrote gives the same settings. */
  lemma FromDictToDict(s: GlobalSettings)
    ensures FromDict(ToDict(s)).Success?
    ensures FromDict(ToDict(s)).value.0 == s
  {
    FromValueRoundTrip(s.general.theme);
  }

  /** The other operand of ==: a GlobalSettings, or any other object. */
  datatype Comparand = Settings(s: GlobalSettings) | OtherObject

  /** __eq__: compares the dictionaries; another type fails the assertion. */
  function Equals(a: GlobalSettings, b: Comparand): (r: Result<bool, SettingsError>)
    ensures b.OtherObject? ==> r == Failure(NotGlobalSettings)
    ensures b.Settings? ==> r == Success(ToDict(a) == ToDict(b.s))
  {
    if b.OtherObject? then Failure(NotGlobalSettings) else Success(ToDict(a) == ToDict(b.s))
  }

  /** Comparing dictionaries is comparing the settings: to_dict loses nothing. */
  lemma EqualsIffSame(a: GlobalSettings, b: GlobalSettings)
    ensures Equals(a, Settings(b)) == Success(a == b)
  {
    if ToDict(a) == ToDict(b) {
      assert Value(a.general.theme) == Value(b.general.theme);
    }
  }

  /**
   * from_settingsCollection: ip, interval and the three speed fields are copied,
   * the theme name is looked up in the reversed THEME_NAMES (AUTO when absent),
   * and the mach fields keep their defaults.
   */
  function FromSettingsCollection(c: SC.CollectionState): (s: GlobalSettings)
    ensures s.general.ip == c.ip && s.general.intervall == c.intervall
    ensures s.warning.speedTreshold == c.speedWarningTreshold
    ensures s.warning.minDiff == c.speedWarningMinDiff && s.warning.maxDiff == c.speedWarningMaxDiff
    ensures s.warning.machThreshold == 95.0 && s.warning.minMachDiff == 0.05 && s.warning.maxMachDiff == 0.2
    ensures c.theme !in ThemesByName() ==> s.general.theme == Auto
  {
    var byName := ThemesByName();
    GlobalSettings(
      GeneralSettings(c.ip, c.intervall, if c.theme in byName then byName[c.theme] else Auto),
      WarningSettings(c.speedWarningTreshold, c.speedWarningMinDiff, c.speedWarningMaxDiff,
                      DEFAULT_WARNING.machThreshold, DEFAULT_WARNING.minMachDiff, DEFAULT_WARNING.maxMachDiff))
  }

  /**
   * A collection always holds a resolved theme ("Hell" or "Dunkel"), so the
   * converted theme is LIGHT or DARK, never AUTO, even when the user chose
   * "Automatisch".
   */
  lemma FromSettingsCollectionTheme(c: SC.CollectionState)
    requires c.theme == SC.LIGHT_THEME || c.theme == SC.DARK_THEME
    ensures FromSettingsCollection(c).general.theme == (if c.theme == SC.DARK_THEME then Dark else Light)
    ensures THEME_NAMES[FromSettingsCollection(c).general.theme] == c.theme
  {
    ThemesByNameInverts();
    ThemeNamesComplete();
  }
}
