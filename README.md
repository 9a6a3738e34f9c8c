# War Thunder Copilot: speed-warning pipeline

A Dafny model of the part of War Thunder Copilot that turns the game's
local telemetry endpoint into audible speed warnings:

- **Telemetry fetcher** (`WtFetcher`, `telemetry.dfy`): parses the
  endpoint's basic and full telemetry dictionaries into a telemetry record.
  Each category is found under the first of its alternative keys, and the
  full telemetry is the fallback for each key. A missing required category
  is an error; a missing optional one gets its default.
- **Plane** (`Plane`, `plane.dfy`): the plane built from the database
  record. It holds the normalised speed limits, the available flap stages,
  the flap deployment table and the safe flap stage for the current
  airspeed. The three general flap percentages are one object shared by
  every plane, and each construction updates it in place.
- **Warning engine** (`WarningEngine`, `warning_engine.dfy`): the warning
  thresholds, banded between limit minus max diff and limit minus min
  diff. It also covers the flap stage for a deployment percentage and the
  per-telemetry warnings: airframe, Mach, gear, flap and the "flaps may now
  be deployed" information. Finally it settles these candidates against the
  sounding warnings into stop and play signals. The list of sounding
  warnings is shared by every engine, and so is the standard threshold
  settings object, which the constructor's arguments modify in place.
- **Worker** (`Worker`, `worker.dfy`): one tick of the data fetcher. It
  fetches the record and signals it, builds a new plane when the plane type
  changed, and switches the timer between the normal and the error
  interval.
- **Sound engine** (`SoundEngine`, `Sounds`, `sound_engine.dfy`,
  `sounds.dfy`): the sound and playable-sound records and the sound manager
  (path, volume and master volume mappings). It also covers the scheduled
  sound queue (add, remove, pop of the earliest due entry with
  rescheduling of periodic sounds) and the four warning sounds.
- **Settings** (`Settings`, `SettingsCollection`, `Themes`): the settings
  dataclasses with their dictionary round trip and the validated settings
  collection. It includes the theme enumeration and its German display
  names.

Python's dynamic values are modelled as `Values.Value` (`Null`, a number,
a string). Every comparison the source would make against `None` or a
string is a `TypeError` failure. Exceptions become `Result`/`Option`
values, and Qt signals become returned event lists. Objects the source
mutates in place, or shares between instances, are classes passed by
reference.

Where the documentation and the code disagree, the model follows the code:

- `on_new_plane` does not reset the informed flap state.
- The safe-stage walks compare with `<` against the stage limit.
- `GeneralSettings` defaults to IP `127.0.0.1` and interval 100.
- The flap deployment table is meant to rise and to end at 100%, but the percentages are shared by all planes (code/Packages/Models/Plane.py:9-13 and 71-74). After a combat-only plane, a plane with all three stages reads combat 100, start 50, landing 100; a plane without flaps gets the single entry 0 (`WarningEngine.SharedPercentagesBreakOrder`).

## Model

| member | source | states |
|---|---|---|
| Values.Greater | code/backend/warningEngine.py:97 | A Python `>` against a number: a TypeError unless the value is a number, otherwise true exactly when it exceeds it |
| Values.Trunc | code/backend/warningEngine.py:298 | `int()` truncates toward zero: within 1 of the argument, below it for positives and above it for negatives |
| Themes.Value | code/Models/basic.py:5-8 | The enum values are 0, 1 and 2, one per theme, in both directions |
| Themes.FromValue | code/backend/settings.py:65-66 | `Theme(int)` succeeds exactly for 0..2 and inverts the enum value |
| Themes.FromValueRoundTrip | code/backend/settings.py:20 | Converting a theme to its value and back gives the theme |
| Themes.DictOf | code/Models/basic.py:11-15 | A dictionary literal's keys are the listed keys |
| Themes.ReversedDict | code/backend/settings.py:75 | The reversed dictionary's keys are the listed values |
| Themes.DictOfAt | code/Models/basic.py:11-15 | With distinct keys each listed key maps to its listed value |
| Themes.ReversedDictAt | code/backend/settings.py:75 | With distinct values each listed value maps back to its key |
| Themes.ThemeNamesTable | code/Models/basic.py:11-15 | THEME_NAMES has exactly the three themes as keys, with names Hell, Dunkel, Automatisch |
| Themes.ThemeNamesComplete | code/Models/basic.py:11-15 | THEME_NAMES names every theme, with three distinct names Hell, Dunkel, Automatisch |
| Themes.ThemesByNameTable | code/backend/settings.py:75 | The reversed table has exactly the three names as keys and maps each back to its theme |
| Themes.ThemesByNameInverts | code/backend/settings.py:75 | The reversed name table is a two-sided inverse of THEME_NAMES on exactly the three names |
| SettingsCollection.ResolveTheme | code/Packages/settings_collection.py:55-77 | set_theme fails its assertion exactly for an unknown theme; otherwise the stored theme is Hell or Dunkel, "Automatisch" follows the system darkness and sets the auto flag, and any other theme is kept |
| SettingsCollection.Validate | code/Packages/settings_collection.py:15-39 | The constructor fails with an invalid IP first, then an unknown theme, then a non-int interval; succeeds exactly when all three pass, storing the arguments and the resolved theme |
| SettingsCollection.FromDictState | code/Packages/settings_collection.py:106-120 | from_dict is the constructor on the dictionary's values or the defaults "", 1000, "Automatisch", 90, 10, 50; a missing IP fails as invalid |
| SettingsCollection.Collection.Init | code/Packages/settings_collection.py:33-39 | The plain fields are stored as given before the theme is set |
| SettingsCollection.Collection.SetTheme | code/Packages/settings_collection.py:55-77 | Raises exactly when ResolveTheme fails and then changes nothing; otherwise stores the resolved theme and auto flag and nothing else; a Hell/Dunkel theme stays Hell/Dunkel |
| SettingsCollection.Collection.ToDict | code/Packages/settings_collection.py:91-104 | Exports every field, with "Automatisch" in place of the resolved theme when it was automatic |
| SettingsCollection.ValidateConstructible | code/Packages/settings_collection.py:15-39 | Every state the constructor produces has a valid IP and a resolved Hell/Dunkel theme that matches the system darkness when it was automatic, which is what FromDictToDict needs |
| SettingsCollection.Create | code/Packages/settings_collection.py:15-39 | The constructor method fails exactly as Validate does and otherwise returns a fresh collection in Validate's state |
| SettingsCollection.FromDict | code/Packages/settings_collection.py:106-120 | The from_dict method fails exactly as FromDictState does and otherwise returns a fresh collection in its state |
| SettingsCollection.FromDictToDict | code/Packages/settings_collection.py:91-120 | Round trip: from_dict of to_dict rebuilds the same collection state |
| Settings.NewGlobalSettings | code/backend/settings.py:46-48 | Missing groups get the dataclass defaults (127.0.0.1, 100, AUTO; 90.0, 10, 50, 95.0, 0.05, 0.2) |
| Settings.GeneralToDict | code/backend/settings.py:16-21 | to_dict stores the IP, the interval and the theme's integer value |
| Settings.ToDict | code/backend/settings.py:51-56 | The dictionary holds both groups' dictionaries |
| Settings.GeneralFromDict | code/backend/settings.py:65-68 | Builds the general settings from the given keys or their defaults (theme AUTO); yields nothing exactly for a theme still given as an integer, which from_dict converts beforehand |
| Settings.WarningFromDict | code/backend/settings.py:69 | Every warning field is the given value or its default |
| Settings.FromDict | code/backend/settings.py:62-71 | from_dict fails exactly on an integer theme outside the enum; missing groups and fields are defaults, a missing theme is AUTO and an enum theme is kept; an integer theme becomes its enum member, which is also written back into the caller's dictionary while everything else in it stays as it was |
| Settings.FromDictIdempotent | code/backend/settings.py:62-71 | Reading the caller's dictionary again after from_dict gives the same settings and leaves it unchanged |
| Settings.FromDictToDict | code/backend/settings.py:51-71 | Round trip: from_dict of to_dict gives back the same settings |
| Settings.Equals | code/backend/settings.py:58-60 | `==` asserts the other side is a GlobalSettings and compares the dictionaries |
| Settings.EqualsIffSame | code/backend/settings.py:58-60 | Two settings compare equal exactly when they are the same value |
| Settings.FromSettingsCollection | code/backend/settings.py:73-87 | Copies IP, interval and the three speed-warning values; the Mach values stay default; an unknown theme name becomes AUTO |
| Settings.FromSettingsCollectionTheme | code/backend/settings.py:75-80 | A resolved collection theme maps to the theme whose display name it is |
| SoundEngine.NewSound | code/backend/SoundEngine/general.py:22-29 | The identifier defaults to the name; every other argument is stored |
| SoundEngine.NewPlayableSound | code/backend/SoundEngine/general.py:39-44 | The volume assertion fails exactly outside [0, 1]; otherwise the arguments are stored |
| SoundEngine.ClampVolume | code/backend/SoundEngine/general.py:106-110 | The master volume is clamped into [0, 1] and kept when inside |
| SoundEngine.SoundManager.constructor | code/backend/SoundEngine/general.py:48-53 | The mappings come from the stored dictionary, or empty mappings and master volume 1.0 |
| SoundEngine.SoundManager.ChangeSoundMapping | code/backend/SoundEngine/general.py:62-78 | Maps the sound's identifier (or the given string) to the new path; nothing else changes |
| SoundEngine.SoundManager.ChangeVolumeMapping | code/backend/SoundEngine/general.py:80-96 | Maps the identifier to the new volume; nothing else changes |
| SoundEngine.SoundManager.ChangeMasterVolume | code/backend/SoundEngine/general.py:98-112 | The master volume becomes the clamped value, in [0, 1]; the mappings are unchanged |
| SoundEngine.SoundManager.GetPlayableSound | code/backend/SoundEngine/general.py:114-129 | Path and volume come from the mappings or the sound's defaults, the volume scaled by the master volume; it fails exactly when that product leaves [0, 1] |
| SoundEngine.PlayableVolumeBounded | code/backend/SoundEngine/general.py:114-129 | With a master volume and mapped volume in [0, 1] the playable sound exists and is no louder than its mapped volume |
| SoundEngine.ScaleWithin | code/backend/SoundEngine/general.py:124 | Scaling a volume in [0, 1] by a factor in [0, 1] stays between 0 and the volume |
| SoundEngine.WithoutIdentifier | code/backend/SoundEngine/general.py:194 | The filtered queue holds exactly the entries with another identifier, and is unchanged when none matches |
| SoundEngine.InsertByTime | code/backend/SoundEngine/general.py:220 | Inserting into a time-sorted queue keeps it sorted, adds exactly the item, and puts the earlier of the item and the old head first |
| SoundEngine.SortedCons | code/backend/SoundEngine/general.py:220 | An entry no later than the head of a time-sorted queue can go in front of it |
| SoundEngine.SortedTail | code/backend/SoundEngine/general.py:220 | The tail of a time-sorted queue is time-sorted |
| SoundEngine.SortByTime | code/backend/SoundEngine/general.py:220 | Sorting by time yields a sorted permutation |
| SoundEngine.FirstEarliest | code/backend/SoundEngine/general.py:220-221 | The first entry of least time: no entry is earlier, no earlier position has the same time |
| SoundEngine.SortHeadIsFirstEarliest | code/backend/SoundEngine/general.py:220-221 | The stable sort's head is the first entry of least time |
| SoundEngine.SoundQueue.constructor | code/backend/SoundEngine/general.py:153-163 | An empty, running queue over the given manager |
| SoundEngine.SoundQueue.AddSound | code/backend/SoundEngine/general.py:165-178 | Fails exactly when the playable sound cannot be built, leaving the queue; otherwise appends it due now, without interval when periodic playback is disabled |
| SoundEngine.SoundQueue.RemoveSound | code/backend/SoundEngine/general.py:180-195 | Removes exactly the entries with the given sound's, playable sound's or string's identifier |
| SoundEngine.SoundQueue.Pop | code/backend/SoundEngine/general.py:197-241 | A stopped queue raises; an empty one or one whose earliest entry is not yet due waits; otherwise the first entry of least time (as the stable sort puts it first) is removed and returned, the rest stay in sorted order, and it is re-appended after its interval when it has one |
| SoundEngine.SoundQueue.Stop | code/backend/SoundEngine/general.py:243-247 | Marks the queue stopped and keeps its entries |
| SoundEngine.SoundQueue.Size | code/backend/SoundEngine/general.py:249-254 | The number of scheduled entries |
| SoundEngine.SoundQueue.Clear | code/backend/SoundEngine/general.py:256-260 | Empties the queue without stopping it |
| SoundEngine.PopKeepsOthers | code/backend/SoundEngine/general.py:220-231 | Popping removes one occurrence of that entry and keeps all others |
| Sounds.FlapInfoSound | code/backend/SoundEngine/sounds.py:4-13 | The flap information sound: identifier flap_available_info, no interval, priority playback |
| Sounds.SpeedWarningSound | code/backend/SoundEngine/sounds.py:15-23 | The speed warning: identifier speed_warning, repeated every second |
| Sounds.FlapSpeedWarningSound | code/backend/SoundEngine/sounds.py:25-33 | The flap speed warning: identifier flap_speed_warning, repeated every second |
| Sounds.GearSpeedWarningSound | code/backend/SoundEngine/sounds.py:35-43 | The gear speed warning: identifier gear_speed_warning, repeated every second |
| Sounds.IdentifiersDistinct | code/backend/SoundEngine/sounds.py:4-43 | The identifiers of the four warning sounds are pairwise distinct |
| Sounds.AlarmSoundsDistinct | code/backend/SoundEngine/sounds.py:4-43 | The speed, gear-speed and flap-speed warning sounds are three different sounds |
| WtFetcher.ConfigurationConsistent | code/backend/wtFetcher.py:7-22 | Every optional category is a category, and every category has at least one key |
| WtFetcher.Lookup | code/backend/wtFetcher.py:93-100 | The key walk finds nothing exactly when every key is "--null--" in the main source and in a non-empty fallback, and never returns "--null--" |
| WtFetcher.LookupTakesFirstHit | code/backend/wtFetcher.py:93-100 | For every key list, a found value is that of the first key with a value in the main source or a non-empty fallback; every earlier key has none |
| WtFetcher.FirstMissingNoneMeansFound | code/backend/wtFetcher.py:90-103 | With no required category missing from index i on, every required category from i on is found |
| WtFetcher.RequiredCategories | code/backend/wtFetcher.py:7-22 | planetype, flaps, gear and ias are categories 0, 1, 2 and 5, and none of them is optional |
| WtFetcher.RequiredCollected | code/backend/wtFetcher.py:90-103 | A required category is in the result dictionary of a successful loop |
| WtFetcher.RequiredFieldsFound | code/backend/wtFetcher.py:90-105 | After a successful loop the result dictionary holds the four fields TelemetryData requires |
| WtFetcher.LookupKeys | code/backend/wtFetcher.py:91-100 | The inner loop returns the value the key walk finds, or "--null--" exactly when it finds none |
| WtFetcher.ParseStep | code/backend/wtFetcher.py:90-103 | One outer iteration adds its category exactly when its keys yield a value, with that value, and stops there exactly when a required category yields none |
| WtFetcher.CollectCategories | code/backend/wtFetcher.py:88-103 | The outer loop computes CollectSpec: the first missing required category fails, otherwise the dictionary of found values |
| WtFetcher.FoundDictValues | code/backend/wtFetcher.py:88-100 | After i categories the dictionary holds exactly those of them that were found, each with its found value |
| WtFetcher.CollectedValues | code/backend/wtFetcher.py:88-103 | A successful loop's dictionary holds exactly the found categories, each with its found value |
| WtFetcher.CollectedAt | code/backend/wtFetcher.py:88-103 | A category is in a successful loop's dictionary exactly when it was found, with its found value |
| WtFetcher.ParseTelemetry | code/backend/wtFetcher.py:77-105 | Parsing computes ParseSpec: the loop's failure, or TelemetryData built from the result dictionary |
| WtFetcher.MissingRequiredFails | code/backend/wtFetcher.py:102-103 | A missing required category makes the loop fail, naming a required category that is missing |
| WtFetcher.FirstMissingIsMissing | code/backend/wtFetcher.py:102-103 | The category the error names is required and missing |
| WtFetcher.ParsedFields | code/backend/wtFetcher.py:28-37 | A parsed record holds each category's found value, and 0, 0, 0 and 999.9 for the optional ones not found |
| WtFetcher.EarlierKeyWins | code/backend/wtFetcher.py:93-100 | An earlier key found only in the fallback beats a later key found in the main source |
| WtFetcher.AlternativeKeys | code/backend/wtFetcher.py:9-10 | Flaps and gear are found under their percentage keys when the state keys are absent |
| WtFetcher.WTUpdater.constructor | code/backend/wtFetcher.py:39-50 | Stores the address and the debug flag, with no telemetry yet |
| WtFetcher.WTUpdater.UpdateTelemetry | code/backend/wtFetcher.py:70-75 | Both dictionaries empty raises PlaneNotFound; otherwise the parse result is stored, or its error raised with the old record kept |
| WtFetcher.WTUpdater.FetchData | code/backend/wtFetcher.py:53-65 | Outside debug mode nothing is raised and a failed fetch keeps the old record; in debug mode the file is parsed without fallback and a parse error propagates |
| Plane.NameAndLevelIdentify | code/Packages/Models/Plane.py:14-18 | The stage names and the stage levels both identify the stage; there are four levels |
| Plane.FlapPercs.With | code/Packages/Models/Plane.py:74 | Writing one stage's percentage changes that stage alone |
| Plane.GeneralFlapStates.constructor | code/Packages/Models/Plane.py:9-13 | The shared percentages start at 25, 50 and 100 |
| Plane.Normalise | code/Packages/Models/Plane.py:52-58 | Empty or null limits become missing, the Mach limit a float and every other limit its truncated integer |
| Plane.NormaliseSpeeds | code/Packages/Models/Plane.py:52-58 | The loop over the six limits computes NormalisedSpeeds, with exactly the six keys |
| Plane.CollectPossibleFlaps | code/Packages/Models/Plane.py:38-73 | The loop over the three stages computes PossibleFlaps |
| Plane.PossibleFlapsMembers | code/Packages/Models/Plane.py:38-73 | The possible stages are "none" followed by the available stages in order combat, start, landing |
| Plane.RisingAppend | code/Packages/Models/Plane.py:71-73 | Appending a stage above every listed stage keeps the list rising |
| Plane.PickedRising | code/Packages/Models/Plane.py:71-73 | After i rounds the stages are rising and all at level at most i |
| Plane.PossibleFlapsShape | code/Packages/Models/Plane.py:38-73 | The possible stages start with "none", rise strictly, and hold each stage exactly when it is available |
| Plane.Lower | code/Packages/Models/Plane.py:36 | Lower-casing keeps the length |
| Plane.LowerIdempotent | code/Packages/Models/Plane.py:36 | A lower-cased type has no capitals and lower-casing it again changes nothing |
| Plane.Thresholds | code/Packages/Models/Plane.py:137-156 | One deployment entry per possible stage |
| Plane.Below | code/Packages/Models/Plane.py:123 | `ias < limit` is a TypeError for a missing airspeed or limit, and otherwise compares them |
| Plane.LimitsOf | code/Packages/Models/Plane.py:123 | The limit of each stage as the walk reads it |
| Plane.SafeFromPicksHighestBelow | code/Packages/Models/Plane.py:120-125 | For a numeric airspeed the walk succeeds and picks the highest stage whose limit is above the airspeed, and "none" exactly when there is none |
| Plane.SafeFromTakesTop | code/Packages/Models/Plane.py:120-124 | When the airspeed is below the top stage's limit the walk returns that stage, which is the highest such stage |
| Plane.SafeFromSkipsTop | code/Packages/Models/Plane.py:120-125 | When the airspeed is not below the top stage's limit the walk continues with the stages beneath it |
| Plane.HighestBelowExtends | code/Packages/Models/Plane.py:120-125 | A stage that is the highest one above the airspeed among the lower stages stays so when the top stage's limit is not above the airspeed |
| Plane.WTPlane.constructor | code/Packages/Models/Plane.py:34-92 | Lower-cases the type and takes name, record, limits and recommended speeds from the database (or the type and empty tables when not found); the shared percentages get 100 on the last possible stage |
| Plane.WTPlane.SetTelemetry | code/Packages/Models/Plane.py:94-95 | Stores the telemetry record |
| Plane.WTPlane.GetFlapsAvailable | code/Packages/Models/Plane.py:64-68 | A stage is available exactly when the plane was found and its flap limit is a number |
| Plane.WTPlane.GetMaxSpeeds | code/Packages/Models/Plane.py:127-135 | No limits for a plane not found; otherwise the six normalised limits |
| Plane.WTPlane.GetFlapDeploymentThresholds | code/Packages/Models/Plane.py:137-156 | The loop builds the deployment table from the possible stages and the shared percentages as they are now |
| Plane.WTPlane.GetSafeFlapState | code/Packages/Models/Plane.py:105-125 | "none" without limits or airspeed; otherwise the top-down walk over the possible stages |
| Plane.AvailableStageHasKmhLimit | code/Packages/Models/Plane.py:64-73 | Every possible stage above "none" has a km/h limit |
| Plane.ValidPlaneStages | code/Packages/Models/Plane.py:38-74 | A constructed plane's stages start with "none", rise, and every stage above "none" has a km/h limit |
| WarningEngine.NewThresholdSettings | code/backend/warningEngine.py:17-25 | The three given fields plus the Mach defaults 0.95, 0.05, 0.2 |
| WarningEngine.SettingsCell.constructor | code/backend/warningEngine.py:27 | Holds the given settings |
| WarningEngine.WarningList.constructor | code/backend/warningEngine.py:33 | The shared warning list starts empty |
| WarningEngine.GetThresholdValue | code/backend/warningEngine.py:274-299 | No threshold without a limit or for the Mach limit 999.9; an int for km/h and a float for Mach |
| WarningEngine.KmhThresholdInBand | code/backend/warningEngine.py:284-298 | With min diff at most max diff, the km/h threshold is k - min diff when k times the fraction is above the band, k - max diff when it is below, and int of the product inside it; so it always lies in [k - max diff, k - min diff] |
| WarningEngine.ClampedTruncInBand | code/backend/warningEngine.py:284-298 | Clamping into a band with integer ends and truncating stays in the band, and is plain truncation inside it |
| WarningEngine.TruncBetweenIntegers | code/backend/warningEngine.py:298 | Truncation keeps a number between two integers between them |
| WarningEngine.MachThresholdInBand | code/backend/warningEngine.py:278-295 | With min diff at most max diff and a limit other than 999.9, the Mach threshold is m - min diff when m times the fraction is above the band, m - max diff when it is below, and the product itself inside it; so it always lies in the band |
| WarningEngine.CalcThresholdsDefined | code/backend/warningEngine.py:147-165 | The thresholds exist exactly when the gear and frame limits do; each flap threshold exactly when its limit does; the Mach one when its limit does and is not 999.9 |
| WarningEngine.MinApplicable | code/backend/warningEngine.py:178-183 | The applicable entry has the least percentage at or above the deployment; none exactly when every percentage is below it |
| WarningEngine.MinApplicableIsFirst | code/backend/warningEngine.py:183 | Like min, the chosen entry is the first of the least ones: every applicable entry before it has a strictly greater percentage |
| WarningEngine.CurrentFlapState | code/backend/warningEngine.py:168-185 | Fails exactly when there is a non-empty table and the deployment is not a number |
| WarningEngine.FreshPercentagesStages | code/backend/warningEngine.py:168-185 | With percentages 25, 50, 100 a deployment maps to none, combat, start or landing by those bounds |
| WarningEngine.StartShadowsLanding | code/backend/warningEngine.py:183 | When start and landing both have 100, landing is never reported |
| WarningEngine.SharedPercentagesHideLanding | code/Packages/Models/Plane.py:74 | A plane without landing flaps moves start to 100 in the shared percentages, so the next plane's landing stage is never reported |
| WarningEngine.SharedPercentagesBreakOrder | code/Packages/Models/Plane.py:71-74 | After a combat-only plane sets combat to 100 in the shared percentages, a three-stage plane's table is not rising (combat 100 before start 50); a plane without flaps has the single entry 0, not a last entry of 100 |
| WarningEngine.CurrentFlapThreshold | code/backend/warningEngine.py:187-207 | No threshold without thresholds; with thresholds it raises exactly when the flap state lookup raises; a threshold is only ever given for a stage other than none |
| WarningEngine.BelowOrZero | code/backend/warningEngine.py:226 | `speed < limits.get(stage, 0)` fails exactly for a non-numeric speed or a missing limit |
| WarningEngine.FlapAvailabilityRule | code/backend/warningEngine.py:209-242 | The informed stage becomes the safe stage, and a stage is announced exactly when the safe stage is above both the informed and the current stage |
| WarningEngine.FlapAvailabilitySettles | code/backend/warningEngine.py:232-242 | Once informed, the same reading announces nothing |
| WarningEngine.Ids | code/backend/warningEngine.py:252 | The identifiers of exactly the listed sounds |
| WarningEngine.Without | code/backend/warningEngine.py:253 | Exactly the sounds whose identifier is not excluded |
| WarningEngine.Within | code/backend/warningEngine.py:267-270 | Exactly the sounds whose identifier is kept |
| WarningEngine.DropFirstZero | code/backend/warningEngine.py:269-270 | Removing no sounds leaves the list |
| WarningEngine.DropFirstStep | code/backend/warningEngine.py:269-270 | Each loop iteration removes the first occurrence of the next old sound |
| WarningEngine.DropFirstAll | code/backend/warningEngine.py:267-270 | Removing every old sound leaves exactly the sounds still wanted |
| WarningEngine.SpeedWarnings | code/backend/warningEngine.py:96-103 | Raises TypeError exactly for a non-numeric airspeed, a Mach number that is neither None nor a number while a Mach limit is set, or a non-numeric gear position above the gear speed |
| WarningEngine.SpeedWarningsContents | code/backend/warningEngine.py:96-103 | One airframe warning for the airspeed above the frame limit plus one for the Mach number above the Mach limit; a gear warning exactly when the airspeed is above the gear limit and the gear is out; nothing else |
| WarningEngine.Alarms | code/backend/warningEngine.py:96-107 | Raises TypeError exactly when the speed warnings raise or the flap table is non-empty and the flap deployment is not a number |
| WarningEngine.AlarmsContents | code/backend/warningEngine.py:96-107 | The speed warnings in order, then one flap-speed warning exactly when the current flap stage has a threshold and the airspeed is above it |
| WarningEngine.DegradedStepIsQuiet | code/backend/warningEngine.py:92-96 | Without telemetry, thresholds or airspeed the tick changes nothing and signals nothing |
| WarningEngine.SettleSyncsWarnings | code/backend/warningEngine.py:112-117 | Afterwards the sounding identifiers are the candidates'; the played sounds are the new candidates and the stopped ones the sounding sounds no longer wanted |
| WarningEngine.SettledIds | code/backend/warningEngine.py:112-117 | After adding the new candidates and keeping the wanted ones, the sounding identifiers are exactly the candidates' |
| WarningEngine.SettledRemoved | code/backend/warningEngine.py:112-117 | The popped sounds are exactly the sounding ones whose identifier is no longer a candidate |
| WarningEngine.WithoutCovered | code/backend/warningEngine.py:253 | Excluding every identifier leaves nothing |
| WarningEngine.SettleAgainStartsNothing | code/backend/warningEngine.py:112-117 | Candidates that are all sounding start nothing, and stop only the sounds that dropped out |
| WarningEngine.CandidatesSettle | code/backend/warningEngine.py:105-110 | The candidates are the alarms plus possibly the flap information, and once informed the same record gives the alarms alone |
| WarningEngine.RepeatedTelemetryIsQuiet | code/backend/warningEngine.py:85-117 | Repeating a record starts no sound and stops at most the flap information |
| WarningEngine.MissingMachNumberWarns | code/backend/wtFetcher.py:37 | With no Mach number the record holds 999.9, so a plane whose Mach threshold is below 999.9 gets the speed warning, provided the airspeed and the gear position are numbers (a non-numeric gear above the gear limit raises TypeError instead) |
| WarningEngine.ApplyOverrides | code/backend/warningEngine.py:53-64 | Each given argument (percentages over 100) replaces its field, the others are kept |
| WarningEngine.SecondEngineInheritsOverrides | code/backend/warningEngine.py:51-58 | Because the standard settings are shared, a second engine built without arguments keeps the first one's min diff |
| WarningEngine.SettingsFromWarning | code/backend/warningEngine.py:125-129 | The speed percentage over 100 with the two diffs, and the Mach defaults |
| WarningEngine.PlaneSpeedWarningEngine.constructor | code/backend/warningEngine.py:40-64 | Writes the overrides into the shared standard settings and uses that object; no plane or thresholds yet |
| WarningEngine.PlaneSpeedWarningEngine.CalcAndSetThresholds | code/backend/warningEngine.py:135-166 | No plane limits give no thresholds; otherwise the thresholds computed from the limits, or the assertion error; nothing else changes |
| WarningEngine.PlaneSpeedWarningEngine.OnNewPlane | code/backend/warningEngine.py:67-82 | A plane without limits clears limits and thresholds; otherwise stores its limits and deployment table and recomputes; the informed stage is kept |
| WarningEngine.PlaneSpeedWarningEngine.OnNewThresholdSettings | code/backend/warningEngine.py:119-133 | Installs a new settings object from the warning settings and recomputes the thresholds |
| WarningEngine.PlaneSpeedWarningEngine.NewFlapAvailable | code/backend/warningEngine.py:209-242 | The reversed loop gives FlapAvailability's announcement and new informed stage, or its TypeError |
| WarningEngine.PlaneSpeedWarningEngine.AddNewWarningSounds | code/backend/warningEngine.py:244-256 | Returns the warnings whose identifier was not sounding and appends them |
| WarningEngine.PlaneSpeedWarningEngine.PopOldWarningSounds | code/backend/warningEngine.py:258-272 | Returns the sounding warnings no longer wanted and keeps exactly the wanted ones |
| WarningEngine.PlaneSpeedWarningEngine.SettleWarnings | code/backend/warningEngine.py:112-117 | Adding, popping and signalling give Settle's stop/play signals and new sounding list |
| WarningEngine.PlaneSpeedWarningEngine.CollectWarnings | code/backend/warningEngine.py:96-110 | Collects the tick's candidate warnings and updates the informed stage as Candidates says |
| WarningEngine.PlaneSpeedWarningEngine.OnNewTelemetry | code/backend/warningEngine.py:85-117 | The tick produces Step's stop/play signals and new state, or its TypeError |
| Worker.PlaneRenewalByCase | code/backend/worker.py:141 | The stored type is lower-cased, so a type with a capital builds a new plane on every tick and an all-lower-case one only once |
| Worker.AfterOutcomeSwitchesOnTransitions | code/backend/worker.py:156-169 | The flag records the outcome; the interval changes only when it flips, then to the new outcome's interval |
| Worker.DataFetcher.constructor | code/backend/worker.py:92-116 | Standard interval, last run a success (so the interval matches the outcome), no plane, a fresh fetcher for the endpoint |
| Worker.DataFetcher.OnIpChange | code/backend/worker.py:118-124 | A fresh fetcher for the new IP with the same debug flag; nothing else changes |
| Worker.DataFetcher.UpdateInterval | code/backend/worker.py:61-68 | The timer interval becomes the given one; nothing else changes |
| Worker.DataFetcher.Pause | code/backend/worker.py:75-78 | Sets the pause flag only |
| Worker.DataFetcher.Resume | code/backend/worker.py:80-83 | Clears the pause flag only |
| Worker.DataFetcher.Stop | code/backend/worker.py:70-73 | Stops the worker only |
| Worker.DataFetcher.OnSuccess | code/backend/worker.py:164-169 | Applies AfterOutcome for a success and keeps the interval matching the outcome |
| Worker.DataFetcher.OnError | code/backend/worker.py:156-161 | Applies AfterOutcome for an error and keeps the interval matching the outcome |
| Worker.DataFetcher.HandleTelemetry | code/backend/worker.py:138-146 | Signals the record; builds and signals a new plane when the type changed (aborting when that raises); stores the record on the plane and records success, keeping the interval matching the outcome |
| Worker.DataFetcher.Work | code/backend/worker.py:126-153 | Nothing while paused or stopped; the fetched record as fetch_data stores it in either mode; a fetch error or no record takes the error path; otherwise the record is signalled, a new plane built, signalled and registered in the catalog when the type changed (aborting with flag and interval kept when that raises), the record stored on the plane and success recorded; the interval keeps matching the outcome |

## Left out

- Persistence: the local database behind the sound settings, `_save_mappings` and `identifier_exists` read a store that is not part of this model. The stored mappings are a constructor parameter instead.
- Threads and Qt: the worker thread, the QTimer, the condition variable of the sound queue and the signals. Signals are returned as events, and `update_intervall` takes effect at once instead of through a queued signal. A blocking `pop` is modelled as one attempt that either returns, waits or raises.
- The clock (`time.time()`), the `SOUNDS_DIR` path, `darkdetect` and `ipaddress.ip_address` are parameters: a time, a directory string, a boolean and a predicate.
- The database connector (`conn.get_plane`) is a lookup result parameter. `PlaneNotFound` is a missing record. Any other exception it raises is `ConnectionFailed`, which aborts the worker tick after the telemetry signal.
- The read of `speed_warning_limits` in the plane constructor is not modelled: its result is never used.
- Reading the debug file (`open`, `json.load`): the file's content is a parameter and I/O errors are not modelled.
- The endpoint's telemetry interface: its basic and full dictionaries are a parameter, and a missing dictionary counts as empty.
- `print` output is not modelled.
- Settings.GeneralFromDict and Settings.WarningFromDict: the dictionaries are records with a fixed set of keys, so the TypeError that `GeneralSettings(**d)` and `WarningSettings(**d)` raise for an unknown key is not modelled.
- Python floats are exact reals, so rounding of `speed * fraction` is not modelled.
- Plane.Lower: lower-cases ASCII letters only, not the whole of Unicode.
- Plane.Normalise: database fields are numbers, null or empty. A numeric string in the database (which `int()`/`float()` would convert or reject) is not modelled.
- WarningEngine.PlaneSpeedWarningEngine.PopOldWarningSounds: removal from the shared list uses value equality of sounds where the source uses object identity. Every sound the engine creates with an identifier has the same fields, so the same sounds are removed.
- `_work`'s "Unknown error occured" branch cannot be taken and is not modelled.
- GeneralSettings defaults follow the code (127.0.0.1, 100), not the values the repository's tests expect (0.0.0.0, 500).
- WarningEngine.CurrentFlapThreshold: states which stage field it returns only through its body; its contract gives the failure cases and that the none stage has no threshold.
