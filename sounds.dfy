/**
 * The four predefined sounds the warning engine raises
 * (code/backend/SoundEngine/sounds.py). Their default files live in the
 * application's sounds directory, given here as `soundsDir`.
 */
module Sounds {
  import opened Wrappers
  import opened SoundEngine

  const FLAP_INFO_ID := "flap_available_info"
  const SPEED_WARNING_ID := "speed_warning"
  const FLAP_SPEED_WARNING_ID := "flap_speed_warning"
  const GEAR_SPEED_WARNING_ID := "gear_speed_warning"

  /** Played once, with priority, when a further flap stage becomes usable. */
  function FlapInfoSound(soundsDir: string): (s: Sound)
    ensures s.identifier == FLAP_INFO_ID && s.intervall == None && s.priorityPlayback
    ensures s.name == "flap_info" && s.standardVolume == 1.0
  {
    NewSound("flap_info", soundsDir + "/flap_info.wav", None, Some(FLAP_INFO_ID),
             "info sound for flap deployment availability", true, 1.0)
  }

  /** Repeated every second while the airframe speed limit is exceeded. */
  function SpeedWarningSound(soundsDir: string): (s: Sound)
    ensures s.identifier == SPEED_WARNING_ID && s.intervall == Some(1) && !s.priorityPlayback
    ensures s.name == "speed_warning" && s.standardVolume == 1.0
  {
    NewSound("speed_warning", soundsDir + "/speed_warning.wav", Some(1), Some(SPEED_WARNING_ID),
             "speed too high for the airframe", false, 1.0)
  }

  /** Repeated every second while the current flap stage's limit is exceeded. */
  function FlapSpeedWarningSound(soundsDir: string): (s: Sound)
    ensures s.identifier == FLAP_SPEED_WARNING_ID && s.intervall == Some(1) && !s.priorityPlayback
    ensures s.name == "flap_speed_warning" && s.standardVolume == 1.0
  {
    NewSound("flap_speed_warning", soundsDir + "/flap_speed_warning.wav", Some(1), Some(FLAP_SPEED_WARNING_ID),
             "speed too high for current flap setting", false, 1.0)
  }

  /** Repeated every second while the gear is out above the gear limit. */
  function GearSpeedWarningSound(soundsDir: string): (s: Sound)
    ensures s.identifier == GEAR_SPEED_WARNING_ID && s.intervall == Some(1) && !s.priorityPlayback
    ensures s.name == "gear_speed_warning" && s.standardVolume == 1.0
  {
    NewSound("gear_speed_warning", soundsDir + "/retract_gear.wav", Some(1), Some(GEAR_SPEED_WARNING_ID),
             "speed too high for gear deployed", false, 1.0)
  }

  /** The three alarm sounds are distinct values. */
  lemma AlarmSoundsDistinct(dir: string)
    ensures SpeedWarningSound(dir) != GearSpeedWarningSound(dir)
    ensures FlapSpeedWarningSound(dir) != SpeedWarningSound(dir)
    ensures FlapSpeedWarningSound(dir) != GearSpeedWarningSound(dir)
  {
    assert SPEED_WARNING_ID[0] == 's' && GEAR_SPEED_WARNING_ID[0] == 'g' && FLAP_SPEED_WARNING_ID[0] == 'f';
  }

  /**
   * The four identifiers are pairwise distinct, so diffing warnings by
   * identifier never confuses two kinds.
   */
  lemma IdentifiersDistinct(dir: string)
    ensures var ids := [FlapInfoSound(dir).identifier, SpeedWarningSound(dir).identifier,
                        FlapSpeedWarningSound(dir).identifier, GearSpeedWarningSound(dir).identifier];
      forall i, j :: 0 <= i < j < |ids| ==> ids[i] != ids[j]
  {
    assert FLAP_INFO_ID[0] == 'f' && SPEED_WARNING_ID[0] == 's' && GEAR_SPEED_WARNING_ID[0] == 'g';
    assert FLAP_INFO_ID[5] == 'a' && FLAP_SPEED_WARNING_ID[5] == 's';
    assert FLAP_SPEED_WARNING_ID[0] == 'f';
  }
}
