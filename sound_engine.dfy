/**
 * Sound descriptions, the user's sound/volume mapping and the scheduled
 * playback queue (code/backend/SoundEngine/general.py). Persistence of the
 * mapping and the queue's thread waiting are not modelled; the clock is the
 * parameter `now`.
 */
module SoundEngine {
  import opened Wrappers

  /** A sound kind: its default file, repeat interval in seconds (None: play once) and identifier. */
  datatype Sound = Sound(
    name: string,
    standardPath: string,
    intervall: Option<int>,
    identifier: string,
    description: string,
    priorityPlayback: bool,
    standardVolume: real)

  /** Sound.__init__: the identifier defaults to the name. */
  function NewSound(name: string, standardPath: string, intervall: Option<int>, identifier: Option<string>,
                    description: string, priorityPlayback: bool, volume: real): (s: Sound)
    ensures identifier.Some? ==> s.identifier == identifier.value
    ensures identifier.None? ==> s.identifier == name
    ensures s.name == name && s.standardPath == standardPath && s.intervall == intervall
    ensures s.description == description && s.priorityPlayback == priorityPlayback && s.standardVolume == volume
  {
    Sound(name, standardPath, intervall, identifier.GetOr(name), description, priorityPlayback, volume)
  }

  /** A sound resolved against the user's mapping, ready for the mixer. */
  datatype PlayableSound = PlayableSound(path: string, intervall: Option<int>, volume: real, identifier: string)

  datatype SoundError = VolumeAssertion | QueueStopped

  /** PlayableSound.__init__: a volume outside [0.0, 1.0] fails the assertion. */
  function NewPlayableSound(path: string, intervall: Option<int>, volume: real, identifier: string): (r: Result<PlayableSound, SoundError>)
    ensures r.Success? <==> 0.0 <= volume <= 1.0
    ensures r.Failure? ==> r.error == VolumeAssertion
    ensures r.Success? ==> r.value.path == path && r.value.intervall == intervall
    ensures r.Success? ==> r.value.volume == volume && r.value.identifier == identifier
  {
    if 0.0 <= volume <= 1.0 then Success(PlayableSound(path, intervall, volume, identifier))
    else Failure(VolumeAssertion)
  }

  /** The `sound: Sound | str` argument of the mapping setters. */
  datatype SoundKey = KeyOfSound(sound: Sound) | KeyString(id: string)

  function KeyIdentifier(k: SoundKey): string {
    match k
    case KeyOfSound(s) => s.identifier
    case KeyString(id) => id
  }

  /** change_master_volume's clamping into [0.0, 1.0]. */
  function ClampVolume(v: real): (r: real)
    ensures 0.0 <= r <= 1.0
    ensures 0.0 <= v <= 1.0 ==> r == v
    ensures v < 0.0 ==> r == 0.0
    ensures v > 1.0 ==> r == 1.0
  {
    if v < 0.0 then 0.0 else if v > 1.0 then 1.0 else v
  }

  /** What the settings store held for the mapping; a missing entry is None. */
  datatype StoredMapping = StoredMapping(
    soundMapping: Option<map<string, string>>,
    volumeMapping: Option<map<string, real>>,
    masterVolume: Option<real>)

  class SoundManager {
    var soundMapping: map<string, string>
    var volumeMapping: map<string, real>
    var masterVolume: real

    /** Loads the stored mapping, with empty mappings and full master volume as defaults. */
    constructor (stored: StoredMapping)
      ensures soundMapping == stored.soundMapping.GetOr(map[])
      ensures volumeMapping == stored.volumeMapping.GetOr(map[])
      ensures masterVolume == stored.masterVolume.GetOr(1.0)
    {
      soundMapping := stored.soundMapping.GetOr(map[]);
      volumeMapping := stored.volumeMapping.GetOr(map[]);
      masterVolume := stored.masterVolume.GetOr(1.0);
    }

    /** Only the entry of the given identifier changes. */
    method ChangeSoundMapping(key: SoundKey, newPath: string)
      modifies this
      ensures soundMapping == old(soundMapping)[KeyIdentifier(key) := newPath]
      ensures volumeMapping == old(volumeMapping) && masterVolume == old(masterVolume)
    {
      soundMapping := soundMapping[KeyIdentifier(key) := newPath];
    }

    /** Only the entry of the given identifier changes; the volume is stored as given. */
    method ChangeVolumeMapping(key: SoundKey, newVolume: real)
      modifies this
      ensures volumeMapping == old(volumeMapping)[KeyIdentifier(key) := newVolume]
      ensures soundMapping == old(soundMapping) && masterVolume == old(masterVolume)
    {
      volumeMapping := volumeMapping[KeyIdentifier(key) := newVolume];
    }

    method ChangeMasterVolume(newVolume: real)
      modifies this
      ensures masterVolume == ClampVolume(newVolume)
      ensures 0.0 <= masterVolume <= 1.0
      ensures soundMapping == old(soundMapping) && volumeMapping == old(volumeMapping)
    {
      var v := newVolume;
      if v < 0.0 {
        v := 0.0;
      } else if v > 1.0 {
        v := 1.0;
      }
      masterVolume := v;
    }

    /** The volume configured for a sound before the master volume applies. */
    function MappedVolume(sound: Sound): real
      reads this
    {
      if sound.identifier in volumeMapping then volumeMapping[sound.identifier] else sound.standardVolume
    }

    /**
     * get_playable_sound: the mapped path and volume (else the sound's own),
     * the volume scaled by the master volume; identifier and interval kept.
     * A scaled volume outside [0.0, 1.0] fails PlayableSound's assertion.
     */
    function GetPlayableSound(sound: Sound): (r: Result<PlayableSound, SoundError>)
      reads this
      ensures r.Success? <==> 0.0 <= MappedVolume(sound) * masterVolume <= 1.0
      ensures r.Success? ==> r.value.volume == MappedVolume(sound) * masterVolume
      ensures r.Success? ==> r.value.identifier == sound.identifier && r.value.intervall == sound.intervall
      ensures r.Success? && sound.identifier in soundMapping ==> r.value.path == soundMapping[sound.identifier]
      ensures r.Success? && sound.identifier !in soundMapping ==> r.value.path == sound.standardPath
    {
      var path := if sound.identifier in soundMapping then soundMapping[sound.identifier] else sound.standardPath;
      NewPlayableSound(path, sound.intervall, MappedVolume(sound) * masterVolume, sound.identifier)
    }
  }

  /** With every volume within [0.0, 1.0], a sound is always playable and never louder than configured. */
  lemma PlayableVolumeBounded(m: SoundManager, sound: Sound)
    requires 0.0 <= m.masterVolume <= 1.0
    requires 0.0 <= m.MappedVolume(sound) <= 1.0
    ensures m.GetPlayableSound(sound).Success?
    ensures m.GetPlayableSound(sound).value.volume <= m.MappedVolume(sound)
  {
    var v, w := m.MappedVolume(sound), m.masterVolume;
    var scaled := v * w;
    ScaleWithin(v, w);
    assert 0.0 <= scaled <= v;
    assert m.GetPlayableSound(sound) == NewPlayableSound(
      if sound.identifier in m.soundMapping then m.soundMapping[sound.identifier] else sound.standardPath,
      sound.intervall, scaled, sound.identifier);
  }

  lemma ScaleWithin(v: real, w: real)
    requires 0.0 <= v <= 1.0 && 0.0 <= w <= 1.0
    ensures 0.0 <= v * w <= v
  {
    calc {
      v * w;
    <= { assert v * (1.0 - w) >= 0.0 by { assert 1.0 - w >= 0.0; } }
      v;
    }
  }

  /** One scheduled entry: when it is due, and what to play. */
  datatype QueueItem = QueueItem(time: real, sound: PlayableSound)

  /** The `sound: Sound | PlayableSound | str` argument of remove_sound. */
  datatype QueueRef = RefSound(sound: Sound) | RefPlayable(playable: PlayableSound) | RefId(id: string)

  function RefIdentifier(r: QueueRef): string {
    match r
    case RefSound(s) => s.identifier
    case RefPlayable(p) => p.identifier
    case RefId(id) => id
  }

  /** The list comprehension of remove_sound: the items of other identifiers, in order. */
  function WithoutIdentifier(items: seq<QueueItem>, id: string): (r: seq<QueueItem>)
    ensures |r| <= |items|
    ensures forall x :: x in r <==> x in items && x.sound.identifier != id
    ensures (forall i :: 0 <= i < |items| ==> items[i].sound.identifier != id) ==> r == items
  {
    if items == [] then []
    else if items[0].sound.identifier == id then WithoutIdentifier(items[1..], id)
    else [items[0]] + WithoutIdentifier(items[1..], id)
  }

  ghost predicate SortedByTime(s: seq<QueueItem>) {
    forall i, j :: 0 <= i < j < |s| ==> s[i].time <= s[j].time
  }

  /** Inserts before the first item that is not earlier, so that ties keep their order. */
  function InsertByTime(x: QueueItem, s: seq<QueueItem>): (r: seq<QueueItem>)
    requires SortedByTime(s)
    ensures SortedByTime(r)
    ensures multiset(r) == multiset(s) + multiset{x}
    ensures |r| == |s| + 1
    ensures r[0] == if s == [] || x.time <= s[0].time then x else s[0]
  {
    if s == [] || x.time <= s[0].time then
      SortedCons(x, s);
      [x] + s
    else
      SortedTail(s);
      var rest := InsertByTime(x, s[1..]);
      assert s[0].time <= rest[0].time;
      SortedCons(s[0], rest);
      assert multiset(s) == multiset{s[0]} + multiset(s[1..]) by {
        assert s == [s[0]] + s[1..];
      }
      [s[0]] + rest
  }

  /** The tail of a sorted queue is sorted. */
  lemma SortedTail(s: seq<QueueItem>)
    requires SortedByTime(s) && s != []
    ensures SortedByTime(s[1..])
  {
    forall i, j | 0 <= i < j < |s| - 1
      ensures s[1..][i].time <= s[1..][j].time
    {
      assert s[1..][i] == s[i + 1] && s[1..][j] == s[j + 1];
    }
  }

  /** An item no later than the head of a sorted queue can go in front of it. */
  lemma SortedCons(h: QueueItem, s: seq<QueueItem>)
    requires SortedByTime(s)
    requires s != [] ==> h.time <= s[0].time
    ensures SortedByTime([h] + s)
  {
    var r := [h] + s;
    forall i, j | 0 <= i < j < |r|
      ensures r[i].time <= r[j].time
    {
      assert r[j] == s[j - 1];
      if i > 0 {
        assert r[i] == s[i - 1];
      } else if j > 1 {
        assert s[0].time <= s[j - 1].time;
      }
    }
  }

  /** The stable sort by time that pop performs on the item list. */
  function SortByTime(s: seq<QueueItem>): (r: seq<QueueItem>)
    ensures SortedByTime(r)
    ensures multiset(r) == multiset(s)
    ensures |r| == |s|
  {
    if s == [] then []
    else
      assert s == [s[0]] + s[1..];
      InsertByTime(s[0], SortByTime(s[1..]))
  }

  /** Index of the first item with the earliest time. */
  function FirstEarliest(s: seq<QueueItem>): (k: nat)
    requires s != []
    ensures k < |s|
    ensures forall i :: 0 <= i < |s| ==> s[k].time <= s[i].time
    ensures forall i :: 0 <= i < k ==> s[k].time < s[i].time
  {
    if |s| == 1 then 0
    else
      var j := 1 + FirstEarliest(s[1..]);
      if s[0].time <= s[j].time then 0 else j
  }

  /** The sort puts the first earliest item at the head. */
  lemma {:induction false} SortHeadIsFirstEarliest(s: seq<QueueItem>)
    requires s != []
    ensures SortByTime(s)[0] == s[FirstEarliest(s)]
  {
    if |s| > 1 {
      SortHeadIsFirstEarliest(s[1..]);
    }
  }

  /** pop's outcome: the due item, nothing due yet (pop would wait), or RuntimeError on a stopped queue. */
  datatype PopResult = Popped(sound: PlayableSound) | WouldWait | Stopped

  class SoundQueue {
    var items: seq<QueueItem>
    var stopped: bool
    const manager: SoundManager

    constructor (manager: SoundManager)
      ensures items == [] && !stopped && this.manager == manager
    {
      items := [];
      stopped := false;
      this.manager := manager;
    }

    /**
     * add_sound: one item due now, the interval cleared when periodic playback
     * is disabled; a sound the manager cannot make playable fails the assertion.
     */
    method AddSound(sound: Sound, disablePeriodic: bool, now: real) returns (r: Option<SoundError>)
      modifies this
      ensures stopped == old(stopped)
      ensures r.Some? <==> manager.GetPlayableSound(sound).Failure?
      ensures r.Some? ==> r.value == VolumeAssertion && items == old(items)
      ensures r.None? ==> |items| == |old(items)| + 1 && items[..|old(items)|] == old(items)
      ensures r.None? ==> items[|old(items)|] == QueueItem(now,
        var p := manager.GetPlayableSound(sound).value;
        if disablePeriodic then p.(intervall := None) else p)
    {
      var playable := manager.GetPlayableSound(sound);
      if playable.Failure? {
        return Some(VolumeAssertion);
      }
      var p := playable.value;
      if disablePeriodic {
        p := p.(intervall := None);
      }
      items := items + [QueueItem(now, p)];
      return None;
    }

    /** remove_sound: every item of that identifier goes, the others stay in order. */
    method RemoveSound(ref: QueueRef)
      modifies this
      ensures items == WithoutIdentifier(old(items), RefIdentifier(ref))
      ensures stopped == old(stopped)
    {
      items := WithoutIdentifier(items, RefIdentifier(ref));
    }

    /**
     * pop at time `now`: sorts the items by time; if the earliest is due it
     * is removed, returned, and re-queued at now + interval when it repeats.
     * When nothing is due the real pop waits; here it reports WouldWait.
     */
    method Pop(now: real) returns (r: PopResult)
      modifies this
      ensures stopped == old(stopped)
      ensures old(stopped) ==> r == Stopped && items == old(items)
      ensures !old(stopped) && old(items) == [] ==> r == WouldWait && items == []
      ensures !old(stopped) && old(items) != [] ==>
        var head := old(items)[FirstEarliest(old(items))];
        var rest := SortByTime(old(items))[1..];
        if head.time > now then (r == WouldWait && items == SortByTime(old(items)))
        else (
          && r == Popped(head.sound)
          && items == rest + (if head.sound.intervall.Some?
                              then [QueueItem(now + head.sound.intervall.value as real, head.sound)] else []))
    {
      if stopped {
        return Stopped;
      }
      if items == [] {
        return WouldWait;
      }
      SortHeadIsFirstEarliest(items);
      items := SortByTime(items);
      var entry := items[0];
      if entry.time - now > 0.0 {
        return WouldWait;
      }
      items := items[1..];
      if entry.sound.intervall.Some? {
        items := items + [QueueItem(now + entry.sound.intervall.value as real, entry.sound)];
      }
      return Popped(entry.sound);
    }

    method Stop()
      modifies this
      ensures stopped && items == old(items)
    {
      stopped := true;
    }

    method Size() returns (n: nat)
      ensures n == |items|
    {
      n := |items|;
    }

    method Clear()
      modifies this
      ensures items == [] && stopped == old(stopped)
    {
      items := [];
    }
  }

  /** After a pop the queue holds the same items minus the popped one, plus its repetition. */
  lemma {:induction false} PopKeepsOthers(items: seq<QueueItem>)
    requires items != []
    ensures multiset(SortByTime(items)[1..]) + multiset{items[FirstEarliest(items)]} == multiset(items)
  {
    var sorted := SortByTime(items);
    SortHeadIsFirstEarliest(items);
    assert sorted == [sorted[0]] + sorted[1..];
  }
}
