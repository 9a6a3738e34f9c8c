/**
 * The speed-warning engine (code/backend/warningEngine.py): from the
 * plane's limits it derives warning thresholds, and on every telemetry
 * record it decides which warning sounds should sound, reporting the ones
 * to stop and the ones to start. Qt signals are returned as events.
 */
module WarningEngine {
  import opened Wrappers
  import opened Values
  import opened Plane
  import opened SoundEngine
  import Sounds
  import Settings
  import WtFetcher

  /** thresholdSpeeds: the warning thresholds of the current plane. */
  datatype ThresholdSpeeds = ThresholdSpeeds(
    gear: int,
    frame: int,
    frameMach: Option<real>,
    combatFlap: Option<int>,
    startFlap: Option<int>,
    landingFlap: Option<int>)

  /** thresholdSettings: fractions of the limit, and the band below the limit a threshold must lie in. */
  datatype ThresholdSettings = ThresholdSettings(
    speedWarningThreshold: real,
    minDiff: int,
    maxDiff: int,
    machSpeedThreshold: real,
    machMinDiff: real,
    machMaxDiff: real)

  /** thresholdSettings(t, min, max) with the Mach defaults. */
  function NewThresholdSettings(speedWarningThreshold: real, minDiff: int, maxDiff: int): (s: ThresholdSettings)
    ensures s.speedWarningThreshold == speedWarningThreshold && s.minDiff == minDiff && s.maxDiff == maxDiff
    ensures s.machSpeedThreshold == 0.95 && s.machMinDiff == 0.05 && s.machMaxDiff == 0.2
  {
    ThresholdSettings(speedWarningThreshold, minDiff, maxDiff, 0.95, 0.05, 0.2)
  }

  /** The initial value of STANDADRD_SPEED_TRESHOLDS. */
  const STANDARD_SPEED_THRESHOLDS: ThresholdSettings := NewThresholdSettings(0.9, 10, 50)

  /**
   * STANDADRD_SPEED_TRESHOLDS: one module-level object; every engine starts
   * from it and writes its constructor arguments into it.
   */
  class SettingsCell {
    var value: ThresholdSettings

    constructor (value: ThresholdSettings)
      ensures this.value == value
    {
      this.value := value;
    }
  }

  /** _current_warnings: a class attribute, so one list shared by every engine. */
  class WarningList {
    var sounds: seq<Sound>

    constructor ()
      ensures sounds == []
    {
      sounds := [];
    }
  }

  /** A number as get_treshold_value returns it: int for km/h, float for Mach. */
  datatype Number = IntNum(i: int) | FloatNum(f: real)

  /** The limit as a number; None stays None. */
  function AsNumber(m: MaxSpeed): Option<real> {
    match m
    case Missing => None
    case Kmh(k) => Some(k as real)
    case Mach(x) => Some(x)
  }

  /** A fraction of a limit: limit * fraction. */
  function Scaled(limit: real, fraction: real): real {
    limit * fraction
  }

  function Clamp(product: real, lo: real, hi: real): real {
    if product > hi then hi else if product < lo then lo else product
  }

  /**
   * get_treshold_value: None without a limit, and for the Mach limit 999.9;
   * otherwise the clamped fraction of the limit, truncated to int for km/h.
   */
  function GetThresholdValue(maxSpeed: Option<real>, t: ThresholdSettings, inMach: bool): (r: Option<Number>)
    ensures r.None? <==> maxSpeed.None? || (inMach && maxSpeed.value == 999.9)
    ensures r.Some? ==> (r.value.IntNum? <==> !inMach)
  {
    if maxSpeed.None? then None
    else if inMach && maxSpeed.value == 999.9 then None
    else
      var m := maxSpeed.value;
      if inMach then
        Some(FloatNum(Clamp(Scaled(m, t.machSpeedThreshold), m - t.machMaxDiff, m - t.machMinDiff)))
      else
        Some(IntNum(Trunc(Clamp(Scaled(m, t.speedWarningThreshold), m - t.maxDiff as real, m - t.minDiff as real))))
  }

  /**
   * For a km/h limit k and a band with min diff <= max diff, the threshold
   * lies in [k - max diff, k - min diff]: it is k - min diff when the product
   * k * fraction is above the band, k - max diff when it is below, and
   * int(k * fraction) when it lies in the band.
   */
  lemma KmhThresholdInBand(k: int, t: ThresholdSettings)
    requires t.minDiff <= t.maxDiff
    ensures var r := GetThresholdValue(Some(k as real), t, false);
      && r.Some? && r.value.IntNum?
      && k - t.maxDiff <= r.value.i <= k - t.minDiff
      && (k as real - t.maxDiff as real <= Scaled(k as real, t.speedWarningThreshold) <= k as real - t.minDiff as real ==>
            r.value.i == Trunc(Scaled(k as real, t.speedWarningThreshold)))
      && (Scaled(k as real, t.speedWarningThreshold) > k as real - t.minDiff as real ==> r.value.i == k - t.minDiff)
      && (Scaled(k as real, t.speedWarningThreshold) < k as real - t.maxDiff as real ==> r.value.i == k - t.maxDiff)
  {
    var p := Scaled(k as real, t.speedWarningThreshold);
    var lo := k as real - t.maxDiff as real;
    var hi := k as real - t.minDiff as real;
    ClampedTruncInBand(p, lo, hi, k - t.maxDiff, k - t.minDiff);
    TruncBetweenIntegers(hi, k - t.minDiff, k - t.minDiff);
    TruncBetweenIntegers(lo, k - t.maxDiff, k - t.maxDiff);
  }

  /** Clamping into a band with integer ends and truncating stays in the band, and is plain truncation inside it. */
  lemma ClampedTruncInBand(p: real, lo: real, hi: real, intLo: int, intHi: int)
    requires lo == intLo as real && hi == intHi as real && lo <= hi
    ensures intLo <= Trunc(Clamp(p, lo, hi)) <= intHi
    ensures lo <= p <= hi ==> Trunc(Clamp(p, lo, hi)) == Trunc(p)
  {
    TruncBetweenIntegers(Clamp(p, lo, hi), intLo, intHi);
  }

  /** Truncation keeps a number between two integers between them. */
  lemma TruncBetweenIntegers(c: real, lo: int, hi: int)
    requires lo as real <= c <= hi as real
    ensures lo <= Trunc(c) <= hi
  {
    if c >= 0.0 {
      assert c.Floor as real <= c;
      assert lo <= c.Floor;
    } else {
      assert (-c).Floor as real <= -c;
      assert -hi <= (-c).Floor;
    }
  }

  /**
   * For a Mach limit other than 999.9 and a band with min diff <= max diff,
   * the threshold lies in the band: it is m - min diff when m * fraction is
   * above the band, m - max diff when it is below, and m * fraction inside.
   */
  lemma MachThresholdInBand(m: real, t: ThresholdSettings)
    requires t.machMinDiff <= t.machMaxDiff && m != 999.9
    ensures var r := GetThresholdValue(Some(m), t, true);
      && r.Some? && r.value.FloatNum?
      && m - t.machMaxDiff <= r.value.f <= m - t.machMinDiff
      && (Scaled(m, t.machSpeedThreshold) > m - t.machMinDiff ==> r.value.f == m - t.machMinDiff)
      && (Scaled(m, t.machSpeedThreshold) < m - t.machMaxDiff ==> r.value.f == m - t.machMaxDiff)
      && (m - t.machMaxDiff <= Scaled(m, t.machSpeedThreshold) <= m - t.machMinDiff ==>
            r.value.f == Scaled(m, t.machSpeedThreshold))
  {
  }

  datatype CalcError = ThresholdAssertion

  function IntOf(n: Option<Number>): Option<int> {
    match n
    case Some(IntNum(i)) => Some(i)
    case Some(FloatNum(f)) => Some(Trunc(f))
    case None => None
  }

  /**
   * _calc_and_set_tresholds once the limits are known: the gear and frame
   * thresholds must come out as int, or the assertion fails.
   */
  function CalcThresholds(speeds: map<string, MaxSpeed>, t: ThresholdSettings): (r: Result<ThresholdSpeeds, CalcError>)
  {
    var gear := GetThresholdValue(AsNumber(SpeedOf(speeds, "gear")), t, false);
    var frame := GetThresholdValue(AsNumber(SpeedOf(speeds, "frame")), t, false);
    var frameMach := GetThresholdValue(AsNumber(SpeedOf(speeds, "frame mach")), t, true);
    if gear.None? || frame.None? then Failure(ThresholdAssertion)
    else
      Success(ThresholdSpeeds(
        gear.value.i,
        frame.value.i,
        if frameMach.Some? then Some(frameMach.value.f) else None,
        IntOf(GetThresholdValue(AsNumber(SpeedOf(speeds, "combat")), t, false)),
        IntOf(GetThresholdValue(AsNumber(SpeedOf(speeds, "start")), t, false)),
        IntOf(GetThresholdValue(AsNumber(SpeedOf(speeds, "landing")), t, false))))
  }

  /**
   * The thresholds exist exactly when the plane has gear and frame limits;
   * a flap threshold exists exactly when that flap limit does, and the
   * Mach threshold when the Mach limit does and is not 999.9.
   */
  lemma CalcThresholdsDefined(speeds: map<string, MaxSpeed>, t: ThresholdSettings)
    ensures CalcThresholds(speeds, t).Success? <==>
      SpeedOf(speeds, "gear") != Missing && SpeedOf(speeds, "frame") != Missing
    ensures var r := CalcThresholds(speeds, t);
      r.Success? ==>
        && (r.value.combatFlap.Some? <==> SpeedOf(speeds, "combat") != Missing)
        && (r.value.startFlap.Some? <==> SpeedOf(speeds, "start") != Missing)
        && (r.value.landingFlap.Some? <==> SpeedOf(speeds, "landing") != Missing)
        && (r.value.frameMach.Some? <==> SpeedOf(speeds, "frame mach") != Missing && SpeedOf(speeds, "frame mach") != Mach(999.9))
  {
  }

  /** The table entries whose percentage is at least the flap deployment, the first of the least percentage. */
  function MinApplicable(t: seq<(int, FlapState)>, x: real): (r: Option<(int, FlapState)>)
    ensures r.Some? ==> r.value in t && x <= r.value.0 as real
    ensures r.Some? ==> forall e :: e in t && x <= e.0 as real ==> r.value.0 <= e.0
    ensures r.None? <==> forall e :: e in t ==> x > e.0 as real
  {
    if t == [] then None
    else
      var rest := MinApplicable(t[1..], x);
      assert forall e :: e in t ==> e == t[0] || e in t[1..];
      if x <= t[0].0 as real && (rest.None? || t[0].0 <= rest.value.0) then Some(t[0]) else rest
  }

  /** Entry k is e, and every applicable entry before it has a strictly greater percentage. */
  ghost predicate FirstMinimalAt(t: seq<(int, FlapState)>, x: real, e: (int, FlapState), k: int) {
    && 0 <= k < |t| && t[k] == e
    && forall j :: 0 <= j < k && x <= t[j].0 as real ==> t[j].0 > e.0
  }

  /**
   * Like Python's min, MinApplicable keeps the first of several applicable
   * entries with the least percentage.
   */
  lemma {:induction false} MinApplicableIsFirst(t: seq<(int, FlapState)>, x: real)
    ensures var r := MinApplicable(t, x);
      r.Some? ==> exists k :: FirstMinimalAt(t, x, r.value, k)
  {
    var r := MinApplicable(t, x);
    if t != [] && r.Some? {
      var rest := MinApplicable(t[1..], x);
      if x <= t[0].0 as real && (rest.None? || t[0].0 <= rest.value.0) {
        assert FirstMinimalAt(t, x, r.value, 0);
      } else {
        MinApplicableIsFirst(t[1..], x);
        var k :| FirstMinimalAt(t[1..], x, rest.value, k);
        FirstMinimalShift(t, x, rest.value, k);
      }
    }
  }

  /** An entry first-minimal in the tail stays so when a head with a greater or inapplicable percentage is added. */
  lemma FirstMinimalShift(t: seq<(int, FlapState)>, x: real, e: (int, FlapState), k: int)
    requires t != [] && FirstMinimalAt(t[1..], x, e, k)
    requires x <= t[0].0 as real ==> t[0].0 > e.0
    ensures FirstMinimalAt(t, x, e, k + 1)
  {
    forall j | 0 < j < k + 1
      ensures t[j] == t[1..][j - 1]
    {
    }
  }

  /**
   * _get_current_flap_state: "none" without a table; otherwise the stage of
   * the entry with the least percentage at or above the deployment, "none"
   * when no entry is. A non-numeric deployment raises TypeError.
   */
  function CurrentFlapState(table: Option<seq<(int, FlapState)>>, pct: Value): (r: Result<FlapState, TypeError>)
    ensures r.Failure? <==> table.Some? && table.value != [] && !pct.Num?
  {
    if table.None? || table.value == [] then Success(NoFlaps)
    else if !pct.Num? then Failure(TypeError)
    else match MinApplicable(table.value, pct.n)
      case None => Success(NoFlaps)
      case Some(e) => Success(e.1)
  }

  /**
   * With the shared percentages as first created, a plane with all three
   * stages reads: up to 0% none, up to 25% combat, up to 50% start, up to
   * 100% landing, and none again above 100%.
   */
  lemma FreshPercentagesStages(x: real)
    ensures CurrentFlapState(Some(Thresholds([NoFlaps, Combat, Start, Landing], FlapPercs(25, 50, 100))), Num(x)) ==
      Success(if x <= 0.0 then NoFlaps else if x <= 25.0 then Combat else if x <= 50.0 then Start
              else if x <= 100.0 then Landing else NoFlaps)
  {
    var t := Thresholds([NoFlaps, Combat, Start, Landing], FlapPercs(25, 50, 100));
    assert t == [(0, NoFlaps), (25, Combat), (50, Start), (100, Landing)];
    assert t[1..] == [(25, Combat), (50, Start), (100, Landing)];
    assert t[1..][1..] == [(50, Start), (100, Landing)];
    assert t[1..][1..][1..] == [(100, Landing)];
  }

  /** The table of a plane with all three stages once start reads 100%: start shadows landing. */
  lemma StartShadowsLanding(x: real)
    ensures CurrentFlapState(Some([(0, NoFlaps), (25, Combat), (100, Start), (100, Landing)]), Num(x)) ==
      Success(if x <= 0.0 then NoFlaps else if x <= 25.0 then Combat else if x <= 100.0 then Start else NoFlaps)
  {
    var t := [(0, NoFlaps), (25, Combat), (100, Start), (100, Landing)];
    assert t[1..] == [(25, Combat), (100, Start), (100, Landing)];
    assert t[1..][1..] == [(100, Start), (100, Landing)];
    assert t[1..][1..][1..] == [(100, Landing)];
    assert MinApplicable(t[1..][1..][1..], x) == if x <= 100.0 then Some((100, Landing)) else None;
    assert MinApplicable(t[1..][1..], x) == if x <= 100.0 then Some((100, Start)) else None;
    assert MinApplicable(t[1..], x) == if x <= 25.0 then Some((25, Combat)) else if x <= 100.0 then Some((100, Start)) else None;
    assert MinApplicable(t, x) == if x <= 0.0 then Some((0, NoFlaps)) else MinApplicable(t[1..], x);
  }

  /**
   * GENERAL_FLAP_STATES is shared: once a plane whose last stage is start
   * has set start's percentage to 100, a later plane with all three stages
   * never reads landing, and full flaps read as start.
   */
  lemma SharedPercentagesHideLanding(x: real)
    ensures CatalogAfter(FlapPercs(25, 50, 100), PossibleFlaps((true, true, false))) == FlapPercs(25, 100, 100)
    ensures var t := Thresholds(PossibleFlaps((true, true, true)), FlapPercs(25, 100, 100));
      && CurrentFlapState(Some(t), Num(x)) != Success(Landing)
      && CurrentFlapState(Some(t), Num(100.0)) == Success(Start)
  {
    assert Picked((true, true, false), 3) == [Combat, Start];
    assert Picked((true, true, true), 3) == [Combat, Start, Landing];
    assert Thresholds(PossibleFlaps((true, true, true)), FlapPercs(25, 100, 100))
      == [(0, NoFlaps), (25, Combat), (100, Start), (100, Landing)];
    StartShadowsLanding(x);
    StartShadowsLanding(100.0);
  }

  /**
   * The deployment table is not always rising and ending at 100%: once a
   * combat-only plane has moved combat to 100 in the shared percentages, a
   * later plane with all three stages gets combat at 100 before start at 50;
   * and a plane without flaps gets a table whose only entry is 0.
   */
  lemma SharedPercentagesBreakOrder(percs: FlapPercs)
    ensures CatalogAfter(FlapPercs(25, 50, 100), PossibleFlaps((true, false, false))) == FlapPercs(100, 50, 100)
    ensures var t := Thresholds(PossibleFlaps((true, true, true)), FlapPercs(100, 50, 100));
      t == [(0, NoFlaps), (100, Combat), (50, Start), (100, Landing)] && t[1].0 > t[2].0
    ensures Thresholds(PossibleFlaps((false, false, false)), percs) == [(0, NoFlaps)]
  {
    assert Picked((true, false, false), 3) == [Combat];
    assert Picked((true, true, true), 3) == [Combat, Start, Landing];
    assert Picked((false, false, false), 3) == [];
  }

  /** _get_current_flap_treshold: the threshold of the current stage; None for "none" and without thresholds. */
  function CurrentFlapThreshold(th: Option<ThresholdSpeeds>, table: Option<seq<(int, FlapState)>>, pct: Value): (r: Result<Option<int>, TypeError>)
    ensures th.None? ==> r == Success(None)
    ensures th.Some? ==> (r.Failure? <==> CurrentFlapState(table, pct).Failure?)
    ensures r.Success? && r.value.Some? ==> CurrentFlapState(table, pct).Success? && CurrentFlapState(table, pct).value != NoFlaps
  {
    if th.None? then Success(None)
    else
      var state :- CurrentFlapState(table, pct);
      match state
      case Combat => Success(th.value.combatFlap)
      case Start => Success(th.value.startFlap)
      case Landing => Success(th.value.landingFlap)
      case NoFlaps => Success(None)
  }

  /** `speed < max_speeds.get(key, 0)`: an absent key compares with 0, a None limit raises TypeError. */
  function BelowOrZero(speed: Value, speeds: map<string, MaxSpeed>, key: string): (r: Result<bool, TypeError>)
    ensures r.Success? <==> speed.Num? && (key in speeds ==> !speeds[key].Missing?)
  {
    if !speed.Num? then Failure(TypeError)
    else if key !in speeds then Success(speed.n < 0.0)
    else match speeds[key]
      case Missing => Failure(TypeError)
      case Kmh(k) => Success(speed.n < k as real)
      case Mach(m) => Success(speed.n < m)
  }

  /** The reversed walk of _new_flap_avaliable over the table entries before index |t|. */
  function SafeStage(t: seq<(int, FlapState)>, speeds: map<string, MaxSpeed>, speed: Value): Result<FlapState, TypeError> {
    if t == [] then Success(NoFlaps)
    else
      var s := t[|t| - 1].1;
      if s == NoFlaps then Success(NoFlaps)
      else
        var below :- BelowOrZero(speed, speeds, s.Name());
        if below then Success(s) else SafeStage(t[..|t| - 1], speeds, speed)
  }

  /**
   * _new_flap_avaliable, as a specification: whether to announce a further
   * flap stage, and the informed stage afterwards.
   */
  function FlapAvailability(table: Option<seq<(int, FlapState)>>, speeds: Option<map<string, MaxSpeed>>,
                            informed: FlapState, speed: Value, pct: Value): Result<(bool, FlapState), TypeError>
  {
    if table.None? || speeds.None? then Success((false, informed))
    else
      var safe :- SafeStage(table.value, speeds.value, speed);
      var current :- CurrentFlapState(table, pct);
      if safe.Level() > informed.Level() then Success((safe.Level() > current.Level(), safe))
      else if safe.Level() < informed.Level() then Success((false, safe))
      else Success((false, informed))
  }

  /**
   * The informed stage always becomes the safe stage, and a stage is
   * announced exactly when the safe stage is above both the informed
   * stage and the stage the flaps are in.
   */
  lemma FlapAvailabilityRule(table: seq<(int, FlapState)>, speeds: map<string, MaxSpeed>,
                             informed: FlapState, speed: Value, pct: Value)
    requires FlapAvailability(Some(table), Some(speeds), informed, speed, pct).Success?
    ensures var safe := SafeStage(table, speeds, speed);
      var current := CurrentFlapState(Some(table), pct);
      var r := FlapAvailability(Some(table), Some(speeds), informed, speed, pct).value;
      && safe.Success? && current.Success?
      && r.1 == safe.value
      && (r.0 <== safe.value.Level() > informed.Level() && safe.value.Level() > current.value.Level())
      && (r.0 ==> safe.value.Level() > informed.Level() && safe.value.Level() > current.value.Level())
  {
    var safe := SafeStage(table, speeds, speed);
    if safe.value.Level() == informed.Level() {
      NameAndLevelIdentify(safe.value, informed);
    }
  }

  /** Once the informed stage is the safe stage, the same reading announces nothing. */
  lemma FlapAvailabilitySettles(table: seq<(int, FlapState)>, speeds: map<string, MaxSpeed>,
                                informed: FlapState, speed: Value, pct: Value)
    requires FlapAvailability(Some(table), Some(speeds), informed, speed, pct).Success?
    ensures var s := FlapAvailability(Some(table), Some(speeds), informed, speed, pct).value.1;
      FlapAvailability(Some(table), Some(speeds), s, speed, pct) == Success((false, s))
  {
    FlapAvailabilityRule(table, speeds, informed, speed, pct);
  }

  /** The identifiers of a list of sounds. */
  function Ids(s: seq<Sound>): (r: set<string>)
    ensures forall x :: x in s ==> x.identifier in r
    ensures forall id :: id in r ==> exists x :: x in s && x.identifier == id
  {
    set i | 0 <= i < |s| :: s[i].identifier
  }

  /** The sounds, in order, whose identifier is not in ids. */
  function Without(s: seq<Sound>, ids: set<string>): (r: seq<Sound>)
    ensures forall x :: x in r <==> x in s && x.identifier !in ids
  {
    if s == [] then []
    else (if s[0].identifier in ids then [] else [s[0]]) + Without(s[1..], ids)
  }

  /** The sounds, in order, whose identifier is in ids. */
  function Within(s: seq<Sound>, ids: set<string>): (r: seq<Sound>)
    ensures forall x :: x in r <==> x in s && x.identifier in ids
  {
    if s == [] then []
    else (if s[0].identifier in ids then [s[0]] else []) + Within(s[1..], ids)
  }

  /** list.remove: drop the first occurrence of x. */
  function RemoveFirst(s: seq<Sound>, x: Sound): seq<Sound> {
    if s == [] then []
    else if s[0] == x then s[1..]
    else [s[0]] + RemoveFirst(s[1..], x)
  }

  /** The list after the first k sounds whose identifier is not in ids have been removed. */
  function DropFirst(s: seq<Sound>, ids: set<string>, k: nat): seq<Sound> {
    if s == [] then []
    else if s[0].identifier !in ids && k > 0 then DropFirst(s[1..], ids, k - 1)
    else [s[0]] + DropFirst(s[1..], ids, k)
  }

  lemma {:induction false} DropFirstZero(s: seq<Sound>, ids: set<string>)
    ensures DropFirst(s, ids, 0) == s
  {
    if s != [] {
      DropFirstZero(s[1..], ids);
    }
  }

  /** Removing the k-th sound to go drops one more of them. */
  lemma {:induction false} DropFirstStep(s: seq<Sound>, ids: set<string>, k: nat)
    requires k < |Without(s, ids)|
    ensures RemoveFirst(DropFirst(s, ids, k), Without(s, ids)[k]) == DropFirst(s, ids, k + 1)
  {
    var x := Without(s, ids)[k];
    var rest := Without(s[1..], ids);
    assert s != [];
    if s[0].identifier in ids {
      assert Without(s, ids) == rest;
      assert x in Without(s, ids);
      var d := DropFirst(s[1..], ids, k);
      assert DropFirst(s, ids, k) == [s[0]] + d;
      assert s[0] != x;
      assert ([s[0]] + d)[0] == s[0] && ([s[0]] + d)[1..] == d;
      DropFirstStep(s[1..], ids, k);
    } else if k == 0 {
      assert Without(s, ids) == [s[0]] + rest;
      DropFirstZero(s, ids);
      DropFirstZero(s[1..], ids);
      assert DropFirst(s, ids, 1) == DropFirst(s[1..], ids, 0);
    } else {
      assert Without(s, ids) == [s[0]] + rest;
      assert x == rest[k - 1];
      assert DropFirst(s, ids, k) == DropFirst(s[1..], ids, k - 1);
      assert DropFirst(s, ids, k + 1) == DropFirst(s[1..], ids, k);
      DropFirstStep(s[1..], ids, k - 1);
    }
  }

  /** Once every sound to go has been removed, what is left is the sounds to keep. */
  lemma {:induction false} DropFirstAll(s: seq<Sound>, ids: set<string>)
    ensures DropFirst(s, ids, |Without(s, ids)|) == Within(s, ids)
  {
    if s != [] {
      var n := |Without(s[1..], ids)|;
      DropFirstAll(s[1..], ids);
      if s[0].identifier in ids {
        assert Without(s, ids) == Without(s[1..], ids);
        assert DropFirst(s, ids, n) == [s[0]] + DropFirst(s[1..], ids, n);
        assert Within(s, ids) == [s[0]] + Within(s[1..], ids);
      } else {
        assert Without(s, ids) == [s[0]] + Without(s[1..], ids);
        assert DropFirst(s, ids, n + 1) == DropFirst(s[1..], ids, n);
        assert Within(s, ids) == Within(s[1..], ids);
      }
    }
  }

  /**
   * The frame, Mach and gear warnings of on_new_telemetry, in that order.
   * A non-numeric airspeed raises at the first comparison; the gear
   * position is compared only above the gear threshold.
   */
  function SpeedWarnings(th: ThresholdSpeeds, tel: WtFetcher.TelemetryData, dir: string): (r: Result<seq<Sound>, TypeError>)
    ensures r.Success? ==> tel.ias.Num?
    ensures r.Failure? <==>
      || !tel.ias.Num?
      || (th.frameMach.Some? && !tel.machSpeed.Null? && !tel.machSpeed.Num?)
      || (tel.ias.n > th.gear as real && !tel.gear.Num?)
  {
    if !tel.ias.Num? then Failure(TypeError)
    else
      var ias := tel.ias.n;
      var machHit :-
        if th.frameMach.None? || tel.machSpeed.Null? then Success(false)
        else Greater(tel.machSpeed, th.frameMach.value);
      var gearHit :- if ias > th.gear as real then Greater(tel.gear, 0.0) else Success(false);
      Success((if ias > th.frame as real then [Sounds.SpeedWarningSound(dir)] else [])
            + (if machHit then [Sounds.SpeedWarningSound(dir)] else [])
            + (if gearHit then [Sounds.GearSpeedWarningSound(dir)] else []))
  }

  /** The speed warnings and the flap-speed warning: everything but the flap announcement. */
  function Alarms(th: ThresholdSpeeds, table: Option<seq<(int, FlapState)>>, tel: WtFetcher.TelemetryData, dir: string): (r: Result<seq<Sound>, TypeError>)
    ensures r.Success? ==> tel.ias.Num?
    ensures r.Failure? <==>
      || SpeedWarnings(th, tel, dir).Failure?
      || (table.Some? && table.value != [] && !tel.flaps.Num?)
  {
    var speedPart :- SpeedWarnings(th, tel, dir);
    var flapThreshold :- CurrentFlapThreshold(Some(th), table, tel.flaps);
    if flapThreshold.Some? && tel.ias.n > flapThreshold.value as real
    then Success(speedPart + [Sounds.FlapSpeedWarningSound(dir)])
    else Success(speedPart)
  }

  /**
   * The rules of on_new_telemetry's speed warnings: one airframe warning
   * for the indicated airspeed above the frame limit and one for the Mach
   * number above the Mach limit, one gear warning exactly when the airspeed
   * is above the gear limit with the gear out, and nothing else.
   */
  lemma SpeedWarningsContents(th: ThresholdSpeeds, tel: WtFetcher.TelemetryData, dir: string)
    ensures var r := SpeedWarnings(th, tel, dir);
      r.Success? ==>
        var frameHit := tel.ias.n > th.frame as real;
        var machHit := th.frameMach.Some? && tel.machSpeed.Num? && tel.machSpeed.n > th.frameMach.value;
        var gearHit := tel.ias.n > th.gear as real && tel.gear.Num? && tel.gear.n > 0.0;
        && multiset(r.value)[Sounds.SpeedWarningSound(dir)] == (if frameHit then 1 else 0) + (if machHit then 1 else 0)
        && multiset(r.value)[Sounds.GearSpeedWarningSound(dir)] == (if gearHit then 1 else 0)
        && (Sounds.GearSpeedWarningSound(dir) in r.value <==> gearHit)
        && |r.value| == multiset(r.value)[Sounds.SpeedWarningSound(dir)] + multiset(r.value)[Sounds.GearSpeedWarningSound(dir)]
        && Sounds.FlapSpeedWarningSound(dir) !in r.value
  {
    var r := SpeedWarnings(th, tel, dir);
    if r.Success? {
      Sounds.AlarmSoundsDistinct(dir);
      var machHit := th.frameMach.Some? && tel.machSpeed.Num? && tel.machSpeed.n > th.frameMach.value;
      var gearHit := tel.ias.n > th.gear as real && tel.gear.Num? && tel.gear.n > 0.0;
      SpeedWarningsShape(th, tel, dir, machHit, gearHit);
      PickedCounts(r.value, Sounds.SpeedWarningSound(dir), Sounds.GearSpeedWarningSound(dir), Sounds.FlapSpeedWarningSound(dir),
                   tel.ias.n > th.frame as real, machHit, gearHit);
    }
  }

  /** The successful speed warnings, written with the three conditions spelled out. */
  lemma SpeedWarningsShape(th: ThresholdSpeeds, tel: WtFetcher.TelemetryData, dir: string, machHit: bool, gearHit: bool)
    requires SpeedWarnings(th, tel, dir).Success?
    requires machHit == (th.frameMach.Some? && tel.machSpeed.Num? && tel.machSpeed.n > th.frameMach.value)
    requires gearHit == (tel.ias.n > th.gear as real && tel.gear.Num? && tel.gear.n > 0.0)
    ensures SpeedWarnings(th, tel, dir).value ==
      (if tel.ias.n > th.frame as real then [Sounds.SpeedWarningSound(dir)] else [])
      + (if machHit then [Sounds.SpeedWarningSound(dir)] else [])
      + (if gearHit then [Sounds.GearSpeedWarningSound(dir)] else [])
  {
  }

  /** Counting in a list of up to two a's followed by at most one g. */
  lemma PickedCounts<T>(w: seq<T>, a: T, g: T, f: T, b1: bool, b2: bool, b3: bool)
    requires a != g && f != a && f != g
    requires w == (if b1 then [a] else []) + (if b2 then [a] else []) + (if b3 then [g] else [])
    ensures
      && multiset(w)[a] == (if b1 then 1 else 0) + (if b2 then 1 else 0)
      && multiset(w)[g] == (if b3 then 1 else 0)
      && (g in w <==> b3)
      && |w| == multiset(w)[a] + multiset(w)[g]
      && f !in w
  {
    var p := if b1 && b2 then [a, a] else if b1 || b2 then [a] else [];
    assert (if b1 then [a] else []) + (if b2 then [a] else []) == p;
    if b3 {
      assert w == p + [g];
      assert multiset(w) == multiset(p) + multiset{g};
    } else {
      assert w == p;
    }
  }

  /**
   * The alarms are the speed warnings followed by at most one flap-speed
   * warning, raised exactly when the current flap stage has a threshold
   * and the airspeed is above it.
   */
  lemma AlarmsContents(th: ThresholdSpeeds, table: Option<seq<(int, FlapState)>>, tel: WtFetcher.TelemetryData, dir: string)
    ensures var r := Alarms(th, table, tel, dir);
      var sw := SpeedWarnings(th, tel, dir);
      var ft := CurrentFlapThreshold(Some(th), table, tel.flaps);
      r.Success? ==>
        && sw.Success? && ft.Success?
        && var flapHit := ft.value.Some? && tel.ias.n > ft.value.value as real;
        && |r.value| == |sw.value| + (if flapHit then 1 else 0)
        && r.value[..|sw.value|] == sw.value
        && (Sounds.FlapSpeedWarningSound(dir) in r.value <==> flapHit)
  {
    var r := Alarms(th, table, tel, dir);
    if r.Success? {
      var sw := SpeedWarnings(th, tel, dir).value;
      var ft := CurrentFlapThreshold(Some(th), table, tel.flaps).value;
      var tail := if ft.Some? && tel.ias.n > ft.value as real then [Sounds.FlapSpeedWarningSound(dir)] else [];
      AlarmsShape(th, table, tel, dir, tail);
      SpeedWarningsContents(th, tel, dir);
      assert r.value[..|sw|] == sw;
      assert forall x :: x in r.value <==> x in sw || x in tail;
    }
  }

  /** The successful alarms, written as the speed warnings and the flap-speed part. */
  lemma AlarmsShape(th: ThresholdSpeeds, table: Option<seq<(int, FlapState)>>, tel: WtFetcher.TelemetryData, dir: string,
                    tail: seq<Sound>)
    requires Alarms(th, table, tel, dir).Success?
    requires SpeedWarnings(th, tel, dir).Success? && CurrentFlapThreshold(Some(th), table, tel.flaps).Success?
    requires var ft := CurrentFlapThreshold(Some(th), table, tel.flaps).value;
      tail == if ft.Some? && tel.ias.n > ft.value as real then [Sounds.FlapSpeedWarningSound(dir)] else []
    ensures Alarms(th, table, tel, dir).value == SpeedWarnings(th, tel, dir).value + tail
  {
  }


  /** The state of an engine the telemetry step reads and writes. */
  datatype EngineView = EngineView(
    thresholds: Option<ThresholdSpeeds>,
    flapStates: Option<seq<(int, FlapState)>>,
    maxSpeeds: Option<map<string, MaxSpeed>>,
    informed: FlapState,
    warnings: seq<Sound>)

  /** The warning list of on_new_telemetry, and the informed stage afterwards. */
  function Candidates(v: EngineView, tel: WtFetcher.TelemetryData, dir: string): Result<(seq<Sound>, FlapState), TypeError>
    requires v.thresholds.Some?
  {
    var alarms :- Alarms(v.thresholds.value, v.flapStates, tel, dir);
    var availability :- FlapAvailability(v.flapStates, v.maxSpeeds, v.informed, tel.ias, tel.flaps);
    if availability.0 then Success((alarms + [Sounds.FlapInfoSound(dir)], availability.1))
    else Success((alarms, availability.1))
  }

  /** The Qt signals of on_new_telemetry. */
  datatype Event = StopSounds(stopped: seq<Sound>) | PlaySounds(played: seq<Sound>)

  /**
   * Adding the new warnings and popping the old ones: the signals, stop
   * first, each only when not empty, and the sounding list afterwards.
   */
  function Settle(warnings: seq<Sound>, candidates: seq<Sound>): (seq<Event>, seq<Sound>) {
    var added := Without(candidates, Ids(warnings));
    var afterAdd := warnings + added;
    var removed := Without(afterAdd, Ids(candidates));
    ((if |removed| > 0 then [StopSounds(removed)] else []) + (if |added| > 0 then [PlaySounds(added)] else []),
     Within(afterAdd, Ids(candidates)))
  }

  /**
   * on_new_telemetry, as a specification: nothing happens without
   * telemetry, thresholds or airspeed; a comparison that raises TypeError
   * aborts the step; otherwise the warnings are settled against the
   * candidates.
   */
  function Step(v: EngineView, tel: Option<WtFetcher.TelemetryData>, dir: string): Result<(seq<Event>, EngineView), TypeError> {
    if tel.None? || v.thresholds.None? || tel.value.ias.Null? then Success(([], v))
    else
      var c :- Candidates(v, tel.value, dir);
      var settled := Settle(v.warnings, c.0);
      Success((settled.0, v.(informed := c.1, warnings := settled.1)))
  }

  /** Without telemetry, thresholds or airspeed the step changes nothing and signals nothing. */
  lemma DegradedStepIsQuiet(v: EngineView, tel: Option<WtFetcher.TelemetryData>, dir: string)
    requires tel.None? || v.thresholds.None? || tel.value.ias.Null?
    ensures Step(v, tel, dir) == Success(([], v))
  {
  }

  /**
   * After settling, the sounding warnings carry exactly the candidates'
   * identifiers; the started sounds are the candidates that were not
   * sounding, and the stopped ones the sounding ones no longer wanted.
   */
  lemma SettleSyncsWarnings(warnings: seq<Sound>, c: seq<Sound>)
    ensures var (events, w) := Settle(warnings, c);
      && Ids(w) == Ids(c)
      && (forall x :: x in w ==> x in warnings || x in c)
      && (forall e :: e in events && e.PlaySounds? ==>
            forall x :: x in e.played <==> x in c && x.identifier !in Ids(warnings))
      && (forall e :: e in events && e.StopSounds? ==>
            forall x :: x in e.stopped <==> x in warnings && x.identifier !in Ids(c))
  {
    var added := Without(c, Ids(warnings));
    var afterAdd := warnings + added;
    var removed := Without(afterAdd, Ids(c));
    var (events, w) := Settle(warnings, c);
    assert events == (if |removed| > 0 then [StopSounds(removed)] else []) + (if |added| > 0 then [PlaySounds(added)] else []);
    assert w == Within(afterAdd, Ids(c));
    SettledIds(warnings, c);
    SettledRemoved(warnings, c);
    forall e | e in events
      ensures e.PlaySounds? ==> e.played == added
      ensures e.StopSounds? ==> e.stopped == removed
    {
    }
  }

  /** The sounds popped after adding the new candidates are the sounding ones no longer wanted. */
  lemma SettledRemoved(warnings: seq<Sound>, c: seq<Sound>)
    ensures forall x :: x in Without(warnings + Without(c, Ids(warnings)), Ids(c)) <==> x in warnings && x.identifier !in Ids(c)
  {
    var afterAdd := warnings + Without(c, Ids(warnings));
    forall x | x in afterAdd && x.identifier !in Ids(c)
      ensures x in warnings
    {
    }
  }

  /** Keeping the candidates' identifiers after adding the new candidates loses none of them. */
  lemma SettledIds(warnings: seq<Sound>, c: seq<Sound>)
    ensures Ids(Within(warnings + Without(c, Ids(warnings)), Ids(c))) == Ids(c)
  {
    var added := Without(c, Ids(warnings));
    var afterAdd := warnings + added;
    var w := Within(afterAdd, Ids(c));
    forall id | id in Ids(c)
      ensures id in Ids(w)
    {
      var x :| x in c && x.identifier == id;
      if id in Ids(warnings) {
        var y :| y in warnings && y.identifier == id;
        assert y in afterAdd;
        assert y in w;
      } else {
        assert x in added;
        assert x in afterAdd;
        assert x in w;
      }
    }
  }

  /** Nothing is left when every identifier is excluded. */
  lemma {:induction false} WithoutCovered(s: seq<Sound>, ids: set<string>)
    requires Ids(s) <= ids
    ensures Without(s, ids) == []
  {
    if s != [] {
      assert s[0] in s;
      assert Ids(s[1..]) <= Ids(s) by {
        forall id | id in Ids(s[1..])
          ensures id in Ids(s)
        {
          var x :| x in s[1..] && x.identifier == id;
          assert x in s;
        }
      }
      WithoutCovered(s[1..], ids);
    }
  }

  /**
   * Settling again against candidates whose identifiers were all sounding
   * starts nothing and stops only the sounds whose identifiers dropped out.
   */
  lemma SettleAgainStartsNothing(warnings: seq<Sound>, c: seq<Sound>)
    requires Ids(c) <= Ids(warnings)
    ensures var events := Settle(warnings, c).0;
      && (forall e :: e in events ==> e.StopSounds?)
      && (forall e, x :: e in events && x in e.stopped ==> x in warnings && x.identifier !in Ids(c))
  {
    WithoutCovered(c, Ids(warnings));
  }

  /**
   * The informed stage only matters to the flap announcement: once it is
   * the stage a successful step chose, the same record yields the alarms
   * alone, whatever is sounding.
   */
  lemma CandidatesSettle(v: EngineView, tel: WtFetcher.TelemetryData, dir: string, w: seq<Sound>)
    requires v.thresholds.Some?
    requires Candidates(v, tel, dir).Success?
    ensures var c := Candidates(v, tel, dir).value;
      var alarms := Alarms(v.thresholds.value, v.flapStates, tel, dir);
      && alarms.Success?
      && (c.0 == alarms.value || c.0 == alarms.value + [Sounds.FlapInfoSound(dir)])
      && Candidates(v.(informed := c.1, warnings := w), tel, dir) == Success((alarms.value, c.1))
  {
    var alarms := Alarms(v.thresholds.value, v.flapStates, tel, dir);
    var a := FlapAvailability(v.flapStates, v.maxSpeeds, v.informed, tel.ias, tel.flaps);
    assert alarms.Success? && a.Success?;
    if v.flapStates.Some? && v.maxSpeeds.Some? {
      FlapAvailabilitySettles(v.flapStates.value, v.maxSpeeds.value, v.informed, tel.ias, tel.flaps);
    }
    assert FlapAvailability(v.flapStates, v.maxSpeeds, a.value.1, tel.ias, tel.flaps) == Success((false, a.value.1));
  }

  /**
   * Debouncing: repeating the telemetry record of a successful step starts
   * no sound, and stops at most the flap-availability announcement.
   */
  lemma RepeatedTelemetryIsQuiet(v: EngineView, tel: WtFetcher.TelemetryData, dir: string)
    requires v.thresholds.Some? && !tel.ias.Null?
    requires Step(v, Some(tel), dir).Success?
    ensures var v1 := Step(v, Some(tel), dir).value.1;
      && Step(v1, Some(tel), dir).Success?
      && (forall e :: e in Step(v1, Some(tel), dir).value.0 ==> e.StopSounds?)
      && (forall e, x :: e in Step(v1, Some(tel), dir).value.0 && x in e.stopped ==> x.identifier == Sounds.FLAP_INFO_ID)
  {
    var cs := Candidates(v, tel, dir).value;
    var c := cs.0;
    var v1 := Step(v, Some(tel), dir).value.1;
    assert v1 == v.(informed := cs.1, warnings := Settle(v.warnings, c).1);
    CandidatesSettle(v, tel, dir, Settle(v.warnings, c).1);
    var alarms := Alarms(v.thresholds.value, v.flapStates, tel, dir).value;
    SettleSyncsWarnings(v.warnings, c);
    assert Ids(v1.warnings) == Ids(c);
    assert Ids(alarms) <= Ids(c);
    SettleAgainStartsNothing(v1.warnings, alarms);
    forall x | x in v1.warnings && x.identifier !in Ids(alarms)
      ensures x.identifier == Sounds.FLAP_INFO_ID
    {
      assert x.identifier in Ids(c);
      var y :| y in c && y.identifier == x.identifier;
      assert y !in alarms;
    }
  }

  /**
   * With no Mach number in the telemetry the record carries the default
   * 999.9, so a plane with a Mach threshold below that always gets the
   * airframe speed warning.
   */
  lemma MissingMachNumberWarns(th: ThresholdSpeeds, tel: WtFetcher.TelemetryData, dir: string)
    requires th.frameMach.Some? && th.frameMach.value < 999.9
    requires tel.machSpeed == Num(999.9) && tel.ias.Num? && tel.gear.Num?
    ensures SpeedWarnings(th, tel, dir).Success?
    ensures Sounds.SpeedWarningSound(dir) in SpeedWarnings(th, tel, dir).value
  {
  }

  /** The constructor arguments of PlaneSpeedWarningEngine; percentages are divided by 100. */
  datatype Overrides = Overrides(
    speedWarningThreshold: Option<real>,
    minDiff: Option<int>,
    maxDiff: Option<int>,
    machSpeedThreshold: Option<real>,
    machMinDiff: Option<real>,
    machMaxDiff: Option<real>)

  /** What the constructor writes into the shared settings: each given argument, the others kept. */
  function ApplyOverrides(s: ThresholdSettings, o: Overrides): (r: ThresholdSettings)
    ensures r.speedWarningThreshold == if o.speedWarningThreshold.Some? then o.speedWarningThreshold.value / 100.0 else s.speedWarningThreshold
    ensures r.minDiff == o.minDiff.GetOr(s.minDiff) && r.maxDiff == o.maxDiff.GetOr(s.maxDiff)
    ensures r.machSpeedThreshold == if o.machSpeedThreshold.Some? then o.machSpeedThreshold.value / 100.0 else s.machSpeedThreshold
    ensures r.machMinDiff == o.machMinDiff.GetOr(s.machMinDiff) && r.machMaxDiff == o.machMaxDiff.GetOr(s.machMaxDiff)
  {
    var s1 := if o.speedWarningThreshold.Some? then s.(speedWarningThreshold := o.speedWarningThreshold.value / 100.0) else s;
    var s2 := if o.minDiff.Some? then s1.(minDiff := o.minDiff.value) else s1;
    var s3 := if o.maxDiff.Some? then s2.(maxDiff := o.maxDiff.value) else s2;
    var s4 := if o.machSpeedThreshold.Some? then s3.(machSpeedThreshold := o.machSpeedThreshold.value / 100.0) else s3;
    var s5 := if o.machMinDiff.Some? then s4.(machMinDiff := o.machMinDiff.value) else s4;
    if o.machMaxDiff.Some? then s5.(machMaxDiff := o.machMaxDiff.value) else s5
  }

  /**
   * Because the settings object is shared, an engine built with no
   * arguments after one built with arguments inherits them instead of the
   * standard values.
   */
  lemma SecondEngineInheritsOverrides(o: Overrides)
    requires o.minDiff == Some(20)
    ensures var none := Overrides(None, None, None, None, None, None);
      && ApplyOverrides(ApplyOverrides(STANDARD_SPEED_THRESHOLDS, o), none).minDiff == 20
      && ApplyOverrides(STANDARD_SPEED_THRESHOLDS, none).minDiff == 10
  {
  }

  /** The settings on_new_threshold_settings installs: the warning percentage over 100, the Mach values back to their defaults. */
  function SettingsFromWarning(w: Settings.WarningSettings): (s: ThresholdSettings)
    ensures s.speedWarningThreshold == w.speedTreshold / 100.0 && s.minDiff == w.minDiff && s.maxDiff == w.maxDiff
    ensures s == NewThresholdSettings(s.speedWarningThreshold, s.minDiff, s.maxDiff)
  {
    NewThresholdSettings(w.speedTreshold / 100.0, w.minDiff, w.maxDiff)
  }

  class PlaneSpeedWarningEngine {
    var thresholds: Option<ThresholdSpeeds>
    var speedBorders: SettingsCell
    var planeMaxSpeeds: Option<map<string, MaxSpeed>>
    /** None until the first plane with thresholds (the attribute is unset in the source). */
    var planeFlapStates: Option<seq<(int, FlapState)>>
    var informedFlapState: FlapState
    const currentWarnings: WarningList
    /** The sounds directory of the warning sounds. */
    const soundsDir: string

    function View(): EngineView
      reads this, currentWarnings
    {
      EngineView(thresholds, planeFlapStates, planeMaxSpeeds, informedFlapState, currentWarnings.sounds)
    }

    constructor (o: Overrides, standard: SettingsCell, warnings: WarningList, soundsDir: string)
      modifies standard
      ensures speedBorders == standard && standard.value == ApplyOverrides(old(standard.value), o)
      ensures thresholds == None && planeMaxSpeeds == None && planeFlapStates == None && informedFlapState == NoFlaps
      ensures currentWarnings == warnings && this.soundsDir == soundsDir
    {
      planeMaxSpeeds := None;
      thresholds := None;
      speedBorders := standard;
      planeFlapStates := None;
      informedFlapState := NoFlaps;
      currentWarnings := warnings;
      this.soundsDir := soundsDir;
      new;
      if o.speedWarningThreshold.Some? {
        standard.value := standard.value.(speedWarningThreshold := o.speedWarningThreshold.value / 100.0);
      }
      if o.minDiff.Some? {
        standard.value := standard.value.(minDiff := o.minDiff.value);
      }
      if o.maxDiff.Some? {
        standard.value := standard.value.(maxDiff := o.maxDiff.value);
      }
      if o.machSpeedThreshold.Some? {
        standard.value := standard.value.(machSpeedThreshold := o.machSpeedThreshold.value / 100.0);
      }
      if o.machMinDiff.Some? {
        standard.value := standard.value.(machMinDiff := o.machMinDiff.value);
      }
      if o.machMaxDiff.Some? {
        standard.value := standard.value.(machMaxDiff := o.machMaxDiff.value);
      }
    }

    /** _calc_and_set_tresholds: None without limits; a failed assertion leaves the thresholds as they were. */
    method CalcAndSetThresholds() returns (r: Result<Option<ThresholdSpeeds>, CalcError>)
      modifies this
      ensures planeMaxSpeeds.None? ==> thresholds == None && r == Success(None)
      ensures planeMaxSpeeds.Some? ==>
        match CalcThresholds(planeMaxSpeeds.value, speedBorders.value)
        case Success(th) => thresholds == Some(th) && r == Success(Some(th))
        case Failure(e) => thresholds == old(thresholds) && r == Failure(e)
      ensures speedBorders == old(speedBorders) && planeMaxSpeeds == old(planeMaxSpeeds)
      ensures planeFlapStates == old(planeFlapStates) && informedFlapState == old(informedFlapState)
    {
      if planeMaxSpeeds.None? {
        thresholds := None;
        return Success(None);
      }
      var computed := CalcThresholds(planeMaxSpeeds.value, speedBorders.value);
      if computed.Failure? {
        return Failure(computed.error);
      }
      thresholds := Some(computed.value);
      return Success(Some(computed.value));
    }

    /**
     * on_new_plane: a plane without database values clears limits and
     * thresholds; otherwise the limits are taken, the thresholds computed,
     * and, if that succeeded, the flap table read. The informed flap stage
     * is not reset.
     */
    method OnNewPlane(plane: WTPlane) returns (raised: Option<CalcError>)
      requires plane.Valid()
      modifies this
      ensures !plane.maxValuesAvailable ==>
        thresholds == None && planeMaxSpeeds == None && planeFlapStates == old(planeFlapStates) && raised == None
      ensures plane.maxValuesAvailable ==> planeMaxSpeeds == Some(plane.maxSpeeds)
      ensures plane.maxValuesAvailable ==>
        match CalcThresholds(plane.maxSpeeds, speedBorders.value)
        case Success(th) =>
          thresholds == Some(th) && raised == None
          && planeFlapStates == Some(Thresholds(plane.possibleFlaps, plane.catalog.percs))
        case Failure(e) => thresholds == old(thresholds) && planeFlapStates == old(planeFlapStates) && raised == Some(e)
      ensures speedBorders == old(speedBorders) && informedFlapState == old(informedFlapState)
    {
      var maxSpeeds := plane.GetMaxSpeeds();
      if maxSpeeds.None? {
        thresholds := None;
        planeMaxSpeeds := None;
        return None;
      }
      planeMaxSpeeds := maxSpeeds;
      var computed := CalcAndSetThresholds();
      if computed.Failure? {
        return Some(computed.error);
      }
      var table := plane.GetFlapDeploymentThresholds();
      planeFlapStates := Some(table);
      return None;
    }

    /**
     * on_new_threshold_settings: a new settings object (so the shared one is
     * no longer written), with the Mach values at their defaults, then the
     * thresholds recomputed.
     */
    method OnNewThresholdSettings(settings: Settings.WarningSettings) returns (r: Result<Option<ThresholdSpeeds>, CalcError>)
      modifies this
      ensures fresh(speedBorders) && speedBorders.value == SettingsFromWarning(settings)
      ensures planeMaxSpeeds.None? ==> thresholds == None && r == Success(None)
      ensures planeMaxSpeeds.Some? ==>
        match CalcThresholds(planeMaxSpeeds.value, SettingsFromWarning(settings))
        case Success(th) => thresholds == Some(th) && r == Success(Some(th))
        case Failure(e) => thresholds == old(thresholds) && r == Failure(e)
      ensures planeMaxSpeeds == old(planeMaxSpeeds) && planeFlapStates == old(planeFlapStates)
      ensures informedFlapState == old(informedFlapState)
    {
      speedBorders := new SettingsCell(NewThresholdSettings(settings.speedTreshold / 100.0, settings.minDiff, settings.maxDiff));
      r := CalcAndSetThresholds();
    }

    /**
     * _new_flap_avaliable: walk the table from the last stage for the first
     * whose limit is above the speed, then update the informed stage and
     * decide whether to announce.
     */
    method NewFlapAvailable(currentSpeed: Value, pct: Value) returns (r: Result<bool, TypeError>)
      modifies this
      ensures match FlapAvailability(planeFlapStates, planeMaxSpeeds, old(informedFlapState), currentSpeed, pct)
        case Success(a) => r == Success(a.0) && informedFlapState == a.1
        case Failure(e) => r == Failure(e) && informedFlapState == old(informedFlapState)
      ensures thresholds == old(thresholds) && speedBorders == old(speedBorders)
      ensures planeMaxSpeeds == old(planeMaxSpeeds) && planeFlapStates == old(planeFlapStates)
    {
      if planeFlapStates.None? || planeMaxSpeeds.None? {
        return Success(false);
      }
      var table := planeFlapStates.value;
      var speeds := planeMaxSpeeds.value;
      var safeState := NoFlaps;
      var i := |table|;
      assert table[..i] == table;
      while i > 0
        invariant 0 <= i <= |table|
        invariant SafeStage(table, speeds, currentSpeed) == SafeStage(table[..i], speeds, currentSpeed)
      {
        var state := table[i - 1].1;
        assert table[..i][..i - 1] == table[..i - 1];
        if state == NoFlaps {
          break;
        }
        var below := BelowOrZero(currentSpeed, speeds, state.Name());
        if below.Failure? {
          return Failure(below.error);
        }
        if below.value {
          safeState := state;
          break;
        }
        i := i - 1;
      }
      assert SafeStage(table, speeds, currentSpeed) == Success(safeState);
      var current := CurrentFlapState(planeFlapStates, pct);
      if current.Failure? {
        return Failure(current.error);
      }
      var informedLevel := informedFlapState.Level();
      var currentLevel := current.value.Level();
      var safeLevel := safeState.Level();
      if safeLevel > informedLevel {
        informedFlapState := safeState;
        if safeLevel > currentLevel {
          return Success(true);
        }
      } else if safeLevel < informedLevel {
        informedFlapState := safeState;
      }
      return Success(false);
    }

    /** _add_new_warning_sounds: the candidates whose identifier is not sounding yet are appended and returned. */
    method AddNewWarningSounds(newWarnings: seq<Sound>) returns (newSounds: seq<Sound>)
      modifies currentWarnings
      ensures newSounds == Without(newWarnings, Ids(old(currentWarnings.sounds)))
      ensures currentWarnings.sounds == old(currentWarnings.sounds) + newSounds
    {
      var currentIds := Ids(currentWarnings.sounds);
      newSounds := Without(newWarnings, currentIds);
      currentWarnings.sounds := currentWarnings.sounds + newSounds;
    }

    /** _pop_old_warning_sounds: the sounding warnings whose identifier is no longer a candidate are removed one by one and returned. */
    method PopOldWarningSounds(newWarnings: seq<Sound>) returns (oldSounds: seq<Sound>)
      modifies currentWarnings
      ensures oldSounds == Without(old(currentWarnings.sounds), Ids(newWarnings))
      ensures currentWarnings.sounds == Within(old(currentWarnings.sounds), Ids(newWarnings))
    {
      var newIds := Ids(newWarnings);
      var start := currentWarnings.sounds;
      oldSounds := Without(start, newIds);
      DropFirstZero(start, newIds);
      var k := 0;
      while k < |oldSounds|
        invariant 0 <= k <= |oldSounds|
        invariant currentWarnings.sounds == DropFirst(start, newIds, k)
      {
        DropFirstStep(start, newIds, k);
        currentWarnings.sounds := RemoveFirst(currentWarnings.sounds, oldSounds[k]);
        k := k + 1;
      }
      DropFirstAll(start, newIds);
    }

    /**
     * The signalling part of on_new_telemetry: add the new warnings, pop the
     * old ones, then signal the stopped and the started sounds, each only
     * when there are any.
     */
    method SettleWarnings(candidates: seq<Sound>) returns (events: seq<Event>)
      modifies currentWarnings
      ensures (events, currentWarnings.sounds) == Settle(old(currentWarnings.sounds), candidates)
    {
      ghost var sounding := currentWarnings.sounds;
      var newWarnings := AddNewWarningSounds(candidates);
      ghost var afterAdd := currentWarnings.sounds;
      var oldWarnings := PopOldWarningSounds(candidates);
      assert afterAdd == sounding + newWarnings;
      events := [];
      if |oldWarnings| > 0 {
        events := events + [StopSounds(oldWarnings)];
      }
      if |newWarnings| > 0 {
        events := events + [PlaySounds(newWarnings)];
      }
      assert events == Settle(sounding, candidates).0;
    }

    /** The warning list of on_new_telemetry; only the informed flap stage changes, and only when nothing raised. */
    method CollectWarnings(tel: WtFetcher.TelemetryData) returns (r: Result<seq<Sound>, TypeError>)
      requires thresholds.Some?
      modifies this
      ensures match Candidates(old(View()), tel, soundsDir)
        case Success(c) => r == Success(c.0) && informedFlapState == c.1
        case Failure(e) => r == Failure(e) && informedFlapState == old(informedFlapState)
      ensures thresholds == old(thresholds) && speedBorders == old(speedBorders)
      ensures planeMaxSpeeds == old(planeMaxSpeeds) && planeFlapStates == old(planeFlapStates)
    {
      var speedPart := SpeedWarnings(thresholds.value, tel, soundsDir);
      if speedPart.Failure? {
        return Failure(speedPart.error);
      }
      var warningList := speedPart.value;
      var flapThreshold := CurrentFlapThreshold(thresholds, planeFlapStates, tel.flaps);
      if flapThreshold.Failure? {
        return Failure(flapThreshold.error);
      }
      if flapThreshold.value.Some? && tel.ias.n > flapThreshold.value.value as real {
        warningList := warningList + [Sounds.FlapSpeedWarningSound(soundsDir)];
      }
      assert Alarms(thresholds.value, planeFlapStates, tel, soundsDir) == Success(warningList);
      var newFlap := NewFlapAvailable(tel.ias, tel.flaps);
      if newFlap.Failure? {
        return Failure(newFlap.error);
      }
      if newFlap.value {
        warningList := warningList + [Sounds.FlapInfoSound(soundsDir)];
      }
      return Success(warningList);
    }

    /** on_new_telemetry: one step of the engine; a TypeError aborts it with nothing changed. */
    method OnNewTelemetry(telemetry: Option<WtFetcher.TelemetryData>) returns (r: Result<seq<Event>, TypeError>)
      modifies this, currentWarnings
      ensures match Step(old(View()), telemetry, soundsDir)
        case Success(s) => r == Success(s.0) && View() == s.1
        case Failure(e) => r == Failure(e) && View() == old(View())
      ensures speedBorders == old(speedBorders)
    {
      if telemetry.None? || thresholds.None? {
        return Success([]);
      }
      var tel := telemetry.value;
      if tel.ias.Null? {
        return Success([]);
      }
      ghost var v0 := View();
      var warningList := CollectWarnings(tel);
      if warningList.Failure? {
        assert View() == v0;
        return Failure(warningList.error);
      }
      ghost var c := Candidates(v0, tel, soundsDir).value;
      ghost var settled := Settle(v0.warnings, c.0);
      assert Step(v0, telemetry, soundsDir) == Success((settled.0, v0.(informed := c.1, warnings := settled.1)));
      var events := SettleWarnings(warningList.value);
      assert (events, currentWarnings.sounds) == settled;
      return Success(events);
    }
  }
}
