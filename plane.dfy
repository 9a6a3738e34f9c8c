/**
 * The player's aircraft as the warning pipeline sees it
 * (code/Packages/Models/Plane.py): its normalised speed limits from the
 * plane database, the flap stages it has, and the safe flap stage for the
 * current airspeed. The database lookup is an input: the record found, or
 * None when the database raises PlaneNotFound.
 */
module Plane {
  import opened Wrappers
  import opened Values
  import WtFetcher

  /** flapState, in deployment order. */
  datatype FlapState = NoFlaps | Combat | Start | Landing {
    /** The enum's string value; also the key of the stage's limit in the max speeds. */
    function Name(): string {
      match this
      case NoFlaps => "none"
      case Combat => "combat"
      case Start => "start"
      case Landing => "landing"
    }

    /** The index in [NONE, COMBAT, START, LANDING]. */
    function Level(): nat {
      match this
      case NoFlaps => 0
      case Combat => 1
      case Start => 2
      case Landing => 3
    }
  }

  /** The string values identify the stages, and so do the levels, in deployment order. */
  lemma NameAndLevelIdentify(a: FlapState, b: FlapState)
    ensures a.Name() == b.Name() <==> a == b
    ensures a.Level() == b.Level() <==> a == b
    ensures a.Level() < 4
  {
  }

  /** The three flap stages, in the order of GENERAL_FLAP_STATES. */
  const STAGES: seq<FlapState> := [Combat, Start, Landing]

  /** The deployment percentages of GENERAL_FLAP_STATES. */
  datatype FlapPercs = FlapPercs(combat: int, start: int, landing: int) {
    /** A stage's percentage; the plane's own "none" entry reads 0. */
    function Perc(s: FlapState): int {
      match s
      case NoFlaps => 0
      case Combat => combat
      case Start => start
      case Landing => landing
    }

    function With(s: FlapState, p: int): (r: FlapPercs)
      ensures s != NoFlaps ==> r.Perc(s) == p
      ensures forall t :: t != s ==> r.Perc(t) == Perc(t)
    {
      match s
      case NoFlaps => this
      case Combat => this.(combat := p)
      case Start => this.(start := p)
      case Landing => this.(landing := p)
    }
  }

  /**
   * GENERAL_FLAP_STATES: one list of dictionaries shared by every plane
   * created in the process; a plane's constructor writes into it.
   */
  class GeneralFlapStates {
    var percs: FlapPercs

    constructor ()
      ensures percs == FlapPercs(25, 50, 100)
    {
      percs := FlapPercs(25, 50, 100);
    }
  }

  /** A numeric database column: NULL (DbNull), the empty string, or a number. */
  datatype RawField = DbNull | DbEmpty | DbNumber(n: real)

  /** The database record of a plane (DBPlane). */
  datatype DBPlane = DBPlane(
    name: string,
    gearMaxSpeed: RawField,
    frameMaxSpeed: RawField,
    machLimit: RawField,
    combatFlapSpeed: RawField,
    startFlapSpeed: RawField,
    landingFlapSpeed: RawField,
    startSpeed: RawField,
    landingSpeed: RawField)

  /** A normalised limit: None, an int in km/h, or a float Mach number. */
  datatype MaxSpeed = Missing | Kmh(kmh: int) | Mach(mach: real)

  /** The keys of max_speeds, in the dictionary's order. */
  const MAX_SPEED_KEYS: seq<string> := ["gear", "frame", "frame mach", "combat", "start", "landing"]

  function RawOf(db: DBPlane, key: string): RawField {
    if key == "gear" then db.gearMaxSpeed
    else if key == "frame" then db.frameMaxSpeed
    else if key == "frame mach" then db.machLimit
    else if key == "combat" then db.combatFlapSpeed
    else if key == "start" then db.startFlapSpeed
    else if key == "landing" then db.landingFlapSpeed
    else DbNull
  }

  /** '' and None become None, the Mach limit a float, every other limit int(). */
  function Normalise(key: string, raw: RawField): (m: MaxSpeed)
    ensures m.Missing? <==> !raw.DbNumber?
    ensures m.Mach? <==> raw.DbNumber? && key == "frame mach"
    ensures m.Mach? ==> m.mach == raw.n
    ensures m.Kmh? ==> m.kmh == Trunc(raw.n)
  {
    match raw
    case DbNull => Missing
    case DbEmpty => Missing
    case DbNumber(n) => if key == "frame mach" then Mach(n) else Kmh(Trunc(n))
  }

  /** max_speeds after the normalisation loop. */
  function NormalisedSpeeds(db: DBPlane): map<string, MaxSpeed> {
    map k | k in MAX_SPEED_KEYS :: Normalise(k, RawOf(db, k))
  }

  /** The limit stored under a key; an absent key reads as None. */
  function SpeedOf(speeds: map<string, MaxSpeed>, key: string): MaxSpeed {
    if key in speeds then speeds[key] else Missing
  }

  /** flaps_avaliable: (combat, start, landing), each present when its limit is not None. */
  function Availability(speeds: map<string, MaxSpeed>): (bool, bool, bool) {
    (SpeedOf(speeds, "combat") != Missing, SpeedOf(speeds, "start") != Missing, SpeedOf(speeds, "landing") != Missing)
  }

  function AvailableAt(avail: (bool, bool, bool), i: nat): bool
    requires i < 3
  {
    if i == 0 then avail.0 else if i == 1 then avail.1 else avail.2
  }

  /** The stages among the first i of GENERAL_FLAP_STATES that are available. */
  function Picked(avail: (bool, bool, bool), i: nat): seq<FlapState>
    requires i <= 3
  {
    if i == 0 then []
    else Picked(avail, i - 1) + (if AvailableAt(avail, i - 1) then [STAGES[i - 1]] else [])
  }

  /** possible_flaps: "none" followed by the available stages in order. */
  function PossibleFlaps(avail: (bool, bool, bool)): seq<FlapState> {
    [NoFlaps] + Picked(avail, 3)
  }

  /** The possible stages start with "none", rise strictly in level, and hold each stage exactly when it is available. */
  lemma PossibleFlapsShape(avail: (bool, bool, bool))
    ensures var pf := PossibleFlaps(avail);
      && 1 <= |pf| <= 4
      && pf[0] == NoFlaps
      && Rising(pf)
      && (Combat in pf <==> avail.0)
      && (Start in pf <==> avail.1)
      && (Landing in pf <==> avail.2)
  {
    PossibleFlapsMembers(avail);
    PickedRising(avail, 3);
  }

  /** The possible stages are "none" followed by each available stage, in order. */
  lemma PossibleFlapsMembers(avail: (bool, bool, bool))
    ensures PossibleFlaps(avail) ==
      [NoFlaps] + (if avail.0 then [Combat] else []) + (if avail.1 then [Start] else []) + (if avail.2 then [Landing] else [])
    ensures var pf := PossibleFlaps(avail);
      && (Combat in pf <==> avail.0)
      && (Start in pf <==> avail.1)
      && (Landing in pf <==> avail.2)
  {
    assert Picked(avail, 1) == if avail.0 then [Combat] else [];
    assert Picked(avail, 2) == Picked(avail, 1) + if avail.1 then [Start] else [];
    assert Picked(avail, 3) == Picked(avail, 2) + if avail.2 then [Landing] else [];
  }

  /** The stages rise strictly in level. */
  ghost predicate Rising(pf: seq<FlapState>) {
    forall i, j :: 0 <= i < j < |pf| ==> pf[i].Level() < pf[j].Level()
  }

  /** Appending a stage above every stage keeps a rising sequence rising. */
  lemma RisingAppend(pf: seq<FlapState>, s: FlapState)
    requires Rising(pf)
    requires forall k :: 0 <= k < |pf| ==> pf[k].Level() < s.Level()
    ensures Rising(pf + [s])
  {
    var q := pf + [s];
    forall i, j | 0 <= i < j < |q|
      ensures q[i].Level() < q[j].Level()
    {
      assert q[i] == pf[i];
      if j < |pf| {
        assert q[j] == pf[j];
      } else {
        assert q[j] == s;
      }
    }
  }

  /** After i rounds of the appending loop the stages rise and stay at or below level i. */
  lemma {:induction false} PickedRising(avail: (bool, bool, bool), i: nat)
    requires i <= 3
    ensures Rising([NoFlaps] + Picked(avail, i))
    ensures forall k :: 0 <= k < |[NoFlaps] + Picked(avail, i)| ==> ([NoFlaps] + Picked(avail, i))[k].Level() <= i
  {
    if i > 0 {
      PickedRising(avail, i - 1);
      var prev := [NoFlaps] + Picked(avail, i - 1);
      if AvailableAt(avail, i - 1) {
        assert [NoFlaps] + Picked(avail, i) == prev + [STAGES[i - 1]];
        assert STAGES[i - 1].Level() == i;
        RisingAppend(prev, STAGES[i - 1]);
      } else {
        assert [NoFlaps] + Picked(avail, i) == prev;
      }
    }
  }

  /** possible_flaps[-1]["perc"] = 100: the last stage's shared entry becomes 100; with no stage the write hits the plane's own "none" entry. */
  function CatalogAfter(percs: FlapPercs, pf: seq<FlapState>): (r: FlapPercs)
    requires |pf| > 0
  {
    var last := pf[|pf| - 1];
    if last == NoFlaps then percs else percs.With(last, 100)
  }

  /** ASCII lower-casing of str.lower(). */
  function LowerChar(c: char): char {
    if 'A' <= c <= 'Z' then (c as int + 32) as char else c
  }

  function Lower(s: string): (r: string)
    ensures |r| == |s|
  {
    seq(|s|, i requires 0 <= i < |s| => LowerChar(s[i]))
  }

  /** Lower-casing leaves no capital letter, and doing it twice changes nothing. */
  lemma LowerIdempotent(s: string)
    ensures forall i :: 0 <= i < |Lower(s)| ==> !('A' <= Lower(s)[i] <= 'Z')
    ensures Lower(Lower(s)) == Lower(s)
  {
  }

  /** get_flap_deployment_thresholds, as a specification: each possible stage with its percentage, "none" with 0. */
  function Thresholds(pf: seq<FlapState>, percs: FlapPercs): (r: seq<(int, FlapState)>)
    ensures |r| == |pf|
  {
    seq(|pf|, i requires 0 <= i < |pf| => (percs.Perc(pf[i]), pf[i]))
  }

  /** `ias < limit`; a missing limit or a non-numeric speed raises TypeError. */
  function Below(ias: Value, m: MaxSpeed): (r: Result<bool, TypeError>)
    ensures r.Success? <==> ias.Num? && !m.Missing?
    ensures r.Success? && m.Kmh? ==> (r.value <==> ias.n < m.kmh as real)
  {
    match (ias, m)
    case (Num(x), Kmh(k)) => Success(x < k as real)
    case (Num(x), Mach(k)) => Success(x < k)
    case _ => Failure(TypeError)
  }

  /** The reversed walk of get_safe_flap_state over the stages before index |pf|. */
  function SafeFrom(pf: seq<FlapState>, speeds: map<string, MaxSpeed>, ias: Value): Result<FlapState, TypeError> {
    if pf == [] then Success(NoFlaps)
    else
      var s := pf[|pf| - 1];
      if s == NoFlaps then Success(NoFlaps)
      else match Below(ias, SpeedOf(speeds, s.Name()))
        case Failure(e) => Failure(e)
        case Success(below) => if below then Success(s) else SafeFrom(pf[..|pf| - 1], speeds, ias)
  }

  /** Every stage after "none" has a km/h limit. */
  ghost predicate StagesHaveLimits(pf: seq<FlapState>, speeds: map<string, MaxSpeed>) {
    forall i :: 1 <= i < |pf| ==> SpeedOf(speeds, pf[i].Name()).Kmh?
  }

  function Limit(speeds: map<string, MaxSpeed>, s: FlapState): int {
    var m := SpeedOf(speeds, s.Name());
    if m.Kmh? then m.kmh else 0
  }

  /**
   * s is the highest stage of pf whose limit is above the airspeed x, or
   * "none" exactly when no stage after "none" has a limit above x.
   */
  ghost predicate HighestBelow(pf: seq<FlapState>, limit: FlapState -> int, x: real, s: FlapState) {
    && (s == NoFlaps <==> forall j :: 0 < j < |pf| ==> x >= limit(pf[j]) as real)
    && (s != NoFlaps ==>
          && s in pf
          && x < limit(s) as real
          && forall j :: 0 < j < |pf| && x < limit(pf[j]) as real ==> pf[j].Level() <= s.Level())
  }

  /** The stages' km/h limits as a function. */
  function LimitsOf(speeds: map<string, MaxSpeed>): (f: FlapState -> int)
    ensures forall s :: f(s) == Limit(speeds, s)
  {
    s => Limit(speeds, s)
  }

  /** For a numeric airspeed the walk succeeds and picks the highest stage below whose limit the airspeed is. */
  lemma {:induction false} SafeFromPicksHighestBelow(pf: seq<FlapState>, speeds: map<string, MaxSpeed>, x: real)
    requires |pf| > 0 && pf[0] == NoFlaps && Rising(pf)
    requires StagesHaveLimits(pf, speeds)
    ensures SafeFrom(pf, speeds, Num(x)).Success?
    ensures HighestBelow(pf, LimitsOf(speeds), x, SafeFrom(pf, speeds, Num(x)).value)
  {
    var n := |pf| - 1;
    if n > 0 {
      if x >= Limit(speeds, pf[n]) as real {
        SafeFromSkipsTop(pf, speeds, x);
        SafeFromPicksHighestBelow(pf[..n], speeds, x);
        HighestBelowExtends(pf, LimitsOf(speeds), x, SafeFrom(pf[..n], speeds, Num(x)).value);
      } else {
        SafeFromTakesTop(pf, speeds, x);
      }
    }
  }

  /** A stage whose limit the airspeed reaches does not change the highest stage below. */
  lemma HighestBelowExtends(pf: seq<FlapState>, limit: FlapState -> int, x: real, s: FlapState)
    requires |pf| > 1
    requires x >= limit(pf[|pf| - 1]) as real
    requires HighestBelow(pf[..|pf| - 1], limit, x, s)
    ensures HighestBelow(pf, limit, x, s)
  {
    var n := |pf| - 1;
    var p := pf[..n];
    if s == NoFlaps {
      forall j | 0 < j < |pf|
        ensures x >= limit(pf[j]) as real
      {
        if j < n {
          assert p[j] == pf[j];
        }
      }
    } else {
      var k :| 0 < k < |p| && x < limit(p[k]) as real;
      assert p[k] == pf[k];
      var i :| 0 <= i < |p| && p[i] == s;
      assert pf[i] == s;
      forall j | 0 < j < |pf| && x < limit(pf[j]) as real
        ensures pf[j].Level() <= s.Level()
      {
        assert j < n;
        assert p[j] == pf[j];
      }
    }
  }

  /** The walk stops at the top stage when the airspeed is below its limit. */
  lemma SafeFromTakesTop(pf: seq<FlapState>, speeds: map<string, MaxSpeed>, x: real)
    requires |pf| > 1 && pf[0] == NoFlaps && Rising(pf)
    requires StagesHaveLimits(pf, speeds)
    requires x < Limit(speeds, pf[|pf| - 1]) as real
    ensures SafeFrom(pf, speeds, Num(x)) == Success(pf[|pf| - 1])
    ensures HighestBelow(pf, LimitsOf(speeds), x, pf[|pf| - 1])
  {
    var s := pf[|pf| - 1];
    assert pf[0].Level() < s.Level();
    assert SpeedOf(speeds, s.Name()).Kmh?;
  }

  /** The walk passes over the top stage when the airspeed is at or above its limit. */
  lemma SafeFromSkipsTop(pf: seq<FlapState>, speeds: map<string, MaxSpeed>, x: real)
    requires |pf| > 1 && pf[0] == NoFlaps && Rising(pf)
    requires StagesHaveLimits(pf, speeds)
    requires x >= Limit(speeds, pf[|pf| - 1]) as real
    ensures SafeFrom(pf, speeds, Num(x)) == SafeFrom(pf[..|pf| - 1], speeds, Num(x))
    ensures forall j :: 0 <= j < |pf| - 1 ==> pf[..|pf| - 1][j] == pf[j]
    ensures Rising(pf[..|pf| - 1]) && StagesHaveLimits(pf[..|pf| - 1], speeds)
  {
    var s := pf[|pf| - 1];
    assert pf[0].Level() < s.Level();
    assert SpeedOf(speeds, s.Name()).Kmh?;
  }

  /** The normalisation loop over the database limits: max_speeds afterwards. */
  method NormaliseSpeeds(db: DBPlane) returns (speeds: map<string, MaxSpeed>)
    ensures speeds == NormalisedSpeeds(db)
    ensures forall k :: k in speeds <==> k in MAX_SPEED_KEYS
  {
    speeds := map[];
    var i := 0;
    while i < |MAX_SPEED_KEYS|
      invariant 0 <= i <= |MAX_SPEED_KEYS|
      invariant speeds == map k | k in MAX_SPEED_KEYS[..i] :: Normalise(k, RawOf(db, k))
    {
      var key := MAX_SPEED_KEYS[i];
      speeds := speeds[key := Normalise(key, RawOf(db, key))];
      assert MAX_SPEED_KEYS[..i + 1] == MAX_SPEED_KEYS[..i] + [key];
      i := i + 1;
    }
    assert MAX_SPEED_KEYS[..i] == MAX_SPEED_KEYS;
  }

  /** The loop appending the available general stages to "none". */
  method CollectPossibleFlaps(avail: (bool, bool, bool)) returns (pf: seq<FlapState>)
    ensures pf == PossibleFlaps(avail)
  {
    pf := [NoFlaps];
    var i := 0;
    while i < |STAGES|
      invariant 0 <= i <= |STAGES|
      invariant pf == [NoFlaps] + Picked(avail, i)
    {
      if AvailableAt(avail, i) {
        pf := pf + [STAGES[i]];
      }
      i := i + 1;
    }
  }

  /** A database lookup's outcome as seen by the worker: found, PlaneNotFound, or any other failure of the connector. */
  datatype PlaneLookup = Found(plane: DBPlane) | NotFound | ConnectionFailed

  class WTPlane {
    const friendly: bool
    const planetype: string
    const name: string
    /** The database record; None when the database raised PlaneNotFound. */
    const dbData: Option<DBPlane>
    const maxValuesAvailable: bool
    const maxSpeeds: map<string, MaxSpeed>
    const recommendedSpeeds: map<string, RawField>
    const flapsAvailable: (bool, bool, bool)
    const possibleFlaps: seq<FlapState>
    /** The process-wide GENERAL_FLAP_STATES. */
    const catalog: GeneralFlapStates
    const informedFlapState: FlapState
    var telemetry: Option<WtFetcher.TelemetryData>

    /** What the constructor establishes; every field involved is constant. */
    ghost predicate Valid() {
      && maxValuesAvailable == dbData.Some?
      && maxSpeeds == (if dbData.Some? then NormalisedSpeeds(dbData.value) else map[])
      && flapsAvailable == Availability(maxSpeeds)
      && possibleFlaps == PossibleFlaps(flapsAvailable)
    }

    constructor (planeType: string, friendly: bool, found: Option<DBPlane>, catalog: GeneralFlapStates)
      modifies catalog
      ensures Valid()
      ensures this.friendly == friendly && this.catalog == catalog && dbData == found
      ensures planetype == Lower(planeType)
      ensures name == (if found.Some? then found.value.name else planeType)
      ensures found.Some? ==> recommendedSpeeds == map["start" := found.value.startSpeed, "landing" := found.value.landingSpeed]
      ensures found.None? ==> recommendedSpeeds == map[]
      ensures catalog.percs == CatalogAfter(old(catalog.percs), possibleFlaps)
      ensures telemetry == None && informedFlapState == NoFlaps
    {
      var speeds: map<string, MaxSpeed> := map[];
      var pf: seq<FlapState> := [NoFlaps];
      var avail := (false, false, false);
      if found.Some? {
        speeds := NormaliseSpeeds(found.value);
        avail := Availability(speeds);
        pf := CollectPossibleFlaps(avail);
      }
      this.friendly := friendly;
      planetype := Lower(planeType);
      name := if found.Some? then found.value.name else planeType;
      dbData := found;
      maxValuesAvailable := found.Some?;
      maxSpeeds := speeds;
      recommendedSpeeds := if found.Some? then map["start" := found.value.startSpeed, "landing" := found.value.landingSpeed] else map[];
      flapsAvailable := avail;
      possibleFlaps := pf;
      this.catalog := catalog;
      informedFlapState := NoFlaps;
      telemetry := None;
      new;
      var last := pf[|pf| - 1];
      if last != NoFlaps {
        catalog.percs := catalog.percs.With(last, 100);
      }
    }

    method SetTelemetry(t: WtFetcher.TelemetryData)
      modifies this
      ensures telemetry == Some(t)
    {
      telemetry := Some(t);
    }

    /** get_flaps_avaliable: (combat, start, landing), each true exactly when the database has that stage's limit. */
    function GetFlapsAvailable(): (r: (bool, bool, bool))
      requires Valid()
      ensures r.0 <==> dbData.Some? && dbData.value.combatFlapSpeed.DbNumber?
      ensures r.1 <==> dbData.Some? && dbData.value.startFlapSpeed.DbNumber?
      ensures r.2 <==> dbData.Some? && dbData.value.landingFlapSpeed.DbNumber?
    {
      flapsAvailable
    }

    /** get_max_speeds: None without database values, otherwise the normalised limits. */
    function GetMaxSpeeds(): (r: Option<map<string, MaxSpeed>>)
      requires Valid()
      ensures r.None? <==> dbData.None?
      ensures r.Some? ==> r.value == NormalisedSpeeds(dbData.value)
      ensures r.Some? ==> forall k :: k in r.value <==> k in MAX_SPEED_KEYS
    {
      if !maxValuesAvailable then None else Some(maxSpeeds)
    }

    /** get_flap_deployment_thresholds: the stages in order, each with its current shared percentage. */
    method GetFlapDeploymentThresholds() returns (r: seq<(int, FlapState)>)
      ensures r == Thresholds(possibleFlaps, catalog.percs)
    {
      r := [];
      var i := 0;
      while i < |possibleFlaps|
        invariant 0 <= i <= |possibleFlaps|
        invariant r == Thresholds(possibleFlaps[..i], catalog.percs)
      {
        var state := possibleFlaps[i];
        if state == NoFlaps {
          r := r + [(0, NoFlaps)];
        } else {
          r := r + [(catalog.percs.Perc(state), state)];
        }
        assert possibleFlaps[..i + 1] == possibleFlaps[..i] + [state];
        i := i + 1;
      }
      assert possibleFlaps[..i] == possibleFlaps;
    }

    /** The airspeed get_safe_flap_state compares: None without telemetry. */
    function Ias(): Value
      reads this
    {
      if telemetry.Some? then telemetry.value.ias else Null
    }

    /**
     * get_safe_flap_state: "none" without database values or airspeed;
     * otherwise the possible stages from the last, the first whose limit
     * is above the airspeed, stopping at "none".
     */
    method GetSafeFlapState() returns (r: Result<FlapState, TypeError>)
      ensures !maxValuesAvailable || Ias().Null? ==> r == Success(NoFlaps)
      ensures maxValuesAvailable && !Ias().Null? ==> r == SafeFrom(possibleFlaps, maxSpeeds, Ias())
    {
      if !maxValuesAvailable {
        return Success(NoFlaps);
      }
      var ias := Ias();
      if ias.Null? {
        return Success(NoFlaps);
      }
      var i := |possibleFlaps|;
      assert possibleFlaps[..i] == possibleFlaps;
      while i > 0
        invariant 0 <= i <= |possibleFlaps|
        invariant SafeFrom(possibleFlaps, maxSpeeds, ias) == SafeFrom(possibleFlaps[..i], maxSpeeds, ias)
      {
        var state := possibleFlaps[i - 1];
        assert possibleFlaps[..i][..i - 1] == possibleFlaps[..i - 1];
        if state == NoFlaps {
          return Success(NoFlaps);
        }
        var below := Below(ias, SpeedOf(maxSpeeds, state.Name()));
        if below.Failure? {
          return Failure(below.error);
        }
        if below.value {
          return Success(state);
        }
        i := i - 1;
      }
      return Success(NoFlaps);
    }
  }

  /** On a constructed plane the stages rise from "none" and every stage after it has a km/h limit. */
  lemma ValidPlaneStages(p: WTPlane)
    requires p.Valid()
    ensures |p.possibleFlaps| > 0 && p.possibleFlaps[0] == NoFlaps && Rising(p.possibleFlaps)
    ensures StagesHaveLimits(p.possibleFlaps, p.maxSpeeds)
  {
    PossibleFlapsShape(p.flapsAvailable);
    var pf := p.possibleFlaps;
    forall i | 1 <= i < |pf|
      ensures SpeedOf(p.maxSpeeds, pf[i].Name()).Kmh?
    {
      assert pf[0].Level() < pf[i].Level();
      AvailableStageHasKmhLimit(p.dbData, pf[i]);
    }
  }

  /** A flap stage that made it into the possible stages has a km/h limit. */
  lemma AvailableStageHasKmhLimit(db: Option<DBPlane>, s: FlapState)
    requires s != NoFlaps
    requires s in PossibleFlaps(Availability(if db.Some? then NormalisedSpeeds(db.value) else map[]))
    ensures SpeedOf(if db.Some? then NormalisedSpeeds(db.value) else map[], s.Name()).Kmh?
  {
    var speeds := if db.Some? then NormalisedSpeeds(db.value) else map[];
    PossibleFlapsMembers(Availability(speeds));
    match s
    case Combat => assert SpeedOf(speeds, "combat") != Missing;
    case Start => assert SpeedOf(speeds, "start") != Missing;
    case Landing => assert SpeedOf(speeds, "landing") != Missing;
  }
}
