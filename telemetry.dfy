/**
 * Telemetry parsing and the fetcher that keeps the last parsed record
 * (code/backend/wtFetcher.py). The HTTP interface to the simulator and the
 * debug JSON file are inputs: the endpoint's reply and the file's content.
 */
module WtFetcher {
  import opened Wrappers
  import opened Values

  type Json = map<string, Value>

  /** The categories of TELEMETRY_INFORMATION in the dictionary's order. */
  const CATEGORIES: seq<string> := ["planetype", "flaps", "gear", "lat", "lon", "ias", "airbrake", "mach_speed"]

  /** The keys tried for each category, in order. */
  const TELEMETRY_INFORMATION: map<string, seq<string>> := map[
    "planetype" := ["airframe"],
    "flaps" := ["flapState", "flaps, %"],
    "gear" := ["gearState", "gear, %"],
    "lat" := ["lat"],
    "lon" := ["lon"],
    "ias" := ["IAS, km/h"],
    "airbrake" := ["airbrake, %"],
    "mach_speed" := ["mach", "M"]]

  const OPTIONAL_TELEMETRY: seq<string> := ["airbrake", "lat", "lon", "mach_speed"]

  /** The placeholder `dict.get` returns for an absent key; a stored "--null--" counts as absent too. */
  const MISSING: Value := Text("--null--")

  /** One telemetry record; the values are kept as the simulator sent them. */
  datatype TelemetryData = TelemetryData(
    planetype: Value,
    flaps: Value,
    gear: Value,
    ias: Value,
    lat: Value,
    lon: Value,
    airbrake: Value,
    machSpeed: Value)

  datatype FetchError = TelemetryNotFound(category: string) | PlaneNotFound

  /** The configuration is consistent: the optional categories are categories, and each has at least one key. */
  lemma ConfigurationConsistent()
    ensures forall c :: c in OPTIONAL_TELEMETRY ==> c in TELEMETRY_INFORMATION
    ensures forall c :: c in CATEGORIES <==> c in TELEMETRY_INFORMATION
    ensures forall c :: c in TELEMETRY_INFORMATION ==> |TELEMETRY_INFORMATION[c]| > 0
  {
  }

  function Get(d: Json, key: string): Value {
    if key in d then d[key] else MISSING
  }

  /** Python truthiness of optional_source: present and not empty. */
  predicate Truthy(optional: Option<Json>) {
    optional.Some? && |optional.value| > 0
  }

  /** The value found for one key: the main source first, then the optional source. */
  function KeyValue(key: string, source: Json, optional: Option<Json>): Value {
    var v := Get(source, key);
    if v == MISSING && Truthy(optional) then Get(optional.value, key) else v
  }

  /** The first key, in order, with a value in either source. */
  function Lookup(keys: seq<string>, source: Json, optional: Option<Json>): (r: Option<Value>)
    ensures r.Some? ==> r.value != MISSING
    ensures r.None? <==> forall k :: k in keys ==> KeyValue(k, source, optional) == MISSING
  {
    if keys == [] then None
    else
      var v := KeyValue(keys[0], source, optional);
      if v != MISSING then Some(v) else Lookup(keys[1..], source, optional)
  }

  /** Key j is the first key with a value in either source, and v is that value. */
  ghost predicate FirstHitAt(keys: seq<string>, source: Json, optional: Option<Json>, v: Value, j: int) {
    && 0 <= j < |keys| && v == KeyValue(keys[j], source, optional)
    && forall i :: 0 <= i < j ==> KeyValue(keys[i], source, optional) == MISSING
  }

  /** For every key list, the value found is that of the first key that has one. */
  lemma {:induction false} LookupTakesFirstHit(keys: seq<string>, source: Json, optional: Option<Json>)
    ensures var r := Lookup(keys, source, optional);
      r.Some? ==> exists j :: FirstHitAt(keys, source, optional, r.value, j)
  {
    var r := Lookup(keys, source, optional);
    if keys != [] && r.Some? {
      if KeyValue(keys[0], source, optional) != MISSING {
        assert FirstHitAt(keys, source, optional, r.value, 0);
      } else {
        LookupTakesFirstHit(keys[1..], source, optional);
        var j :| FirstHitAt(keys[1..], source, optional, r.value, j);
        forall i | 0 < i < j + 1
          ensures keys[i] == keys[1..][i - 1]
        {
        }
        assert FirstHitAt(keys, source, optional, r.value, j + 1);
      }
    }
  }

  /**
   * The tables __parse_telemetry works from: the categories in order, the
   * keys tried for each, and the categories that may be missing.
   */
  datatype Config = Config(categories: seq<string>, keys: map<string, seq<string>>, optional: seq<string>)

  const CONFIG: Config := Config(CATEGORIES, TELEMETRY_INFORMATION, OPTIONAL_TELEMETRY)

  /** Each category has its keys, as when the categories are the dictionary's own keys. */
  predicate KeysForAll(cfg: Config) {
    forall c :: c in cfg.categories ==> c in cfg.keys
  }

  function CategoryLookup(cfg: Config, category: string, source: Json, optional: Option<Json>): Option<Value> {
    if category in cfg.keys then Lookup(cfg.keys[category], source, optional) else None
  }

  predicate Required(cfg: Config, category: string) {
    category !in cfg.optional
  }

  /** The first required category, from index i on, that neither source provides. */
  function FirstMissingFrom(cfg: Config, i: nat, source: Json, optional: Option<Json>): (r: Option<string>)
    requires i <= |cfg.categories|
    decreases |cfg.categories| - i
  {
    if i == |cfg.categories| then None
    else if Required(cfg, cfg.categories[i]) && CategoryLookup(cfg, cfg.categories[i], source, optional).None? then Some(cfg.categories[i])
    else FirstMissingFrom(cfg, i + 1, source, optional)
  }

  /** TelemetryData(**result_dict): the dataclass defaults fill the optional fields. */
  function FromResultDict(d: Json): TelemetryData
    requires "planetype" in d && "flaps" in d && "gear" in d && "ias" in d
  {
    TelemetryData(d["planetype"], d["flaps"], d["gear"], d["ias"],
                  if "lat" in d then d["lat"] else Num(0.0),
                  if "lon" in d then d["lon"] else Num(0.0),
                  if "airbrake" in d then d["airbrake"] else Num(0.0),
                  if "mach_speed" in d then d["mach_speed"] else Num(999.9))
  }

  /** result_dict after the categories before index i. */
  function FoundDict(cfg: Config, i: nat, source: Json, optional: Option<Json>): Json
    requires i <= |cfg.categories|
  {
    if i == 0 then map[]
    else
      var c := cfg.categories[i - 1];
      match CategoryLookup(cfg, c, source, optional)
      case Some(v) => FoundDict(cfg, i - 1, source, optional)[c := v]
      case None => FoundDict(cfg, i - 1, source, optional)
  }

  /** The outcome of the loop of __parse_telemetry: the first missing required category, or the result dictionary. */
  function CollectSpec(cfg: Config, source: Json, optional: Option<Json>): Result<Json, FetchError> {
    match FirstMissingFrom(cfg, 0, source, optional)
    case Some(c) => Failure(TelemetryNotFound(c))
    case None => Success(FoundDict(cfg, |cfg.categories|, source, optional))
  }

  /** What __parse_telemetry returns or raises. */
  function ParseSpec(source: Json, optional: Option<Json>): Result<TelemetryData, FetchError> {
    var d :- CollectSpec(CONFIG, source, optional);
    RequiredFieldsFound(source, optional);
    Success(FromResultDict(d))
  }

  lemma {:induction false} FirstMissingNoneMeansFound(cfg: Config, i: nat, source: Json, optional: Option<Json>)
    requires i <= |cfg.categories|
    requires FirstMissingFrom(cfg, i, source, optional).None?
    ensures forall k :: i <= k < |cfg.categories| && Required(cfg, cfg.categories[k]) ==>
      CategoryLookup(cfg, cfg.categories[k], source, optional).Some?
    decreases |cfg.categories| - i
  {
    if i < |cfg.categories| {
      FirstMissingNoneMeansFound(cfg, i + 1, source, optional);
    }
  }

  /** The four categories without a default are required. */
  lemma RequiredCategories()
    ensures CONFIG.categories[0] == "planetype" && CONFIG.categories[1] == "flaps"
    ensures CONFIG.categories[2] == "gear" && CONFIG.categories[5] == "ias"
    ensures Required(CONFIG, "planetype") && Required(CONFIG, "flaps") && Required(CONFIG, "gear") && Required(CONFIG, "ias")
  {
  }

  /** A required category is in a successful collection. */
  lemma RequiredCollected(cfg: Config, k: nat, source: Json, optional: Option<Json>)
    requires k < |cfg.categories| && Required(cfg, cfg.categories[k])
    requires CollectSpec(cfg, source, optional).Success?
    ensures cfg.categories[k] in CollectSpec(cfg, source, optional).value
  {
    FirstMissingNoneMeansFound(cfg, 0, source, optional);
    CollectedAt(cfg, k, source, optional);
  }

  /** With no required category missing, the result dictionary holds the four required fields. */
  lemma RequiredFieldsFound(source: Json, optional: Option<Json>)
    requires CollectSpec(CONFIG, source, optional).Success?
    ensures var d := CollectSpec(CONFIG, source, optional).value;
      "planetype" in d && "flaps" in d && "gear" in d && "ias" in d
  {
    RequiredCategories();
    RequiredCollected(CONFIG, 0, source, optional);
    RequiredCollected(CONFIG, 1, source, optional);
    RequiredCollected(CONFIG, 2, source, optional);
    RequiredCollected(CONFIG, 5, source, optional);
  }

  /** The inner loop of __parse_telemetry: the keys in order, each in the main source then in the optional one. */
  method LookupKeys(keys: seq<string>, source: Json, optional: Option<Json>) returns (val: Value)
    ensures val == MISSING <==> Lookup(keys, source, optional).None?
    ensures val != MISSING ==> Lookup(keys, source, optional) == Some(val)
  {
    val := MISSING;
    var j := 0;
    while j < |keys|
      invariant 0 <= j <= |keys|
      invariant Lookup(keys, source, optional) == Lookup(keys[j..], source, optional)
      invariant val == MISSING
    {
      val := Get(source, keys[j]);
      if val == MISSING && Truthy(optional) {
        val := Get(optional.value, keys[j]);
      }
      if val != MISSING {
        return;
      }
      j := j + 1;
    }
  }

  /** One round of the outer loop, given the value the keys of category i yield. */
  lemma ParseStep(cfg: Config, i: nat, source: Json, optional: Option<Json>, val: Value)
    requires i < |cfg.categories| && cfg.categories[i] in cfg.keys
    requires val == MISSING <==> Lookup(cfg.keys[cfg.categories[i]], source, optional).None?
    requires val != MISSING ==> Lookup(cfg.keys[cfg.categories[i]], source, optional) == Some(val)
    ensures FoundDict(cfg, i + 1, source, optional) ==
      if val == MISSING then FoundDict(cfg, i, source, optional) else FoundDict(cfg, i, source, optional)[cfg.categories[i] := val]
    ensures FirstMissingFrom(cfg, i, source, optional) ==
      if val == MISSING && Required(cfg, cfg.categories[i]) then Some(cfg.categories[i]) else FirstMissingFrom(cfg, i + 1, source, optional)
  {
  }

  /**
   * The loop of __parse_telemetry: for each category the keys are tried in
   * order, each in the main source and then in the optional source; a
   * required category with no value raises TelemetryNotFoundException.
   */
  method CollectCategories(cfg: Config, source: Json, optional: Option<Json>) returns (r: Result<Json, FetchError>)
    requires KeysForAll(cfg)
    ensures r == CollectSpec(cfg, source, optional)
  {
    var resultDict: Json := map[];
    var i := 0;
    while i < |cfg.categories|
      invariant 0 <= i <= |cfg.categories|
      invariant resultDict == FoundDict(cfg, i, source, optional)
      invariant FirstMissingFrom(cfg, 0, source, optional) == FirstMissingFrom(cfg, i, source, optional)
    {
      var category := cfg.categories[i];
      assert category in cfg.categories;
      var val := LookupKeys(cfg.keys[category], source, optional);
      ParseStep(cfg, i, source, optional, val);
      if val == MISSING && category !in cfg.optional {
        return Failure(TelemetryNotFound(category));
      }
      if val != MISSING {
        resultDict := resultDict[category := val];
      }
      i := i + 1;
    }
    return Success(resultDict);
  }

  /** __parse_telemetry: the loop over TELEMETRY_INFORMATION, then TelemetryData(**result_dict). */
  method ParseTelemetry(source: Json, optional: Option<Json>) returns (r: Result<TelemetryData, FetchError>)
    ensures r == ParseSpec(source, optional)
  {
    ConfigurationConsistent();
    var resultDict :- CollectCategories(CONFIG, source, optional);
    RequiredFieldsFound(source, optional);
    return Success(FromResultDict(resultDict));
  }

  /** A required category that neither source provides makes the parse fail. */
  lemma {:induction false} MissingRequiredFails(cfg: Config, source: Json, optional: Option<Json>, category: string)
    requires category in cfg.categories && Required(cfg, category)
    requires CategoryLookup(cfg, category, source, optional).None?
    ensures CollectSpec(cfg, source, optional).Failure?
    ensures Required(cfg, CollectSpec(cfg, source, optional).error.category)
    ensures CategoryLookup(cfg, CollectSpec(cfg, source, optional).error.category, source, optional).None?
  {
    var k :| 0 <= k < |cfg.categories| && cfg.categories[k] == category;
    if FirstMissingFrom(cfg, 0, source, optional).None? {
      FirstMissingNoneMeansFound(cfg, 0, source, optional);
      assert false;
    }
    FirstMissingIsMissing(cfg, 0, source, optional);
  }

  lemma {:induction false} FirstMissingIsMissing(cfg: Config, i: nat, source: Json, optional: Option<Json>)
    requires i <= |cfg.categories|
    requires FirstMissingFrom(cfg, i, source, optional).Some?
    ensures var c := FirstMissingFrom(cfg, i, source, optional).value;
      Required(cfg, c) && CategoryLookup(cfg, c, source, optional).None?
    decreases |cfg.categories| - i
  {
    if i < |cfg.categories| && !(Required(cfg, cfg.categories[i]) && CategoryLookup(cfg, cfg.categories[i], source, optional).None?) {
      FirstMissingIsMissing(cfg, i + 1, source, optional);
    }
  }

  /** result_dict holds, for each category before index i, the first value found, and no other key. */
  lemma {:induction false} FoundDictValues(cfg: Config, i: nat, source: Json, optional: Option<Json>)
    requires i <= |cfg.categories|
    ensures var d := FoundDict(cfg, i, source, optional);
      forall c :: c in d <==> c in cfg.categories[..i] && CategoryLookup(cfg, c, source, optional).Some?
    ensures var d := FoundDict(cfg, i, source, optional);
      forall c :: c in d ==> Some(d[c]) == CategoryLookup(cfg, c, source, optional)
  {
    if i > 0 {
      FoundDictValues(cfg, i - 1, source, optional);
      var cats := cfg.categories;
      assert cats[..i] == cats[..i - 1] + [cats[i - 1]];
    }
  }

  /** A successful collection holds, for each category, the first value found, and no other key. */
  lemma CollectedValues(cfg: Config, source: Json, optional: Option<Json>)
    requires CollectSpec(cfg, source, optional).Success?
    ensures var d := CollectSpec(cfg, source, optional).value;
      forall c :: c in d <==> c in cfg.categories && CategoryLookup(cfg, c, source, optional).Some?
    ensures var d := CollectSpec(cfg, source, optional).value;
      forall c :: c in d ==> Some(d[c]) == CategoryLookup(cfg, c, source, optional)
  {
    FoundDictValues(cfg, |cfg.categories|, source, optional);
    var cats := cfg.categories;
    assert cats[..|cats|] == cats;
  }

  /** The value collected for category k: what its keys yield, absent when they yield nothing. */
  lemma CollectedAt(cfg: Config, k: nat, source: Json, optional: Option<Json>)
    requires k < |cfg.categories| && CollectSpec(cfg, source, optional).Success?
    ensures var d := CollectSpec(cfg, source, optional).value; var c := cfg.categories[k];
      (c in d <==> CategoryLookup(cfg, c, source, optional).Some?)
      && (c in d ==> Some(d[c]) == CategoryLookup(cfg, c, source, optional))
  {
    CollectedValues(cfg, source, optional);
    assert cfg.categories[k] in cfg.categories;
  }

  /**
   * A successful parse holds, for each category, the first value found,
   * and the defaults (0, 0, 0, 999.9) for optional categories not found.
   */
  lemma ParsedFields(source: Json, optional: Option<Json>)
    requires ParseSpec(source, optional).Success?
    ensures var t := ParseSpec(source, optional).value;
      && Some(t.planetype) == CategoryLookup(CONFIG, "planetype", source, optional)
      && Some(t.flaps) == CategoryLookup(CONFIG, "flaps", source, optional)
      && Some(t.gear) == CategoryLookup(CONFIG, "gear", source, optional)
      && Some(t.ias) == CategoryLookup(CONFIG, "ias", source, optional)
      && t.lat == CategoryLookup(CONFIG, "lat", source, optional).GetOr(Num(0.0))
      && t.lon == CategoryLookup(CONFIG, "lon", source, optional).GetOr(Num(0.0))
      && t.airbrake == CategoryLookup(CONFIG, "airbrake", source, optional).GetOr(Num(0.0))
      && t.machSpeed == CategoryLookup(CONFIG, "mach_speed", source, optional).GetOr(Num(999.9))
  {
    var d := CollectSpec(CONFIG, source, optional).value;
    RequiredFieldsFound(source, optional);
    assert ParseSpec(source, optional).value == FromResultDict(d);
    var cats := CONFIG.categories;
    assert cats == CATEGORIES;
    assert cats[0] == "planetype" && cats[1] == "flaps" && cats[2] == "gear" && cats[3] == "lat";
    assert cats[4] == "lon" && cats[5] == "ias" && cats[6] == "airbrake" && cats[7] == "mach_speed";
    CollectedAt(CONFIG, 0, source, optional);
    CollectedAt(CONFIG, 1, source, optional);
    CollectedAt(CONFIG, 2, source, optional);
    CollectedAt(CONFIG, 3, source, optional);
    CollectedAt(CONFIG, 4, source, optional);
    CollectedAt(CONFIG, 5, source, optional);
    CollectedAt(CONFIG, 6, source, optional);
    CollectedAt(CONFIG, 7, source, optional);
  }

  /** An earlier key found only in the optional source beats a later key found in the main source. */
  lemma EarlierKeyWins(k1: string, k2: string, source: Json, optional: Option<Json>)
    requires Get(source, k1) == MISSING && Truthy(optional) && Get(optional.value, k1) != MISSING
    ensures Lookup([k1, k2], source, optional) == Some(optional.value[k1])
  {
  }

  /** The alternative keys: "flaps, %" and "gear, %" are read when flapState and gearState are absent. */
  lemma AlternativeKeys(source: Json, f: Value, g: Value)
    requires "flapState" !in source && "gearState" !in source
    requires "flaps, %" in source && source["flaps, %"] == f && f != MISSING
    requires "gear, %" in source && source["gear, %"] == g && g != MISSING
    ensures CategoryLookup(CONFIG, "flaps", source, None) == Some(f)
    ensures CategoryLookup(CONFIG, "gear", source, None) == Some(g)
  {
    assert TELEMETRY_INFORMATION["flaps"] == ["flapState", "flaps, %"];
    assert TELEMETRY_INFORMATION["gear"] == ["gearState", "gear, %"];
    assert ["flapState", "flaps, %"][1..] == ["flaps, %"];
    assert ["gearState", "gear, %"][1..] == ["gear, %"];
    assert Lookup(["flaps, %"], source, None) == Some(f);
    assert Lookup(["gear, %"], source, None) == Some(g);
    assert KeyValue("flapState", source, None) == MISSING;
    assert KeyValue("gearState", source, None) == MISSING;
  }

  /** The endpoint's answer to one request: basic and full telemetry, or a failure raised by the interface. */
  datatype EndpointReply = Reply(basic: Json, full: Json) | Unreachable

  class WTUpdater {
    /** The address of the simulator's web endpoint. */
    const ipAddr: string
    const debugMode: bool
    var telemetry: Option<TelemetryData>

    constructor (ipAddr: string, debugMode: bool)
      ensures this.ipAddr == ipAddr && this.debugMode == debugMode && telemetry == None
    {
      this.ipAddr := ipAddr;
      this.debugMode := debugMode;
      telemetry := None;
    }

    /** __update_telemetry: with no telemetry at all no plane is present; otherwise parse, full telemetry as fallback. */
    method UpdateTelemetry(basic: Json, full: Json) returns (raised: Option<FetchError>)
      modifies this
      ensures basic == map[] && full == map[] ==> raised == Some(PlaneNotFound) && telemetry == old(telemetry)
      ensures !(basic == map[] && full == map[]) ==>
        match ParseSpec(basic, Some(full))
        case Success(t) => raised == None && telemetry == Some(t)
        case Failure(e) => raised == Some(e) && telemetry == old(telemetry)
    {
      if basic == map[] && full == map[] {
        return Some(PlaneNotFound);
      }
      var parsed := ParseTelemetry(basic, Some(full));
      if parsed.Failure? {
        return Some(parsed.error);
      }
      telemetry := Some(parsed.value);
      return None;
    }

    /**
     * fetch_data. Outside debug mode every exception is caught, so a failed
     * fetch leaves the previous telemetry in place and raises nothing; in
     * debug mode the file's content is parsed and a parse error propagates.
     */
    method FetchData(reply: EndpointReply, debugFile: Json) returns (raised: Option<FetchError>)
      modifies this
      ensures !debugMode ==> raised == None
      ensures !debugMode && reply.Unreachable? ==> telemetry == old(telemetry)
      ensures !debugMode && reply.Reply? ==>
        telemetry == (if reply.basic == map[] && reply.full == map[] then old(telemetry)
                      else match ParseSpec(reply.basic, Some(reply.full))
                           case Success(t) => Some(t)
                           case Failure(_) => old(telemetry))
      ensures debugMode ==>
        match ParseSpec(debugFile, None)
        case Success(t) => raised == None && telemetry == Some(t)
        case Failure(e) => raised == Some(e) && telemetry == old(telemetry)
    {
      if !debugMode {
        if reply.Reply? {
          var ignored := UpdateTelemetry(reply.basic, reply.full);
        }
        return None;
      }
      var parsed := ParseTelemetry(debugFile, None);
      if parsed.Failure? {
        return Some(parsed.error);
      }
      telemetry := Some(parsed.value);
      return None;
    }

    function GetPlaneTelemetry(): Option<TelemetryData>
      reads this
    {
      telemetry
    }
  }
}
