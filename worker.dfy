/**
 * The periodic data fetcher (code/backend/worker.py): on every timer tick
 * it fetches telemetry, announces it, replaces the plane when the plane
 * type changes, and switches the timer between the normal and the error
 * interval. Qt signals are returned as events; the simulator's reply, the
 * debug file and the plane database's answer are inputs of a tick.
 */
module Worker {
  import opened Wrappers
  import opened Values
  import opened Plane
  import opened WtFetcher

  /** The signals new_telemetry_data and new_plane_data. */
  datatype WorkerEvent = TelemetryEvent(telemetry: TelemetryData) | PlaneEvent(plane: WTPlane)

  /**
   * Whether a tick builds a new plane: there is none yet, or the telemetry's
   * plane type differs from the stored (lower-cased) one.
   */
  function NeedsNewPlane(current: Option<string>, telPlanetype: Value): bool {
    current.None? || telPlanetype != Text(current.value)
  }

  /**
   * The stored type is lower-cased but the comparison is not: a type with
   * a capital letter builds a new plane on every tick, an all-lower-case
   * one only once.
   */
  lemma PlaneRenewalByCase(s: string)
    ensures NeedsNewPlane(Some(Lower(s)), Text(s)) <==> exists i :: 0 <= i < |s| && 'A' <= s[i] <= 'Z'
  {
    if exists i :: 0 <= i < |s| && 'A' <= s[i] <= 'Z' {
      var i :| 0 <= i < |s| && 'A' <= s[i] <= 'Z';
      assert Lower(s)[i] != s[i];
    } else {
      assert Lower(s) == s;
    }
  }

  /**
   * __on_success and __on_error: the success flag afterwards, and the timer
   * interval, switched only when the flag flips.
   */
  function AfterOutcome(success: bool, lastWasSuccess: bool, interval: int, std: int, err: int): (bool, int) {
    if success then (if !lastWasSuccess then (true, std) else (lastWasSuccess, interval))
    else (if lastWasSuccess then (false, err) else (lastWasSuccess, interval))
  }

  /**
   * The flag records the outcome; the interval changes only when the flag
   * flips, and then to the interval of the new outcome, so a worker whose
   * interval matched its flag keeps it matched.
   */
  lemma AfterOutcomeSwitchesOnTransitions(success: bool, last: bool, interval: int, std: int, err: int)
    ensures var (last', interval') := AfterOutcome(success, last, interval, std, err);
      && last' == success
      && (last' == last ==> interval' == interval)
      && (last' != last ==> interval' == (if success then std else err))
      && (interval == (if last then std else err) ==> interval' == (if last' then std else err))
  {
  }

  class DataFetcher {
    /** The pause event: while set, timer ticks do nothing. */
    var paused: bool
    /** Whether the worker's thread runs; once stopped, no tick reaches the work function. */
    var running: bool
    /** The timer interval in ms. */
    var interval: int
    const stdInterval: int
    const errorInterval: int
    var lastWasSuccess: bool
    var ownPlane: WTPlane?
    var fetcher: WTUpdater
    const debugMode: bool
    /** The process-wide GENERAL_FLAP_STATES a new plane writes into. */
    const catalog: GeneralFlapStates

    constructor (endpointIp: string, debugMode: bool, stdInterval: int, errorInterval: int, catalog: GeneralFlapStates)
      ensures this.stdInterval == stdInterval && this.errorInterval == errorInterval && this.debugMode == debugMode
      ensures interval == stdInterval && lastWasSuccess && !paused && running && ownPlane == null
      ensures IntervalSynced()
      ensures fresh(fetcher) && fetcher.ipAddr == endpointIp && fetcher.debugMode == debugMode && fetcher.telemetry == None
      ensures this.catalog == catalog
    {
      paused := false;
      running := true;
      interval := stdInterval;
      this.stdInterval := stdInterval;
      this.errorInterval := errorInterval;
      fetcher := new WTUpdater(endpointIp, debugMode);
      ownPlane := null;
      lastWasSuccess := true;
      this.debugMode := debugMode;
      this.catalog := catalog;
    }

    /** The interval matches the outcome of the last tick. */
    predicate IntervalSynced()
      reads this
    {
      interval == (if lastWasSuccess then stdInterval else errorInterval)
    }

    /** on_ip_change: a new fetcher for the new address, with no telemetry yet. */
    method OnIpChange(newIp: string)
      modifies this
      ensures fresh(fetcher) && fetcher.ipAddr == newIp && fetcher.debugMode == debugMode && fetcher.telemetry == None
      ensures ownPlane == old(ownPlane) && interval == old(interval) && lastWasSuccess == old(lastWasSuccess)
      ensures paused == old(paused) && running == old(running)
    {
      fetcher := new WTUpdater(newIp, debugMode);
    }

    /** update_intervall: the timer runs at the new interval. */
    method UpdateInterval(ms: int)
      modifies this
      ensures interval == ms
      ensures lastWasSuccess == old(lastWasSuccess) && ownPlane == old(ownPlane) && fetcher == old(fetcher)
      ensures paused == old(paused) && running == old(running)
    {
      interval := ms;
    }

    method Pause()
      modifies this
      ensures paused && running == old(running) && interval == old(interval)
      ensures lastWasSuccess == old(lastWasSuccess) && ownPlane == old(ownPlane) && fetcher == old(fetcher)
    {
      paused := true;
    }

    method Resume()
      modifies this
      ensures !paused && running == old(running) && interval == old(interval)
      ensures lastWasSuccess == old(lastWasSuccess) && ownPlane == old(ownPlane) && fetcher == old(fetcher)
    {
      paused := false;
    }

    method Stop()
      modifies this
      ensures !running && paused == old(paused) && interval == old(interval)
      ensures lastWasSuccess == old(lastWasSuccess) && ownPlane == old(ownPlane) && fetcher == old(fetcher)
    {
      running := false;
    }

    method OnSuccess()
      modifies this
      ensures (lastWasSuccess, interval) == AfterOutcome(true, old(lastWasSuccess), old(interval), stdInterval, errorInterval)
      ensures ownPlane == old(ownPlane) && fetcher == old(fetcher) && paused == old(paused) && running == old(running)
      ensures old(IntervalSynced()) ==> IntervalSynced()
    {
      if !lastWasSuccess {
        lastWasSuccess := true;
        UpdateInterval(stdInterval);
      }
    }

    method OnError()
      modifies this
      ensures (lastWasSuccess, interval) == AfterOutcome(false, old(lastWasSuccess), old(interval), stdInterval, errorInterval)
      ensures ownPlane == old(ownPlane) && fetcher == old(fetcher) && paused == old(paused) && running == old(running)
      ensures old(IntervalSynced()) ==> IntervalSynced()
    {
      if lastWasSuccess {
        lastWasSuccess := false;
        UpdateInterval(errorInterval);
      }
    }

    /** Whether fetch_data raises: only in the fetcher's debug mode, when the debug file does not parse. */
    predicate FetchRaises(debugFile: Json)
      reads this
    {
      fetcher.debugMode && ParseSpec(debugFile, None).Failure?
    }

    /** The stored plane's type, None without a plane. */
    function OwnType(): Option<string>
      reads this
    {
      if ownPlane == null then None else Some(ownPlane.planetype)
    }

    /**
     * The success branch of _work for a fetched record: announce it, build
     * and announce a new plane when the type changed, store the record on
     * the plane. Building the plane raises when the plane type is not a
     * string or the database cannot be reached, aborting after the
     * telemetry event.
     */
    method HandleTelemetry(tel: TelemetryData, lookup: PlaneLookup) returns (events: seq<WorkerEvent>, aborted: bool)
      modifies this, ownPlane, catalog
      ensures fetcher == old(fetcher) && paused == old(paused) && running == old(running)
      ensures |events| >= 1 && events[0] == TelemetryEvent(tel)
      ensures aborted <==> NeedsNewPlane(old(OwnType()), tel.planetype) && (!tel.planetype.Text? || lookup.ConnectionFailed?)
      ensures aborted ==>
        && events == [TelemetryEvent(tel)]
        && ownPlane == old(ownPlane) && catalog.percs == old(catalog.percs)
        && lastWasSuccess == old(lastWasSuccess) && interval == old(interval)
      ensures !aborted ==>
        && ownPlane != null && ownPlane.telemetry == Some(tel)
        && (lastWasSuccess, interval) == AfterOutcome(true, old(lastWasSuccess), old(interval), stdInterval, errorInterval)
      ensures !aborted && NeedsNewPlane(old(OwnType()), tel.planetype) ==>
        && fresh(ownPlane) && ownPlane.Valid() && events == [TelemetryEvent(tel), PlaneEvent(ownPlane)]
        && ownPlane.planetype == Lower(tel.planetype.s)
        && ownPlane.dbData == (if lookup.Found? then Some(lookup.plane) else None)
        && catalog.percs == CatalogAfter(old(catalog.percs), ownPlane.possibleFlaps)
      ensures !NeedsNewPlane(old(OwnType()), tel.planetype) ==>
        ownPlane == old(ownPlane) && events == [TelemetryEvent(tel)] && catalog.percs == old(catalog.percs)
      ensures old(IntervalSynced()) ==> IntervalSynced()
    {
      events := [TelemetryEvent(tel)];
      aborted := false;
      if ownPlane == null || tel.planetype != Text(ownPlane.planetype) {
        if !tel.planetype.Text? || lookup.ConnectionFailed? {
          aborted := true;
          return;
        }
        var found := if lookup.Found? then Some(lookup.plane) else None;
        ownPlane := new WTPlane(tel.planetype.s, true, found, catalog);
        events := events + [PlaneEvent(ownPlane)];
      }
      ownPlane.SetTelemetry(tel);
      OnSuccess();
    }

    /**
     * One timer tick (_call_work_function and _work): nothing while paused
     * or stopped; a fetch error or a missing record takes the error path;
     * otherwise the record is handled. Outside debug mode a failed fetch
     * keeps the previous record, which is then handled again.
     */
    method Work(reply: EndpointReply, debugFile: Json, lookup: PlaneLookup) returns (events: seq<WorkerEvent>, aborted: bool)
      modifies this, fetcher, ownPlane, catalog
      ensures fetcher == old(fetcher) && paused == old(paused) && running == old(running)
      ensures !running || paused ==>
        && events == [] && !aborted
        && ownPlane == old(ownPlane) && lastWasSuccess == old(lastWasSuccess) && interval == old(interval)
        && fetcher.telemetry == old(fetcher.telemetry) && catalog.percs == old(catalog.percs)
      ensures running && !paused && (FetchRaises(debugFile) || fetcher.telemetry.None?) ==>
        && events == [] && !aborted
        && ownPlane == old(ownPlane) && catalog.percs == old(catalog.percs)
        && (lastWasSuccess, interval) == AfterOutcome(false, old(lastWasSuccess), old(interval), stdInterval, errorInterval)
      ensures running && !paused && !FetchRaises(debugFile) && fetcher.telemetry.Some? ==>
        var tel := fetcher.telemetry.value;
        && |events| >= 1 && events[0] == TelemetryEvent(tel)
        && (aborted <==> NeedsNewPlane(old(OwnType()), tel.planetype) && (!tel.planetype.Text? || lookup.ConnectionFailed?))
        && (aborted ==>
              && events == [TelemetryEvent(tel)]
              && ownPlane == old(ownPlane) && catalog.percs == old(catalog.percs)
              && lastWasSuccess == old(lastWasSuccess) && interval == old(interval))
        && (!aborted ==>
              && ownPlane != null && ownPlane.telemetry == Some(tel)
              && (lastWasSuccess, interval) == AfterOutcome(true, old(lastWasSuccess), old(interval), stdInterval, errorInterval))
        && (!aborted && NeedsNewPlane(old(OwnType()), tel.planetype) ==>
              && fresh(ownPlane) && ownPlane.Valid() && events == [TelemetryEvent(tel), PlaneEvent(ownPlane)]
              && ownPlane.planetype == Lower(tel.planetype.s)
              && ownPlane.dbData == (if lookup.Found? then Some(lookup.plane) else None)
              && catalog.percs == CatalogAfter(old(catalog.percs), ownPlane.possibleFlaps))
        && (!NeedsNewPlane(old(OwnType()), tel.planetype) ==>
              ownPlane == old(ownPlane) && events == [TelemetryEvent(tel)] && catalog.percs == old(catalog.percs))
      ensures running && !paused && !fetcher.debugMode && reply.Unreachable? ==> fetcher.telemetry == old(fetcher.telemetry)
      ensures running && !paused && !fetcher.debugMode && reply.Reply? ==>
        fetcher.telemetry == (if reply.basic == map[] && reply.full == map[] then old(fetcher.telemetry)
                              else match ParseSpec(reply.basic, Some(reply.full))
                                   case Success(t) => Some(t)
                                   case Failure(_) => old(fetcher.telemetry))
      ensures running && !paused && fetcher.debugMode ==>
        fetcher.telemetry == (match ParseSpec(debugFile, None)
                              case Success(t) => Some(t)
                              case Failure(_) => old(fetcher.telemetry))
      ensures old(IntervalSynced()) ==> IntervalSynced()
    {
      events := [];
      aborted := false;
      if !running || paused {
        return;
      }
      var raised := fetcher.FetchData(reply, debugFile);
      var tel := fetcher.GetPlaneTelemetry();
      if raised.Some? || tel.None? {
        OnError();
        return;
      }
      events, aborted := HandleTelemetry(tel.value, lookup);
    }
  }
}
