/**
 * The refresh state machine `UpdateThread` (`nws_weather_ctk/utils/background.py`).
 *
 * Its `start` runs `check_for_updates` in the calling thread, so the model is
 * a plain class.  Each fetcher call is replaced by the value that fetcher
 * returns (`None` when the configuration lacks a key); the active-alerts
 * endpoint is queried twice in a cycle that detects a change, so the second
 * answer is a separate input.  A Python exception is the `raised` result.
 */
module Background {
  import opened Wrappers
  import opened OrderedDict
  import opened Payloads
  import Data

  /** `self.data`: the three payloads, each possibly `None`. */
  datatype Snapshot = Snapshot(hourly: Option<ForecastData>, detailed: Option<ForecastData>, alerts: Option<AlertsData>)

  /** The fetchers, recorded in the order one cycle calls them. */
  datatype Endpoint = Hourly | Detailed | Alerts

  /** What the fetchers return during one cycle, in call order. */
  datatype Upstream = Upstream(
    hourly: Option<ForecastData>,       // hourly_forecast(...)
    alerts: Option<AlertsData>,         // first active_alerts(...)
    detailed: Option<ForecastData>,     // detailed_forecast(...) inside update_forecast_data
    alertsAgain: Option<AlertsData>)    // active_alerts(...) inside update_forecast_data after a change

  /** The fields `check_for_updates` may change. */
  datatype State = State(data: Option<Snapshot>, initialDataFetched: bool, updated: bool, eventSet: bool)

  datatype StepResult = StepResult(state: State, raised: bool, calls: seq<Endpoint>)

  /** No snapshot yet, or one with a missing part: fetch everything unconditionally. */
  predicate NeedsInitialFetch(data: Option<Snapshot>)
  {
    data.None? || data.value.hourly.None? || data.value.detailed.None? || data.value.alerts.None?
  }

  /** A material change: period-0 temperature, period-0 short forecast, or the filtered alerts differ. */
  predicate MaterialChange(last: Period, current: Period, lastAlerts: AlertsData, currentAlerts: AlertsData, county: string)
  {
    || current.temperature != last.temperature
    || current.shortForecast != last.shortForecast
    || ToMap(Data.Filtered(currentAlerts.features, county)) != ToMap(Data.Filtered(lastAlerts.features, county))
  }

  /** One `check_for_updates` call, as a function of the fields before it and the fetched values. */
  function CheckStep(s: State, up: Upstream, county: string): StepResult
  {
    if NeedsInitialFetch(s.data) then
      StepResult(State(Some(Snapshot(up.hourly, up.detailed, up.alerts)), true, s.updated, true), false, [Hourly, Detailed, Alerts])
    else if up.hourly.None? || |up.hourly.value.periods| == 0 then
      StepResult(s, true, [Hourly])
    else if up.alerts.None? || |s.data.value.hourly.value.periods| == 0 then
      StepResult(s, true, [Hourly, Alerts])
    else
      var stored := s.data.value;
      if MaterialChange(stored.hourly.value.periods[0], up.hourly.value.periods[0], stored.alerts.value, up.alerts.value, county) then
        StepResult(State(Some(Snapshot(up.hourly, up.detailed, up.alertsAgain)), s.initialDataFetched, true, true),
                   false, [Hourly, Alerts, Detailed, Alerts])
      else
        StepResult(State(s.data, s.initialDataFetched, false, true), false, [Hourly, Alerts])
  }

  /** Without a complete snapshot, the cycle fetches all three parts, sets the event and leaves `updated` alone. */
  lemma InitialFetchSpec(s: State, up: Upstream, county: string)
    requires NeedsInitialFetch(s.data)
    ensures var r := CheckStep(s, up, county);
      && !r.raised && r.state.initialDataFetched && r.state.updated == s.updated && r.state.eventSet
      && r.state.data == Some(Snapshot(up.hourly, up.detailed, up.alerts))
      && r.calls == [Hourly, Detailed, Alerts]
      && !NeedsInitialFetch(r.state.data) == (up.hourly.Some? && up.detailed.Some? && up.alerts.Some?)
  {
  }

  /**
   * With a complete snapshot and no exception, `updated` is set exactly when
   * there is a material change; the snapshot is replaced exactly then, its
   * hourly part being the payload already fetched for the comparison, and
   * only the detailed forecast and the alerts are fetched again.
   */
  lemma ComparisonSpec(s: State, up: Upstream, county: string)
    requires !NeedsInitialFetch(s.data)
    ensures var r := CheckStep(s, up, county);
      && r.state.initialDataFetched == s.initialDataFetched
      && (r.raised <==> up.hourly.None? || |up.hourly.value.periods| == 0 || up.alerts.None?
                        || |s.data.value.hourly.value.periods| == 0)
      && (r.raised ==> r.state == s)
      && (!r.raised ==> (
            && r.state.eventSet
            && r.state.updated == MaterialChange(s.data.value.hourly.value.periods[0], up.hourly.value.periods[0],
                                                 s.data.value.alerts.value, up.alerts.value, county)
            && (r.state.updated ==> r.state.data == Some(Snapshot(up.hourly, up.detailed, up.alertsAgain))
                                    && r.calls == [Hourly, Alerts, Detailed, Alerts])
            && (!r.state.updated ==> r.state.data == s.data && r.calls == [Hourly, Alerts])))
  {
  }

  /**
   * Reflexivity: when the fetched hourly period 0 and the alerts are the
   * stored ones, nothing is updated and the snapshot stays as it was.
   */
  lemma NoSpuriousUpdate(s: State, up: Upstream, county: string)
    requires !NeedsInitialFetch(s.data)
    requires up.hourly.Some? && |up.hourly.value.periods| > 0 && |s.data.value.hourly.value.periods| > 0
    requires up.hourly.value.periods[0] == s.data.value.hourly.value.periods[0]
    requires up.alerts == s.data.value.alerts
    ensures CheckStep(s, up, county) == StepResult(State(s.data, s.initialDataFetched, false, true), false, [Hourly, Alerts])
  {
  }

  /**
   * An alert set that gains or loses a matching event is a material change,
   * even when temperature and short forecast are the same.
   */
  lemma {:induction false} AlertEventChangeIsMaterial(p: Period, lastAlerts: AlertsData, currentAlerts: AlertsData, county: string, event: string)
    requires (exists i :: 0 <= i < |lastAlerts.features| && Data.InCounty(lastAlerts.features[i], county) && lastAlerts.features[i].event == event)
          != (exists i :: 0 <= i < |currentAlerts.features| && Data.InCounty(currentAlerts.features[i], county) && currentAlerts.features[i].event == event)
    ensures MaterialChange(p, p, lastAlerts, currentAlerts, county)
  {
    Data.FilteredKeys(lastAlerts.features, county, event);
    Data.FilteredKeys(currentAlerts.features, county, event);
  }

  /**
   * Two consecutive cycles that see the same upstream payloads: the second
   * one keeps the snapshot the first one published.
   */
  lemma SecondIdenticalCycleKeepsSnapshot(s: State, up: Upstream, county: string)
    requires up.hourly.Some? && |up.hourly.value.periods| > 0 && up.alerts.Some? && up.detailed.Some?
    requires up.alertsAgain == up.alerts
    ensures var first := CheckStep(s, up, county);
      var second := CheckStep(first.state, up, county);
      !first.raised ==> !second.raised && second.state.data == first.state.data && !second.state.updated
  {
    var first := CheckStep(s, up, county);
    if !first.raised && (NeedsInitialFetch(s.data) || first.state.updated) {
      NoSpuriousUpdate(first.state, up, county);
    }
  }

  class UpdateThread {
    var data: Option<Snapshot>
    var initialDataFetched: bool
    var updated: bool
    var stopTrigger: bool
    /** Whether `self.event` has been set. */
    var eventSet: bool

    function Fields(): State
      reads this
    {
      State(data, initialDataFetched, updated, eventSet)
    }

    constructor (data: Option<Snapshot>, updated: bool)
      ensures this.data == data && this.updated == updated
      ensures !initialDataFetched && !stopTrigger && !eventSet
    {
      this.data := data;
      this.updated := updated;
      initialDataFetched := false;
      stopTrigger := false;
      eventSet := false;
    }

    /** `stop` only raises the stop flag. */
    method Stop()
      modifies this`stopTrigger
      ensures stopTrigger
    {
      stopTrigger := true;
    }

    /**
     * `update_forecast_data(hourly_forecast_data)`: fetches the hourly forecast
     * only when none is given, always fetches the other two, and replaces
     * `data` wholesale.
     */
    method UpdateForecastData(given: Option<ForecastData>, hourly: Option<ForecastData>,
                              detailed: Option<ForecastData>, alerts: Option<AlertsData>)
      returns (calls: seq<Endpoint>)
      modifies this`data
      ensures data == Some(Snapshot(if given.None? then hourly else given, detailed, alerts))
      ensures calls == (if given.None? then [Hourly] else []) + [Detailed, Alerts]
    {
      var h := given;
      calls := [];
      if h.None? {
        h := hourly;
        calls := [Hourly];
      }
      calls := calls + [Detailed, Alerts];
      data := Some(Snapshot(h, detailed, alerts));
    }

    /** `check_for_updates`, with the configured county passed in. */
    method CheckForUpdates(county: string, up: Upstream) returns (raised: bool, calls: seq<Endpoint>)
      modifies this`data, this`initialDataFetched, this`updated, this`eventSet
      ensures CheckStep(old(Fields()), up, county) == StepResult(Fields(), raised, calls)
    {
      if data.None? || data.value.hourly.None? || data.value.detailed.None? || data.value.alerts.None? {
        calls := UpdateForecastData(None, up.hourly, up.detailed, up.alerts);
        initialDataFetched := true;
      } else {
        calls := [Hourly];
        if up.hourly.None? || |up.hourly.value.periods| == 0 {
          return true, calls;
        }
        var currentTemp := up.hourly.value.periods[0].temperature;
        var currentShortForecast := up.hourly.value.periods[0].shortForecast;
        calls := calls + [Alerts];
        if up.alerts.None? {
          return true, calls;
        }
        var currentAlertMatches := Data.FilterAlerts(up.alerts.value, county);
        var stored := data.value;
        if |stored.hourly.value.periods| == 0 {
          return true, calls;
        }
        var lastTemp := stored.hourly.value.periods[0].temperature;
        var lastShortForecast := stored.hourly.value.periods[0].shortForecast;
        var lastAlertMatches := Data.FilterAlerts(stored.alerts.value, county);
        if currentTemp != lastTemp || currentShortForecast != lastShortForecast
           || ToMap(currentAlertMatches) != ToMap(lastAlertMatches) {
          var more := UpdateForecastData(up.hourly, up.hourly, up.detailed, up.alertsAgain);
          calls := calls + more;
          updated := true;
        } else {
          updated := false;
        }
      }
      eventSet := true;
      raised := false;
    }

    /** `start`: does nothing once stopped, otherwise one `check_for_updates`. */
    method Start(county: string, up: Upstream) returns (raised: bool, calls: seq<Endpoint>)
      modifies this`data, this`initialDataFetched, this`updated, this`eventSet
      ensures old(stopTrigger) ==> Fields() == old(Fields()) && !raised && calls == []
      ensures !old(stopTrigger) ==> CheckStep(old(Fields()), up, county) == StepResult(Fields(), raised, calls)
    {
      if !stopTrigger {
        raised, calls := CheckForUpdates(county, up);
      } else {
        raised, calls := false, [];
      }
    }
  }
}
