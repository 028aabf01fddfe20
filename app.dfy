/**
 * The application object of the earlier revision (`nws_weather_ctk.py`):
 * it keeps the three payloads, refetches them when the detailed forecast's
 * first period changes, and renders a page only after a successful check.
 * The fetchers are replaced by the values they return; `None` stands for a
 * payload without the expected content (for the detailed forecast fetched
 * inside `check_for_updates`, also for a request that raised).
 */
module WeatherApp {
  import opened Wrappers
  import opened Payloads
  import opened FrameText
  import opened OrderedDict
  import Data
  import Icons
  import RootFrames

  /** How `check_for_updates` ends: by raising, or by returning a boolean. */
  datatype Outcome = Raises | Returns(value: bool)

  /** What the three fetchers return when `update_forecast_data` calls them. */
  datatype Refetch = Refetch(hourly: Option<ForecastData>, detailed: Option<ForecastData>, alerts: Option<AlertsData>)

  /** A `show_*` call: nothing drawn, the rendered view, or an exception. */
  datatype Render<T> = NotShown | Rendered(view: T) | Crashed

  /** A usable forecast: present, with a first period. */
  predicate HasFirstPeriod(data: Option<ForecastData>)
  {
    data.Some? && |data.value.periods| > 0
  }

  /** The first period's temperature or short forecast differs. */
  predicate FirstPeriodChanged(stored: Period, current: Period)
  {
    current.temperature != stored.temperature || current.shortForecast != stored.shortForecast
  }

  /**
   * `check_for_updates`: `False` when the fresh detailed forecast is
   * unusable, an exception when the stored one is, `True` otherwise.
   */
  function CheckOutcome(stored: Option<ForecastData>, current: Option<ForecastData>): (o: Outcome)
    ensures o == Returns(false) <==> !HasFirstPeriod(current)
    ensures o == Raises <==> HasFirstPeriod(current) && !HasFirstPeriod(stored)
    ensures o == Returns(true) <==> HasFirstPeriod(current) && HasFirstPeriod(stored)
  {
    if !HasFirstPeriod(current) then Returns(false)
    else if !HasFirstPeriod(stored) then Raises
    else Returns(true)
  }

  /** Whether `check_for_updates` calls `update_forecast_data`. */
  predicate Refreshes(stored: Option<ForecastData>, current: Option<ForecastData>)
  {
    HasFirstPeriod(current) && HasFirstPeriod(stored)
    && FirstPeriodChanged(stored.value.periods[0], current.value.periods[0])
  }

  class App {
    var hourlyForecastData: Option<ForecastData>
    var detailedForecastData: Option<ForecastData>
    var activeAlertsData: Option<AlertsData>

    /** The fields before the first `update_forecast_data`. */
    constructor ()
      ensures hourlyForecastData.None? && detailedForecastData.None? && activeAlertsData.None?
    {
      hourlyForecastData, detailedForecastData, activeAlertsData := None, None, None;
    }

    /** `update_forecast_data`: all three payloads are overwritten. */
    method UpdateForecastData(fetched: Refetch)
      modifies this
      ensures hourlyForecastData == fetched.hourly
      ensures detailedForecastData == fetched.detailed
      ensures activeAlertsData == fetched.alerts
    {
      hourlyForecastData := fetched.hourly;
      detailedForecastData := fetched.detailed;
      activeAlertsData := fetched.alerts;
    }

    /**
     * `check_for_updates(current)`: the payloads are replaced by a new fetch
     * exactly when the first period's temperature or short forecast changed.
     */
    method CheckForUpdates(current: Option<ForecastData>, fetched: Refetch) returns (outcome: Outcome)
      modifies this
      ensures outcome == CheckOutcome(old(detailedForecastData), current)
      ensures Refreshes(old(detailedForecastData), current) ==>
        hourlyForecastData == fetched.hourly && detailedForecastData == fetched.detailed && activeAlertsData == fetched.alerts
      ensures !Refreshes(old(detailedForecastData), current) ==>
        hourlyForecastData == old(hourlyForecastData) && detailedForecastData == old(detailedForecastData)
        && activeAlertsData == old(activeAlertsData)
    {
      if current.None? || |current.value.periods| == 0 {
        return Returns(false);
      }
      var currentTemp := current.value.periods[0].temperature;
      var currentShortForecast := current.value.periods[0].shortForecast;
      if detailedForecastData.None? || |detailedForecastData.value.periods| == 0 {
        return Raises;
      }
      if currentTemp != detailedForecastData.value.periods[0].temperature
         || currentShortForecast != detailedForecastData.value.periods[0].shortForecast {
        UpdateForecastData(fetched);
        return Returns(true);
      } else {
        return Returns(true);
      }
    }

    /** `show_weather`: the current-conditions page, drawn only when the check returns `True`. */
    method ShowWeather(current: Option<ForecastData>, fetched: Refetch, county: string, cal: Calendar, table: Icons.EmojiDict)
      returns (r: Render<RootFrames.Page>)
      modifies this
      ensures r.Rendered? ==> CheckOutcome(old(detailedForecastData), current) == Returns(true)
      ensures r == NotShown <==> CheckOutcome(old(detailedForecastData), current) == Returns(false)
      ensures CheckOutcome(old(detailedForecastData), current) == Raises ==> r == Crashed
      ensures r.Rendered? ==>
        && IconReady(hourlyForecastData, detailedForecastData, table)
        && activeAlertsData.Some? && |detailedForecastData.value.periods| > 0
        && r.view.icon == RootFrames.IconOf(hourlyForecastData.value, detailedForecastData.value, cal, table)
        && r.view.detailedText == DetailedText(detailedForecastData.value.periods[0])
        && var features := activeAlertsData.value.features;
           && (r.view.detailedColumn, r.view.detailedSpan)
              == (if RootFrames.AnyMatch(features, county) then (1, 1) else (0, 2))
           && r.view.alertsText == (if RootFrames.AnyMatch(features, county)
                                    then Some(AlertsHeader + AlertLines(Values(RootFrames.RootMatches(features, county))))
                                    else None)
           && (forall event :: event in r.view.hourlyAlerts <==>
                 exists i :: 0 <= i < |features| && Data.InCounty(features[i], county) && features[i].event == event)
      ensures (&& CheckOutcome(old(detailedForecastData), current) == Returns(true)
               && IconReady(hourlyForecastData, detailedForecastData, table) && activeAlertsData.Some?
               && |detailedForecastData.value.periods| > 0)
              ==> r.Rendered?
      ensures Refreshes(old(detailedForecastData), current) ==>
        hourlyForecastData == fetched.hourly && detailedForecastData == fetched.detailed && activeAlertsData == fetched.alerts
      ensures !Refreshes(old(detailedForecastData), current) ==>
        hourlyForecastData == old(hourlyForecastData) && detailedForecastData == old(detailedForecastData)
        && activeAlertsData == old(activeAlertsData)
    {
      var outcome := CheckForUpdates(current, fetched);
      if outcome == Raises {
        return Crashed;
      }
      if outcome == Returns(false) {
        return NotShown;
      }
      var page := RootFrames.DisplayWeather(hourlyForecastData, detailedForecastData, activeAlertsData, county, cal, table);
      if page.None? {
        return Crashed;
      }
      r := Rendered(page.value);
    }

    /** `show_weekly_forecast`: the 7-day page, drawn only when the check returns `True`. */
    method ShowWeeklyForecast(current: Option<ForecastData>, fetched: Refetch, table: Icons.EmojiDict)
      returns (r: Render<seq<RootFrames.Tile>>)
      modifies this
      ensures r.Rendered? ==> CheckOutcome(old(detailedForecastData), current) == Returns(true)
      ensures r == NotShown <==> CheckOutcome(old(detailedForecastData), current) == Returns(false)
      ensures CheckOutcome(old(detailedForecastData), current) == Raises ==> r == Crashed
      ensures r.Rendered? ==>
        && HasFirstPeriod(detailedForecastData)
        && var data := detailedForecastData.value;
           var placed := ShownViews(data.periods, RootFrames.DailyViews(data, table), Some(data.periods[0].name), |data.periods|);
           placed.Some? && r.view == RootFrames.Tiles(placed.value)
      ensures (&& CheckOutcome(old(detailedForecastData), current) == Returns(true) && HasFirstPeriod(detailedForecastData)
               && ShownViews(detailedForecastData.value.periods, RootFrames.DailyViews(detailedForecastData.value, table),
                             Some(detailedForecastData.value.periods[0].name), |detailedForecastData.value.periods|).Some?)
              ==> r.Rendered?
      ensures Refreshes(old(detailedForecastData), current) ==>
        hourlyForecastData == fetched.hourly && detailedForecastData == fetched.detailed && activeAlertsData == fetched.alerts
      ensures !Refreshes(old(detailedForecastData), current) ==>
        hourlyForecastData == old(hourlyForecastData) && detailedForecastData == old(detailedForecastData)
        && activeAlertsData == old(activeAlertsData)
    {
      var outcome := CheckForUpdates(current, fetched);
      if outcome == Raises {
        return Crashed;
      }
      if outcome == Returns(false) {
        return NotShown;
      }
      if detailedForecastData.None? || |detailedForecastData.value.periods| == 0 {
        return Crashed;
      }
      var name := detailedForecastData.value.periods[0].name;
      var tiles := RootFrames.ShowWeeklyForecast(detailedForecastData, Some(name), table);
      if tiles.None? {
        return Crashed;
      }
      r := Rendered(tiles.value);
    }
  }

  /** An unchanged first period keeps every payload: a second identical check changes nothing either. */
  lemma UnchangedKeepsPayloads(stored: Option<ForecastData>, current: Option<ForecastData>)
    requires HasFirstPeriod(stored) && HasFirstPeriod(current)
    requires current.value.periods[0].temperature == stored.value.periods[0].temperature
    requires current.value.periods[0].shortForecast == stored.value.periods[0].shortForecast
    ensures !Refreshes(stored, current) && CheckOutcome(stored, current) == Returns(true)
  {
  }
}
