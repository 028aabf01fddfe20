/**
 * The current-conditions page of `nws_weather_ctk/frames/weather.py`:
 * `WeatherFrame` and the four frames it builds (icon, hourly details,
 * detailed forecast, active alerts).  Widgets are not modelled; each frame
 * keeps the values its labels would show.  The configured county, the
 * calendar (`get_week`, `is_weekday(..., get_day_of_week('Today'))`) and the
 * emoji table are parameters.  A Python exception is a `None` result or a
 * `raised` flag.
 */
module WeatherFrames {
  import opened Wrappers
  import opened OrderedDict
  import opened Payloads
  import opened FrameText
  import Data
  import Icons
  import Background

  // ------------------------------------------------------------ alert matches

  /** The events of an alert-matches dictionary, in dictionary order. */
  function Events(d: Dict<string, Data.AlertEntry>): (events: seq<string>)
    ensures |events| == |d| && forall i :: 0 <= i < |d| ==> events[i] == d[i].1.event
  {
    seq(|d|, i requires 0 <= i < |d| => d[i].1.event)
  }

  /**
   * For a dictionary built by `check_for_alerts`, the listed events are its
   * keys: the matching events, each once, in order of first match.
   */
  lemma EventsOfFiltered(features: seq<Alert>, county: string)
    ensures Events(Data.Filtered(features, county)) == Keys(Data.Filtered(features, county))
    ensures Events(Data.Filtered(features, county)) == Data.Dedup(Data.MatchingEvents(features, county))
  {
    Data.FilteredWellFormed(features, county);
    Data.FilteredOrder(features, county);
  }

  /** The description and instruction of each entry, in dictionary order. */
  function DetailsOf(d: Dict<string, Data.AlertEntry>): (details: seq<AlertDetails>)
    ensures |details| == |d|
    ensures forall i :: 0 <= i < |d| ==> details[i] == AlertDetails(d[i].1.description, d[i].1.instruction)
  {
    seq(|d|, i requires 0 <= i < |d| => AlertDetails(d[i].1.description, d[i].1.instruction))
  }

  /** The `columnspan` of the detailed forecast: it shares its row with the alerts frame when there are alerts. */
  function DetailedSpan(alerts: Dict<string, Data.AlertEntry>): nat
  {
    if |alerts| > 0 then 1 else 2
  }

  /**
   * The alerts `display_elements` keeps, AS WRITTEN: recomputed only when
   * the active-alerts payload has at least one feature, otherwise the
   * previous dictionary stays.
   */
  function AlertsAfterDisplay(prior: Dict<string, Data.AlertEntry>, features: seq<Alert>, county: string)
    : (alerts: Dict<string, Data.AlertEntry>)
    ensures |features| > 0 ==> alerts == Data.Filtered(features, county)
    ensures |features| == 0 ==> alerts == prior
  {
    if |features| > 0 then Data.Filtered(features, county) else prior
  }

  /**
   * The as-written rule shows alerts that are no longer active: once the
   * payload has no features at all, a previously displayed non-empty
   * dictionary stays, and the detailed forecast keeps sharing its row
   * with an alerts frame.
   */
  lemma StaleAlertsSurvive(county: string)
    ensures var prior := [("Flood Warning", Data.AlertEntry("River flooding", None, "Flood Warning"))];
      && Data.Filtered([], county) == []
      && AlertsAfterDisplay(prior, [], county) == prior
      && DetailedSpan(AlertsAfterDisplay(prior, [], county)) == 1
  {
  }

  /** The corrected rule: the alerts of the current payload, whether or not it is empty. */
  function CurrentAlerts(features: seq<Alert>, county: string): (alerts: Dict<string, Data.AlertEntry>)
    ensures forall event :: event in ToMap(alerts) <==>
      exists i :: 0 <= i < |features| && Data.InCounty(features[i], county) && features[i].event == event
  {
    forall event ensures event in ToMap(Data.Filtered(features, county)) <==>
      exists i :: 0 <= i < |features| && Data.InCounty(features[i], county) && features[i].event == event
    {
      Data.FilteredKeys(features, county, event);
    }
    Data.Filtered(features, county)
  }

  /** Under the corrected rule the alerts frame is shown exactly when some current alert matches. */
  lemma CurrentAlertsSpan(features: seq<Alert>, county: string)
    ensures DetailedSpan(CurrentAlerts(features, county)) == 1 <==>
      exists i :: 0 <= i < |features| && Data.InCounty(features[i], county)
  {
    Data.FilteredNonEmpty(features, county);
  }

  // ------------------------------------------------------------ sub-frames

  /** `HourlyForecastFrame`: the list of alert names under the hourly details. */
  class HourlyForecastFrame {
    var alerts: seq<string>

    constructor ()
      ensures alerts == []
    {
      alerts := [];
    }

    /** The alert part of `refresh`: appends every event, or clears the list when there are no matches. */
    method Refresh(masterAlerts: Dict<string, Data.AlertEntry>)
      modifies this`alerts
      ensures alerts == if |masterAlerts| > 0 then old(alerts) + Events(masterAlerts) else []
    {
      if |masterAlerts| > 0 {
        var i := 0;
        while i < |masterAlerts|
          invariant 0 <= i <= |masterAlerts|
          invariant alerts == old(alerts) + Events(masterAlerts)[..i]
        {
          alerts := alerts + [masterAlerts[i].1.event];
          i := i + 1;
        }
        assert Events(masterAlerts)[..|masterAlerts|] == Events(masterAlerts);
      } else {
        alerts := [];
      }
    }
  }

  /** `IconFrame`: emoji, current temperature, high/low label and short forecast. */
  class IconFrame {
    var highLowText: string
    var filename: string
    var emoji: string
    var currentTemperature: int
    var hourlyForecast: string

    constructor ()
      ensures highLowText == filename == emoji == hourlyForecast == "" && currentTemperature == 0
    {
      highLowText, filename, emoji, hourlyForecast, currentTemperature := "", "", "", "", 0;
    }

    /** `refresh`, with `raised` for the exceptions of a missing forecast, an empty hourly list or no emoji. */
    method Refresh(hourly: Option<ForecastData>, detailed: Option<ForecastData>, cal: Calendar, table: Icons.EmojiDict)
      returns (raised: bool)
      modifies this
      ensures raised <==> !IconReady(hourly, detailed, table)
      ensures !raised ==>
        var now := hourly.value.periods[0];
        var ts := DayList(hourly.value, detailed.value, cal);
        && highLowText == HighLowText(Max(ts), Min(ts))
        && (filename, emoji) == Icons.Choice(now.shortForecast, now.isDaytime, table).value
        && currentTemperature == now.temperature
        && hourlyForecast == now.shortForecast
    {
      if hourly.None? || |hourly.value.periods| == 0 || detailed.None? {
        return true;
      }
      var temperatures := DayTemperatures(hourly.value.periods[0].temperature, detailed.value.periods, cal.week, cal.isToday);
      var high := Max(temperatures);
      var low := Min(temperatures);
      if high == low {
        highLowText := "Low: " + Degrees(low);
      } else {
        highLowText := "High: " + Degrees(high) + " Low: " + Degrees(low);
      }
      var now := hourly.value.periods[0];
      var choice := Icons.GetEmoji(now.shortForecast, now.isDaytime, table);
      if choice.None? {
        return true;
      }
      filename, emoji := choice.value.0, choice.value.1;
      currentTemperature := now.temperature;
      hourlyForecast := now.shortForecast;
      raised := false;
    }
  }

  /** `DetailedForecastFrame`: the text of the first detailed period. */
  class DetailedForecastFrame {
    var text: string

    constructor ()
      ensures text == ""
    {
      text := "";
    }

    method Refresh(detailed: Option<ForecastData>) returns (raised: bool)
      modifies this`text
      ensures raised <==> detailed.None? || |detailed.value.periods| == 0
      ensures !raised ==> text == DetailedText(detailed.value.periods[0])
      ensures raised ==> text == old(text)
    {
      if detailed.None? || |detailed.value.periods| == 0 {
        return true;
      }
      text := DetailedText(detailed.value.periods[0]);
      raised := false;
    }
  }

  /** The active-alerts text: one block per entry after a header, or a fixed notice when there are none. */
  function ActiveAlertsText(alerts: Dict<string, Data.AlertEntry>): string
  {
    if |alerts| > 0 then AlertsHeader + AlertLines(DetailsOf(alerts)) else NoAlerts
  }

  /** The notice appears exactly when there are no alerts; otherwise the text begins with the header. */
  lemma ActiveAlertsTextSpec(alerts: Dict<string, Data.AlertEntry>)
    ensures ActiveAlertsText(alerts) == NoAlerts <==> |alerts| == 0
    ensures |alerts| > 0 ==> AlertsHeader <= ActiveAlertsText(alerts)
  {
    if |alerts| > 0 {
      assert ActiveAlertsText(alerts)[0] == 'A' != NoAlerts[0];
    }
  }

  /** `ActiveAlertsFrame` (`text` is `None` until the first refresh). */
  class ActiveAlertsFrame {
    var text: Option<string>

    constructor ()
      ensures text == None
    {
      text := None;
    }

    method Refresh(masterAlerts: Dict<string, Data.AlertEntry>)
      modifies this`text
      ensures text == Some(ActiveAlertsText(masterAlerts))
    {
      if |masterAlerts| > 0 {
        var t := AlertDetailsText(DetailsOf(masterAlerts));
        text := Some(t);
      } else {
        text := Some(NoAlerts);
      }
    }
  }

  // ------------------------------------------------------------ the page

  /** What one `display_elements` call shows. */
  datatype Layout = Layout(
    emoji: string,
    temperature: string,
    highLow: string,
    forecast: string,
    hourlyAlerts: seq<string>,        // the names under the hourly details
    alertsText: Option<string>,       // the alerts frame, when there is one
    detailedText: string,
    detailedSpan: nat)

  /** The layout of a page whose frames all render. */
  function Screen(alerts: Dict<string, Data.AlertEntry>, hourly: ForecastData, detailed: ForecastData,
                  cal: Calendar, table: Icons.EmojiDict): Layout
    requires IconReady(Some(hourly), Some(detailed), table) && |detailed.periods| > 0
  {
    var now := hourly.periods[0];
    var ts := DayList(hourly, detailed, cal);
    Layout(
      Icons.Choice(now.shortForecast, now.isDaytime, table).value.1,
      Degrees(now.temperature),
      HighLowText(Max(ts), Min(ts)),
      now.shortForecast,
      if |alerts| > 0 then Events(alerts) else [],
      if |alerts| > 0 then Some(ActiveAlertsText(alerts)) else None,
      DetailedText(detailed.periods[0]),
      DetailedSpan(alerts))
  }

  /**
   * Builds the four frames of `display_elements` from the alerts it kept;
   * `None` when one of them raises.
   */
  method Render(alerts: Dict<string, Data.AlertEntry>, hourly: Option<ForecastData>, detailed: Option<ForecastData>,
                cal: Calendar, table: Icons.EmojiDict)
    returns (shown: Option<Layout>)
    ensures shown.Some? <==> IconReady(hourly, detailed, table) && |detailed.value.periods| > 0
    ensures shown.Some? ==> shown.value == Screen(alerts, hourly.value, detailed.value, cal, table)
  {
    var frame1 := new IconFrame();
    var raised := frame1.Refresh(hourly, detailed, cal, table);
    if raised {
      return None;
    }
    var icon := (frame1.emoji, Degrees(frame1.currentTemperature), frame1.highLowText, frame1.hourlyForecast);
    var frame2 := new HourlyForecastFrame();
    frame2.Refresh(alerts);
    var hourlyAlerts := frame2.alerts;

    var span := 2;
    var alertsText := None;
    if |alerts| > 0 {
      var frame4 := new ActiveAlertsFrame();
      frame4.Refresh(alerts);
      alertsText := frame4.text;
      span := 1;
    }

    var frame3 := new DetailedForecastFrame();
    raised := frame3.Refresh(detailed);
    if raised {
      return None;
    }
    shown := Some(Layout(icon.0, icon.1, icon.2, icon.3, hourlyAlerts, alertsText, frame3.text, span));
  }

  class WeatherFrame {
    var hourlyForecastData: Option<ForecastData>
    var detailedForecastData: Option<ForecastData>
    var activeAlertsData: Option<AlertsData>
    var alerts: Dict<string, Data.AlertEntry>

    constructor ()
      ensures hourlyForecastData.None? && detailedForecastData.None? && activeAlertsData.None? && alerts == []
    {
      hourlyForecastData, detailedForecastData, activeAlertsData := None, None, None;
      alerts := [];
    }

    /** `refresh`: copies the three payloads of the application's data. */
    method Refresh(master: Background.Snapshot)
      modifies this`hourlyForecastData, this`detailedForecastData, this`activeAlertsData
      ensures hourlyForecastData == master.hourly && detailedForecastData == master.detailed
      ensures activeAlertsData == master.alerts
    {
      detailedForecastData := master.detailed;
      hourlyForecastData := master.hourly;
      activeAlertsData := master.alerts;
    }

    /** `check_for_alerts`, with the configured county passed in; `None` when there is no alerts payload. */
    method CheckForAlerts(county: string) returns (matches: Option<Dict<string, Data.AlertEntry>>)
      ensures activeAlertsData.None? ==> matches.None?
      ensures activeAlertsData.Some? ==> matches == Some(Data.Filtered(activeAlertsData.value.features, county))
    {
      if activeAlertsData.None? {
        return None;
      }
      var found := Data.FilterAlerts(activeAlertsData.value, county);
      matches := Some(found);
    }

    /**
     * `display_elements`: `None` when one of the frames raises.  The kept
     * alerts follow the rule as written, `AlertsAfterDisplay`, so an empty
     * payload leaves earlier alerts in place (see `StaleAlertsSurvive`).
     */
    method DisplayElements(master: Background.Snapshot, county: string, cal: Calendar, table: Icons.EmojiDict)
      returns (shown: Option<Layout>)
      modifies this
      ensures hourlyForecastData == master.hourly && detailedForecastData == master.detailed
      ensures activeAlertsData == master.alerts
      ensures alerts == if master.alerts.Some? then AlertsAfterDisplay(old(alerts), master.alerts.value.features, county)
                        else old(alerts)
      ensures shown.Some? <==>
        master.alerts.Some? && IconReady(master.hourly, master.detailed, table) && |master.detailed.value.periods| > 0
      ensures shown.Some? ==> shown.value == Screen(alerts, master.hourly.value, master.detailed.value, cal, table)
    {
      Refresh(master);
      if activeAlertsData.None? {
        return None;
      }
      if |activeAlertsData.value.features| > 0 {
        var found := CheckForAlerts(county);
        alerts := found.value;
      }

      shown := Render(alerts, hourlyForecastData, detailedForecastData, cal, table);
    }
  }
}
