/**
 * The frames of the earlier, single-package revision (`frames.py`).  Each
 * `show_*` method receives its payloads as arguments and builds its labels
 * from them; widgets are not modelled, each method returns the values its
 * labels would show.  The configured county, the calendar and the emoji
 * table are parameters; a Python exception is a `None` result.
 */
module RootFrames {
  import opened Wrappers
  import opened OrderedDict
  import opened Payloads
  import opened FrameText
  import Data
  import Icons

  // ------------------------------------------------------------ alert matches

  /** The root dictionary keeps only the description and instruction of an entry. */
  function Project(d: Dict<string, Data.AlertEntry>): (p: Dict<string, AlertDetails>)
    ensures |p| == |d|
    ensures forall i :: 0 <= i < |d| ==> p[i] == (d[i].0, AlertDetails(d[i].1.description, d[i].1.instruction))
  {
    seq(|d|, i requires 0 <= i < |d| => (d[i].0, AlertDetails(d[i].1.description, d[i].1.instruction)))
  }

  /** Projecting after an assignment is assigning the projected value. */
  lemma {:induction false} ProjectPut(d: Dict<string, Data.AlertEntry>, k: string, e: Data.AlertEntry)
    ensures Project(Put(d, k, e)) == Put(Project(d), k, AlertDetails(e.description, e.instruction))
  {
    if |d| > 0 && d[0].0 != k {
      ProjectPut(d[1..], k, e);
      assert Project(d)[1..] == Project(d[1..]);
      assert Project(Put(d, k, e)) == [Project(d)[0]] + Project(Put(d[1..], k, e));
    } else if |d| > 0 {
      assert Project(Put(d, k, e)) == [(k, AlertDetails(e.description, e.instruction))] + Project(d)[1..];
    }
  }

  /**
   * The dictionary `check_for_alerts` of `frames.py` builds: the same keys,
   * in the same order, as that of the later revision, without the `event`
   * field.
   */
  function RootMatches(features: seq<Alert>, county: string): Dict<string, AlertDetails>
  {
    Project(Data.Filtered(features, county))
  }

  /** An event is a key exactly when some alert with that event matches, and no key repeats. */
  lemma RootMatchesKeys(features: seq<Alert>, county: string, event: string)
    ensures event in ToMap(RootMatches(features, county)) <==>
      exists i :: 0 <= i < |features| && Data.InCounty(features[i], county) && features[i].event == event
    ensures DistinctKeys(RootMatches(features, county))
    ensures |RootMatches(features, county)| > 0 <==> exists i :: 0 <= i < |features| && Data.InCounty(features[i], county)
  {
    var d := Data.Filtered(features, county);
    assert Keys(Project(d)) == Keys(d);
    ToMapKeys(d, event);
    ToMapKeys(Project(d), event);
    Data.FilteredKeys(features, county, event);
    Data.FilteredWellFormed(features, county);
    Data.FilteredNonEmpty(features, county);
  }

  /** `WeatherFrame.check_for_alerts(alerts_data)`: `None` when there is no payload. */
  method CheckForAlerts(alertsData: Option<AlertsData>, county: string) returns (matches: Option<Dict<string, AlertDetails>>)
    ensures alertsData.None? ==> matches.None?
    ensures alertsData.Some? ==> matches == Some(RootMatches(alertsData.value.features, county))
  {
    if alertsData.None? {
      return None;
    }
    var features := alertsData.value.features;
    var found: Dict<string, AlertDetails> := [];
    if |features| > 0 {
      var i := 0;
      while i < |features|
        invariant 0 <= i <= |features|
        invariant found == RootMatches(features[..i], county)
      {
        var alert := features[i];
        assert features[..i + 1][..i] == features[..i];
        if Text.Contains(alert.areaDesc, county) {
          ProjectPut(Data.Filtered(features[..i], county), alert.event, Data.EntryOf(alert));
          found := Put(found, alert.event, AlertDetails(alert.description, alert.instruction));
        }
        i := i + 1;
      }
      assert features[..|features|] == features;
    }
    matches := Some(found);
  }

  /**
   * The alert names of `HourlyForecastFrame.show_hourly_forecast`: each
   * matching event once.  The source removes repeats through a Python set,
   * whose order is unspecified, so only the membership and the absence of
   * repeats are promised.
   */
  method HourlyAlertNames(alertsData: Option<AlertsData>, county: string) returns (names: Option<seq<string>>)
    ensures names.None? <==> alertsData.None?
    ensures names.Some? ==>
      && (forall event :: event in names.value <==>
            exists i :: 0 <= i < |alertsData.value.features| && Data.InCounty(alertsData.value.features[i], county)
                        && alertsData.value.features[i].event == event)
      && (forall i, j :: 0 <= i < j < |names.value| ==> names.value[i] != names.value[j])
  {
    if alertsData.None? {
      return None;
    }
    var features := alertsData.value.features;
    var matching: seq<string> := [];
    var i := 0;
    while i < |features|
      invariant 0 <= i <= |features|
      invariant matching == Data.MatchingEvents(features[..i], county)
    {
      assert features[..i + 1][..i] == features[..i];
      if Text.Contains(features[i].areaDesc, county) {
        matching := matching + [features[i].event];
      }
      i := i + 1;
    }
    assert features[..|features|] == features;
    var unique: seq<string> := [];
    var j := 0;
    while j < |matching|
      invariant 0 <= j <= |matching|
      invariant unique == Data.Dedup(matching[..j])
    {
      assert matching[..j + 1][..j] == matching[..j];
      if matching[j] !in unique {
        unique := unique + [matching[j]];
      }
      j := j + 1;
    }
    assert matching[..|matching|] == matching;
    Data.DedupSpec(matching);
    forall event ensures event in matching <==>
      exists k :: 0 <= k < |features| && Data.InCounty(features[k], county) && features[k].event == event
    {
      Data.MatchingEventsSpec(features, county, event);
    }
    names := Some(unique);
  }

  // ------------------------------------------------------------ sub-frames

  /** What `IconFrame.show_icon` shows. */
  datatype IconView = IconView(emoji: string, temperature: string, highLow: string, forecast: string)

  /** The icon view of payloads that `IconReady` accepts. */
  function IconOf(hourly: ForecastData, detailed: ForecastData, cal: Calendar, table: Icons.EmojiDict): IconView
    requires IconReady(Some(hourly), Some(detailed), table)
  {
    var now := hourly.periods[0];
    var ts := DayList(hourly, detailed, cal);
    IconView(Icons.Choice(now.shortForecast, now.isDaytime, table).value.1, Degrees(now.temperature),
             HighLowText(Max(ts), Min(ts)), now.shortForecast)
  }

  /** `IconFrame.show_icon(forecast_data, detailed_forecast_data)`. */
  method ShowIcon(hourly: Option<ForecastData>, detailed: Option<ForecastData>, cal: Calendar, table: Icons.EmojiDict)
    returns (icon: Option<IconView>)
    ensures icon.Some? <==> IconReady(hourly, detailed, table)
    ensures icon.Some? ==> icon.value == IconOf(hourly.value, detailed.value, cal, table)
  {
    if hourly.None? || |hourly.value.periods| == 0 {
      return None;
    }
    var now := hourly.value.periods[0];
    var emoji := Icons.GetEmojiText(now.shortForecast, now.isDaytime, table);
    if emoji.None? || detailed.None? {
      return None;
    }
    var temperatures := DayTemperatures(now.temperature, detailed.value.periods, cal.week, cal.isToday);
    var high := Max(temperatures);
    var low := Min(temperatures);
    var highLow := if high == low then "Low: " + Degrees(low) else "High: " + Degrees(high) + " Low: " + Degrees(low);
    icon := Some(IconView(emoji.value, Degrees(now.temperature), highLow, now.shortForecast));
  }

  /** `DetailedForecastFrame.show_detailed_forecast(forecast_data)`: the text of period 0. */
  method ShowDetailedForecast(detailed: Option<ForecastData>) returns (text: Option<string>)
    ensures text.None? <==> detailed.None? || |detailed.value.periods| == 0
    ensures text.Some? ==> text.value == DetailedText(detailed.value.periods[0])
  {
    if detailed.None? || |detailed.value.periods| == 0 {
      return None;
    }
    text := Some(DetailedText(detailed.value.periods[0]));
  }

  /** `ActiveAlertsFrame.show_active_alerts(alert_matches)`: the header, then one block per entry. */
  method ShowActiveAlerts(matches: Dict<string, AlertDetails>) returns (text: string)
    ensures text == AlertsHeader + AlertLines(Values(matches))
  {
    text := AlertDetailsText(Values(matches));
  }

  /** What `DailyForecastFrame.show_daily_forecast` leaves in the frame. */
  datatype DailyShow =
    | Blank                              // a missing argument: the frame stays empty
    | Failed                             // an index past the last period, or no emoji
    | Drawn(emoji: string, text: string)

  /** The emoji and label of one period, or `None` when it cannot be shown. */
  function DailyOf(data: ForecastData, period: nat, table: Icons.EmojiDict): (v: Option<(string, string)>)
    ensures v.Some? <==> period < |data.periods|
                         && Icons.Choice(data.periods[period].shortForecast, data.periods[period].isDaytime, table).Some?
    ensures v.Some? ==> v.value.1 == DailyTextRoot(data.periods[period])
  {
    if period >= |data.periods| then None
    else
      var p := data.periods[period];
      match Icons.Choice(p.shortForecast, p.isDaytime, table)
      case None => None
      case Some(choice) => Some((choice.1, DailyTextRoot(p)))
  }

  method ShowDailyForecast(data: Option<ForecastData>, period: Option<nat>, table: Icons.EmojiDict) returns (shown: DailyShow)
    ensures data.None? || period.None? ==> shown == Blank
    ensures data.Some? && period.Some? ==>
      shown == match DailyOf(data.value, period.value, table)
               case None => Failed
               case Some(v) => Drawn(v.0, v.1)
  {
    if data.None? || period.None? {
      return Blank;
    }
    var i := period.value;
    if i >= |data.value.periods| {
      return Failed;
    }
    var p := data.value.periods[i];
    var emoji := Icons.GetEmojiText(p.shortForecast, p.isDaytime, table);
    if emoji.None? {
      return Failed;
    }
    shown := Drawn(emoji.value, p.name + "\n" + Degrees(p.temperature) + "\nForecast: " + p.shortForecast + "\n");
  }

  // ------------------------------------------------------------ 7-day view

  /** A daily frame of the 7-day view: its grid column, the period it shows, and what it shows. */
  datatype Tile = Tile(column: nat, period: nat, emoji: string, text: string)

  function DailyViews(data: ForecastData, table: Icons.EmojiDict): (views: seq<Option<(string, string)>>)
    ensures |views| == |data.periods|
    ensures forall i :: 0 <= i < |data.periods| ==> views[i] == DailyOf(data, i, table)
  {
    seq(|data.periods|, i requires 0 <= i < |data.periods| => DailyOf(data, i, table))
  }

  /** Places the shown periods in consecutive columns from 0. */
  function Tiles(placed: seq<(nat, (string, string))>): (tiles: seq<Tile>)
    ensures |tiles| == |placed|
    ensures forall k :: 0 <= k < |placed| ==> tiles[k] == Tile(k, placed[k].0, placed[k].1.0, placed[k].1.1)
  {
    seq(|placed|, k requires 0 <= k < |placed| => Tile(k, placed[k].0, placed[k].1.0, placed[k].1.1))
  }

  lemma TilesAppend(placed: seq<(nat, (string, string))>, p: (nat, (string, string)))
    ensures Tiles(placed + [p]) == Tiles(placed) + [Tile(|placed|, p.0, p.1.0, p.1.1)]
  {
  }

  /**
   * `WeeklyForecastFrame.show_weekly_forecast(forecast_data, current)`:
   * `None` when there is no payload or a daily frame raises.  Unlike the
   * later revision, the frames go in consecutive columns.
   */
  method ShowWeeklyForecast(data: Option<ForecastData>, current: Option<string>, table: Icons.EmojiDict)
    returns (tiles: Option<seq<Tile>>)
    ensures data.None? ==> tiles.None?
    ensures data.Some? ==>
      var placed := ShownViews(data.value.periods, DailyViews(data.value, table), current, |data.value.periods|);
      tiles == if placed.Some? then Some(Tiles(placed.value)) else None
  {
    if data.None? {
      return None;
    }
    var periods := data.value.periods;
    ghost var views := DailyViews(data.value, table);
    var placed: seq<Tile> := [];
    ghost var pairs: seq<(nat, (string, string))> := [];
    var column := 0;
    var i := 0;
    while i < |periods|
      invariant 0 <= i <= |periods|
      invariant ShownViews(periods, views, current, i) == Some(pairs)
      invariant placed == Tiles(pairs) && column == |placed|
    {
      if Shown(periods[i].name, current) {
        var shown := ShowDailyForecast(data, Some(i), table);
        if !shown.Drawn? {
          ShownViewsStaysFailed(periods, views, current, i + 1, |periods|);
          return None;
        }
        TilesAppend(pairs, (i, (shown.emoji, shown.text)));
        pairs := pairs + [(i, (shown.emoji, shown.text))];
        placed := placed + [Tile(column, i, shown.emoji, shown.text)];
        column := column + 1;
      }
      i := i + 1;
    }
    tiles := Some(placed);
  }

  /** Tile `k` sits in column `k` and shows the `k`-th shown period, so the columns run 0, 1, 2, ... without gaps. */
  lemma WeeklyTiles(data: ForecastData, current: Option<string>, table: Icons.EmojiDict)
    ensures var placed := ShownViews(data.periods, DailyViews(data, table), current, |data.periods|);
      var shown := ShownIndices(data.periods, current);
      placed.Some? ==>
        && |Tiles(placed.value)| == |shown|
        && forall k :: 0 <= k < |shown| ==>
             Tiles(placed.value)[k].column == k && Tiles(placed.value)[k].period == shown[k]
  {
    ShownViewsSpec(data.periods, DailyViews(data, table), current, |data.periods|);
    assert data.periods[..|data.periods|] == data.periods;
  }

  // ------------------------------------------------------------ the page

  /** Some active alert concerns the county. */
  predicate AnyMatch(features: seq<Alert>, county: string)
  {
    exists i :: 0 <= i < |features| && Data.InCounty(features[i], county)
  }

  /** What `WeatherFrame.display_weather` shows. */
  datatype Page = Page(
    icon: IconView,
    hourlyAlerts: seq<string>,       // the names under the hourly details
    alertsText: Option<string>,      // the alerts frame, when there is one
    detailedText: string,
    detailedColumn: nat,
    detailedSpan: nat)

  /**
   * `WeatherFrame.display_weather(hourly, detailed, alerts)`: `None` when a
   * frame raises.  The alerts frame and the narrowed detailed frame appear
   * exactly when some alert concerns the county.
   */
  method DisplayWeather(hourly: Option<ForecastData>, detailed: Option<ForecastData>, alerts: Option<AlertsData>,
                        county: string, cal: Calendar, table: Icons.EmojiDict)
    returns (page: Option<Page>)
    ensures page.Some? <==> IconReady(hourly, detailed, table) && alerts.Some? && |detailed.value.periods| > 0
    ensures page.Some? ==>
      && page.value.icon == IconOf(hourly.value, detailed.value, cal, table)
      && page.value.detailedText == DetailedText(detailed.value.periods[0])
      && (page.value.detailedColumn, page.value.detailedSpan) == (if AnyMatch(alerts.value.features, county) then (1, 1) else (0, 2))
      && page.value.alertsText == (if AnyMatch(alerts.value.features, county)
                                   then Some(AlertsHeader + AlertLines(Values(RootMatches(alerts.value.features, county))))
                                   else None)
      && (forall event :: event in page.value.hourlyAlerts <==>
            exists i :: 0 <= i < |alerts.value.features| && Data.InCounty(alerts.value.features[i], county)
                        && alerts.value.features[i].event == event)
  {
    var icon := ShowIcon(hourly, detailed, cal, table);
    if icon.None? {
      return None;
    }
    var names := HourlyAlertNames(alerts, county);
    if names.None? {
      return None;
    }
    var features := alerts.value.features;
    RootMatchesKeys(features, county, "");
    assert |features| > 0 && |RootMatches(features, county)| > 0 <==> AnyMatch(features, county);
    var column, span := 0, 2;
    var alertsText := None;
    if |features| > 0 {
      var matches := CheckForAlerts(alerts, county);
      if |matches.value| > 0 {
        var text := ShowActiveAlerts(matches.value);
        alertsText := Some(text);
        column, span := column + 1, 1;
      }
    }
    var detailedText := ShowDetailedForecast(detailed);
    if detailedText.None? {
      return None;
    }
    page := Some(Page(icon.value, names.value, alertsText, detailedText.value, column, span));
  }
}
