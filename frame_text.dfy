/**
 * Derivations shared by the two revisions of the weather frames
 * (`nws_weather_ctk/frames/weather.py`, `nws_weather_ctk/frames/weekly.py`
 * and the older `frames.py`): the temperatures of the day and the
 * high/low text, the alert details text, the labels of one period, and the
 * choice of the periods the 7-day view shows.
 */
module FrameText {
  import opened Wrappers
  import opened Text
  import opened Payloads
  import Icons

  // ------------------------------------------------------------ temperatures

  /** `'{temperature}°F'` */
  function Degrees(t: int): string
  {
    IntToString(t) + "°F"
  }

  /** `n` copies of `t`. */
  function Repeat(t: int, n: nat): (r: seq<int>)
    ensures |r| == n && forall i :: 0 <= i < n ==> r[i] == t
  {
    if n == 0 then [] else Repeat(t, n - 1) + [t]
  }

  /** How many dates of `week` occur in `startTime`. */
  function Hits(startTime: string, week: seq<string>): nat
  {
    if |week| == 0 then 0
    else Hits(startTime, week[..|week| - 1]) + if Contains(startTime, week[|week| - 1]) then 1 else 0
  }

  /**
   * The temperatures the nested loops append: for each period, once per date
   * of the week found in its start time, provided the start time is today.
   */
  function TodayTemperatures(periods: seq<Period>, week: seq<string>, isToday: string -> bool): seq<int>
  {
    if |periods| == 0 then []
    else
      var p := periods[|periods| - 1];
      TodayTemperatures(periods[..|periods| - 1], week, isToday)
        + if isToday(p.startTime) then Repeat(p.temperature, Hits(p.startTime, week)) else []
  }

  /** Every collected temperature is that of a period of today whose start time mentions a date of the week. */
  lemma {:induction false} TodayTemperaturesFrom(periods: seq<Period>, week: seq<string>, isToday: string -> bool, t: int)
    requires t in TodayTemperatures(periods, week, isToday)
    ensures exists i :: 0 <= i < |periods| && periods[i].temperature == t && isToday(periods[i].startTime)
                        && Hits(periods[i].startTime, week) > 0
  {
    var n := |periods| - 1;
    var p := periods[n];
    var front := TodayTemperatures(periods[..n], week, isToday);
    if t in front {
      TodayTemperaturesFrom(periods[..n], week, isToday, t);
      var i :| 0 <= i < n && periods[..n][i].temperature == t && isToday(periods[..n][i].startTime)
               && Hits(periods[..n][i].startTime, week) > 0;
      assert periods[i] == periods[..n][i];
    } else {
      assert n < |periods| && periods[n].temperature == t && isToday(periods[n].startTime);
    }
  }

  /** The collected temperatures of `IconFrame.refresh`: the current one first, then those of today. */
  method DayTemperatures(current: int, periods: seq<Period>, week: seq<string>, isToday: string -> bool)
    returns (temperatures: seq<int>)
    ensures temperatures == [current] + TodayTemperatures(periods, week, isToday)
  {
    temperatures := [current];
    var i := 0;
    while i < |periods|
      invariant 0 <= i <= |periods|
      invariant temperatures == [current] + TodayTemperatures(periods[..i], week, isToday)
    {
      var period := periods[i];
      assert periods[..i + 1][..i] == periods[..i];
      ghost var before := temperatures;
      var k := 0;
      while k < |week|
        invariant 0 <= k <= |week|
        invariant temperatures == before + if isToday(period.startTime) then Repeat(period.temperature, Hits(period.startTime, week[..k])) else []
      {
        assert week[..k + 1][..k] == week[..k];
        if Contains(period.startTime, week[k]) {
          if isToday(period.startTime) {
            temperatures := temperatures + [period.temperature];
          }
        }
        k := k + 1;
      }
      assert week[..|week|] == week;
      i := i + 1;
    }
    assert periods[..|periods|] == periods;
  }

  /** `get_week()` and the `is_weekday(startTime, get_day_of_week('Today'))` test. */
  datatype Calendar = Calendar(week: seq<string>, isToday: string -> bool)

  /** Whether the icon frame can be built: both forecasts present, an hourly period, and an emoji. */
  predicate IconReady(hourly: Option<ForecastData>, detailed: Option<ForecastData>, table: Icons.EmojiDict)
  {
    && hourly.Some? && |hourly.value.periods| > 0 && detailed.Some?
    && Icons.Choice(hourly.value.periods[0].shortForecast, hourly.value.periods[0].isDaytime, table).Some?
  }

  /** The temperatures of the day: the current hourly one, then each of today's detailed periods. */
  function DayList(hourly: ForecastData, detailed: ForecastData, cal: Calendar): (ts: seq<int>)
    requires |hourly.periods| > 0
    ensures |ts| > 0 && ts[0] == hourly.periods[0].temperature
  {
    [hourly.periods[0].temperature] + TodayTemperatures(detailed.periods, cal.week, cal.isToday)
  }

  /** With the current temperature first in the list, low <= current <= high. */
  lemma {:induction false} DayListBracketsCurrent(hourly: ForecastData, detailed: ForecastData, cal: Calendar)
    requires |hourly.periods| > 0
    ensures var ts := DayList(hourly, detailed, cal);
      Min(ts) <= hourly.periods[0].temperature <= Max(ts)
  {
    var ts := DayList(hourly, detailed, cal);
    assert ts[0] in ts;
  }

  /** `max(temperatures)` */
  function Max(s: seq<int>): (m: int)
    requires |s| > 0
    ensures m in s && forall x :: x in s ==> x <= m
  {
    if |s| == 1 then s[0]
    else
      var m := Max(s[..|s| - 1]);
      assert forall x :: x in s ==> x in s[..|s| - 1] || x == s[|s| - 1];
      if s[|s| - 1] > m then s[|s| - 1] else m
  }

  /** `min(temperatures)` */
  function Min(s: seq<int>): (m: int)
    requires |s| > 0
    ensures m in s && forall x :: x in s ==> m <= x
  {
    if |s| == 1 then s[0]
    else
      var m := Min(s[..|s| - 1]);
      assert forall x :: x in s ==> x in s[..|s| - 1] || x == s[|s| - 1];
      if s[|s| - 1] < m then s[|s| - 1] else m
  }

  /** The high/low label: the high is left out when it equals the low. */
  function HighLowText(high: int, low: int): (text: string)
  {
    if high == low then "Low: " + Degrees(low) else "High: " + Degrees(high) + " Low: " + Degrees(low)
  }

  /** The label names a high exactly when high and low differ, and always ends with the low. */
  lemma HighLowTextSpec(high: int, low: int)
    ensures "High: " <= HighLowText(high, low) <==> high != low
    ensures var text := HighLowText(high, low);
      var tail := "Low: " + Degrees(low);
      |tail| <= |text| && text[|text| - |tail|..] == tail
  {
    var text := HighLowText(high, low);
    if high == low {
      assert text[0] == 'L';
    } else {
      assert text == ("High: " + Degrees(high) + " ") + ("Low: " + Degrees(low));
    }
  }

  // ------------------------------------------------------------ alert text

  /** The values of an alert-matches dictionary the text shows. */
  datatype AlertDetails = AlertDetails(description: string, instruction: Option<string>)

  const AlertsHeader := "Active alerts:\n\n"
  const NoAlerts := "No Active Alerts"

  /** `str` on an optional string: Python prints `None` for a missing instruction. */
  function ShowOption(o: Option<string>): string
  {
    if o.Some? then o.value else "None"
  }

  /** `'Description: {description}\nInstruction: {instruction}\n'` */
  function AlertBlock(a: AlertDetails): string
  {
    "Description: " + a.description + "\nInstruction: " + ShowOption(a.instruction) + "\n"
  }

  /** One block per alert, in dictionary order. */
  function AlertLines(alerts: seq<AlertDetails>): string
  {
    if |alerts| == 0 then "" else AlertLines(alerts[..|alerts| - 1]) + AlertBlock(alerts[|alerts| - 1])
  }

  /** The text of a concatenation of alert lists is the concatenation of their texts. */
  lemma {:induction false} AlertLinesAppend(a: seq<AlertDetails>, b: seq<AlertDetails>)
    ensures AlertLines(a + b) == AlertLines(a) + AlertLines(b)
    decreases |b|
  {
    if |b| == 0 {
      assert a + b == a;
    } else {
      var front := b[..|b| - 1];
      var last := b[|b| - 1];
      assert (a + b)[..|a + b| - 1] == a + front;
      assert (a + b)[|a + b| - 1] == last;
      calc {
        AlertLines(a + b);
        AlertLines(a + front) + AlertBlock(last);
        { AlertLinesAppend(a, front); }
        (AlertLines(a) + AlertLines(front)) + AlertBlock(last);
        AlertLines(a) + (AlertLines(front) + AlertBlock(last));
        AlertLines(a) + AlertLines(b);
      }
    }
  }

  /** The loop of both `ActiveAlertsFrame`s: the header followed by one block per alert. */
  method AlertDetailsText(alerts: seq<AlertDetails>) returns (text: string)
    ensures text == AlertsHeader + AlertLines(alerts)
  {
    text := AlertsHeader;
    var i := 0;
    while i < |alerts|
      invariant 0 <= i <= |alerts|
      invariant text == AlertsHeader + AlertLines(alerts[..i])
    {
      assert alerts[..i + 1][..i] == alerts[..i];
      text := text + AlertBlock(alerts[i]);
      i := i + 1;
    }
    assert alerts[..|alerts|] == alerts;
  }

  // ------------------------------------------------------------ one period

  /** `'Forecast for {name}:\n\n{detailedForecast}'` of period 0. */
  function DetailedText(p: Period): (text: string)
    ensures "Forecast for " + p.name <= text
    ensures |text| >= |p.detailedForecast| && text[|text| - |p.detailedForecast|..] == p.detailedForecast
  {
    "Forecast for " + p.name + ":\n\n" + p.detailedForecast
  }

  /** `'{name}\n{temperature}°F\n{shortForecast}'` of `nws_weather_ctk/frames/weekly.py`. */
  function DailyText(p: Period): (text: string)
    ensures p.name + "\n" <= text
    ensures |text| >= |p.shortForecast| && text[|text| - |p.shortForecast|..] == p.shortForecast
  {
    p.name + "\n" + Degrees(p.temperature) + "\n" + p.shortForecast
  }

  /** `'{name}\n{temperature}°F\nForecast: {shortForecast}\n'` of `frames.py`. */
  function DailyTextRoot(p: Period): (text: string)
    ensures p.name + "\n" <= text
    ensures |text| > |p.shortForecast| && text[|text| - |p.shortForecast| - 1..] == p.shortForecast + "\n"
  {
    p.name + "\n" + Degrees(p.temperature) + "\nForecast: " + p.shortForecast + "\n"
  }

  // ------------------------------------------------------------ 7-day view

  const Weekdays: seq<string> := ["Monday", "Tuesday", "Wednesday", "Thursday", "Friday", "Saturday", "Sunday"]

  /** A period is shown when its name is the current period's name or a day of the week. */
  predicate Shown(name: string, current: Option<string>)
  {
    (current.Some? && name == current.value) || name in Weekdays
  }

  /** The indices of the shown periods among the first `n`, in increasing order. */
  function ShownIndices(periods: seq<Period>, current: Option<string>): seq<nat>
  {
    if |periods| == 0 then []
    else
      var n := |periods| - 1;
      ShownIndices(periods[..n], current) + if Shown(periods[n].name, current) then [n] else []
  }

  /** The shown indices are exactly the periods whose name is selected, strictly increasing. */
  lemma {:induction false} ShownIndicesSpec(periods: seq<Period>, current: Option<string>)
    ensures forall k :: 0 <= k < |ShownIndices(periods, current)| ==> ShownIndices(periods, current)[k] < |periods|
    ensures forall i :: 0 <= i < |periods| ==> (i in ShownIndices(periods, current) <==> Shown(periods[i].name, current))
    ensures forall k, l :: 0 <= k < l < |ShownIndices(periods, current)| ==>
      ShownIndices(periods, current)[k] < ShownIndices(periods, current)[l]
  {
    if |periods| > 0 {
      var n := |periods| - 1;
      ShownIndicesSpec(periods[..n], current);
      assert forall i :: 0 <= i < n ==> periods[..n][i] == periods[i];
    }
  }

  /**
   * The frames a 7-day loop has placed after looking at the first `n`
   * periods: the index and view of each shown period, or `None` once the view
   * of a shown period failed (`views[i]` is the view of period `i`).
   */
  function ShownViews<D>(periods: seq<Period>, views: seq<Option<D>>, current: Option<string>, n: nat): Option<seq<(nat, D)>>
    requires |views| == |periods| && n <= |periods|
  {
    if n == 0 then Some([])
    else
      match ShownViews(periods, views, current, n - 1)
      case None => None
      case Some(placed) =>
        if !Shown(periods[n - 1].name, current) then Some(placed)
        else
          match views[n - 1]
          case None => None
          case Some(v) => Some(placed + [(n - 1, v)])
  }

  /**
   * One frame per shown period, in index order, each with that period's
   * view; the loop fails exactly when the view of some shown period fails.
   */
  lemma {:induction false} ShownViewsSpec<D>(periods: seq<Period>, views: seq<Option<D>>, current: Option<string>, n: nat)
    requires |views| == |periods| && n <= |periods|
    ensures var shown := ShownIndices(periods[..n], current);
      && (forall k :: 0 <= k < |shown| ==> shown[k] < n)
      && (ShownViews(periods, views, current, n).Some? <==> forall k :: 0 <= k < |shown| ==> views[shown[k]].Some?)
      && (ShownViews(periods, views, current, n).Some? ==>
           && |ShownViews(periods, views, current, n).value| == |shown|
           && forall k :: 0 <= k < |shown| ==> ShownViews(periods, views, current, n).value[k] == (shown[k], views[shown[k]].value))
  {
    if n > 0 {
      ShownViewsSpec(periods, views, current, n - 1);
      assert periods[..n][..n - 1] == periods[..n - 1];
      assert periods[..n][n - 1] == periods[n - 1];
      var before := ShownIndices(periods[..n - 1], current);
      var shown := ShownIndices(periods[..n], current);
      if ShownViews(periods, views, current, n - 1).Some? && Shown(periods[n - 1].name, current) {
        assert shown == before + [n - 1];
        assert shown[|before|] == n - 1;
      }
      if ShownViews(periods, views, current, n - 1).None? {
        var k :| 0 <= k < |before| && views[before[k]].None?;
        assert shown[k] == before[k];
      }
    }
  }

  /** Once a view has failed, the rest of the loop does not run. */
  lemma {:induction false} ShownViewsStaysFailed<D>(periods: seq<Period>, views: seq<Option<D>>, current: Option<string>, m: nat, n: nat)
    requires |views| == |periods| && m <= n <= |periods|
    requires ShownViews(periods, views, current, m).None?
    ensures ShownViews(periods, views, current, n).None?
    decreases n - m
  {
    if m < n {
      ShownViewsStaysFailed(periods, views, current, m + 1, n);
    }
  }
}
