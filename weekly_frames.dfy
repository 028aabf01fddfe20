/**
 * The 7-day page of `nws_weather_ctk/frames/weekly.py`: one
 * `DailyForecastFrame` per shown period, placed in the grid column equal to
 * the period's index.  The emoji table is a parameter; a Python exception is
 * a `raised` flag or a `None` result.
 */
module WeeklyFrames {
  import opened Wrappers
  import opened Payloads
  import opened FrameText
  import Icons

  /** What a daily frame shows: the emoji's file name and text, and the label. */
  datatype Daily = Daily(filename: string, emoji: string, text: string)

  /**
   * `DailyForecastFrame.refresh(detailed_forecast_data, period)`: `None` when
   * there is no payload, the index is past the last period, or no emoji fits.
   */
  function DailyView(detailed: Option<ForecastData>, period: nat, table: Icons.EmojiDict): (v: Option<Daily>)
    ensures v.Some? <==> detailed.Some? && period < |detailed.value.periods|
                         && Icons.Choice(detailed.value.periods[period].shortForecast, detailed.value.periods[period].isDaytime, table).Some?
    ensures v.Some? ==> v.value.text == DailyText(detailed.value.periods[period])
  {
    if detailed.None? || period >= |detailed.value.periods| then None
    else
      var p := detailed.value.periods[period];
      match Icons.Choice(p.shortForecast, p.isDaytime, table)
      case None => None
      case Some(choice) => Some(Daily(choice.0, choice.1, DailyText(p)))
  }

  class DailyForecastFrame {
    var filename: string
    var emoji: string
    var forecastText: string

    constructor ()
      ensures filename == emoji == forecastText == ""
    {
      filename, emoji, forecastText := "", "", "";
    }

    function View(): Daily
      reads this
    {
      Daily(filename, emoji, forecastText)
    }

    method Refresh(detailed: Option<ForecastData>, period: nat, table: Icons.EmojiDict) returns (raised: bool)
      modifies this
      ensures raised <==> DailyView(detailed, period, table).None?
      ensures !raised ==> View() == DailyView(detailed, period, table).value
      ensures raised ==> View() == old(View())
    {
      if detailed.None? || period >= |detailed.value.periods| {
        return true;
      }
      var p := detailed.value.periods[period];
      var choice := Icons.GetEmoji(p.shortForecast, p.isDaytime, table);
      if choice.None? {
        return true;
      }
      filename, emoji := choice.value.0, choice.value.1;
      forecastText := p.name + "\n" + Degrees(p.temperature) + "\n" + p.shortForecast;
      raised := false;
    }

    /**
     * `update`: the periodic refresh with the same arguments.  The view
     * depends only on those arguments, so a second refresh after a first
     * one leaves the frame as it was.
     */
    method Update(detailed: Option<ForecastData>, period: nat, table: Icons.EmojiDict) returns (raised: bool)
      modifies this
      ensures raised <==> DailyView(detailed, period, table).None?
      ensures !raised ==> View() == DailyView(detailed, period, table).value
      ensures raised ==> View() == old(View())
    {
      raised := Refresh(detailed, period, table);
    }
  }

  /** The view of every period, by index. */
  function DailyViews(data: ForecastData, table: Icons.EmojiDict): (views: seq<Option<Daily>>)
    ensures |views| == |data.periods|
    ensures forall i :: 0 <= i < |data.periods| ==> views[i] == DailyView(Some(data), i, table)
  {
    seq(|data.periods|, i requires 0 <= i < |data.periods| => DailyView(Some(data), i, table))
  }

  /** The daily frames of the 7-day page: the view of each shown period, placed in the column equal to its index. */
  function Week(data: ForecastData, table: Icons.EmojiDict): Option<seq<(nat, Daily)>>
    requires |data.periods| > 0
  {
    ShownViews(data.periods, DailyViews(data, table), Some(data.periods[0].name), |data.periods|)
  }

  /**
   * The page holds one frame per period named like the first period or a day
   * of the week, in increasing column order, and fails exactly when one of
   * those periods has no emoji.
   */
  lemma WeekSpec(data: ForecastData, table: Icons.EmojiDict)
    requires |data.periods| > 0
    ensures var shown := ShownIndices(data.periods, Some(data.periods[0].name));
      && 0 < |shown| && shown[0] == 0
      && (Week(data, table).Some? <==> forall k :: 0 <= k < |shown| ==> DailyView(Some(data), shown[k], table).Some?)
      && (Week(data, table).Some? ==>
           && |Week(data, table).value| == |shown|
           && forall k :: 0 <= k < |shown| ==>
                Week(data, table).value[k] == (shown[k], DailyView(Some(data), shown[k], table).value))
  {
    var current := Some(data.periods[0].name);
    ShownViewsSpec(data.periods, DailyViews(data, table), current, |data.periods|);
    ShownIndicesSpec(data.periods, current);
    assert data.periods[..|data.periods|] == data.periods;
    var shown := ShownIndices(data.periods, current);
    assert 0 in shown;
    assert shown[0] <= 0 by {
      var k :| 0 <= k < |shown| && shown[k] == 0;
      assert shown[0] <= shown[k];
    }
  }

  class WeeklyForecastFrame {
    var detailedForecastData: Option<ForecastData>
    /** The column of the last daily frame placed (`self.daily_forecast_frame`), if any. */
    var lastDaily: Option<nat>

    constructor ()
      ensures detailedForecastData.None? && lastDaily.None?
    {
      detailedForecastData := None;
      lastDaily := None;
    }

    /** `show_weekly_forecast`: `None` when the payload is missing or empty, or a daily frame raises. */
    method ShowWeeklyForecast(detailed: Option<ForecastData>, table: Icons.EmojiDict) returns (shown: Option<seq<(nat, Daily)>>)
      modifies this`lastDaily
      ensures detailed.None? || |detailed.value.periods| == 0 ==> shown.None?
      ensures detailed.Some? && |detailed.value.periods| > 0 ==> shown == Week(detailed.value, table)
      ensures shown.Some? && |shown.value| > 0 ==> lastDaily == Some(shown.value[|shown.value| - 1].0)
      ensures shown.Some? && |shown.value| == 0 ==> lastDaily == old(lastDaily)
    {
      if detailed.None? || |detailed.value.periods| == 0 {
        return None;
      }
      var data := detailed.value;
      var current := data.periods[0].name;
      ghost var views := DailyViews(data, table);
      var placed: seq<(nat, Daily)> := [];
      var i := 0;
      while i < |data.periods|
        invariant 0 <= i <= |data.periods|
        invariant ShownViews(data.periods, views, Some(current), i) == Some(placed)
        invariant |placed| > 0 ==> lastDaily == Some(placed[|placed| - 1].0)
        invariant |placed| == 0 ==> lastDaily == old(lastDaily)
      {
        if Shown(data.periods[i].name, Some(current)) {
          var frame := new DailyForecastFrame();
          var raised := frame.Refresh(detailed, i, table);
          if raised {
            ShownViewsStaysFailed(data.periods, views, Some(current), i + 1, |data.periods|);
            return None;
          }
          lastDaily := Some(i);
          placed := placed + [(i, frame.View())];
        }
        i := i + 1;
      }
      shown := Some(placed);
    }

    /** `update`, without the call back into the application's `check_for_updates`. */
    method Update(detailed: Option<ForecastData>)
      modifies this`detailedForecastData
      ensures detailedForecastData == detailed
    {
      detailedForecastData := detailed;
    }
  }
}
