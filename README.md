# NWS Weather CTk — change detection and data filtering, in Dafny

This project models the logic under the customtkinter weather application
for the National Weather Service API:

- how the configured location record is built (`config.py`);
- how the three payloads are fetched: hourly forecast, detailed forecast and
  active alerts;
- how the alerts that concern the configured county are selected;
- how the background `UpdateThread` decides that the forecast has changed,
  together with the older rule inside the application object;
- how a weather emoji is chosen for a forecast text;
- which values the frames of both GUI revisions show. These are the high/low
  label, the alert names and alert details, the detailed-forecast placement,
  and the periods of the 7-day view.

The model takes the source's own form:

- Objects whose fields are updated become classes (`UpdateThread`, `App`, the frames and the configuration file).
- Loops become methods with loop invariants. Each one is proved against a specification function.
- The properties the code promises are stated as postconditions and lemmas.

Network answers, YAML files, the clock and the configured county are all
parameters. A Python exception becomes an explicit result: a `raised` flag,
an `Outcome`, an `Err`, or a `None`.

Modules:

| file | module | models |
|---|---|---|
| `wrappers.dfy` | `Wrappers` | `Option` |
| `text.dfy` | `Text` | substring test, ASCII `str.lower`, `str.replace(p, '')`, `str(int)` and its inverse |
| `ordered_dict.dfy` | `OrderedDict` | an insertion-ordered Python dict as a list of pairs, and `d[k] = v` |
| `payloads.dfy` | `Payloads` | the parts of the API responses that are read, and one HTTP attempt |
| `data.dfy` | `Data` | `nws_weather_ctk/utils/data.py` |
| `background.dfy` | `Background` | `nws_weather_ctk/utils/background.py` |
| `icons.dfy` | `Icons` | both `get_emoji` copies |
| `frame_text.dfy` | `FrameText` | the label derivations shared by both frame revisions |
| `weather_frames.dfy` | `WeatherFrames` | `nws_weather_ctk/frames/weather.py` |
| `weekly_frames.dfy` | `WeeklyFrames` | `nws_weather_ctk/frames/weekly.py` |
| `root_frames.dfy` | `RootFrames` | `frames.py` |
| `location_config.dfy` | `LocationConfig` | `config.py` |
| `app.dfy` | `WeatherApp` | `nws_weather_ctk.py` |

## Model

| member | source | states |
|---|---|---|
| Text.Lower | nws_weather_ctk/utils/icons.py:12 | lower-casing keeps the length, turns each upper-case letter into the matching lower-case one (`A` to `a` … `Z` to `z`) and changes no other character |
| Text.RemoveAll | config.py:27 | removing every occurrence of a pattern never lengthens the text |
| Text.RemoveAllFirst | config.py:27 | the leftmost occurrence is dropped and the scan resumes right after it; together with `Text.RemoveAllAbsent` this fixes the result of `replace(p, '')` on every text |
| Text.RemoveAllAbsent | config.py:26-27 | a text without the pattern is returned unchanged |
| Text.RemoveAllTrailing | config.py:26-27 | a name followed by a single occurrence of the pattern loses exactly that occurrence |
| Text.IntToString | config.py:37-38 | the decimal text is non-empty and starts with `-` exactly for negative numbers |
| Text.IntToStringRoundTrip | config.py:37-38 | the text of an integer is well formed and parses back to the same integer |
| OrderedDict.ToMapKeys | nws_weather_ctk/utils/data.py:97 | a key is in the dictionary's map view exactly when it is one of its listed keys |
| OrderedDict.PutToMap | nws_weather_ctk/utils/data.py:97-101 | seen as a map, `d[k] = v` is a map update |
| OrderedDict.PutKeys | nws_weather_ctk/utils/data.py:97-101 | assigning an existing key keeps the key order; a new key goes last |
| OrderedDict.PutDistinct | nws_weather_ctk/utils/data.py:97-101 | assignment never duplicates a key |
| OrderedDict.PutEntries | nws_weather_ctk/utils/data.py:97-101 | after assignment every entry is the new pair or was already there |
| Data.DetailedUrl | nws_weather_ctk/utils/data.py:39 | the detailed URL is `/gridpoints/...` on the API base and ends in `/forecast` |
| Data.HourlyUrl | nws_weather_ctk/utils/data.py:13 | the hourly URL is the detailed URL followed by `/hourly` |
| Data.AlertsUrl | nws_weather_ctk/utils/data.py:65 | the alerts URL is `/alerts/active?area=` followed by exactly the configured state |
| Data.FirstPayloadIsFirstCarrier | nws_weather_ctk/utils/data.py:18-32 | the retry result is absent exactly when no attempt carries the key; otherwise it is the payload of the first attempt that does, and every earlier attempt raised or lacked the key |
| Data.FailuresSkipped | nws_weather_ctk/utils/data.py:21-31 | any number of raising or key-less attempts in front changes nothing |
| Data.FetchUntilKey | nws_weather_ctk/utils/data.py:18-32 | the loop returns the first payload with the key, requests only the given URL, and stops at the attempt that succeeded; no earlier attempt carried the key |
| Data.HourlyForecast | nws_weather_ctk/utils/data.py:9-32 | without `office`, `gridX` or `gridY` there is no result and no request; otherwise the first keyed payload from the hourly URL, with no earlier attempt carrying the key; `Exhausted` only after every attempt was requested |
| Data.DetailedForecast | nws_weather_ctk/utils/data.py:35-58 | the same for the detailed URL, including the first-keyed and every-attempt-requested clauses |
| Data.ActiveAlerts | nws_weather_ctk/utils/data.py:61-84 | without `state` there is no result and no request; otherwise the first payload with `features` from the alerts URL, with no earlier attempt carrying it; `Exhausted` only after every attempt was requested |
| Data.FilterAlerts | nws_weather_ctk/utils/data.py:86-102 | the loop builds the filtered dictionary (`Data.Filtered`); no features gives an empty dictionary |
| Data.FilteredKeys | nws_weather_ctk/utils/data.py:94-97 | an event is a key exactly when some alert with that event has an area description that contains the county |
| Data.FilteredNonEmpty | nws_weather_ctk/utils/data.py:91-97 | the dictionary is non-empty exactly when some alert matches the county |
| Data.FilteredLastWins | nws_weather_ctk/utils/data.py:94-101 | the entry for an event comes from the last matching alert with that event |
| Data.FilteredWellFormed | nws_weather_ctk/utils/data.py:97-101 | no key repeats, and each entry's `event` equals its key |
| Data.FilteredOrder | nws_weather_ctk/utils/data.py:91-101 | the keys, in order, are the matching events in order of first appearance |
| Data.MatchingEventsSpec | frames.py:100-103 | an event is in the list of matching events exactly when some alert with it matches |
| Data.DedupSpec | frames.py:108 | removing repeats keeps every element, invents none and leaves no repeat |
| Background.InitialFetchSpec | nws_weather_ctk/utils/background.py:48-50 | without a complete snapshot all three parts are fetched in the order hourly, detailed, alerts, the thread's event is set, `initial_data_fetched` becomes true and `updated` is untouched |
| Background.ComparisonSpec | nws_weather_ctk/utils/background.py:52-71 | with a complete snapshot the cycle raises exactly when a payload is unusable. Otherwise `updated` is true exactly when the temperature, the short forecast or the filtered alerts differ. The snapshot is replaced only then, reusing the fetched hourly payload and refetching only the detailed forecast and the alerts. The event is set |
| Background.NoSpuriousUpdate | nws_weather_ctk/utils/background.py:63-70 | identical period 0 and identical alerts leave `updated` false and the snapshot unchanged |
| Background.AlertEventChangeIsMaterial | nws_weather_ctk/utils/background.py:58-66 | an event that starts or stops matching the county is a change even with the same temperature and forecast |
| Background.SecondIdenticalCycleKeepsSnapshot | nws_weather_ctk/utils/background.py:45-71 | a second cycle that sees the same upstream payloads keeps the snapshot and reports no update |
| Background.UpdateThread.constructor | nws_weather_ctk/utils/background.py:6-18 | stores `data` and `updated`; not fetched, not stopped, event clear |
| Background.UpdateThread.Stop | nws_weather_ctk/utils/background.py:25-26 | only the stop flag is raised |
| Background.UpdateThread.UpdateForecastData | nws_weather_ctk/utils/background.py:29-42 | `data` is replaced by exactly the three payloads; the hourly one is fetched only when none is given |
| Background.UpdateThread.CheckForUpdates | nws_weather_ctk/utils/background.py:45-71 | the new fields, the exception and the fetch calls are those of the cycle function `Background.CheckStep` |
| Background.UpdateThread.Start | nws_weather_ctk/utils/background.py:20-23 | a stopped thread changes nothing and fetches nothing; otherwise one cycle runs |
| Icons.Score | nws_weather_ctk/utils/icons.py:21-25 | a score never exceeds the number of keywords |
| Icons.ScoreBounds | nws_weather_ctk/utils/icons.py:19-25 | the score is 0 exactly when no keyword is a substring of the forecast, and full exactly when all are |
| Icons.FirstMaxIsFirstMax | nws_weather_ctk/utils/icons.py:26 | the chosen index has the highest score, and every earlier index scores strictly less |
| Icons.FirstMaxUnique | nws_weather_ctk/utils/icons.py:26 | exactly one index has that property |
| Icons.NightIgnoresForecast | nws_weather_ctk/utils/icons.py:14-16 | at night the result is the `night` entry whatever the forecast |
| Icons.ChoiceIsBestMatch | nws_weather_ctk/utils/icons.py:19-28 | by day there is a result exactly when the table is non-empty; it is the first entry with the maximal score over the lower-cased forecast |
| Icons.NoMatchChoosesFirst | nws_weather_ctk/utils/icons.py:20-26 | with no keyword matching anywhere, the first entry is chosen |
| Icons.ChoiceKeyIsInTable | nws_weather_ctk/utils/icons.py:26-28 | the returned key is in the table and the returned text is that key's text |
| Icons.BestMatch | nws_weather_ctk/utils/icons.py:19-26 | the counting loops and the scan return the first maximal index |
| Icons.GetEmoji | nws_weather_ctk/utils/icons.py:11-28 | returns the choice, or nothing where the source raises (no `night` entry, empty table) |
| Icons.GetEmojiText | icons.py:12-27 | returns the text of the same choice |
| FrameText.TodayTemperaturesFrom | nws_weather_ctk/frames/weather.py:155-163 | every collected temperature belongs to a detailed period of today whose start time mentions a date of the week |
| FrameText.DayTemperatures | nws_weather_ctk/frames/weather.py:152-163 | the nested loops give the current temperature followed by the temperatures of today (`FrameText.TodayTemperatures`) |
| FrameText.DayList | nws_weather_ctk/frames/weather.py:152-154 | the temperature list is never empty and starts with the current hourly temperature |
| FrameText.DayListBracketsCurrent | nws_weather_ctk/frames/weather.py:152-166 | low <= current temperature <= high |
| FrameText.Max | nws_weather_ctk/frames/weather.py:165 | the high is in the list and no element exceeds it |
| FrameText.Min | nws_weather_ctk/frames/weather.py:166 | the low is in the list and no element is below it |
| FrameText.HighLowTextSpec | nws_weather_ctk/frames/weather.py:168-171 | the label names a high exactly when high and low differ, and always ends with the low |
| FrameText.AlertLinesAppend | nws_weather_ctk/frames/weather.py:258-259 | the text of two alert lists one after the other is the concatenation of their texts |
| FrameText.AlertDetailsText | frames.py:286-288 | the loop gives the header followed by one Description/Instruction block per alert |
| FrameText.DetailedText | nws_weather_ctk/frames/weather.py:214 | the text starts with `Forecast for` and the period name and ends with the detailed forecast |
| FrameText.DailyText | nws_weather_ctk/frames/weekly.py:29 | the label starts with the period name and ends with the short forecast |
| FrameText.DailyTextRoot | frames.py:228 | the label starts with the period name and ends with the short forecast and a newline |
| FrameText.ShownIndicesSpec | nws_weather_ctk/frames/weekly.py:47-49 | the shown indices are exactly the periods named like the current one or a weekday, strictly increasing |
| FrameText.ShownViewsSpec | nws_weather_ctk/frames/weekly.py:47-58 | the loop places one view per shown period in index order, and fails exactly when a shown period's view fails |
| FrameText.ShownViewsStaysFailed | nws_weather_ctk/frames/weekly.py:47-58 | after a failure no later period is placed |
| WeatherFrames.Events | nws_weather_ctk/frames/weather.py:117-118 | the listed names are the entries' events, in dictionary order |
| WeatherFrames.EventsOfFiltered | nws_weather_ctk/frames/weather.py:116-118 | for a filtered dictionary, the names are its keys: the matching events, once each, in order of first match |
| WeatherFrames.DetailsOf | nws_weather_ctk/frames/weather.py:258-259 | the alert text uses each entry's description and instruction, in dictionary order |
| WeatherFrames.AlertsAfterDisplay | nws_weather_ctk/frames/weather.py:39-40 | as written: the alerts are recomputed from a non-empty payload; an empty one keeps the previous alerts |
| WeatherFrames.StaleAlertsSurvive | nws_weather_ctk/frames/weather.py:39-61 | a previously shown alert survives an empty payload and still narrows the detailed forecast to span 1 |
| WeatherFrames.CurrentAlerts | nws_weather_ctk/frames/weather.py:39-40 | corrected: an event is listed exactly when a current alert with that event matches the county |
| WeatherFrames.CurrentAlertsSpan | nws_weather_ctk/frames/weather.py:52-61 | corrected: the span is 1 exactly when some current alert matches the county |
| WeatherFrames.HourlyForecastFrame.constructor | nws_weather_ctk/frames/weather.py:80 | the alert list starts empty |
| WeatherFrames.HourlyForecastFrame.Refresh | nws_weather_ctk/frames/weather.py:116-121 | appends every entry's event in dictionary order, or clears the list when there are no alerts |
| WeatherFrames.IconFrame.constructor | nws_weather_ctk/frames/weather.py:125-127 | a new icon frame holds no labels yet |
| WeatherFrames.IconFrame.Refresh | nws_weather_ctk/frames/weather.py:150-175 | raises exactly when a forecast or period 0 is missing or no emoji fits. Otherwise it holds the high/low label of the day's temperatures, the chosen emoji, and the current temperature and forecast |
| WeatherFrames.DetailedForecastFrame.constructor | nws_weather_ctk/frames/weather.py:179-181 | a new frame holds no text yet |
| WeatherFrames.DetailedForecastFrame.Refresh | nws_weather_ctk/frames/weather.py:213-214 | the text of detailed period 0; raises, leaving the text, when there is none |
| WeatherFrames.ActiveAlertsTextSpec | nws_weather_ctk/frames/weather.py:254-261 | the text is `No Active Alerts` exactly when there are no alerts, and otherwise starts with the header |
| WeatherFrames.ActiveAlertsFrame.constructor | nws_weather_ctk/frames/weather.py:222 | the text starts as `None` |
| WeatherFrames.ActiveAlertsFrame.Refresh | nws_weather_ctk/frames/weather.py:254-261 | the text is the header plus one block per alert, or the notice |
| WeatherFrames.Render | nws_weather_ctk/frames/weather.py:42-66 | the four frames render exactly when the icon frame can be built and there is a detailed period; the page is then the layout `Screen`: the icon, the alert names, the alert text only when there are alerts, the detailed text, and span 1 exactly when there are alerts |
| WeatherFrames.WeatherFrame.constructor | nws_weather_ctk/frames/weather.py:7-14 | no payloads, and an empty alert dictionary |
| WeatherFrames.WeatherFrame.Refresh | nws_weather_ctk/frames/weather.py:69-72 | the three payloads are copied from the application's data |
| WeatherFrames.WeatherFrame.CheckForAlerts | nws_weather_ctk/frames/weather.py:16-32 | the filtered dictionary of the stored payload; raises without one |
| WeatherFrames.WeatherFrame.DisplayElements | nws_weather_ctk/frames/weather.py:35-66 | copies the payloads, keeps the alerts as written (`AlertsAfterDisplay`: recomputed only from a non-empty payload), and renders as `Render` says; raises without an alerts payload |
| WeeklyFrames.DailyView | nws_weather_ctk/frames/weekly.py:27-29 | a period can be shown exactly when it exists and has an emoji; its label is the period's name, temperature and short forecast |
| WeeklyFrames.DailyForecastFrame.constructor | nws_weather_ctk/frames/weekly.py:7-9 | a new frame holds no labels yet |
| WeeklyFrames.DailyForecastFrame.Refresh | nws_weather_ctk/frames/weekly.py:27-29 | the frame shows the period's view, or raises and keeps its labels |
| WeeklyFrames.DailyForecastFrame.Update | nws_weather_ctk/frames/weekly.py:32-35 | the same view as refresh, a function of the arguments alone, so repeating it changes nothing |
| WeeklyFrames.DailyViews | nws_weather_ctk/frames/weekly.py:56-58 | the view of every period, by index |
| WeeklyFrames.WeekSpec | nws_weather_ctk/frames/weekly.py:44-59 | period 0 is always shown. There is one frame per period named like period 0 or a weekday, in column = period index and increasing order. The page fails exactly when one of them has no emoji |
| WeeklyFrames.WeeklyForecastFrame.constructor | nws_weather_ctk/frames/weekly.py:39-41 | no payload, no daily frame |
| WeeklyFrames.WeeklyForecastFrame.ShowWeeklyForecast | nws_weather_ctk/frames/weekly.py:44-59 | raises on a missing or empty payload; otherwise places the frames as `WeekSpec` describes and keeps the last one |
| WeeklyFrames.WeeklyForecastFrame.Update | nws_weather_ctk/frames/weekly.py:61-63 | stores the given payload |
| RootFrames.Project | frames.py:24-27 | each entry keeps its key, description and instruction |
| RootFrames.ProjectPut | frames.py:24-27 | storing the reduced entry is the same as reducing after storing the full one |
| RootFrames.RootMatchesKeys | frames.py:16-28 | an event is a key exactly when a matching alert has it; keys are distinct; the dictionary is non-empty exactly when some alert matches |
| RootFrames.CheckForAlerts | frames.py:11-28 | the dictionary with the keys and order of the later revision, without `event`; empty for no features; raises without a payload |
| RootFrames.HourlyAlertNames | frames.py:97-108 | the names are exactly the matching events, with no repeats (their order is that of a Python set, unspecified) |
| RootFrames.ShowIcon | frames.py:127-164 | raises exactly when a forecast or period 0 is missing or no emoji fits; otherwise emoji, current temperature, high/low label and forecast |
| RootFrames.ShowDetailedForecast | frames.py:190-196 | the text of detailed period 0; raises when there is none |
| RootFrames.ShowActiveAlerts | frames.py:282-288 | the header followed by one block per entry, in dictionary order |
| RootFrames.DailyOf | frames.py:219-228 | a period can be shown exactly when it exists and has an emoji; its label ends with `Forecast: {shortForecast}` |
| RootFrames.ShowDailyForecast | frames.py:219-229 | nothing is drawn when the payload or the period is missing; raises for a bad index or no emoji |
| RootFrames.DailyViews | frames.py:248-254 | the view of every period, by index |
| RootFrames.Tiles | frames.py:246-256 | the k-th shown period goes in column k |
| RootFrames.TilesAppend | frames.py:251-256 | one more shown period takes the next free column |
| RootFrames.ShowWeeklyForecast | frames.py:242-256 | raises without a payload; otherwise the shown periods in consecutive columns, or raises when one of them has no emoji |
| RootFrames.WeeklyTiles | frames.py:246-256 | tile k is in column k and shows the k-th selected period, so columns run 0..k-1 without gaps |
| RootFrames.DisplayWeather | frames.py:36-64 | renders exactly when the icon can be built, there is an alerts payload and a detailed period. The alerts frame appears, and the detailed frame moves to column 1 with span 1, exactly when some alert matches; otherwise column 0 and span 2. The alert names are exactly the matching events |
| LocationConfig.StripCountySpec | config.py:26-27 | a county name without ` County` is kept. The first ` County` after such a name is dropped and the rest is stripped in turn, so `X County` becomes `X` and `X County Y County` becomes `X Y` |
| LocationConfig.Built | config.py:6-45 | a record has exactly the nine keys, including those the fetchers need, with city and postal code as given; it fails with `NoGeocodeResult` exactly when the geocode answer is empty |
| LocationConfig.BuiltSpec | config.py:14-45 | a record carries the first geocode result, the stripped county, the abbreviated state and the grid point, and its grid coordinates read back as the integers. It fails exactly at the first missing piece, in the order the code reads them (no address, no county, no state, no grid properties, unknown state). It succeeds exactly when nothing is missing |
| LocationConfig.ConfigFile.constructor | config.py:48-49 | the file holds the given record |
| LocationConfig.ConfigFile.Update | config.py:6-50 | assembles the record key by key. On success the whole file is replaced by it; on failure the file is unchanged |
| WeatherApp.CheckOutcome | nws_weather_ctk.py:83-100 | false exactly when the fresh forecast has no first period; an exception exactly when it has one but the stored one does not; true in every other case, changed or not |
| WeatherApp.App.constructor | nws_weather_ctk.py:55-58 | no payloads yet |
| WeatherApp.App.UpdateForecastData | nws_weather_ctk.py:73-80 | all three payloads are overwritten |
| WeatherApp.App.CheckForUpdates | nws_weather_ctk.py:83-100 | the outcome is `CheckOutcome`; the payloads are refetched exactly when the first detailed period's temperature or short forecast changed, and are otherwise untouched |
| WeatherApp.App.ShowWeather | nws_weather_ctk.py:174-184 | the page is drawn when the check returns true and the payloads can be rendered, and only then; nothing is drawn when the check returns false, and an exception in the check propagates. The payloads are refetched exactly as `CheckForUpdates` says. A drawn page has the detailed text of the first period, sits in column 1 with span 1 exactly when an alert matches the county (else column 0, span 2), shows the alert header and lines exactly then, and lists as hourly alert names exactly the events of matching alerts |
| WeatherApp.App.ShowWeeklyForecast | nws_weather_ctk.py:187-197 | the same gate for the 7-day page: it is drawn when the check returns true and every selected period has an emoji, and then shows the selected periods of the stored detailed forecast in consecutive columns. The payloads change exactly as in `CheckForUpdates` |
| WeatherApp.UnchangedKeepsPayloads | nws_weather_ctk.py:93-100 | an unchanged first period returns true without refetching |

## Left out

- HTTP requests, YAML files, `time.sleep` and the logger are not modelled. Responses are parameters. The emoji table, the state-abbreviation table and the configured county are inputs.
- The fetchers retry by recursion (`nws_weather_ctk/utils/data.py:25,31`, and the same pattern at `:51,57` and `:77,83`). After about a thousand consecutive failures, Python's recursion limit ends the run with a `RecursionError`, which propagates out of `check_for_updates`. The model follows the retries over a finite list of attempts and reports `Exhausted` for a run in which every modelled attempt fails. `Exhausted` stands for that `RecursionError`; the exact depth at which it occurs is not modelled.
- The lock, the threading event and the `after` rescheduling are not modelled. Nor is `nws_weather_ctk/app.py`, which hands data between threads. The thread's event is the boolean field `eventSet`.
- `get_week`, `is_weekday`, `get_day_of_week` and `load_config`: `nws_weather_ctk/frames/weather.py:2` imports them from `nws_weather_ctk/utils/config.py`, which is not part of this model. The root `frames.py:2` imports the first three from the root `config.py`, which does not define them in this revision; it defines only `update`. The week's dates and the "is today" test are the parameter `Calendar`.
- The humidity, wind, precipitation and dew-point label of the hourly frames is not modelled. Its dew point is converted from Celsius with floating-point rounding. The location label (`{city}, {state}`) is not modelled either.
- Widget creation, packing and grid calls, the hide/show buttons, themes and the window icon are not modelled. Only the texts, columns and spans they would display are.
- `main.py`, `nws_weather_ctk/frames/hourly.py` (plotting), `nws_weather_ctk/frames/settings.py`, `nws_weather_ctk/frames/input.py`, the root `data.py` and the menu and input handling of `nws_weather_ctk.py` are left out.
- `str.lower` is modelled on ASCII letters only, with no Unicode case mapping.
- WeatherApp.App.CheckForUpdates: a request that raises inside `update_forecast_data` is not modelled; the refetched payloads are inputs.
- WeeklyFrames.WeeklyForecastFrame.Update: the call back into the application's `check_for_updates` is not modelled.
- RootFrames.HourlyAlertNames: the order of the names comes from a Python set and is not specified; only membership and the absence of repeats are stated.
- Payloads hold only the fields the logic reads. A payload whose expected key is missing is `None`, and other malformed JSON is not modelled.

## Findings

| source | as written | input that shows it | evidently intended | confidence | as-written member | corrected member |
|---|---|---|---|---|---|---|
| nws_weather_ctk/frames/weather.py:39-40 | `self.alerts` is recomputed only when the alerts payload has at least one feature, and the application redraws the same `WeatherFrame` after every update (`nws_weather_ctk/app.py:105-107`) | a frame showing a `Flood Warning` for the county, then a payload with an empty `features` list: the warning is still listed and the detailed forecast keeps span 1 | the alerts of the current payload, empty when it has no features | medium, not executed | WeatherFrames.StaleAlertsSurvive | WeatherFrames.CurrentAlerts |

`WeatherFrames.AlertsAfterDisplay` states the rule as written, and `WeatherFrames.WeatherFrame.DisplayElements` follows it. `WeatherFrames.CurrentAlertsSpan` proves that, under the corrected rule, the alerts frame is shown exactly when some current alert matches.
