/**
 * Forecast fetching and alert filtering (`nws_weather_ctk/utils/data.py`).
 *
 * Each fetcher first builds its URL from the location configuration; a
 * missing key makes the fetcher return nothing without any request.
 * Otherwise it requests the URL again and again until a response carries
 * the expected top-level key.  The requests are modelled by a finite
 * sequence of attempts; the configuration is the key/value record that
 * `config.py` writes.
 */
module Data {
  import opened Wrappers
  import opened Text
  import opened OrderedDict
  import opened Payloads

  type Config = map<string, string>

  const ApiBase := "https://api.weather.gov"

  /** What a fetcher returns: nothing for an incomplete configuration, or the payload. */
  datatype Fetched<T> =
    | NotConfigured      // the source returns None
    | Exhausted          // every modelled attempt failed; the source would still be retrying
    | Got(payload: T)

  // ---------------------------------------------------------------- URLs

  /** The forecast URLs need `office`, `gridX` and `gridY`. */
  predicate HasGridKeys(config: Config)
  {
    "office" in config && "gridX" in config && "gridY" in config
  }

  /** The alerts URL needs `state`. */
  predicate HasStateKey(config: Config)
  {
    "state" in config
  }

  /** `/gridpoints/{office}/{gridX},{gridY}/forecast` */
  function DetailedUrl(config: Config): (url: string)
    requires HasGridKeys(config)
    ensures ApiBase + "/gridpoints/" <= url
    ensures url[|url| - |"/forecast"|..] == "/forecast"
  {
    ApiBase + "/gridpoints/" + config["office"] + "/" + config["gridX"] + "," + config["gridY"] + "/forecast"
  }

  /** `/gridpoints/{office}/{gridX},{gridY}/forecast/hourly`: the detailed URL with `/hourly` appended. */
  function HourlyUrl(config: Config): (url: string)
    requires HasGridKeys(config)
    ensures url == DetailedUrl(config) + "/hourly"
  {
    ApiBase + "/gridpoints/" + config["office"] + "/" + config["gridX"] + "," + config["gridY"] + "/forecast/hourly"
  }

  /** `/alerts/active?area={state}` */
  function AlertsUrl(config: Config): (url: string)
    requires HasStateKey(config)
    ensures ApiBase + "/alerts/active?area=" <= url
    ensures url[|ApiBase + "/alerts/active?area="|..] == config["state"]
  {
    ApiBase + "/alerts/active?area=" + config["state"]
  }

  // ------------------------------------------------------- retry until key

  /** No attempt in `attempts` carries the key. */
  predicate NoneCarry<T>(attempts: seq<Attempt<T>>)
  {
    forall i :: 0 <= i < |attempts| ==> !attempts[i].Carries?
  }

  /** The payload of the first attempt that carries the key, if any. */
  function FirstPayload<T>(attempts: seq<Attempt<T>>): Option<T>
  {
    if |attempts| == 0 then None
    else if attempts[0].Carries? then Some(attempts[0].payload)
    else FirstPayload(attempts[1..])
  }

  /**
   * The retry result is the payload of an attempt that carries the key and is
   * preceded only by attempts that raised or lacked the key; there is none
   * exactly when no attempt carries the key.
   */
  lemma {:induction false} FirstPayloadIsFirstCarrier<T>(attempts: seq<Attempt<T>>)
    ensures FirstPayload(attempts).None? <==> NoneCarry(attempts)
    ensures FirstPayload(attempts).Some? ==>
      exists i :: 0 <= i < |attempts| && attempts[i] == Carries(FirstPayload(attempts).value) && NoneCarry(attempts[..i])
  {
    if |attempts| > 0 {
      if attempts[0].Carries? {
        assert NoneCarry(attempts[..0]);
      } else {
        FirstPayloadIsFirstCarrier(attempts[1..]);
        if FirstPayload(attempts[1..]).Some? {
          var i :| 0 <= i < |attempts[1..]| && attempts[1..][i] == Carries(FirstPayload(attempts).value)
                   && NoneCarry(attempts[1..][..i]);
          assert attempts[i + 1] == attempts[1..][i];
          assert attempts[..i + 1] == [attempts[0]] + attempts[1..][..i];
        } else {
          assert forall i :: 1 <= i < |attempts| ==> attempts[i] == attempts[1..][i - 1];
        }
      }
    }
  }

  /** Failed attempts in front of the others are skipped. */
  lemma {:induction false} FailuresSkipped<T>(failures: seq<Attempt<T>>, rest: seq<Attempt<T>>)
    requires NoneCarry(failures)
    ensures FirstPayload(failures + rest) == FirstPayload(rest)
  {
    if |failures| > 0 {
      assert (failures + rest)[1..] == failures[1..] + rest;
      FailuresSkipped(failures[1..], rest);
    } else {
      assert failures + rest == rest;
    }
  }

  /**
   * Requests `url` once per attempt until one carries the key; `requests`
   * lists the URLs requested.
   */
  method FetchUntilKey<T>(url: string, attempts: seq<Attempt<T>>) returns (r: Option<T>, requests: seq<string>)
    ensures r == FirstPayload(attempts)
    ensures |requests| <= |attempts| && forall k :: 0 <= k < |requests| ==> requests[k] == url
    ensures r.Some? ==> 0 < |requests| && attempts[|requests| - 1] == Carries(r.value)
    ensures r.Some? ==> forall k :: 0 <= k < |requests| - 1 ==> !attempts[k].Carries?
    ensures r.None? ==> |requests| == |attempts|
  {
    requests := [];
    var i := 0;
    while i < |attempts|
      invariant 0 <= i <= |attempts|
      invariant |requests| == i && forall k :: 0 <= k < i ==> requests[k] == url
      invariant forall k :: 0 <= k < i ==> !attempts[k].Carries?
      invariant FirstPayload(attempts) == FirstPayload(attempts[i..])
    {
      requests := requests + [url];
      assert attempts[i..][1..] == attempts[i + 1..];
      if attempts[i].Carries? {
        return Some(attempts[i].payload), requests;
      }
      i := i + 1;
    }
    r := None;
  }

  /** `hourly_forecast(config)` */
  method HourlyForecast(config: Config, attempts: seq<Attempt<ForecastData>>)
    returns (r: Fetched<ForecastData>, requests: seq<string>)
    ensures !HasGridKeys(config) ==> r == NotConfigured && requests == []
    ensures HasGridKeys(config) ==>
      && r == (if FirstPayload(attempts).Some? then Got(FirstPayload(attempts).value) else Exhausted)
      && (forall k :: 0 <= k < |requests| ==> requests[k] == HourlyUrl(config))
      && (r.Got? ==> 0 < |requests| <= |attempts| && attempts[|requests| - 1] == Carries(r.payload))
      && (r.Got? ==> forall k :: 0 <= k < |requests| - 1 ==> !attempts[k].Carries?)
      && (r == Exhausted ==> |requests| == |attempts|)
  {
    if !HasGridKeys(config) {
      return NotConfigured, [];
    }
    var p;
    p, requests := FetchUntilKey(HourlyUrl(config), attempts);
    r := if p.Some? then Got(p.value) else Exhausted;
  }

  /** `detailed_forecast(config)` */
  method DetailedForecast(config: Config, attempts: seq<Attempt<ForecastData>>)
    returns (r: Fetched<ForecastData>, requests: seq<string>)
    ensures !HasGridKeys(config) ==> r == NotConfigured && requests == []
    ensures HasGridKeys(config) ==>
      && r == (if FirstPayload(attempts).Some? then Got(FirstPayload(attempts).value) else Exhausted)
      && (forall k :: 0 <= k < |requests| ==> requests[k] == DetailedUrl(config))
      && (r.Got? ==> 0 < |requests| <= |attempts| && attempts[|requests| - 1] == Carries(r.payload))
      && (r.Got? ==> forall k :: 0 <= k < |requests| - 1 ==> !attempts[k].Carries?)
      && (r == Exhausted ==> |requests| == |attempts|)
  {
    if !HasGridKeys(config) {
      return NotConfigured, [];
    }
    var p;
    p, requests := FetchUntilKey(DetailedUrl(config), attempts);
    r := if p.Some? then Got(p.value) else Exhausted;
  }

  /** `active_alerts(config)` */
  method ActiveAlerts(config: Config, attempts: seq<Attempt<AlertsData>>)
    returns (r: Fetched<AlertsData>, requests: seq<string>)
    ensures !HasStateKey(config) ==> r == NotConfigured && requests == []
    ensures HasStateKey(config) ==>
      && r == (if FirstPayload(attempts).Some? then Got(FirstPayload(attempts).value) else Exhausted)
      && (forall k :: 0 <= k < |requests| ==> requests[k] == AlertsUrl(config))
      && (r.Got? ==> 0 < |requests| <= |attempts| && attempts[|requests| - 1] == Carries(r.payload))
      && (r.Got? ==> forall k :: 0 <= k < |requests| - 1 ==> !attempts[k].Carries?)
      && (r == Exhausted ==> |requests| == |attempts|)
  {
    if !HasStateKey(config) {
      return NotConfigured, [];
    }
    var p;
    p, requests := FetchUntilKey(AlertsUrl(config), attempts);
    r := if p.Some? then Got(p.value) else Exhausted;
  }

  // -------------------------------------------------------- alert filtering

  /** The value stored per matching event. */
  datatype AlertEntry = AlertEntry(description: string, instruction: Option<string>, event: string)

  /** An alert concerns the configured county when its area description contains the county name. */
  predicate InCounty(alert: Alert, county: string)
  {
    Contains(alert.areaDesc, county)
  }

  function EntryOf(alert: Alert): AlertEntry
  {
    AlertEntry(alert.description, alert.instruction, alert.event)
  }

  /** The dictionary `filter_alerts` builds from `features`, one alert at a time. */
  function Filtered(features: seq<Alert>, county: string): Dict<string, AlertEntry>
  {
    if |features| == 0 then []
    else
      var before := Filtered(features[..|features| - 1], county);
      var alert := features[|features| - 1];
      if InCounty(alert, county) then Put(before, alert.event, EntryOf(alert)) else before
  }

  /** The events of the matching alerts, in `features` order, repeats included. */
  function MatchingEvents(features: seq<Alert>, county: string): seq<string>
  {
    if |features| == 0 then []
    else
      var alert := features[|features| - 1];
      MatchingEvents(features[..|features| - 1], county) + if InCounty(alert, county) then [alert.event] else []
  }

  /** The first occurrence of each element, in order. */
  function Dedup(s: seq<string>): seq<string>
  {
    if |s| == 0 then []
    else
      var before := Dedup(s[..|s| - 1]);
      if s[|s| - 1] in before then before else before + [s[|s| - 1]]
  }

  /** `filter_alerts(active_alerts_data)`, with the configured county passed in. */
  method FilterAlerts(alertsData: AlertsData, county: string) returns (matches: Dict<string, AlertEntry>)
    ensures matches == Filtered(alertsData.features, county)
    ensures |alertsData.features| == 0 ==> matches == []
  {
    var features := alertsData.features;
    matches := [];
    var i := 0;
    while i < |features|
      invariant 0 <= i <= |features|
      invariant matches == Filtered(features[..i], county)
    {
      var alert := features[i];
      assert features[..i + 1][..i] == features[..i];
      if Contains(alert.areaDesc, county) {
        matches := Put(matches, alert.event, EntryOf(alert));
      }
      i := i + 1;
    }
    assert features[..|features|] == features;
  }

  /** An event is a key exactly when some alert with that event matches the county. */
  lemma {:induction false} FilteredKeys(features: seq<Alert>, county: string, event: string)
    ensures event in ToMap(Filtered(features, county)) <==>
      exists i :: 0 <= i < |features| && InCounty(features[i], county) && features[i].event == event
  {
    if |features| > 0 {
      var n := |features| - 1;
      var before := features[..n];
      FilteredKeys(before, county, event);
      if InCounty(features[n], county) {
        PutToMap(Filtered(before, county), features[n].event, EntryOf(features[n]));
      }
      if exists i :: 0 <= i < |features| && InCounty(features[i], county) && features[i].event == event {
        var i :| 0 <= i < |features| && InCounty(features[i], county) && features[i].event == event;
        if i < n { assert before[i] == features[i]; }
      }
      if exists i :: 0 <= i < |before| && InCounty(before[i], county) && before[i].event == event {
        var i :| 0 <= i < |before| && InCounty(before[i], county) && before[i].event == event;
        assert features[i] == before[i];
      }
    }
  }

  /** The dictionary is non-empty exactly when some alert matches the county. */
  lemma {:induction false} FilteredNonEmpty(features: seq<Alert>, county: string)
    ensures |Filtered(features, county)| > 0 <==> exists i :: 0 <= i < |features| && InCounty(features[i], county)
  {
    var d := Filtered(features, county);
    if |d| > 0 {
      ToMapKeys(d, d[0].0);
      assert Keys(d)[0] == d[0].0;
      FilteredKeys(features, county, d[0].0);
    }
    if exists i :: 0 <= i < |features| && InCounty(features[i], county) {
      var i :| 0 <= i < |features| && InCounty(features[i], county);
      FilteredKeys(features, county, features[i].event);
      ToMapKeys(d, features[i].event);
    }
  }

  /** An event is listed exactly when some alert with that event matches the county. */
  lemma {:induction false} MatchingEventsSpec(features: seq<Alert>, county: string, event: string)
    ensures event in MatchingEvents(features, county) <==>
      exists i :: 0 <= i < |features| && InCounty(features[i], county) && features[i].event == event
  {
    if |features| > 0 {
      var n := |features| - 1;
      var before := features[..n];
      MatchingEventsSpec(before, county, event);
      if exists i :: 0 <= i < |features| && InCounty(features[i], county) && features[i].event == event {
        var i :| 0 <= i < |features| && InCounty(features[i], county) && features[i].event == event;
        if i < n { assert before[i] == features[i]; }
      }
      if exists i :: 0 <= i < |before| && InCounty(before[i], county) && before[i].event == event {
        var i :| 0 <= i < |before| && InCounty(before[i], county) && before[i].event == event;
        assert features[i] == before[i];
      }
    }
  }

  /**
   * Last write wins: the entry stored for an event comes from the last
   * matching alert with that event, and copies its description, instruction
   * and event unchanged.
   */
  lemma {:induction false} FilteredLastWins(features: seq<Alert>, county: string, i: nat)
    requires i < |features| && InCounty(features[i], county)
    requires forall j :: i < j < |features| && InCounty(features[j], county) ==> features[j].event != features[i].event
    ensures features[i].event in ToMap(Filtered(features, county))
    ensures ToMap(Filtered(features, county))[features[i].event] == EntryOf(features[i])
  {
    var n := |features| - 1;
    var before := features[..n];
    var last := features[n];
    if InCounty(last, county) {
      PutToMap(Filtered(before, county), last.event, EntryOf(last));
    }
    if i < n {
      assert before[i] == features[i];
      FilteredLastWins(before, county, i);
    }
  }

  /** Every entry's `event` field equals its key, and no key repeats. */
  lemma {:induction false} FilteredWellFormed(features: seq<Alert>, county: string)
    ensures DistinctKeys(Filtered(features, county))
    ensures forall k :: 0 <= k < |Filtered(features, county)| ==>
      Filtered(features, county)[k].1.event == Filtered(features, county)[k].0
  {
    if |features| > 0 {
      var n := |features| - 1;
      var before := Filtered(features[..n], county);
      FilteredWellFormed(features[..n], county);
      var last := features[n];
      if InCounty(last, county) {
        PutDistinct(before, last.event, EntryOf(last));
        PutEntries(before, last.event, EntryOf(last));
        var d := Put(before, last.event, EntryOf(last));
        forall k | 0 <= k < |d| ensures d[k].1.event == d[k].0 {
          if d[k] in before {
            var m :| 0 <= m < |before| && before[m] == d[k];
          }
        }
      }
    }
  }

  /** The keys, in dictionary order, are the matching events in order of first appearance. */
  lemma {:induction false} FilteredOrder(features: seq<Alert>, county: string)
    ensures Keys(Filtered(features, county)) == Dedup(MatchingEvents(features, county))
  {
    if |features| > 0 {
      var n := |features| - 1;
      var last := features[n];
      FilteredOrder(features[..n], county);
      var ev := MatchingEvents(features, county);
      if InCounty(last, county) {
        PutKeys(Filtered(features[..n], county), last.event, EntryOf(last));
        assert ev[..|ev| - 1] == MatchingEvents(features[..n], county);
      } else {
        assert ev == MatchingEvents(features[..n], county);
      }
    }
  }

  /** Dedup keeps every element once and invents none. */
  lemma {:induction false} DedupSpec(s: seq<string>)
    ensures forall x :: x in Dedup(s) <==> x in s
    ensures forall i, j :: 0 <= i < j < |Dedup(s)| ==> Dedup(s)[i] != Dedup(s)[j]
  {
    if |s| > 0 {
      DedupSpec(s[..|s| - 1]);
      assert s == s[..|s| - 1] + [s[|s| - 1]];
    }
  }
}
