/**
 * The location record of `config.py`: `update(city, postalCode)` asks a
 * geocoding service for the postal code, a reverse-geocoding service for
 * the coordinates and the weather service's `points` endpoint for the grid,
 * then writes the whole record.  The three services are functions from the
 * requested URL to the decoded response, and the state-abbreviation file is
 * a map.  A Python exception (an empty list, a missing key) is an `Err`
 * naming the step that raised.
 */
module LocationConfig {
  import opened Wrappers
  import opened Text
  import Data

  datatype GeocodeResult = GeocodeResult(lat: string, lon: string)
  /** `reverse_geocode_data['address']`, whose keys may be missing. */
  datatype Address = Address(county: Option<string>, state: Option<string>)
  /** `points_data['properties']`. */
  datatype GridPoint = GridPoint(gridId: string, gridX: int, gridY: int)

  /** The three services, as functions of the requested URL. */
  datatype Services = Services(
    geocode: string -> seq<GeocodeResult>,
    reverse: string -> Option<Address>,
    points: string -> Option<GridPoint>)

  datatype ConfigError =
    | NoGeocodeResult     // `geocode_data[0]` on an empty list
    | MissingAddress
    | MissingCounty
    | MissingState
    | MissingProperties
    | UnknownState        // the state name is not in the abbreviation table

  datatype ConfigResult = Ok(config: Data.Config) | Err(error: ConfigError)

  function GeocodeUrl(postalCode: string): string
  {
    "https://geocode.maps.co/search?postalcode=" + postalCode
  }

  function ReverseUrl(lat: string, lon: string): string
  {
    "https://geocode.maps.co/reverse?lat=" + lat + "&lon=" + lon
  }

  function PointsUrl(lat: string, lon: string): string
  {
    Data.ApiBase + "/points/" + lat + "," + lon
  }

  const CountySuffix := " County"

  /** Every ` County` is removed from a county name that contains one. */
  function StripCounty(county: string): string
  {
    if Contains(county, CountySuffix) then RemoveAll(county, CountySuffix) else county
  }

  /**
   * A county name without ` County` is kept.  Otherwise the first
   * ` County` after such a name is dropped and the rest is stripped in
   * turn, so `"X County"` gives `"X"` and `"X County Y County"` gives `"X Y"`.
   */
  lemma StripCountySpec(name: string, rest: string)
    ensures !Contains(name, CountySuffix) ==> StripCounty(name) == name
    ensures !Contains(name, CountySuffix) ==> StripCounty(name + CountySuffix) == name
    ensures !Contains(name, CountySuffix) ==>
      StripCounty(name + CountySuffix + rest) == name + RemoveAll(rest, CountySuffix)
    ensures !Contains(name, CountySuffix) && !Contains(rest, CountySuffix) ==>
      StripCounty(name + CountySuffix + rest + CountySuffix) == name + rest
  {
    if !Contains(name, CountySuffix) {
      assert StripCounty(name + CountySuffix) == name by {
        StripAfterName(name, "");
        assert name + CountySuffix + "" == name + CountySuffix;
      }
      StripAfterName(name, rest);
      if !Contains(rest, CountySuffix) {
        assert StripCounty(name + CountySuffix + rest + CountySuffix) == name + rest by {
          StripAfterName(name, rest + CountySuffix);
          assert name + CountySuffix + rest + CountySuffix == name + CountySuffix + (rest + CountySuffix);
          assert CountySuffix[0] !in CountySuffix[1..] by { assert CountySuffix[1..] == "County"; }
          RemoveAllTrailing(rest, CountySuffix);
        }
      }
    }
  }

  /** The first ` County` after a name without one is where stripping starts. */
  lemma StripAfterName(name: string, rest: string)
    requires !Contains(name, CountySuffix)
    ensures StripCounty(name + CountySuffix + rest) == name + RemoveAll(rest, CountySuffix)
  {
    var full := name + CountySuffix + rest;
    assert full[|name|..|name| + |CountySuffix|] == CountySuffix;
    assert OccursAt(CountySuffix, full, |name|);
    assert CountySuffix[1..] == "County";
    NoOccurrenceBefore(name, CountySuffix, rest);
    RemoveAllFirst(full, CountySuffix, |name|);
    assert full[..|name|] == name;
    assert full[|name| + |CountySuffix|..] == rest;
  }

  /** The nine keys of a written record. */
  const RecordKeys: set<string> := {"city", "postalCode", "latitude", "longitude", "county", "state", "office", "gridX", "gridY"}

  /** The record `update` writes, or the step that raised. */
  function Built(city: string, postalCode: string, services: Services, table: map<string, string>): (r: ConfigResult)
    ensures r.Ok? ==> r.config.Keys == RecordKeys && Data.HasGridKeys(r.config) && Data.HasStateKey(r.config)
    ensures r.Ok? ==> r.config["city"] == city && r.config["postalCode"] == postalCode
    ensures (r == Err(NoGeocodeResult)) <==> |services.geocode(GeocodeUrl(postalCode))| == 0
  {
    var geocode := services.geocode(GeocodeUrl(postalCode));
    if |geocode| == 0 then Err(NoGeocodeResult)
    else
      var lat, lon := geocode[0].lat, geocode[0].lon;
      match services.reverse(ReverseUrl(lat, lon))
      case None => Err(MissingAddress)
      case Some(address) =>
        if address.county.None? then Err(MissingCounty)
        else if address.state.None? then Err(MissingState)
        else
          match services.points(PointsUrl(lat, lon))
          case None => Err(MissingProperties)
          case Some(grid) =>
            if address.state.value !in table then Err(UnknownState)
            else
              Ok(map["city" := city, "postalCode" := postalCode, "latitude" := lat, "longitude" := lon,
                     "county" := StripCounty(address.county.value), "state" := table[address.state.value],
                     "office" := grid.gridId, "gridX" := IntToString(grid.gridX), "gridY" := IntToString(grid.gridY)])
  }

  /**
   * A written record holds the first geocode result, the stripped county,
   * the abbreviated state and the grid point, whose coordinates read back
   * as the same integers.  It fails exactly at the first missing piece,
   * in the order the source reads them, and succeeds when nothing is missing.
   */
  lemma BuiltSpec(city: string, postalCode: string, services: Services, table: map<string, string>)
    ensures var r := Built(city, postalCode, services, table);
      var geocode := services.geocode(GeocodeUrl(postalCode));
      r.Ok? ==>
        && |geocode| > 0
        && r.config["latitude"] == geocode[0].lat && r.config["longitude"] == geocode[0].lon
        && var address := services.reverse(ReverseUrl(geocode[0].lat, geocode[0].lon));
           var grid := services.points(PointsUrl(geocode[0].lat, geocode[0].lon));
           && address.Some? && address.value.county.Some? && address.value.state.Some? && grid.Some?
           && address.value.state.value in table
           && r.config["county"] == StripCounty(address.value.county.value)
           && r.config["state"] == table[address.value.state.value]
           && r.config["office"] == grid.value.gridId
           && ParseInt(r.config["gridX"]) == grid.value.gridX
           && ParseInt(r.config["gridY"]) == grid.value.gridY
    ensures var r := Built(city, postalCode, services, table);
      var geocode := services.geocode(GeocodeUrl(postalCode));
      |geocode| > 0 && services.reverse(ReverseUrl(geocode[0].lat, geocode[0].lon)).Some? ==>
        var address := services.reverse(ReverseUrl(geocode[0].lat, geocode[0].lon)).value;
        && (r == Err(MissingCounty) <==> address.county.None?)
        && (r == Err(UnknownState) <==> address.county.Some? && address.state.Some?
                                         && services.points(PointsUrl(geocode[0].lat, geocode[0].lon)).Some?
                                         && address.state.value !in table)
        && (r == Err(MissingState) <==> address.county.Some? && address.state.None?)
        && (r == Err(MissingProperties) <==> address.county.Some? && address.state.Some?
                                              && services.points(PointsUrl(geocode[0].lat, geocode[0].lon)).None?)
        && (r.Ok? <==> address.county.Some? && address.state.Some?
                       && services.points(PointsUrl(geocode[0].lat, geocode[0].lon)).Some?
                       && address.state.value in table)
    ensures var r := Built(city, postalCode, services, table);
      var geocode := services.geocode(GeocodeUrl(postalCode));
      |geocode| > 0 ==> (r == Err(MissingAddress) <==> services.reverse(ReverseUrl(geocode[0].lat, geocode[0].lon)).None?)
  {
    var r := Built(city, postalCode, services, table);
    if r.Ok? {
      var geocode := services.geocode(GeocodeUrl(postalCode));
      var grid := services.points(PointsUrl(geocode[0].lat, geocode[0].lon)).value;
      IntToStringRoundTrip(grid.gridX);
      IntToStringRoundTrip(grid.gridY);
    }
  }

  /** `config.yaml`: replaced as a whole when `update` gets through. */
  class ConfigFile {
    var contents: Data.Config

    constructor (contents: Data.Config)
      ensures this.contents == contents
    {
      this.contents := contents;
    }

    /** `update(city, postalCode)`: the record is assembled key by key, then written over the old file. */
    method Update(city: string, postalCode: string, services: Services, table: map<string, string>)
      returns (r: ConfigResult)
      modifies this
      ensures r == Built(city, postalCode, services, table)
      ensures r.Ok? ==> contents == r.config
      ensures r.Err? ==> contents == old(contents)
    {
      var config: Data.Config := map["city" := city, "postalCode" := postalCode];
      var geocodeData := services.geocode(GeocodeUrl(postalCode));
      if |geocodeData| == 0 {
        return Err(NoGeocodeResult);
      }
      var lat, lon := geocodeData[0].lat, geocodeData[0].lon;
      config := config["latitude" := lat]["longitude" := lon];

      var reverseData := services.reverse(ReverseUrl(lat, lon));
      if reverseData.None? {
        return Err(MissingAddress);
      }
      if reverseData.value.county.None? {
        return Err(MissingCounty);
      }
      var county := reverseData.value.county.value;
      config := config["county" := county];
      if reverseData.value.state.None? {
        return Err(MissingState);
      }
      var state := reverseData.value.state.value;
      config := config["state" := state];

      if Contains(county, CountySuffix) {
        county := RemoveAll(county, CountySuffix);
        config := config["county" := county];
      }

      var pointsData := services.points(PointsUrl(lat, lon));
      if pointsData.None? {
        return Err(MissingProperties);
      }
      var grid := pointsData.value;
      config := config["office" := grid.gridId]["gridX" := IntToString(grid.gridX)]["gridY" := IntToString(grid.gridY)];

      if state !in table {
        return Err(UnknownState);
      }
      config := config["state" := table[state]];
      assert config == map["city" := city, "postalCode" := postalCode, "latitude" := lat, "longitude" := lon,
                           "county" := StripCounty(reverseData.value.county.value), "state" := table[state],
                           "office" := grid.gridId, "gridX" := IntToString(grid.gridX), "gridY" := IntToString(grid.gridY)];

      contents := config;
      r := Ok(config);
    }
  }
}
