/**
 * The parts of the National Weather Service responses the application reads,
 * and the outcome of one HTTP attempt.
 */
module Payloads {
  import opened Wrappers

  /** One forecast period: an entry of `properties.periods`. */
  datatype Period = Period(
    name: string,
    startTime: string,
    temperature: int,
    isDaytime: bool,
    shortForecast: string,
    detailedForecast: string)

  /** A forecast response that carries its top-level `properties` key. */
  datatype ForecastData = ForecastData(periods: seq<Period>)

  /** One entry of `features[].properties` of the active-alerts response. */
  datatype Alert = Alert(areaDesc: string, event: string, description: string, instruction: Option<string>)

  /** An active-alerts response that carries its top-level `features` key. */
  datatype AlertsData = AlertsData(features: seq<Alert>)

  /**
   * One request to the service: it raised, it answered without the expected
   * top-level key, or it answered with it.
   */
  datatype Attempt<T> = Raised | Keyless | Carries(payload: T)
}
