/** The domain model of a fetched forecast (domain/model/Weather.kt). */
module Domain {
  import opened Wrappers

  /** Conditions at observation time; temperatures, humidity and amounts are `Double`s in the app. */
  datatype Current = Current(
    temperature: real,
    humidity: real,
    precipitation: real,
    rain: real,
    apparentTemperature: real,
    weatherCode: int)

  /** Hourly series; the app keeps the two lists as received and does not check their lengths. */
  datatype Hourly = Hourly(temperature: seq<real>, weatherCode: seq<int>)

  /** Daily series; sunrise and sunset are ISO-8601 local date-time strings. */
  datatype Daily = Daily(weatherCode: seq<int>, sunrise: seq<string>, sunset: seq<string>)

  /** One forecast snapshot; each block is absent when the API omitted it. */
  datatype Weather = Weather(
    latitude: real,
    longitude: real,
    current: Option<Current>,
    hourly: Option<Hourly>,
    daily: Option<Daily>,
    timezone: string,
    timezoneAbbreviation: string)
}
