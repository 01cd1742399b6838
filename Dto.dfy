/**
 * The wire schema of the forecast API response and its mapping into the
 * domain model (data/remote/dto/WeatherResponseDto.kt).
 */
module Dto {
  import opened Wrappers
  import opened Domain

  datatype CurrentDto = CurrentDto(
    temperature: real,           // temperature_2m
    humidity: real,              // relative_humidity_2m
    precipitation: real,
    rain: real,
    apparentTemperature: real,   // apparent_temperature
    weatherCode: int)            // weather_code

  datatype HourlyDto = HourlyDto(temperature: seq<real>, weatherCode: seq<int>)

  datatype DailyDto = DailyDto(weatherCode: seq<int>, sunrise: seq<string>, sunset: seq<string>)

  datatype WeatherResponseDto = WeatherResponseDto(
    latitude: real,
    longitude: real,
    current: Option<CurrentDto>,
    hourly: Option<HourlyDto>,
    daily: Option<DailyDto>,
    generationTimeMs: real,      // generationtime_ms
    utcOffsetSeconds: int,       // utc_offset_seconds
    timezone: string,
    timezoneAbbreviation: string,
    forecastDays: Option<int>)   // forecast_days, nullable

  // ---------------------------------------------------------------------
  // The mapper: `toUI` on each DTO

  function CurrentToUI(c: CurrentDto): Current {
    Current(c.temperature, c.humidity, c.precipitation, c.rain, c.apparentTemperature, c.weatherCode)
  }

  function HourlyToUI(h: HourlyDto): Hourly {
    Hourly(h.temperature, h.weatherCode)
  }

  function DailyToUI(d: DailyDto): Daily {
    Daily(d.weatherCode, d.sunrise, d.sunset)
  }

  /** `WeatherResponseDto.toUI`: optional blocks go through `?.`, so absence is kept. */
  function ToUI(d: WeatherResponseDto): Weather {
    Weather(
      d.latitude,
      d.longitude,
      match d.current case None => None case Some(c) => Some(CurrentToUI(c)),
      match d.hourly case None => None case Some(h) => Some(HourlyToUI(h)),
      match d.daily case None => None case Some(y) => Some(DailyToUI(y)),
      d.timezone,
      d.timezoneAbbreviation)
  }

  // ---------------------------------------------------------------------
  // What the mapper drops, and the reference inverse that puts it back

  /** The three wire fields that have no place in `Weather`. */
  datatype DroppedFields = DroppedFields(generationTimeMs: real, utcOffsetSeconds: int, forecastDays: Option<int>)

  function Dropped(d: WeatherResponseDto): DroppedFields {
    DroppedFields(d.generationTimeMs, d.utcOffsetSeconds, d.forecastDays)
  }

  /** Rebuilds a response from a snapshot and the dropped fields (a specification device). */
  function FromUI(w: Weather, x: DroppedFields): WeatherResponseDto {
    WeatherResponseDto(
      w.latitude,
      w.longitude,
      match w.current
        case None => None
        case Some(c) => Some(CurrentDto(c.temperature, c.humidity, c.precipitation, c.rain, c.apparentTemperature, c.weatherCode)),
      match w.hourly case None => None case Some(h) => Some(HourlyDto(h.temperature, h.weatherCode)),
      match w.daily case None => None case Some(y) => Some(DailyDto(y.weatherCode, y.sunrise, y.sunset)),
      x.generationTimeMs,
      x.utcOffsetSeconds,
      w.timezone,
      w.timezoneAbbreviation,
      x.forecastDays)
  }

  /** Nothing but the dropped fields is lost: the response is recovered from its snapshot. */
  lemma ToUILosesOnlyDropped(d: WeatherResponseDto)
    ensures FromUI(ToUI(d), Dropped(d)) == d
  {
  }

  /** Every snapshot is the image of a response, whatever the dropped fields say. */
  lemma ToUIOnto(w: Weather, x: DroppedFields)
    ensures ToUI(FromUI(w, x)) == w
    ensures Dropped(FromUI(w, x)) == x
  {
  }

  /**
   * Two responses map to the same snapshot exactly when they differ at most in
   * generationTimeMs, utcOffsetSeconds and forecastDays.
   */
  lemma ToUIEqualIff(d1: WeatherResponseDto, d2: WeatherResponseDto)
    ensures ToUI(d1) == ToUI(d2) <==>
      d1.(generationTimeMs := d2.generationTimeMs, utcOffsetSeconds := d2.utcOffsetSeconds, forecastDays := d2.forecastDays) == d2
  {
  }

  /** Scalars are copied and each optional block is absent in the result exactly when it is absent on the wire. */
  lemma ToUIKeepsScalarsAndAbsence(d: WeatherResponseDto)
    ensures ToUI(d).latitude == d.latitude && ToUI(d).longitude == d.longitude
    ensures ToUI(d).timezone == d.timezone && ToUI(d).timezoneAbbreviation == d.timezoneAbbreviation
    ensures ToUI(d).current.None? <==> d.current.None?
    ensures ToUI(d).hourly.None? <==> d.hourly.None?
    ensures ToUI(d).daily.None? <==> d.daily.None?
  {
  }

  /** A present current block maps field for field. */
  lemma CurrentFieldForField(d: WeatherResponseDto)
    requires d.current.Some?
    ensures ToUI(d).current.Some?
    ensures var c, u := d.current.value, ToUI(d).current.value;
      u.temperature == c.temperature && u.humidity == c.humidity &&
      u.precipitation == c.precipitation && u.rain == c.rain &&
      u.apparentTemperature == c.apparentTemperature && u.weatherCode == c.weatherCode
  {
  }

  /**
   * Hourly lists arrive unchanged: same lengths, same element at every index,
   * and no length check, so mismatched lists pass through as they are.
   */
  lemma HourlySeriesPreserved(d: WeatherResponseDto, i: nat)
    requires d.hourly.Some?
    ensures ToUI(d).hourly.Some?
    ensures var h, u := d.hourly.value, ToUI(d).hourly.value;
      |u.temperature| == |h.temperature| && |u.weatherCode| == |h.weatherCode| &&
      (i < |h.temperature| ==> u.temperature[i] == h.temperature[i]) &&
      (i < |h.weatherCode| ==> u.weatherCode[i] == h.weatherCode[i])
  {
  }

  /** Daily lists arrive unchanged, lengths included, whether or not those lengths agree. */
  lemma DailySeriesPreserved(d: WeatherResponseDto, i: nat)
    requires d.daily.Some?
    ensures ToUI(d).daily.Some?
    ensures var y, u := d.daily.value, ToUI(d).daily.value;
      |u.weatherCode| == |y.weatherCode| && |u.sunrise| == |y.sunrise| && |u.sunset| == |y.sunset| &&
      (i < |y.weatherCode| ==> u.weatherCode[i] == y.weatherCode[i]) &&
      (i < |y.sunrise| ==> u.sunrise[i] == y.sunrise[i]) &&
      (i < |y.sunset| ==> u.sunset[i] == y.sunset[i])
  {
  }
}
