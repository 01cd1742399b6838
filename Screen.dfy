/**
 * The non-rendering logic of the weather screen (ui/weather/WeatherScreen.kt):
 * weather-code classification, icon choice, day names, the sunrise/sunset
 * label, the current-weather card's fallback code and the daily rows.
 */
module Screen {
  import opened Wrappers
  import opened Domain

  // ---------------------------------------------------------------------
  // Weather codes

  /** The nine labels `weatherCodeToDescription` can produce. */
  const DescriptionLabels: set<string> :=
    {"Clear sky", "Partly cloudy", "Fog", "Drizzle", "Rain", "Snow", "Rain showers", "Thunderstorm", "Unknown"}

  /** The codes the app gives a name to; any other code is "Unknown". */
  const KnownCodes: set<int> :=
    {0, 1, 2, 3, 45, 48, 51, 53, 55, 61, 63, 65, 71, 73, 75, 80, 81, 82, 95, 96, 99}

  /** `weatherCodeToDescription`: total, with one label per group of codes. */
  function WeatherCodeToDescription(code: int): (r: string)
    ensures r in DescriptionLabels
    ensures r == "Clear sky" <==> code == 0
    ensures r == "Partly cloudy" <==> 1 <= code <= 3
    ensures r == "Fog" <==> code == 45 || code == 48
    ensures r == "Drizzle" <==> code == 51 || code == 53 || code == 55
    ensures r == "Rain" <==> code == 61 || code == 63 || code == 65
    ensures r == "Snow" <==> code == 71 || code == 73 || code == 75
    ensures r == "Rain showers" <==> code == 80 || code == 81 || code == 82
    ensures r == "Thunderstorm" <==> code == 95 || code == 96 || code == 99
    ensures r == "Unknown" <==> code !in KnownCodes
  {
    if code == 0 then "Clear sky"
    else if code == 1 || code == 2 || code == 3 then "Partly cloudy"
    else if code == 45 || code == 48 then "Fog"
    else if code == 51 || code == 53 || code == 55 then "Drizzle"
    else if code == 61 || code == 63 || code == 65 then "Rain"
    else if code == 71 || code == 73 || code == 75 then "Snow"
    else if code == 80 || code == 81 || code == 82 then "Rain showers"
    else if code == 95 || code == 96 || code == 99 then "Thunderstorm"
    else "Unknown"
  }

  /** The Material icons `weatherIcon` chooses from. */
  datatype Icon = WbSunny | Cloud | Grass | AcUnit | Thunderstorm

  /** `weatherIcon`: drizzle, rain, showers, partly cloudy and unknown codes all share Cloud. */
  function WeatherIcon(code: int): (r: Icon)
    ensures r == WbSunny <==> code == 0
    ensures r == Grass <==> code == 45 || code == 48
    ensures r == AcUnit <==> code == 71 || code == 73 || code == 75
    ensures r == Thunderstorm <==> code == 95 || code == 96 || code == 99
    ensures r == Cloud <==> code !in {0, 45, 48, 71, 73, 75, 95, 96, 99}
  {
    if code == 0 then WbSunny
    else if code == 1 || code == 2 || code == 3 then Cloud
    else if code == 45 || code == 48 then Grass
    else if code in {51, 53, 55, 61, 63, 65, 80, 81, 82} then Cloud
    else if code == 71 || code == 73 || code == 75 then AcUnit
    else if code == 95 || code == 96 || code == 99 then Thunderstorm
    else Cloud
  }

  /** The label and the icon of a code tell the same story. */
  lemma DescriptionAgreesWithIcon(code: int)
    ensures WeatherCodeToDescription(code) == "Snow" <==> WeatherIcon(code) == AcUnit
    ensures WeatherCodeToDescription(code) == "Thunderstorm" <==> WeatherIcon(code) == Thunderstorm
    ensures WeatherCodeToDescription(code) == "Clear sky" <==> WeatherIcon(code) == WbSunny
    ensures WeatherCodeToDescription(code) == "Fog" <==> WeatherIcon(code) == Grass
    ensures WeatherIcon(code) == Cloud <==>
      WeatherCodeToDescription(code) in {"Partly cloudy", "Drizzle", "Rain", "Rain showers", "Unknown"}
  {
  }

  // ---------------------------------------------------------------------
  // Day names

  /**
   * A day's heading: a fixed word, or the locale's name of the weekday
   * `daysAhead` days after today, which depends on the device clock.
   */
  datatype DayName = Named(text: string) | CalendarWeekday(daysAhead: int)

  /** `dayNameFromIndex`. */
  function DayNameFromIndex(index: int): (r: DayName)
    ensures index == 0 ==> r == Named("Today")
    ensures index == 1 ==> r == Named("Tomorrow")
    ensures r.CalendarWeekday? <==> index != 0 && index != 1
    ensures r.CalendarWeekday? ==> r.daysAhead == index
  {
    if index == 0 then Named("Today")
    else if index == 1 then Named("Tomorrow")
    else CalendarWeekday(index)
  }

  // ---------------------------------------------------------------------
  // Sunrise / sunset label

  /** A time label, or the `StringIndexOutOfBoundsException` that `substring(11, 16)` throws on a short string. */
  datatype TimeLabel = Shown(text: string) | SubstringOutOfBounds

  /** `times.getOrNull(index)?.substring(11, 16) ?: "-"`. */
  function SunTimeLabel(times: seq<string>, index: int): (r: TimeLabel)
    ensures r == Shown("-") <==> !(0 <= index < |times|)
    ensures r == SubstringOutOfBounds <==> 0 <= index < |times| && |times[index]| < 16
    ensures r.Shown? && r.text != "-" ==>
      0 <= index < |times| && |r.text| == 5 && r.text == times[index][11..16]
  {
    if 0 <= index < |times| then
      var s := times[index];
      if |s| < 16 then SubstringOutOfBounds else Shown(s[11..16])
    else
      Shown("-")
  }

  predicate IsDigit(c: char) {
    '0' <= c <= '9'
  }

  /** An ISO-8601 local date-time `yyyy-MM-ddTHH:mm`, possibly followed by seconds. */
  predicate IsIsoLocalDateTime(s: string) {
    && |s| >= 16
    && IsDigit(s[0]) && IsDigit(s[1]) && IsDigit(s[2]) && IsDigit(s[3]) && s[4] == '-'
    && IsDigit(s[5]) && IsDigit(s[6]) && s[7] == '-' && IsDigit(s[8]) && IsDigit(s[9])
    && s[10] == 'T' && IsDigit(s[11]) && IsDigit(s[12]) && s[13] == ':' && IsDigit(s[14]) && IsDigit(s[15])
  }

  /** A five-character `HH:mm` clock time. */
  predicate IsClockTime(t: string) {
    |t| == 5 && IsDigit(t[0]) && IsDigit(t[1]) && t[2] == ':' && IsDigit(t[3]) && IsDigit(t[4])
  }

  /** For a well-formed timestamp the label is its hour and minute. */
  lemma SunTimeLabelIsClockTime(times: seq<string>, index: int)
    requires 0 <= index < |times| && IsIsoLocalDateTime(times[index])
    ensures SunTimeLabel(times, index).Shown?
    ensures var s, t := times[index], SunTimeLabel(times, index).text;
      IsClockTime(t) && t == s[11..13] + ":" + s[14..16]
  {
  }

  lemma SunTimeLabelExample()
    ensures SunTimeLabel(["2025-12-27T06:00:00"], 0) == Shown("06:00")
    ensures SunTimeLabel(["2025-12-27T06:00:00"], 1) == Shown("-")
    ensures SunTimeLabel(["2025-12-27"], 0) == SubstringOutOfBounds
  {
  }

  // ---------------------------------------------------------------------
  // The current-weather card

  /** `weather.current?.weatherCode ?: 0`. */
  function CurrentCode(w: Weather): (code: int)
    ensures w.current.Some? ==> code == w.current.value.weatherCode
    ensures w.current.None? ==> code == 0
  {
    match w.current
    case Some(c) => c.weatherCode
    case None => 0
  }

  /** What the card shows besides temperatures: its icon and its description. */
  datatype Headline = Headline(icon: Icon, description: string)

  function CurrentWeatherHeadline(w: Weather): (h: Headline)
    ensures w.current.None? ==> h == Headline(WbSunny, "Clear sky")
    ensures w.current.Some? ==>
      h == Headline(WeatherIcon(w.current.value.weatherCode), WeatherCodeToDescription(w.current.value.weatherCode))
  {
    var code := CurrentCode(w);
    Headline(WeatherIcon(code), WeatherCodeToDescription(code))
  }

  // ---------------------------------------------------------------------
  // The daily rows

  /** What one `DailyForecastItem` shows. */
  datatype DailyRow = DailyRow(day: DayName, icon: Icon, description: string, sunrise: TimeLabel, sunset: TimeLabel)

  /** `DailyForecastItem`: `daily.weatherCode[dayIndex]` is read without a check, so the caller keeps the index in range. */
  function DailyForecastItem(dayIndex: int, daily: Daily): DailyRow
    requires 0 <= dayIndex < |daily.weatherCode|
  {
    var code := daily.weatherCode[dayIndex];
    DailyRow(DayNameFromIndex(dayIndex), WeatherIcon(code), WeatherCodeToDescription(code),
             SunTimeLabel(daily.sunrise, dayIndex), SunTimeLabel(daily.sunset, dayIndex))
  }

  /** The rows for the first `n` indices, built in order. */
  function RowsUpTo(daily: Daily, n: nat): (rows: seq<DailyRow>)
    requires n <= |daily.weatherCode|
    ensures |rows| == n
    ensures forall j :: 0 <= j < n ==> rows[j] == DailyForecastItem(j, daily)
  {
    if n == 0 then [] else RowsUpTo(daily, n - 1) + [DailyForecastItem(n - 1, daily)]
  }

  /**
   * The daily section: `items(weather.daily.weatherCode.size)`, none when the
   * daily block is absent; every index passed to an item is in range.
   */
  function DailyForecastRows(w: Weather): (rows: seq<DailyRow>)
    ensures w.daily.None? ==> rows == []
    ensures w.daily.Some? ==> |rows| == |w.daily.value.weatherCode|
    ensures w.daily.Some? ==> forall i :: 0 <= i < |rows| ==> rows[i] == DailyForecastItem(i, w.daily.value)
  {
    match w.daily
    case None => []
    case Some(daily) => RowsUpTo(daily, |daily.weatherCode|)
  }

  /**
   * The row count follows the weather codes alone; a shorter sunrise or
   * sunset list shows "-" in the rows it does not reach.
   */
  lemma DailyRowsDefensive(w: Weather, i: nat)
    requires w.daily.Some? && i < |w.daily.value.weatherCode|
    ensures i < |DailyForecastRows(w)|
    ensures DailyForecastRows(w)[i].sunrise == Shown("-") <==> i >= |w.daily.value.sunrise|
    ensures DailyForecastRows(w)[i].sunset == Shown("-") <==> i >= |w.daily.value.sunset|
    ensures DailyForecastRows(w)[i].description == WeatherCodeToDescription(w.daily.value.weatherCode[i])
    ensures DailyForecastRows(w)[i].icon == WeatherIcon(w.daily.value.weatherCode[i])
  {
  }

  // ---------------------------------------------------------------------
  // The preview's sample snapshot

  const DummyWeather: Weather := Weather(
    -6.2,
    106.8,
    Some(Current(28.5, 75.0, 0.0, 0.0, 32.0, 1)),
    Some(Hourly(
      [28.0, 29.0, 30.0, 31.0, 30.5, 29.0, 28.0, 27.5] + seq(16, i => 27.0 + (i as real) * 0.5),
      [1, 2, 3, 3, 2, 1, 0, 0] + seq(16, _ => 1))),
    Some(Daily(
      [1, 3, 61, 0, 2, 80, 1],
      ["2025-12-27T06:00:00", "2025-12-28T06:01:00", "2025-12-29T06:02:00", "2025-12-30T06:03:00",
       "2025-12-31T06:04:00", "2026-01-01T06:05:00", "2026-01-02T06:06:00"],
      ["2025-12-27T18:30:00", "2025-12-28T18:31:00", "2025-12-29T18:32:00", "2025-12-30T18:33:00",
       "2025-12-31T18:34:00", "2026-01-01T18:35:00", "2026-01-02T18:36:00"])),
    "Asia/Jakarta",
    "WIB")

  /** The sample renders a partly-cloudy card and seven daily rows, the first ones as below. */
  lemma DummyWeatherRendering()
    ensures CurrentWeatherHeadline(DummyWeather) == Headline(Cloud, "Partly cloudy")
    ensures |DummyWeather.hourly.value.temperature| == 24 && |DummyWeather.hourly.value.weatherCode| == 24
    ensures |DailyForecastRows(DummyWeather)| == 7
    ensures DailyForecastRows(DummyWeather)[0] ==
      DailyRow(Named("Today"), Cloud, "Partly cloudy", Shown("06:00"), Shown("18:30"))
    ensures DailyForecastRows(DummyWeather)[1].day == Named("Tomorrow")
    ensures DailyForecastRows(DummyWeather)[2] ==
      DailyRow(CalendarWeekday(2), Cloud, "Rain", Shown("06:02"), Shown("18:32"))
  {
    var d := DummyWeather.daily.value;
    assert d.sunrise[0][11..16] == "06:00" && d.sunset[0][11..16] == "18:30";
    assert d.sunrise[2][11..16] == "06:02" && d.sunset[2][11..16] == "18:32";
  }
}
