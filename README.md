# WeatherAI forecast pipeline, modelled in Dafny

WeatherAI is a small Android app. It fetches a forecast for one coordinate pair from the open-meteo API and maps the wire response into a domain snapshot (`Weather`). It can ask Gemini for a short summary, and it shows the snapshot on a Compose screen driven by a `WeatherViewModel`. This project models the logic of that path that is not rendering:

- `Dto.dfy`: the wire datatypes of `WeatherResponseDto.kt` and the mapper `toUI`. The mapper is total. It copies fields one for one, keeps absent blocks absent and drops `generationTimeMs`, `utcOffsetSeconds` and `forecastDays`.
- `Domain.dfy`: the domain datatypes of `Weather.kt`.
- `Repository.dfy`: `getWeatherForecast`, `generateSummary` and `getWeatherWithSummary`. They are functions over two abstract outcomes:
  - `api(lat, lon)` is what the Retrofit call returned or threw;
  - `gemini(w)` is the `Result` that `GeminiService.generateWeatherSummary(w)` returns.
- `ViewModel.dfy`: `WeatherUiState` and the class `WeatherViewModel`. Its field `uiState` is `_uiState.value`. A ghost log records every assignment to it. `FetchWeather` takes the outcome of the repository call as input.
- `Screen.dfy`: the helpers of `WeatherScreen.kt`:
  - weather-code description and icon;
  - day names;
  - the sunrise/sunset label;
  - the code the current card falls back to;
  - the list of daily rows;
  - the preview's `dummyWeather`.
- `Wrappers.dfy`: Kotlin's nullable values (`Option`), `Result` and `Throwable`. A `Throwable` is reduced to its nullable message.

`Double` values are modelled as `real` and are only copied. Weather codes are `int` and are only compared.

The code has no degraded or two-phase success, and the screen calls a view-model API that does not exist:
- The repository has no degraded success. A summary failure makes `getWeatherWithSummary` fail.
- The view model has only `fetchWeather`. It goes Loading, then `Success(weather)` or `Error(message)`. There is no intermediate two-phase success and no summary in the UI state.
- `WeatherScreen.kt` calls `fetchWeatherWithSummary` and reads `aiSummary`. `WeatherViewModel.kt` defines neither, so neither is modelled.

## Model

| member | source | states |
|---|---|---|
| `Dto.ToUILosesOnlyDropped` | app/src/main/java/com/univ/android/weatherai/data/remote/dto/WeatherResponseDto.kt:9-93 | The response is rebuilt from its snapshot plus generationTimeMs, utcOffsetSeconds and forecastDays. The mapper loses nothing else. |
| `Dto.ToUIOnto` | app/src/main/java/com/univ/android/weatherai/data/remote/dto/WeatherResponseDto.kt:65-93 | Every snapshot is the mapping of a response, whatever the three dropped fields hold. |
| `Dto.ToUIEqualIff` | app/src/main/java/com/univ/android/weatherai/data/remote/dto/WeatherResponseDto.kt:20-73 | Two responses map to equal snapshots exactly when they differ at most in the three dropped fields. |
| `Dto.ToUIKeepsScalarsAndAbsence` | app/src/main/java/com/univ/android/weatherai/data/remote/dto/WeatherResponseDto.kt:65-73 | latitude, longitude, timezone and timezoneAbbreviation are copied. Each of current, hourly and daily is absent in the snapshot exactly when it is absent in the response. |
| `Dto.CurrentFieldForField` | app/src/main/java/com/univ/android/weatherai/data/remote/dto/WeatherResponseDto.kt:75-82 | A present current block keeps all six fields equal. |
| `Dto.HourlySeriesPreserved` | app/src/main/java/com/univ/android/weatherai/data/remote/dto/WeatherResponseDto.kt:84-87 | The hourly temperature and code lists keep their lengths and every element. Nothing requires the two lengths to agree. |
| `Dto.DailySeriesPreserved` | app/src/main/java/com/univ/android/weatherai/data/remote/dto/WeatherResponseDto.kt:89-93 | The daily code, sunrise and sunset lists keep their lengths and every element. Mismatched lengths pass through. |
| `Repository.GetWeatherForecast` | app/src/main/java/com/univ/android/weatherai/data/repository/WeatherRepository.kt:13-15 | Succeeds exactly when the API call returns. The value is that DTO mapped by `toUI`. A failure carries the API's exception unchanged. |
| `Repository.GenerateSummary` | app/src/main/java/com/univ/android/weatherai/data/repository/WeatherRepository.kt:17-19 | The result is Gemini's result for that snapshot, success and text or failure and exception alike. |
| `Repository.GetWeatherWithSummary` | app/src/main/java/com/univ/android/weatherai/data/repository/WeatherRepository.kt:21-28 | A forecast failure is the result, and Gemini is never asked. Otherwise Gemini is asked exactly once, about the mapped snapshot. A summary failure is the whole result. A success pairs that snapshot with Gemini's text for it. |
| `Repository.WithSummaryIsComposition` | app/src/main/java/com/univ/android/weatherai/data/repository/WeatherRepository.kt:13-28 | The combined call gives `(w, s)` exactly when `getWeatherForecast` gives `w` and `generateSummary(w)` gives `s`. Otherwise it fails with the first of the two failures. |
| `Repository.ForecastFailureIgnoresGemini` | app/src/main/java/com/univ/android/weatherai/data/repository/WeatherRepository.kt:22-23 | When the forecast call fails, the run does not depend on Gemini at all. |
| `ViewModel.MessageOr` | app/src/main/java/com/univ/android/weatherai/ui/weather/WeatherViewModel.kt:26-29 | `message ?: fallback` gives the exception's message when it has one and the fallback otherwise. |
| `ViewModel.FinalState` | app/src/main/java/com/univ/android/weatherai/ui/weather/WeatherViewModel.kt:20-30 | The final state is never Loading. It is Success(w) exactly when the repository returned Success(w). A returned failure gives Error with the message or "Unknown error". A thrown exception gives Error with the message or "Crash di ViewModel". |
| `ViewModel.WeatherViewModel.constructor` | app/src/main/java/com/univ/android/weatherai/ui/weather/WeatherViewModel.kt:13 | The state starts at Loading and nothing has been assigned yet. |
| `ViewModel.WeatherViewModel.FetchWeather` | app/src/main/java/com/univ/android/weatherai/ui/weather/WeatherViewModel.kt:16-32 | Whatever the prior state, one call assigns exactly Loading and then the final state, in that order. It leaves the final state in place. |
| `ViewModel.FetchAgainstRepository` | app/src/main/java/com/univ/android/weatherai/ui/weather/WeatherViewModel.kt:20-26 | Against the repository model, a refresh ends in Success of the mapped DTO when the API returns. Otherwise it ends in Error with the API exception's message or "Unknown error". |
| `ViewModel.RefreshTwice` | app/src/main/java/com/univ/android/weatherai/ui/weather/WeatherViewModel.kt:16-32 | Two refreshes with the same outcome give the same final state. The second does not depend on the first. |
| `Screen.WeatherCodeToDescription` | app/src/main/java/com/univ/android/weatherai/ui/weather/WeatherScreen.kt:381-393 | The function is total, and its result is always one of the nine labels. Each label is produced by exactly its listed codes: 0 Clear sky, 1-3 Partly cloudy, and so on. "Unknown" is produced exactly for every unlisted code. |
| `Screen.WeatherIcon` | app/src/main/java/com/univ/android/weatherai/ui/weather/WeatherScreen.kt:407-418 | WbSunny is exactly code 0. Grass is exactly 45 and 48. AcUnit is exactly 71, 73 and 75. Thunderstorm is exactly 95, 96 and 99. Cloud is every other code. |
| `Screen.DescriptionAgreesWithIcon` | app/src/main/java/com/univ/android/weatherai/ui/weather/WeatherScreen.kt:381-418 | Snow holds exactly when the icon is AcUnit. Thunderstorm holds exactly with Thunderstorm, Clear sky with WbSunny and Fog with Grass. Cloud appears exactly for the other five labels. |
| `Screen.DayNameFromIndex` | app/src/main/java/com/univ/android/weatherai/ui/weather/WeatherScreen.kt:395-405 | Index 0 gives "Today" and index 1 gives "Tomorrow". Every other index gives the calendar weekday that many days ahead. |
| `Screen.SunTimeLabel` | app/src/main/java/com/univ/android/weatherai/ui/weather/WeatherScreen.kt:374-375 | The label is "-" exactly when the index is out of range. It throws exactly when the timestamp is shorter than 16 characters. Otherwise it is the five characters 11 to 15 of the timestamp. |
| `Screen.SunTimeLabelIsClockTime` | app/src/main/java/com/univ/android/weatherai/ui/weather/WeatherScreen.kt:374-375 | For an ISO-8601 local date-time, the label is its `HH:mm`. |
| `Screen.SunTimeLabelExample` | app/src/main/java/com/univ/android/weatherai/ui/weather/WeatherScreen.kt:447 | "2025-12-27T06:00:00" gives "06:00". An absent index gives "-". A date alone throws. |
| `Screen.CurrentCode` | app/src/main/java/com/univ/android/weatherai/ui/weather/WeatherScreen.kt:251 | The card uses the current code when current is present and 0 when it is absent. |
| `Screen.CurrentWeatherHeadline` | app/src/main/java/com/univ/android/weatherai/ui/weather/WeatherScreen.kt:250-278 | Absent current conditions show WbSunny and "Clear sky". Present ones show the icon and description of their code. |
| `Screen.RowsUpTo` | app/src/main/java/com/univ/android/weatherai/ui/weather/WeatherScreen.kt:186-191 | The first n item invocations give exactly n rows, and row j is the item for index j. |
| `Screen.DailyForecastRows` | app/src/main/java/com/univ/android/weatherai/ui/weather/WeatherScreen.kt:178-192 | There are no rows without a daily block. Otherwise there are exactly `weatherCode.size` rows, and row i is the item for index i, whose `weatherCode[i]` read is in range. |
| `Screen.DailyRowsDefensive` | app/src/main/java/com/univ/android/weatherai/ui/weather/WeatherScreen.kt:334-376 | Row i shows "-" for sunrise exactly when the sunrise list has no entry i, and likewise for sunset. It shows the description and icon of `weatherCode[i]`. |
| `Screen.DummyWeatherRendering` | app/src/main/java/com/univ/android/weatherai/ui/weather/WeatherScreen.kt:427-467 | The preview sample has 24 hourly entries per list and a partly-cloudy card with the Cloud icon. It has seven daily rows: row 0 is Today / Cloud / Partly cloudy / 06:00 / 18:30, row 1 is Tomorrow and row 2 is Rain. |

## Left out

- Compose rendering is not modelled: layouts, `Scaffold`, `LazyColumn`, snackbar, `LaunchedEffect`, the loading spinner and the error view. The model keeps only the values those views display.
- `dayNameFromIndex` for indices of 2 and above reads `Calendar.getInstance()` and formats the weekday for the locale. The model returns an abstract `CalendarWeekday(daysAhead)` instead of a name.
- The `toInt()` of temperatures (for example "28°C") is floating-point conversion and is not modelled. `Double` is modelled as `real`, so NaN and infinities are out.
- Kotlin `Int` is 32-bit, and codes and offsets are modelled as unbounded `int`. Nothing in the core does arithmetic on them.
- `GeminiService.kt` is not modelled: the prompt text, `Double` formatting and the SDK call. Its one rule is that an empty `response.text` becomes a failure, and that is already part of the abstract `gemini` outcome.
- `WeatherApiService.kt` and `ApiClient.kt` are not modelled: Retrofit, Gson decoding, HTTP and the lazy client singleton. The API call is the abstract `api(lat, lon)` outcome, and the error kinds are reduced to a `Throwable` with an optional message.
- Coroutines are not modelled: `viewModelScope.launch`, suspension, cancellation and overlapping refreshes. One `fetchWeather` body is modelled as running to completion.
- `ViewModel.WeatherViewModel.FetchWeather`: the ghost log records assignments to `_uiState.value`. It does not record what collectors of the `StateFlow` receive, because a `StateFlow` skips a value equal to its current one and may conflate.
- `RepositoryCall.Threw` stands only for an `Exception`, which the `catch (e: Exception)` of `fetchWeather` catches. A thrown throwable that is not an `Exception` (an `Error`) escapes that `catch` and leaves the state at Loading, and the model has no case for it, because `Throwable` is reduced to its message.
- The `catch` branch of `fetchWeather` is modelled, but the repository model never throws, because `runCatching` captures every exception.
- `fetchWeatherWithSummary` and `aiSummary` are referenced by the screen but defined nowhere in the view model, so their behaviour is not modelled.
- `HourlyForecastList` and `HourlyItem` are not modelled. Their only call site is commented out.
- `Screen.SunTimeLabel`: Kotlin's `String.length` and `substring(11, 16)` count UTF-16 code units, while a Dafny `string` is indexed by Unicode scalar values. The two agree only when the text before position 16 is in the Basic Multilingual Plane. The API's ISO-8601 timestamps are ASCII, so they always agree there.
