/**
 * The repository (data/repository/WeatherRepository.kt). The forecast call
 * and the Gemini call are parameters: `api(lat, lon)` is the outcome of
 * `api.getWeatherForecast(lat, lon)` (a returned DTO, or the exception it
 * threw) and `gemini(w)` is the `Result` that
 * `GeminiService.generateWeatherSummary(w)` returns.
 */
module Repository {
  import opened Wrappers
  import opened Domain
  import opened Dto

  /** `getWeatherForecast`: `runCatching { api.getWeatherForecast(lat, lon).toUI() }`. */
  function GetWeatherForecast(api: (real, real) -> Result<WeatherResponseDto>, lat: real, lon: real): (r: Result<Weather>)
    ensures r.Success? <==> api(lat, lon).Success?
    ensures r.Success? ==> r.value == ToUI(api(lat, lon).value)
    ensures r.Failure? ==> r.exception == api(lat, lon).exception
  {
    match api(lat, lon)
    case Success(dto) => Success(ToUI(dto))
    case Failure(e) => Failure(e)
  }

  /**
   * `getOrThrow`: the value of a success; the exception of a failure, thrown.
   * A throw is returned here as `Failure`.
   */
  function GetOrThrow<T>(x: Result<T>): Result<T> {
    match x
    case Success(v) => Success(v)
    case Failure(e) => Failure(e)
  }

  /** `generateSummary`: `runCatching { gemini(weather).getOrThrow() }` hands back Gemini's result unchanged. */
  function GenerateSummary(gemini: Weather -> Result<string>, weather: Weather): (r: Result<string>)
    ensures r == gemini(weather)
  {
    GetOrThrow(gemini(weather))
  }

  /** One run of `getWeatherWithSummary`: its result and the snapshots passed to Gemini, in order. */
  datatype Run = Run(result: Result<(Weather, string)>, summarized: seq<Weather>)

  /**
   * `getWeatherWithSummary`: fetch and map, then summarize that snapshot; the
   * first exception, from either call, becomes the failure.
   */
  function GetWeatherWithSummary(
    api: (real, real) -> Result<WeatherResponseDto>, gemini: Weather -> Result<string>, lat: real, lon: real): (r: Run)
    ensures api(lat, lon).Failure? ==> r == Run(Failure(api(lat, lon).exception), [])
    ensures api(lat, lon).Success? ==> r.summarized == [ToUI(api(lat, lon).value)]
    ensures r.result.Success? ==>
      api(lat, lon).Success? && r.result.value.0 == ToUI(api(lat, lon).value) &&
      gemini(r.result.value.0) == Success(r.result.value.1)
    ensures api(lat, lon).Success? && gemini(ToUI(api(lat, lon).value)).Failure? ==>
      r.result == Failure(gemini(ToUI(api(lat, lon).value)).exception)
    ensures api(lat, lon).Success? && gemini(ToUI(api(lat, lon).value)).Success? ==>
      r.result == Success((ToUI(api(lat, lon).value), gemini(ToUI(api(lat, lon).value)).value))
  {
    match api(lat, lon)
    case Failure(e) => Run(Failure(e), [])
    case Success(dto) =>
      var weather := ToUI(dto);
      match GetOrThrow(gemini(weather))
      case Failure(e) => Run(Failure(e), [weather])
      case Success(summary) => Run(Success((weather, summary)), [weather])
  }

  /**
   * The combined call succeeds with `(w, s)` exactly when the two separate
   * calls succeed with `w` and, for that `w`, with `s`; the combined call
   * fails with the separate calls' first exception.
   */
  lemma WithSummaryIsComposition(
    api: (real, real) -> Result<WeatherResponseDto>, gemini: Weather -> Result<string>, lat: real, lon: real,
    w: Weather, s: string)
    ensures GetWeatherWithSummary(api, gemini, lat, lon).result == Success((w, s)) <==>
      GetWeatherForecast(api, lat, lon) == Success(w) && GenerateSummary(gemini, w) == Success(s)
    ensures GetWeatherForecast(api, lat, lon).Failure? ==>
      GetWeatherWithSummary(api, gemini, lat, lon).result == Failure(GetWeatherForecast(api, lat, lon).exception)
    ensures GetWeatherForecast(api, lat, lon).Success? ==>
      var u := GetWeatherForecast(api, lat, lon).value;
      GenerateSummary(gemini, u).Failure? ==>
        GetWeatherWithSummary(api, gemini, lat, lon).result == Failure(GenerateSummary(gemini, u).exception)
  {
  }

  /** When the forecast fails, what Gemini would have said makes no difference. */
  lemma ForecastFailureIgnoresGemini(
    api: (real, real) -> Result<WeatherResponseDto>, g1: Weather -> Result<string>, g2: Weather -> Result<string>,
    lat: real, lon: real)
    requires api(lat, lon).Failure?
    ensures GetWeatherWithSummary(api, g1, lat, lon) == GetWeatherWithSummary(api, g2, lat, lon)
  {
  }
}
