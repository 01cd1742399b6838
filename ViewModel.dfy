/** The UI state holder (ui/weather/WeatherViewModel.kt). */
module ViewModel {
  import opened Wrappers
  import opened Domain
  import opened Dto
  import Repository

  /** `WeatherUiState`: each state carries only what is valid in it. */
  datatype WeatherUiState = Loading | Success(weather: Weather) | Error(message: string)

  /**
   * What the call `repository.getWeatherForecast(latitude, longitude)` does
   * inside the `try`: it returns a `Result`, or it throws.
   */
  datatype RepositoryCall = Returned(result: Result<Weather>) | Threw(exception: Throwable)

  /** Kotlin's elvis `message ?: fallback`. */
  function MessageOr(e: Throwable, fallback: string): (m: string)
    ensures e.message.Some? ==> m == e.message.value
    ensures e.message.None? ==> m == fallback
  {
    match e.message
    case Some(msg) => msg
    case None => fallback
  }

  /** The state `fetchWeather` leaves behind, as a function of how the repository call went. */
  function FinalState(call: RepositoryCall): (s: WeatherUiState)
    ensures s != Loading
    ensures s.Success? <==> call.Returned? && call.result.Success?
    ensures s.Success? ==> s.weather == call.result.value
    ensures call.Returned? && call.result.Failure? ==>
      s == Error(MessageOr(call.result.exception, "Unknown error"))
    ensures call.Threw? ==> s == Error(MessageOr(call.exception, "Crash di ViewModel"))
  {
    match call
    case Returned(Success(weather)) => WeatherUiState.Success(weather)
    case Returned(Failure(exception)) => Error(MessageOr(exception, "Unknown error"))
    case Threw(e) => Error(MessageOr(e, "Crash di ViewModel"))
  }

  class WeatherViewModel {
    /** `_uiState.value`. */
    var uiState: WeatherUiState
    /** Every value assigned to `_uiState.value` since construction, in order. */
    ghost var assignments: seq<WeatherUiState>

    /** The state is the last value assigned, or the initial `Loading`. */
    ghost predicate Valid()
      reads this
    {
      uiState == if assignments == [] then Loading else assignments[|assignments| - 1]
    }

    constructor ()
      ensures Valid()
      ensures uiState == Loading && assignments == []
    {
      uiState := Loading;
      assignments := [];
    }

    /** One run of `fetchWeather`'s coroutine body, to completion. */
    method FetchWeather(call: RepositoryCall)
      requires Valid()
      modifies this
      ensures Valid()
      ensures assignments == old(assignments) + [Loading, FinalState(call)]
      ensures uiState == FinalState(call)
    {
      uiState := Loading;
      assignments := assignments + [uiState];
      match call {
        case Returned(result) =>
          match result {
            case Success(weather) =>
              uiState := WeatherUiState.Success(weather);
            case Failure(exception) =>
              uiState := Error(MessageOr(exception, "Unknown error"));
          }
        case Threw(e) =>
          uiState := Error(MessageOr(e, "Crash di ViewModel"));
      }
      assignments := assignments + [uiState];
    }
  }

  /**
   * A refresh against the repository model: the final state is `Success` of the
   * mapped snapshot when the API call succeeds, and otherwise `Error` with the
   * exception's message or "Unknown error".
   */
  lemma FetchAgainstRepository(api: (real, real) -> Result<WeatherResponseDto>, lat: real, lon: real)
    ensures var s := FinalState(Returned(Repository.GetWeatherForecast(api, lat, lon)));
      match api(lat, lon)
      case Success(dto) => s == WeatherUiState.Success(ToUI(dto))
      case Failure(e) => s == Error(MessageOr(e, "Unknown error"))
  {
  }

  /** Two refreshes with the same repository outcome: the second is not affected by the first. */
  method RefreshTwice(vm: WeatherViewModel, call: RepositoryCall)
    requires vm.Valid()
    modifies vm
    ensures vm.Valid()
    ensures vm.uiState == FinalState(call)
    ensures vm.assignments == old(vm.assignments) + [Loading, FinalState(call), Loading, FinalState(call)]
  {
    vm.FetchWeather(call);
    var first := vm.uiState;
    vm.FetchWeather(call);
    assert vm.uiState == first;
  }
}
