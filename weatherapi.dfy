/** internal/infra/clients/weatherapi.go: the current-weather client.

    The HTTP exchange is an input. The response body is given as JSON
    decoding leaves it in each of the two records the client may decode it
    into: the error record (a struct value, so a `null` or malformed body
    leaves its zero value) and the success record (`None` when a `null` body
    sets the pointer to nil). */
module WeatherApi {
  import opened Outcomes
  import opened Erros
  import opened Clients

  const WeatherApiUri := "https://api.weatherapi.com/v1/current.json"

  /** The weather API's error code for "no matching location found". */
  const CityNotFoundCode := 1006

  datatype WeatherBody = WeatherBody(asError: WeatherErrorResponse, asReading: Option<WeatherResponse>)

  /** `WeatherApiClient`, with the API key it was built with. */
  datatype WeatherApiClient = WeatherApiClient(key: string)
  {
    /** The query after `q.Set("q", ...)`, `q.Set("lang", "pt")` and
        `q.Set("key", ...)` on the empty query of the base URL. */
    function Query(cidade: string): (q: map<string, string>)
      ensures q.Keys == {"q", "lang", "key"}
      ensures q["q"] == cidade && q["lang"] == "pt" && q["key"] == key
    {
      map[]["q" := cidade]["lang" := "pt"]["key" := key]
    }

    /** `WeatherApiClient.ConsultaClima` */
    function ConsultaClima(cidade: string, outcome: HttpOutcome<WeatherBody>): (r: Exchange<WeatherResponse>)
      ensures r.sent == Some(Get(WeatherApiUri, Query(cidade)))
      ensures r.reply.Return?
      // every error path hands back the empty record, not nil
      ensures r.reply.Failed() ==> r.reply.value == Some(EmptyWeatherResponse)
      ensures outcome.TransportFailure? ==> r.reply.err == Some(Transport(outcome.text))
      // a non-200 status: code 1006 means the city is unknown ...
      ensures r.reply.err == Some(Known(ErrCityNotFound)) <==>
        outcome.Response? && outcome.statusCode != StatusOK && outcome.body.asError.ErrorCode() == CityNotFoundCode
      // ... any other code is reported as the error body itself
      ensures outcome.Response? && outcome.statusCode != StatusOK && outcome.body.asError.ErrorCode() != CityNotFoundCode ==>
        r.reply.err == Some(Upstream(outcome.body.asError))
      // status 200: the decoded record and no error
      ensures r.reply.err.None? <==> outcome.Response? && outcome.statusCode == StatusOK
      ensures r.reply.err.None? ==> r.reply.value == outcome.body.asReading
    {
      var weatherResponse := EmptyWeatherResponse;
      var request := Get(WeatherApiUri, Query(cidade));
      match outcome
      case TransportFailure(text) => Exchange(Some(request), Return(Some(weatherResponse), Some(Transport(text))))
      case Response(statusCode, _, body) =>
        if statusCode != StatusOK then
          if body.asError.ErrorCode() == CityNotFoundCode then
            Exchange(Some(request), Return(Some(weatherResponse), Some(Known(ErrCityNotFound))))
          else
            Exchange(Some(request), Return(Some(weatherResponse), Some(Upstream(body.asError))))
        else
          Exchange(Some(request), Return(body.asReading, None))
    }
  }
}
