/** The two services wired together as cmd/valida-cep and cmd/previsao wire
    them: the front service's client sends the normalised code to the back
    service's handler, whose response comes back over HTTP. Only the status
    code and, on 200, the JSON body cross that boundary. */
module Pipeline {
  import opened Outcomes
  import opened Erros
  import opened Helpers
  import Fmt
  import opened Clients
  import opened CalculaTemperaturasHttp
  import opened ProcessaTemperaturas
  import opened CalculaTemperaturas
  import opened TemperaturasServices
  import opened Handlers
  import opened ConsultaCep
  import ViaCep
  import opened WeatherApi

  /** `http.StatusText` for the four statuses the back handler writes, the
      only ones that reach the front client; other codes are not modelled and
      get the empty text here, where net/http has its own (502 is
      "Bad Gateway"). */
  function StatusText(code: int): (text: string)
    ensures text != [] <==>
      code in {StatusOK, StatusNotFound, StatusUnprocessableEntity, StatusInternalServerError}
  {
    if code == StatusOK then "OK"
    else if code == StatusNotFound then "Not Found"
    else if code == StatusUnprocessableEntity then "Unprocessable Entity"
    else if code == StatusInternalServerError then "Internal Server Error"
    else ""
  }

  /** The status line `resp.Status` a Go client sees: the code, a blank and
      its text. */
  function StatusLine(code: int): (line: string)
    // the line starts with the code, which reads back, and a blank ends it
    ensures |line| > |Fmt.FormatInt(code)| && line[|Fmt.FormatInt(code)|] == ' '
    ensures line[..|Fmt.FormatInt(code)|] == Fmt.FormatInt(code)
    ensures Fmt.ParseInt(line[..|Fmt.FormatInt(code)|]) == code
  {
    Fmt.ParseFormatInt(code);
    var line := Fmt.FormatInt(code) + " " + StatusText(code);
    assert line[..|Fmt.FormatInt(code)|] == Fmt.FormatInt(code);
    line
  }

  /** The result record the back service encodes, as the front service
      decodes it: both name their fields city, temp_C, temp_F and temp_K. */
  function Decoded(d: DadosTemperaturas): (t: TemperaturasResponse)
    ensures t.city == d.city && t.celcius == d.celcius && t.fahrenheit == d.fahrenheit && t.kelvin == d.kelvin
  {
    TemperaturasResponse(d.city, d.celcius, d.fahrenheit, d.kelvin)
  }

  /** What the front service's transport makes of the back handler's response.
      A dropped connection is a transport failure with text `abortText`; a
      plain-text body does not decode, which leaves the result nil. */
  function Deliver(response: HttpResponse<DadosTemperaturas>, abortText: string)
    : (o: HttpOutcome<Option<TemperaturasResponse>>)
    ensures response.Aborted? <==> o.TransportFailure?
    ensures response.Aborted? ==> o.text == abortText
    ensures response.Written? ==>
      && o.statusCode == response.statusCode
      && o.status == StatusLine(response.statusCode)
      && (o.body.Some? <==> response.body.Json? && response.body.value.Some?)
      && (o.body.Some? ==> o.body.value == Decoded(response.body.value.value))
  {
    match response
    case Aborted => TransportFailure(abortText)
    case Written(code, Text(_)) => Response(code, StatusLine(code), None)
    case Written(code, Json(value)) =>
      Response(code, StatusLine(code), if value.Some? then Some(Decoded(value.value)) else None)
  }

  /** Every sentinel the back table maps to 422 or 404, once the front
      service's client has turned that status back into an error, maps to the
      same status in the front table; no sentinel becomes 500 at the back. */
  lemma ErrorTablesAgreeThroughStatus(s: Sentinel, cep: string)
    ensures var back := ProcessaErrorResponse(Known(s)).statusCode;
      var reply := CalculaTemperaturasClientService(ServiceBUri).CalculaTemperaturas(
        cep, Response(back, StatusLine(back), None)).reply;
      && back != StatusInternalServerError
      && reply.Failed()
      && CapturaErrorResponse(reply.err.value).statusCode == back
  {
  }

  /** The front service's `CalculaTemperaturasClient`, talking to `back`
      through the route `GET /cidades/{cep}/temperaturas`: the path value the
      back handler reads is the code the client put in the URL. */
  function FrontClient(back: TemperaturasService, abortText: string): CalculaTemperaturasClient {
    cep => FrontReply(back, abortText, cep)
  }

  /** The reply of the front service's client for one code. */
  function FrontReply(back: TemperaturasService, abortText: string, cep: string): Reply<TemperaturasResponse> {
    CalculaTemperaturasClientService(ServiceBUri).CalculaTemperaturas(
      cep, Deliver(ProcessaTemperaturasHandler(cep, back).response, abortText)).reply
  }

  /** The front service's handler in front of the back service. */
  function Front(request: RequestBody, back: TemperaturasService, abortText: string)
    : (h: Handled<DadosTemperaturasOutput>)
    ensures request.Parsed? && ValidateZipCode(request.input.cep) ==>
      h.calls == [CalculaTemperaturasCall(NormalizeZipCode(request.input.cep))]
  {
    CapturaTemperaturasHandler(request, ProcessaTemperaturasService(FrontClient(back, abortText)))
  }

  /** The back service, given the code the front service forwards, sees the
      same digits again and looks them up unchanged. */
  lemma {:induction false} BackSeesForwardedCode(back: TemperaturasService, cep: string)
    requires ValidateZipCode(cep)
    ensures ValidateZipCode(NormalizeZipCode(cep))
    ensures ProcessaTemperaturasHandler(NormalizeZipCode(cep), back).calls[0] == ConsultaCepCall(NormalizeZipCode(cep))
  {
    ValidateIgnoresNormalization(cep);
    NormalizeIdempotent(cep);
  }

  /** End to end, for a code the front service accepts: the caller gets the
      back service's status, and on 200 its result, field for field. The texts
      are the front service's own: every 422 reads "invalid zipcode", every
      404 "can not find zipcode" (a city the weather API does not know
      included), and a 500 names the back service's status line, or is the
      transport's text when the back handler dropped the connection. */
  lemma EndToEnd(input: DadosCepInput, back: TemperaturasService, abortText: string)
    requires ValidateZipCode(input.cep)
    ensures var b := ProcessaTemperaturasHandler(NormalizeZipCode(input.cep), back).response;
      var f := Front(Parsed(input), back, abortText).response;
      && (b.Aborted? ==> f == Written(StatusInternalServerError, Text(abortText)))
      && (b.Written? ==> f.Written? && f.statusCode == b.statusCode)
      && (b.Written? && b.statusCode == StatusOK ==>
            var d := b.body.value.value;
            f.body == Json(Some(DadosTemperaturasOutput(d.city, d.celcius, d.fahrenheit, d.kelvin))))
      && (b.Written? && b.statusCode == StatusUnprocessableEntity ==>
            f.body == Text(ErrInvalidZipCode.Message()))
      && (b.Written? && b.statusCode == StatusNotFound ==>
            f.body == Text(ErrZipCodeNotFound.Message()))
      && (b.Written? && b.statusCode == StatusInternalServerError ==>
            f.body == Text("error fetching data: " + StatusLine(StatusInternalServerError)))
  {
    var cep := NormalizeZipCode(input.cep);
    var h := ProcessaTemperaturasHandler(cep, back);
    ProcessaHandlerStatuses(cep, back);
    var reply := FrontClient(back, abortText)(cep);
    assert reply == CalculaTemperaturasClientService(ServiceBUri).CalculaTemperaturas(
      cep, Deliver(h.response, abortText)).reply;
    if h.response.Written? && h.response.statusCode == StatusOK {
      assert reply.Succeeded();
    }
  }

  /** A city the weather API does not know is answered 404 by the back
      service and, through it, by the front service. */
  lemma CityNotFoundReachesCallerAs404(input: DadosCepInput, back: TemperaturasService, abortText: string)
    requires ValidateZipCode(input.cep)
    requires back.Processa(NormalizeZipCode(input.cep)).reply.FailedWith(Known(ErrCityNotFound))
    ensures ProcessaTemperaturasHandler(NormalizeZipCode(input.cep), back).response
      == Written(StatusNotFound, Text(ErrCityNotFound.Message()))
    ensures Front(Parsed(input), back, abortText).response
      == Written(StatusNotFound, Text(ErrZipCodeNotFound.Message()))
  {
    EndToEnd(input, back, abortText);
  }

  /** The back service as cmd/previsao builds it: the postal-code lookup and
      weather clients over a network that answers each request. */
  function BackService(
    viacepNet: Request -> HttpOutcome<Option<DadosCepResponse>>,
    weatherNet: Request -> HttpOutcome<WeatherBody>,
    key: string, floats: FloatOps): TemperaturasService
  {
    TemperaturasService(
      ConsultaCepUseCase(cep => ViaCepReply(viacepNet, cep)),
      CalculaTemperaturasUseCase(cidade => WeatherReply(weatherNet, key, cidade), floats))
  }

  /** The postal-code lookup client's reply when the network answers its request. */
  function ViaCepReply(viacepNet: Request -> HttpOutcome<Option<DadosCepResponse>>, cep: string)
    : Reply<DadosCepResponse>
  {
    ViaCep.ConsultaCep(cep, viacepNet(Get(ViaCep.RequestUrl(cep), map[]))).reply
  }

  /** The weather client's reply when the network answers its request. */
  function WeatherReply(weatherNet: Request -> HttpOutcome<WeatherBody>, key: string, cidade: string)
    : Reply<WeatherResponse>
  {
    var client := WeatherApiClient(key);
    client.ConsultaClima(cidade, weatherNet(Get(WeatherApiUri, client.Query(cidade)))).reply
  }

  /** An address the lookup API marks with "erro" is answered 404
      "can not find zipcode", and the weather API is not asked. */
  lemma BackAnswersErroMarkerWith404(
    viacepNet: Request -> HttpOutcome<Option<DadosCepResponse>>,
    weatherNet: Request -> HttpOutcome<WeatherBody>,
    key: string, floats: FloatOps, cep: string)
    requires ValidateZipCode(cep)
    requires var o := viacepNet(Get(ViaCep.RequestUrl(NormalizeZipCode(cep)), map[]));
      o.Response? && o.statusCode == StatusOK && o.body.Some? && o.body.value.erro != []
    ensures ProcessaTemperaturasHandler(cep, BackService(viacepNet, weatherNet, key, floats))
      == Handled(Written(StatusNotFound, Text(ErrZipCodeNotFound.Message())), [ConsultaCepCall(NormalizeZipCode(cep))])
  {
    var back := BackService(viacepNet, weatherNet, key, floats);
    ValidateIgnoresNormalization(cep);
    assert back.CepReply(cep) == ViaCepReply(viacepNet, NormalizeZipCode(cep));
    ProcessaPropagatesCepError(back, cep);
  }

  /** A city the weather API answers with code 1006 is answered 404
      "can not find city" by the back service. */
  lemma BackAnswersUnknownCityWith404(
    viacepNet: Request -> HttpOutcome<Option<DadosCepResponse>>,
    weatherNet: Request -> HttpOutcome<WeatherBody>,
    key: string, floats: FloatOps, cep: string)
    requires ValidateZipCode(cep)
    requires var o := viacepNet(Get(ViaCep.RequestUrl(NormalizeZipCode(cep)), map[]));
      && o.Response? && o.statusCode == StatusOK && o.body.Some? && o.body.value.erro == []
      && o.body.value.localidade != []
      && var w := weatherNet(Get(WeatherApiUri, WeatherApiClient(key).Query(o.body.value.localidade)));
        w.Response? && w.statusCode != StatusOK && w.body.asError.ErrorCode() == CityNotFoundCode
    ensures ProcessaTemperaturasHandler(cep, BackService(viacepNet, weatherNet, key, floats)).response
      == Written(StatusNotFound, Text(ErrCityNotFound.Message()))
  {
    var back := BackService(viacepNet, weatherNet, key, floats);
    ValidateIgnoresNormalization(cep);
    var city := viacepNet(Get(ViaCep.RequestUrl(NormalizeZipCode(cep)), map[])).body.value.localidade;
    assert back.CepReply(cep) == ViaCepReply(viacepNet, NormalizeZipCode(cep));
    assert back.CepReply(cep).value.value.localidade == city;
    assert back.WeatherReply(city) == WeatherReply(weatherNet, key, city);
    ProcessaPropagatesWeatherError(back, cep);
  }

  /** A `null` body from the lookup API makes the back handler panic, so the
      front service answers 500 with its transport's text. */
  lemma NullAddressAbortsBackAndFails500AtFront(
    viacepNet: Request -> HttpOutcome<Option<DadosCepResponse>>,
    weatherNet: Request -> HttpOutcome<WeatherBody>,
    key: string, floats: FloatOps, input: DadosCepInput, abortText: string)
    requires ValidateZipCode(input.cep)
    requires var o := viacepNet(Get(ViaCep.RequestUrl(NormalizeZipCode(input.cep)), map[]));
      o.Response? && o.statusCode == StatusOK && o.body.None?
    ensures var back := BackService(viacepNet, weatherNet, key, floats);
      && ProcessaTemperaturasHandler(NormalizeZipCode(input.cep), back).response == Aborted
      && Front(Parsed(input), back, abortText).response == Written(StatusInternalServerError, Text(abortText))
  {
    var back := BackService(viacepNet, weatherNet, key, floats);
    var cep := NormalizeZipCode(input.cep);
    BackSeesForwardedCode(back, input.cep);
    NormalizeIdempotent(input.cep);
    assert back.CepReply(cep) == ViaCepReply(viacepNet, cep);
    assert back.CepReply(cep).Panic?;
    EndToEnd(input, back, abortText);
  }
}
