/** internal/handlers/handlers.go: the two HTTP entry points. Each runs its
    pipeline and turns the outcome into a status code and a body; the two
    error tables decide which domain errors the caller sees as 422 and 404.

    A handler's response is the status and body it writes. `Aborted` is a
    handler that panicked: net/http recovers the panic and drops the
    connection without a response. */
module Handlers {
  import opened Outcomes
  import opened Erros
  import opened Helpers
  import opened Clients
  import opened ProcessaTemperaturas
  import opened CalculaTemperaturas
  import opened TemperaturasServices

  /** A body written by `http.Error` (plain text), or the JSON encoding of a
      result pointer (`null` for nil). */
  datatype Body<T> = Text(text: string) | Json(value: Option<T>)

  datatype HttpResponse<T> = Written(statusCode: int, body: Body<T>) | Aborted

  /** A response with the client calls the handler's pipeline made. */
  datatype Handled<T> = Handled(response: HttpResponse<T>, calls: seq<Call>)

  const InternalServerErrorText := "Internal Server Error"

  /** A response written by `http.Error`: a status and a plain-text body. */
  datatype ErrorReply = ErrorReply(statusCode: int, text: string)
  {
    function Response<T>(): HttpResponse<T> { Written(statusCode, Text(text)) }
  }

  /** The front handler's error table: only the code's own errors get their
      own status; every error's text is shown to the caller. */
  function CapturaErrorResponse(err: Error): (r: ErrorReply)
    ensures r.text == err.Text()
    ensures r.statusCode == StatusUnprocessableEntity <==> err.Is(ErrInvalidZipCode)
    ensures r.statusCode == StatusNotFound <==> err.Is(ErrZipCodeNotFound)
    ensures r.statusCode in {StatusUnprocessableEntity, StatusNotFound, StatusInternalServerError}
  {
    if err.Is(ErrInvalidZipCode) then ErrorReply(StatusUnprocessableEntity, err.Text())
    else if err.Is(ErrZipCodeNotFound) then ErrorReply(StatusNotFound, err.Text())
    else ErrorReply(StatusInternalServerError, err.Text())
  }

  /** The back handler's error table: a bad code and a missing city are the
      caller's fault (422), an unknown code or city is 404; anything else is
      500 and its text is not shown. */
  function ProcessaErrorResponse(err: Error): (r: ErrorReply)
    ensures r.statusCode == StatusUnprocessableEntity <==>
      err.Is(ErrInvalidZipCode) || err.Is(ErrCityIsRequired)
    ensures r.statusCode == StatusNotFound <==>
      err.Is(ErrZipCodeNotFound) || err.Is(ErrCityNotFound)
    ensures r.statusCode in {StatusUnprocessableEntity, StatusNotFound, StatusInternalServerError}
    // the error's own text reaches the caller exactly when it is one of the four sentinels
    ensures r.text == if err.Known? then err.Text() else InternalServerErrorText
  {
    if err.Is(ErrInvalidZipCode) || err.Is(ErrCityIsRequired) then
      ErrorReply(StatusUnprocessableEntity, err.Text())
    else if err.Is(ErrZipCodeNotFound) || err.Is(ErrCityNotFound) then
      ErrorReply(StatusNotFound, err.Text())
    else
      ErrorReply(StatusInternalServerError, InternalServerErrorText)
  }

  /** The request body as the handler obtains it: a failure to read it, or
      the input JSON decoding left (the zero input when it is malformed). */
  datatype RequestBody = ReadFailure(text: string) | Parsed(input: DadosCepInput)

  /** `CapturaTemperaturasHandler`, the front service's `POST /temperaturas`. */
  function CapturaTemperaturasHandler(request: RequestBody, service: ProcessaTemperaturasService)
    : (h: Handled<DadosTemperaturasOutput>)
    ensures request.ReadFailure? ==>
      h == Handled(Written(StatusInternalServerError, Text(request.text)), [])
    // an invalid code is answered 422 before the pipeline runs
    ensures request.Parsed? && !ValidateZipCode(request.input.cep) ==>
      h == Handled(Written(StatusUnprocessableEntity, Text(ErrInvalidZipCode.Message())), [])
    // otherwise the use case's calls; its error through the front table; its result as JSON
    ensures request.Parsed? && ValidateZipCode(request.input.cep) ==>
      var e := service.Execute(request.input);
      && h.calls == e.calls
      && (e.reply.Failed() ==> h.response == CapturaErrorResponse(e.reply.err.value).Response())
      && (e.reply.Panic? <==> h.response.Aborted?)
      && (e.reply.Succeeded() <==> h.response.Written? && h.response.statusCode == StatusOK)
      && (e.reply.Succeeded() ==> h.response.body == Json(e.reply.value))
  {
    match request
    case ReadFailure(text) => Handled(Written(StatusInternalServerError, Text(text)), [])
    case Parsed(dadosInput) =>
      if !ValidateZipCode(dadosInput.cep) then
        Handled(Written(StatusUnprocessableEntity, Text(ErrInvalidZipCode.Message())), [])
      else
        var dados := service.Execute(dadosInput);
        match dados.reply
        case Panic => Handled(Aborted, dados.calls)
        case Return(value, err) =>
          if err.Some? then Handled(CapturaErrorResponse(err.value).Response(), dados.calls)
          else Handled(Written(StatusOK, Json(value)), dados.calls)
  }

  /** The handler's own check of the code changes nothing: the use case would
      have refused the same input, with the same status and text, before
      making any call. */
  lemma CapturaValidationMatchesUseCase(service: ProcessaTemperaturasService, input: DadosCepInput)
    requires !ValidateZipCode(input.cep)
    ensures var e := service.Execute(input);
      && e.calls == []
      && e.reply.Failed()
      && CapturaTemperaturasHandler(Parsed(input), service).response == CapturaErrorResponse(e.reply.err.value).Response()
  {
  }

  /** `ProcessaTemperaturasHandler`, the back service's
      `GET /cidades/{cep}/temperaturas`. */
  function ProcessaTemperaturasHandler(cepPathValue: string, service: TemperaturasService)
    : (h: Handled<DadosTemperaturas>)
    ensures var p := service.Processa(cepPathValue);
      && h.calls == p.calls
      && (p.reply.Failed() ==> h.response == ProcessaErrorResponse(p.reply.err.value).Response())
      && (p.reply.Panic? <==> h.response.Aborted?)
      && (p.reply.Succeeded() <==> h.response.Written? && h.response.statusCode == StatusOK)
      && (p.reply.Succeeded() ==> h.response.body == Json(p.reply.value))
  {
    var p := service.Processa(cepPathValue);
    match p.reply
    case Panic => Handled(Aborted, p.calls)
    case Return(dadosTemperaturas, err) =>
      if err.Some? then Handled(ProcessaErrorResponse(err.value).Response(), p.calls)
      else Handled(Written(StatusOK, Json(dadosTemperaturas)), p.calls)
  }

  /** Whatever happens upstream, the back handler answers 200, 404, 422 or
      500, or aborts; 200 always carries a result. */
  lemma ProcessaHandlerStatuses(cepPathValue: string, service: TemperaturasService)
    ensures var r := ProcessaTemperaturasHandler(cepPathValue, service).response;
      r.Written? ==>
        && r.statusCode in {StatusOK, StatusUnprocessableEntity, StatusNotFound, StatusInternalServerError}
        && (r.statusCode == StatusOK <==> r.body.Json?)
        && (r.body.Json? ==> r.body.value.Some?)
  {
  }

  /** A code the back service rejects is answered 422 "invalid zipcode", and
      no lookup is made. */
  lemma ProcessaHandlerRejectsInvalidCep(cepPathValue: string, service: TemperaturasService)
    requires !ValidateZipCode(cepPathValue)
    ensures ProcessaTemperaturasHandler(cepPathValue, service)
      == Handled(Written(StatusUnprocessableEntity, Text(ErrInvalidZipCode.Message())), [])
  {
    ProcessaRejectsInvalidCep(service, cepPathValue);
  }
}
