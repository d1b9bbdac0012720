/** internal/infra/clients/calculateperaturas.go: the front service's client
    for the back service. Only the status code crosses the process boundary,
    so the client re-derives the domain errors from it.

    The HTTP exchange is an input; the body is `None` when decoding leaves the
    named result nil (a `null` or malformed body: the result starts nil and
    the decoding error is ignored). */
module CalculaTemperaturasHttp {
  import opened Outcomes
  import opened Erros
  import opened Clients

  /** The back service's address the front service is built with. */
  const ServiceBUri := "http://service-b:3001/"

  datatype CalculaTemperaturasClientService = CalculaTemperaturasClientService(uri: string)
  {
    /** `fmt.Sprintf("%scidades/%s/temperaturas", uri, cep)` */
    function RequestUrl(cep: string): (url: string)
      ensures |url| == |uri| + |"cidades/"| + |cep| + |"/temperaturas"|
      ensures url[..|uri|] == uri && url[|url| - |"/temperaturas"|..] == "/temperaturas"
      ensures url[|uri + "cidades/"|..|url| - |"/temperaturas"|] == cep
    {
      uri + "cidades/" + cep + "/temperaturas"
    }

    /** `CalculaTemperaturasClientService.CalculaTemperaturas` */
    function CalculaTemperaturas(cep: string, outcome: HttpOutcome<Option<TemperaturasResponse>>): (r: Exchange<TemperaturasResponse>)
      ensures r.sent == Some(Get(RequestUrl(cep), map[]))
      ensures r.reply.Return?
      ensures outcome.TransportFailure? ==> r.reply.FailedWith(Transport(outcome.text))
      ensures outcome.Response? && outcome.statusCode != StatusOK ==>
        r.reply.FailedWith(
          if outcome.statusCode == StatusUnprocessableEntity then Known(ErrInvalidZipCode)
          else if outcome.statusCode == StatusNotFound then Known(ErrZipCodeNotFound)
          else FetchFailed(outcome.status))
      ensures r.reply.err.None? <==> outcome.Response? && outcome.statusCode == StatusOK
      ensures r.reply.err.None? ==> r.reply.value == outcome.body
    {
      var response: Option<TemperaturasResponse> := None;
      var request := Get(RequestUrl(cep), map[]);
      match outcome
      case TransportFailure(text) => Exchange(Some(request), Return(response, Some(Transport(text))))
      case Response(statusCode, status, body) =>
        if statusCode != StatusOK then
          if statusCode == StatusUnprocessableEntity then
            Exchange(Some(request), Return(response, Some(Known(ErrInvalidZipCode))))
          else if statusCode == StatusNotFound then
            Exchange(Some(request), Return(response, Some(Known(ErrZipCodeNotFound))))
          else
            Exchange(Some(request), Return(response, Some(FetchFailed(status))))
        else
          Exchange(Some(request), Return(body, None))
    }
  }
}
