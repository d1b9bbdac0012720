/** internal/infra/clients/viacep.go: the postal-code lookup client.

    The HTTP exchange is an input: `outcome` is what the transport produced
    for the request the client builds. The body is the record JSON decoding
    left behind: `None` when the body is the JSON literal `null`, which makes
    the decoder set the record pointer to nil. */
module ViaCep {
  import opened Outcomes
  import opened Erros
  import opened Helpers
  import opened Clients

  const ViaCepUri := "https://viacep.com.br/ws/"
  const Format := "/json/"

  /** The lookup URL, built from the argument as given. */
  function RequestUrl(cep: string): (url: string)
    ensures |url| == |ViaCepUri| + |cep| + |Format|
    ensures url[..|ViaCepUri|] == ViaCepUri && url[|url| - |Format|..] == Format
    ensures url[|ViaCepUri|..|url| - |Format|] == cep
  {
    ViaCepUri + cep + Format
  }

  /** `ViaCepClient.ConsultaCep` */
  function ConsultaCep(cep: string, outcome: HttpOutcome<Option<DadosCepResponse>>): (r: Exchange<DadosCepResponse>)
    // the defensive re-check: an invalid code yields (nil, ErrInvalidZipCode) and no request
    ensures r.sent.None? <==> !ValidateZipCode(cep)
    ensures !ValidateZipCode(cep) ==> r.reply.FailedWith(Known(ErrInvalidZipCode))
    ensures r.sent.Some? ==> r.sent.value == Get(RequestUrl(cep), map[])
    // a request that could not be built or sent: the empty record and the transport's error
    ensures ValidateZipCode(cep) && outcome.TransportFailure? ==>
      r.reply == Return(Some(EmptyDadosCep), Some(Transport(outcome.text)))
    // any status but 200: the empty record and "error fetching data: <status>"
    ensures ValidateZipCode(cep) && outcome.Response? && outcome.statusCode != StatusOK ==>
      r.reply == Return(Some(EmptyDadosCep), Some(FetchFailed(outcome.status)))
    // a body carrying the "erro" marker: the decoded record and ErrZipCodeNotFound
    ensures (ValidateZipCode(cep) && outcome.Response? && outcome.statusCode == StatusOK
             && outcome.body.Some? && outcome.body.value.erro != []) ==>
      r.reply == Return(outcome.body, Some(Known(ErrZipCodeNotFound)))
    // a `null` body leaves a nil record, which the "erro" check dereferences
    ensures r.reply.Panic? <==>
      ValidateZipCode(cep) && outcome.Response? && outcome.statusCode == StatusOK && outcome.body.None?
    // success: only the postal code changes, to its digits
    ensures r.reply.Succeeded() <==>
      ValidateZipCode(cep) && outcome.Response? && outcome.statusCode == StatusOK
      && outcome.body.Some? && outcome.body.value.erro == []
    ensures r.reply.Succeeded() ==>
      var d, v := outcome.body.value, r.reply.value.value;
      v.cep == NormalizeZipCode(d.cep) && AllDigits(v.cep)
      && v.logradouro == d.logradouro && v.complemento == d.complemento && v.bairro == d.bairro
      && v.localidade == d.localidade && v.uf == d.uf && v.erro == d.erro
  {
    if !ValidateZipCode(cep) then Exchange(None, Return(None, Some(Known(ErrInvalidZipCode))))
    else
      var request := Get(RequestUrl(cep), map[]);
      var dadosCep := EmptyDadosCep;
      match outcome
      case TransportFailure(text) => Exchange(Some(request), Return(Some(dadosCep), Some(Transport(text))))
      case Response(statusCode, status, body) =>
        if statusCode != StatusOK then Exchange(Some(request), Return(Some(dadosCep), Some(FetchFailed(status))))
        else
          match body
          case None => Exchange(Some(request), Panic)
          case Some(decoded) =>
            if ByteLen(decoded.erro) > 0 then
              Exchange(Some(request), Return(Some(decoded), Some(Known(ErrZipCodeNotFound))))
            else
              Exchange(Some(request), Return(Some(decoded.(cep := NormalizeZipCode(decoded.cep))), None))
  }
}
