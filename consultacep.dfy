/** internal/usecases/consultacep.go: the postal-code lookup use case, which
    delegates to the injected `CepClient` and copies the address fields. */
module ConsultaCep {
  import opened Outcomes
  import opened Helpers
  import opened Domain
  import opened Clients

  /** The address the use case returns: the lookup record without `Erro`. */
  datatype DadosCep = DadosCep(
    cep: string, logradouro: string, complemento: string, bairro: string,
    localidade: string, uf: string)

  /** The six address fields are equal. */
  predicate CopiesAddress(from: DadosCepResponse, to: DadosCep) {
    && to.cep == from.cep && to.logradouro == from.logradouro
    && to.complemento == from.complemento && to.bairro == from.bairro
    && to.localidade == from.localidade && to.uf == from.uf
  }

  datatype ConsultaCepUseCase = ConsultaCepUseCase(cepClient: CepClient)
  {
    /** `ConsultaCepUseCase.ConsultaCep` */
    function ConsultaCep(cep: Cep): (r: Traced<DadosCep>)
      // one call, with the normalised code
      ensures r.calls == [ConsultaCepCall(cep.Codigo())]
      // a client error comes back unchanged, with a nil result
      ensures cepClient(cep.Codigo()).Failed() ==> r.reply.FailedWith(cepClient(cep.Codigo()).err.value)
      ensures r.reply.Succeeded() <==> cepClient(cep.Codigo()).Succeeded()
      ensures r.reply.Succeeded() ==> CopiesAddress(cepClient(cep.Codigo()).value.value, r.reply.value.value)
      // a panicking client, or one answering (nil, nil), makes the copy panic
      ensures r.reply.Panic? <==>
        cepClient(cep.Codigo()).Panic? || cepClient(cep.Codigo()) == Return(None, None)
      // exactly one of result and error is nil
      ensures r.reply.Return? ==> (r.reply.value.Some? <==> r.reply.err.None?)
    {
      var dadosCep := cepClient(cep.Codigo());
      var calls := [ConsultaCepCall(cep.Codigo())];
      match dadosCep
      case Panic => Traced(Panic, calls)
      case Return(value, err) =>
        if err.Some? then Traced(Return(None, err), calls)
        else
          match value
          case None => Traced(Panic, calls)
          case Some(d) =>
            Traced(Return(Some(DadosCep(d.cep, d.logradouro, d.complemento, d.bairro, d.localidade, d.uf)), None), calls)
    }

    /** `ValidateCep`: Go's `len(cep) == 8`, counting bytes and normalising
        nothing. Nothing in the repository calls it. */
    predicate ValidateCep(cep: string)
      // 8 bytes are 2 to 8 runes; for ASCII input, exactly 8 runes
      ensures ValidateCep(cep) ==> 2 <= |cep| <= 8
      ensures (forall i :: 0 <= i < |cep| ==> cep[i] as int < 0x80) ==> (ValidateCep(cep) <==> |cep| == 8)
    {
      if forall i :: 0 <= i < |cep| ==> cep[i] as int < 0x80 then
        ByteLenAscii(cep);
        ByteLen(cep) == 8
      else
        ByteLen(cep) == 8
    }
  }

  /** Every code a `Cep` holds passes `ValidateCep`. */
  lemma ValidateCepAcceptsEveryCep(u: ConsultaCepUseCase, c: Cep)
    requires c.Valid()
    ensures u.ValidateCep(c.Codigo())
  {
  }

  /** On a string of ASCII digits `ValidateCep` and `ValidateZipCode` agree;
      they part ways only on input that normalisation would change. */
  lemma ValidateCepAgreesOnAsciiDigits(u: ConsultaCepUseCase, s: string)
    requires forall i :: 0 <= i < |s| ==> '0' <= s[i] <= '9'
    ensures u.ValidateCep(s) <==> ValidateZipCode(s)
  {
    NormalizeFixesExactlyDigitStrings(s);
    ByteLenAscii(s);
  }
}
