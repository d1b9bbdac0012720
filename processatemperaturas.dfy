/** internal/usecases/processaTemperaturas.go: the front service's use case,
    which validates the postal code and forwards its normalised digits to the
    back service through the injected `CalculaTemperaturasClient`. */
module ProcessaTemperaturas {
  import opened Outcomes
  import opened Erros
  import opened Helpers
  import opened Domain
  import opened Clients

  datatype DadosCepInput = DadosCepInput(cep: string)

  datatype DadosTemperaturasOutput = DadosTemperaturasOutput(
    city: string, celcius: string, fahrenheit: string, kelvin: string)

  datatype ProcessaTemperaturasService = ProcessaTemperaturasService(client: CalculaTemperaturasClient)
  {
    /** `ProcessaTemperaturasService.Execute` */
    function Execute(input: DadosCepInput): (r: Traced<DadosTemperaturasOutput>)
      // an invalid code fails before any call
      ensures !ValidateZipCode(input.cep) ==> r == Traced(Return(None, Some(Known(ErrInvalidZipCode))), [])
      // otherwise one call, with the normalised code rather than the raw input
      ensures ValidateZipCode(input.cep) ==> r.calls == [CalculaTemperaturasCall(NormalizeZipCode(input.cep))]
      // a client error comes back unchanged, with a nil result
      ensures ValidateZipCode(input.cep) && client(NormalizeZipCode(input.cep)).Failed() ==>
        r.reply.FailedWith(client(NormalizeZipCode(input.cep)).err.value)
      ensures r.reply.Succeeded() <==>
        ValidateZipCode(input.cep) && client(NormalizeZipCode(input.cep)).Succeeded()
      // the four fields of the back service's answer, copied
      ensures r.reply.Succeeded() ==>
        var d, t := r.reply.value.value, client(NormalizeZipCode(input.cep)).value.value;
        d.city == t.city && d.celcius == t.celcius && d.fahrenheit == t.fahrenheit && d.kelvin == t.kelvin
      ensures r.reply.Panic? <==>
        ValidateZipCode(input.cep)
        && (client(NormalizeZipCode(input.cep)).Panic? || client(NormalizeZipCode(input.cep)) == Return(None, None))
      ensures r.reply.Return? ==> (r.reply.value.Some? <==> r.reply.err.None?)
    {
      match NewCep(input.cep)
      case Err(e) => Traced(Return(None, Some(Known(e))), [])
      case Ok(cep) =>
        var response := client(cep.Codigo());
        var calls := [CalculaTemperaturasCall(cep.Codigo())];
        match response
        case Panic => Traced(Panic, calls)
        case Return(value, err) =>
          if err.Some? then Traced(Return(None, err), calls)
          else
            match value
            case None => Traced(Panic, calls)
            case Some(t) =>
              Traced(Return(Some(DadosTemperaturasOutput(t.city, t.celcius, t.fahrenheit, t.kelvin)), None), calls)
    }
  }
}
