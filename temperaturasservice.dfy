/** internal/service/temperaturasService.go: the back service's pipeline,
    postal code -> address -> city -> temperatures, stopping at the first
    failure and handing that failure back unchanged. */
module TemperaturasServices {
  import opened Outcomes
  import opened Erros
  import opened Helpers
  import opened Domain
  import opened Clients
  import opened ConsultaCep
  import opened CalculaTemperaturas

  datatype TemperaturasService = TemperaturasService(
    consultaCepUseCase: ConsultaCepUseCase,
    calculaTemperaturasUseCase: CalculaTemperaturasUseCase)
  {
    /** The reply of the postal-code client for the normalised code. */
    function CepReply(cep: string): Reply<DadosCepResponse> {
      consultaCepUseCase.cepClient(NormalizeZipCode(cep))
    }

    /** The reply of the weather client for a city. */
    function WeatherReply(city: string): Reply<WeatherResponse> {
      calculaTemperaturasUseCase.weatherapiClient(city)
    }

    /** `TemperaturasService.Processa` */
    function Processa(cep: string): (r: Traced<DadosTemperaturas>)
      // exactly one of result and error is nil
      ensures r.reply.Return? ==> (r.reply.value.Some? <==> r.reply.err.None?)
      // the postal-code lookup runs exactly when the code is valid, with its digits
      ensures r.calls == [] <==> !ValidateZipCode(cep)
      ensures r.calls != [] ==> r.calls[0] == ConsultaCepCall(NormalizeZipCode(cep))
      // the weather lookup runs exactly when the address came back with a city,
      // and is given that city
      ensures |r.calls| <= 2
      ensures |r.calls| == 2 <==>
        ValidateZipCode(cep) && CepReply(cep).Succeeded() && CepReply(cep).value.value.localidade != []
      ensures |r.calls| == 2 ==> r.calls[1] == ConsultaClimaCall(CepReply(cep).value.value.localidade)
      ensures r.reply.Succeeded() ==> |r.calls| == 2
      // once the weather lookup ran, the temperature stage's outcome is the outcome
      ensures |r.calls| == 2 ==>
        r.reply == calculaTemperaturasUseCase.Execute(Localidade(CepReply(cep).value.value.localidade)).reply
    {
      match NewCep(cep)
      case Err(e) => Traced(Return(None, Some(Known(e))), [])
      case Ok(cepDomain) =>
        var dadosCep := consultaCepUseCase.ConsultaCep(cepDomain);
        match dadosCep.reply
        case Panic => Traced(Panic, dadosCep.calls)
        case Return(value, err) =>
          if err.Some? then Traced(Return(None, err), dadosCep.calls)
          else
            match value
            case None => Traced(Panic, dadosCep.calls)
            case Some(d) =>
              match NewLocalidade(d.localidade)
              case Err(e) => Traced(Return(None, Some(Known(e))), dadosCep.calls)
              case Ok(localidadeDomain) =>
                var dadosTemperaturas := calculaTemperaturasUseCase.Execute(localidadeDomain);
                match dadosTemperaturas.reply
                case Panic => Traced(Panic, dadosCep.calls + dadosTemperaturas.calls)
                case Return(t, err) =>
                  if err.Some? then Traced(Return(None, err), dadosCep.calls + dadosTemperaturas.calls)
                  else Traced(Return(t, None), dadosCep.calls + dadosTemperaturas.calls)
    }
  }

  /** A raw code that `NewCep` rejects fails with ErrInvalidZipCode and
      reaches neither lookup. */
  lemma ProcessaRejectsInvalidCep(s: TemperaturasService, cep: string)
    requires !ValidateZipCode(cep)
    ensures s.Processa(cep) == Traced(Return(None, Some(Known(ErrInvalidZipCode))), [])
  {
  }

  /** An error of the postal-code lookup comes back unchanged, and the weather
      lookup is not reached. */
  lemma ProcessaPropagatesCepError(s: TemperaturasService, cep: string)
    requires ValidateZipCode(cep) && s.CepReply(cep).Failed()
    ensures s.Processa(cep) == Traced(Return(None, s.CepReply(cep).err), [ConsultaCepCall(NormalizeZipCode(cep))])
  {
  }

  /** An address without a city fails with ErrCityIsRequired, and the weather
      lookup is not reached. */
  lemma ProcessaRequiresCity(s: TemperaturasService, cep: string)
    requires ValidateZipCode(cep) && s.CepReply(cep).Succeeded() && s.CepReply(cep).value.value.localidade == []
    ensures s.Processa(cep) == Traced(Return(None, Some(Known(ErrCityIsRequired))), [ConsultaCepCall(NormalizeZipCode(cep))])
  {
  }

  /** An error of the weather lookup comes back unchanged. */
  lemma ProcessaPropagatesWeatherError(s: TemperaturasService, cep: string)
    requires ValidateZipCode(cep) && s.CepReply(cep).Succeeded()
    requires s.CepReply(cep).value.value.localidade != []
    requires s.WeatherReply(s.CepReply(cep).value.value.localidade).Failed()
    ensures s.Processa(cep).reply.FailedWith(s.WeatherReply(s.CepReply(cep).value.value.localidade).err.value)
  {
    var city := s.CepReply(cep).value.value.localidade;
    assert NewLocalidade(city) == Ok(Localidade(city));
  }

  /** On success the result is the temperature stage's output for exactly the
      city the address named, and both lookups ran, in order. */
  lemma ProcessaSuccess(s: TemperaturasService, cep: string)
    requires s.Processa(cep).reply.Succeeded()
    ensures ValidateZipCode(cep) && s.CepReply(cep).Succeeded()
    ensures var city := s.CepReply(cep).value.value.localidade;
      && city != []
      && s.WeatherReply(city).Succeeded()
      && s.Processa(cep).calls == [ConsultaCepCall(NormalizeZipCode(cep)), ConsultaClimaCall(city)]
      && s.Processa(cep).reply == s.calculaTemperaturasUseCase.Execute(Localidade(city)).reply
      && s.Processa(cep).reply.value.value.city == city
  {
    var r := s.Processa(cep);
    var city := s.CepReply(cep).value.value.localidade;
    assert |r.calls| == 2;
    assert r.reply == s.calculaTemperaturasUseCase.Execute(Localidade(city)).reply;
    assert Localidade(city).Name() == city;
  }
}
