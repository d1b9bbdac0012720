/** internal/usecases/calculatemperaturas.go: the temperature use case, which
    asks the injected `WeatherClient` for a city's weather and renders its
    Celsius reading in three scales.

    The two conversions of internal/helpers and the `%.1f` rendering work on
    float64 and are not modelled: the use case is given them as `FloatOps`. */
module CalculaTemperaturas {
  import opened Outcomes
  import opened Domain
  import opened Clients

  datatype DadosTemperaturas = DadosTemperaturas(
    city: string, celcius: string, fahrenheit: string, kelvin: string)

  /** `fmt.Sprintf("%.1f", _)`, `helpers.CelsiusToFahrenheit` and
      `helpers.CelsiusToKelvin`. */
  datatype FloatOps = FloatOps(
    formatOneDecimal: Float64 -> string,
    celsiusToFahrenheit: Float64 -> Float64,
    celsiusToKelvin: Float64 -> Float64)

  datatype CalculaTemperaturasUseCase = CalculaTemperaturasUseCase(weatherapiClient: WeatherClient, floats: FloatOps)
  {
    /** `processaTemperaturas`: the three readings, and no city yet. */
    function ProcessaTemperaturas(weatherResponse: WeatherResponse): (d: DadosTemperaturas)
      ensures d.city == []
      ensures d.celcius == floats.formatOneDecimal(weatherResponse.current.tempC)
      ensures d.fahrenheit == floats.formatOneDecimal(floats.celsiusToFahrenheit(weatherResponse.current.tempC))
      ensures d.kelvin == floats.formatOneDecimal(floats.celsiusToKelvin(weatherResponse.current.tempC))
    {
      var tempC := weatherResponse.current.tempC;
      DadosTemperaturas(
        "",
        floats.formatOneDecimal(tempC),
        floats.formatOneDecimal(floats.celsiusToFahrenheit(tempC)),
        floats.formatOneDecimal(floats.celsiusToKelvin(tempC)))
    }

    /** `CalculaTemperaturasUseCase.Execute` */
    function Execute(localidade: Localidade): (r: Traced<DadosTemperaturas>)
      // one call, with the city's name
      ensures r.calls == [ConsultaClimaCall(localidade.Name())]
      // a client error comes back unchanged, with a nil result
      ensures weatherapiClient(localidade.Name()).Failed() ==>
        r.reply.FailedWith(weatherapiClient(localidade.Name()).err.value)
      ensures r.reply.Succeeded() <==> weatherapiClient(localidade.Name()).Succeeded()
      // the city is the name asked for; the readings come from the reply's Celsius value
      ensures r.reply.Succeeded() ==>
        var d, tempC := r.reply.value.value, weatherapiClient(localidade.Name()).value.value.current.tempC;
        && d.city == localidade.Name()
        && d.celcius == floats.formatOneDecimal(tempC)
        && d.fahrenheit == floats.formatOneDecimal(floats.celsiusToFahrenheit(tempC))
        && d.kelvin == floats.formatOneDecimal(floats.celsiusToKelvin(tempC))
      // (nil, nil) from the client is dereferenced and panics
      ensures r.reply.Panic? <==>
        weatherapiClient(localidade.Name()).Panic? || weatherapiClient(localidade.Name()) == Return(None, None)
      ensures r.reply.Return? ==> (r.reply.value.Some? <==> r.reply.err.None?)
    {
      var weatherResponse := weatherapiClient(localidade.Name());
      var calls := [ConsultaClimaCall(localidade.Name())];
      match weatherResponse
      case Panic => Traced(Panic, calls)
      case Return(value, err) =>
        if err.Some? then Traced(Return(None, err), calls)
        else
          match value
          case None => Traced(Panic, calls)
          case Some(w) =>
            var dadosTemperaturas := ProcessaTemperaturas(w);
            Traced(Return(Some(dadosTemperaturas.(city := localidade.Name())), None), calls)
    }
  }
}
