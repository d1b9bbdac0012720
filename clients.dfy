/** internal/infra/clients/clients.go: the records the HTTP clients decode,
    the weather API's error body, and the values every client and use case
    hands back.

    Go's `error` values that reach this code are the `Error` datatype; a Go
    `(*T, error)` pair is a `Reply<T>`; the calls made through the injected
    client interfaces are recorded as `Call`s. */
module Clients {
  import opened Outcomes
  import opened Erros
  import Fmt

  /** The body of the postal-code lookup API. */
  datatype DadosCepResponse = DadosCepResponse(
    cep: string, logradouro: string, complemento: string, bairro: string,
    localidade: string, uf: string, erro: string)

  /** The zero value `&DadosCepResponse{}`. */
  const EmptyDadosCep := DadosCepResponse("", "", "", "", "", "", "")

  /** An IEEE-754 binary64 value, kept as its bit pattern; no arithmetic on it
      is part of this model. */
  type Float64 = bv64

  datatype Location = Location(name: string, region: string, country: string)

  datatype Current = Current(tempC: Float64, tempF: Float64, humidity: int)

  /** The body of the weather API on success. */
  datatype WeatherResponse = WeatherResponse(location: Location, current: Current)

  /** The zero value `&WeatherResponse{}`. */
  const EmptyWeatherResponse := WeatherResponse(Location("", "", ""), Current(0, 0, 0))

  /** The body of the weather API on failure, also used as an error value. */
  datatype WeatherErrorResponse = WeatherErrorResponse(code: int, message: string)
  {
    /** The code, which the error's text begins with and gives back. */
    function ErrorCode(): (c: int)
      ensures |Fmt.FormatInt(c)| <= |Error()| && Error()[..|Fmt.FormatInt(c)|] == Fmt.FormatInt(c)
      ensures Fmt.ParseInt(Error()[..|Fmt.FormatInt(c)|]) == c
    {
      Fmt.ParseFormatInt(code);
      code
    }

    /** The message, which the error's text ends with. */
    function ErrorMessage(): (m: string)
      ensures |m| <= |Error()| && Error()[|Error()| - |m|..] == m
    {
      message
    }

    /** `fmt.Sprintf("%d :: %s", Code, Message)`: the code's `%d` rendering,
        the separator, then the message. */
    function Error(): (text: string)
      ensures |text| == |Fmt.FormatInt(code)| + 4 + |message|
      ensures text[..|Fmt.FormatInt(code)|] == Fmt.FormatInt(code)
      ensures text[|Fmt.FormatInt(code)|..|Fmt.FormatInt(code)| + 4] == " :: "
      ensures text[|Fmt.FormatInt(code)| + 4..] == message
    {
      Fmt.FormatInt(code) + " :: " + message
    }
  }

  function NewWeatherErrorResponse(code: int, message: string): (r: WeatherErrorResponse)
    ensures r.ErrorCode() == code && r.ErrorMessage() == message
  {
    WeatherErrorResponse(code, message)
  }

  /** The text of a weather error determines both its code and its message,
      although the message itself may contain " :: ". */
  lemma {:induction false} ErrorTextDeterminesResponse(a: WeatherErrorResponse, b: WeatherErrorResponse)
    ensures a.Error() == b.Error() <==> a == b
  {
    if a.Error() == b.Error() {
      var x, y := Fmt.FormatInt(a.code), Fmt.FormatInt(b.code);
      var t := a.Error();
      // the code's rendering has no blank, so the first blank of t ends it
      assert t[|x|] == ' ' && t[|y|] == ' ';
      assert x == t[..|x|] == y;
      assert a.message == t[|x| + 4..] == b.message;
      Fmt.ParseFormatInt(a.code);
      Fmt.ParseFormatInt(b.code);
    }
  }

  /** The body the front service receives from the back service. */
  datatype TemperaturasResponse = TemperaturasResponse(
    city: string, celcius: string, fahrenheit: string, kelvin: string)

  /** The Go `error` values that reach the core. */
  datatype Error =
    | Known(sentinel: Sentinel)             // one of the four sentinels of internal/erros
    | FetchFailed(status: string)           // fmt.Errorf("error fetching data: %s", resp.Status)
    | Transport(text: string)               // an error returned by net/http while building or sending a request
    | Upstream(body: WeatherErrorResponse)  // the weather API's error body itself
  {
    /** `err.Error()` */
    function Text(): (t: string)
      ensures Known? ==> t == sentinel.Message()
      ensures FetchFailed? ==> |"error fetching data: "| <= |t| && t[..|"error fetching data: "|] == "error fetching data: "
      ensures Upstream? ==> t == body.Error()
    {
      match this
      case Known(s) => s.Message()
      case FetchFailed(status) => "error fetching data: " + status
      case Transport(text) => text
      case Upstream(body) => body.Error()
    }

    /** `errors.Is(err, target)`: no error chain here contains one of the four
        sentinels except that sentinel itself (the `*url.Error`s of net/http
        wrap transport causes only), so an error matches only the sentinel it
        is, and then reads as its message. */
    predicate Is(target: Sentinel)
      ensures Is(target) ==> Known? && Text() == target.Message()
      ensures !Known? ==> !Is(target)
    {
      this == Known(target)
    }
  }

  /** What a Go function returning `(*T, error)` does: returns the pair
      (`None` standing for nil), or panics on a nil pointer dereference. */
  datatype Reply<T> = Return(value: Option<T>, err: Option<Error>) | Panic
  {
    predicate Failed() { Return? && err.Some? }

    /** `(nil, err)`: the Go idiom every use case follows on failure. */
    predicate FailedWith(e: Error) { this == Return(None, Some(e)) }

    /** `(&v, nil)` */
    predicate Succeeded() { Return? && err.None? && value.Some? }
  }

  /** A call through one of the client interfaces, with its argument. */
  datatype Call =
    | ConsultaCepCall(cep: string)                  // CepClient.ConsultaCep
    | ConsultaClimaCall(cidade: string)             // WeatherClient.ConsultaClima
    | CalculaTemperaturasCall(cep: string)          // CalculaTemperaturasClient.CalculaTemperaturas

  /** A reply together with the client calls made to produce it, in order. */
  datatype Traced<T> = Traced(reply: Reply<T>, calls: seq<Call>)

  /** The client interfaces, as the functions the use cases are given. */
  type CepClient = string -> Reply<DadosCepResponse>
  type WeatherClient = string -> Reply<WeatherResponse>
  type CalculaTemperaturasClient = string -> Reply<TemperaturasResponse>

  /** What the transport produced for one request: a failure to build or send
      it, or a response with its status code, its status line ("404 Not
      Found") and its body as JSON decoding left it. */
  datatype HttpOutcome<B> = TransportFailure(text: string) | Response(statusCode: int, status: string, body: B)

  const StatusOK := 200
  const StatusNotFound := 404
  const StatusUnprocessableEntity := 422
  const StatusInternalServerError := 500

  /** A GET request: its URL without query, and its query parameters. */
  datatype Request = Get(url: string, query: map<string, string>)

  /** What an HTTP client did: the request it sent, if any, and its reply. */
  datatype Exchange<T> = Exchange(sent: Option<Request>, reply: Reply<T>)
}
