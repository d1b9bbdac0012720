# Postal code → city → temperature: a Dafny model of the validation and error routing

The repository runs two HTTP services:

- The **front service** (`POST /temperaturas`) takes a Brazilian postal code (CEP) in a JSON body. It validates the code and forwards the code's digits to the back service.
- The **back service** (`GET /cidades/{cep}/temperaturas`) looks the code up in the ViaCEP address API. It takes the city (`localidade`) from the address and asks WeatherAPI for that city's current temperature. It returns the temperature in Celsius, Fahrenheit and Kelvin.

Every stage can fail:

- Failures are one of four sentinel errors, an error built from an upstream answer, or a transport error from net/http (a connection that cannot be made, times out or is dropped). The front handler can also fail to read its request body.
- Each stage hands its failure back unchanged.
- Each handler's error table then turns the failure into an HTTP status.

This project models that path, layer by layer, as pure functions over datatypes. The modelled code has no loops and keeps no state between calls; the only in-place writes fill a record that was just allocated. Outside it there is shared state: the configuration singleton the weather client reads its API key from when it is built (here the key is a field of the client), and net/http's default transport and default client, whose shared connection pool matters only for the retries under "## Left out". The layers are:

- `helpers.dfy`: `NormalizeZipCode` and `ValidateZipCode`.
  - Strings are sequences of runes (Dafny `char`s are Unicode scalar values).
  - Go's `len` is the UTF-8 byte count (`ByteLen`).
  - `IsDigit` follows Go's `unicode.IsDigit`: in Latin-1 only `'0'..'9'`, above it the decimal-digit category Nd of Unicode 15.0.
- `erros.dfy`: the four sentinel errors and their messages.
- `domain.dfy`: the smart constructors `NewCep` and `NewLocalidade`.
- `fmt.dfy`: `%d` rendering of an integer, and its inverse.
- `clients.dfy`: the decoded records, the weather API's error value, and the shared shapes:
  - `Error` is the Go errors that reach the core. `errors.Is` is constructor equality, since no error wraps one of the four sentinels: the `*url.Error`s net/http returns wrap only transport causes.
  - `Reply<T>` is a Go `(*T, error)` pair, or a panic on a nil dereference.
  - `Call` is one call through an injected client interface.
  - `HttpOutcome` is what the transport produced: a failure, or a status code, a status line and the body as JSON decoding left it.
- `viacep.dfy`, `weatherapi.dfy`, `calculateperaturas.dfy`: the three HTTP clients.
  - Each is a function of its argument and an `HttpOutcome`.
  - Each returns the request it sent and its reply.
- `consultacep.dfy`, `calculatemperaturas.dfy`, `processatemperaturas.dfy`: the use cases.
  - Each is a datatype that holds its injected clients as functions.
  - Each returns its reply together with the calls it made (`Traced`). This is how "the weather lookup is not reached" and "the client receives the normalised code" are stated.
- `temperaturasservice.dfy`: the back service's four-stage pipeline.
- `handlers.dfy`: the two handlers and their error→status tables. A handler that panics is `Aborted`: net/http recovers the panic and drops the connection.
- `pipeline.dfy`: the two services wired together.
  - The back handler's response is delivered to the front service's client.
  - End-to-end lemmas state which status and body the caller finally sees.

Go panics are part of the model:

- A JSON `null` body leaves a decoded pointer nil, which the code then dereferences.
- The same happens when a client answers `(nil, nil)`.
- These panics surface as `Reply.Panic` and then as `Aborted`.

## Model

| member | source | states |
|---|---|---|
| Helpers.IsWideDigit | internal/helpers/helpers.go:11 | the Nd digits above Latin-1 (Unicode 15.0) all lie between U+0660 and U+1FBF9, so each takes at least two UTF-8 bytes |
| Helpers.IsDigit | internal/helpers/helpers.go:11 | every ASCII digit is a digit; any other digit rune is at or above U+0660 |
| Helpers.RuneLen | internal/helpers/helpers.go:22 | a rune takes 1 to 4 bytes, and 1 exactly when it is below U+0080 |
| Helpers.ByteLen | internal/helpers/helpers.go:22 | Go's `len` of a string lies between its rune count and four times that, and is 0 only for the empty string |
| Helpers.NormalizeZipCode | internal/helpers/helpers.go:9-17 | the result is no longer than the input and holds only digit runes |
| Helpers.NormalizeConcat | internal/helpers/helpers.go:10-16 | normalisation distributes over concatenation: N(a+b) = N(a)+N(b), a filter looking at each rune alone |
| Helpers.NormalizeCounts | internal/helpers/helpers.go:9-17 | each digit rune occurs in the result exactly as often as in the input; a non-digit rune never occurs |
| Helpers.NormalizeFixesExactlyDigitStrings | internal/helpers/helpers.go:9-17 | a string is returned unchanged if and only if every rune of it is a digit |
| Helpers.NormalizeIdempotent | internal/helpers/helpers.go:9-17 | N(N(s)) = N(s) |
| Helpers.ByteLenConcat | internal/helpers/helpers.go:22 | the byte length of a concatenation is the sum of the byte lengths |
| Helpers.ByteLenAscii | internal/helpers/helpers.go:22 | a string of runes below U+0080 has as many bytes as runes |
| Helpers.ValidateZipCode | internal/helpers/helpers.go:19-23 | a valid code keeps between 2 and 8 digit runes, because the test counts bytes; when the kept digits are ASCII, it is valid exactly when 8 digits remain |
| Helpers.ValidateIgnoresNormalization | internal/helpers/helpers.go:19-23 | ValidateZipCode(N(s)) = ValidateZipCode(s) |
| Helpers.ValidateAsciiDigits | internal/helpers/helpers.go:19-23 | when every digit rune of the input is ASCII, a code validates if and only if exactly 8 digits remain |
| Helpers.WideDigitsPassValidation | internal/helpers/helpers.go:19-23 | four Arabic-Indic digits (two bytes each) pass validation as a postal code |
| Erros.Sentinel.Message | internal/erros/erros.go:7-10 | every sentinel has a non-empty message |
| Erros.MessageIdentifiesSentinel | internal/erros/erros.go:7-10 | two sentinels have the same message if and only if they are the same sentinel |
| Domain.NewCep | internal/domain/cep.go:12-22 | succeeds if and only if the raw code validates; on success it holds N(raw), all digits and 8 bytes long; otherwise fails with exactly ErrInvalidZipCode |
| Domain.Cep.Codigo | internal/domain/cep.go:24-26 | the code of a valid `Cep` is 2 to 8 digit runes |
| Domain.NewCepIdempotent | internal/domain/cep.go:12-26 | a constructed code passed back to `NewCep` gives the same `Cep` |
| Domain.Localidade.Name | internal/domain/localidade.go:21-23 | the name of a valid `Localidade` is not empty |
| Domain.Localidade.Valida | internal/domain/localidade.go:25-27 | the byte-length check holds exactly for a non-empty name, blanks included |
| Domain.NewLocalidade | internal/domain/localidade.go:9-27 | fails with ErrCityIsRequired if and only if the name is empty; on success `Name()` is the name untrimmed, and the `len > 0` check holds |
| Fmt.Digits | internal/infra/clients/clients.go:103-105 | the decimal digits of a natural number: at least one, all ASCII digits, and no leading zero |
| Fmt.FormatInt | internal/infra/clients/clients.go:103-105 | `%d` of an integer is non-empty and all digits, except for a '-' first exactly when the number is negative |
| Fmt.ParseDigitsOfDigits | internal/infra/clients/clients.go:103-105 | reading back the digits of n gives n |
| Fmt.ParseFormatInt | internal/infra/clients/clients.go:103-105 | reading back `%d` of n gives n, so the rendering loses nothing |
| Clients.WeatherErrorResponse.ErrorCode | internal/infra/clients/clients.go:95-97 | the code is the prefix of the error's text and reads back from it |
| Clients.WeatherErrorResponse.ErrorMessage | internal/infra/clients/clients.go:99-101 | the message is the suffix of the error's text |
| Clients.WeatherErrorResponse.Error | internal/infra/clients/clients.go:103-105 | the text is `%d` of the code, then " :: ", then the message, at the positions their lengths give |
| Clients.NewWeatherErrorResponse | internal/infra/clients/clients.go:88-101 | `ErrorCode()` and `ErrorMessage()` of the built value are the arguments |
| Clients.ErrorTextDeterminesResponse | internal/infra/clients/clients.go:83-105 | two error responses have the same text if and only if they have the same code and message, even when the message contains " :: " |
| Clients.Error.Text | internal/handlers/handlers.go:49-60 | `err.Error()`: a sentinel reads as its message, a fetch failure starts with "error fetching data: ", an upstream error is its `%d :: %s` text |
| Clients.Error.Is | internal/handlers/handlers.go:47-53 | `errors.Is` holds only for the sentinel the error is, whose message is then its text; no other error matches any sentinel |
| ViaCep.RequestUrl | internal/infra/clients/viacep.go:23-24 | the URL is the base address, the code as given, then "/json/" |
| ViaCep.ConsultaCep | internal/infra/clients/viacep.go:36-76 | an invalid code gives (nil, ErrInvalidZipCode) and no request; a transport failure or non-200 status gives the empty record and that error; the "erro" marker gives ErrZipCodeNotFound; a `null` body panics; on success only the postal code changes, to its digits |
| WeatherApi.WeatherApiClient.Query | internal/infra/clients/weatherapi.go:55-59 | the query has exactly the keys q, lang and key, holding the city, "pt" and the API key |
| WeatherApi.WeatherApiClient.ConsultaClima | internal/infra/clients/weatherapi.go:38-87 | every error path returns the empty record; a transport failure is returned as it is; non-200 gives ErrCityNotFound if and only if the error code is 1006, otherwise the error body itself; 200 gives the decoded reading and no error |
| CalculaTemperaturasHttp.CalculaTemperaturasClientService.RequestUrl | internal/infra/clients/calculateperaturas.go:38 | the URL is the service address, "cidades/", the code, then "/temperaturas" |
| CalculaTemperaturasHttp.CalculaTemperaturasClientService.CalculaTemperaturas | internal/infra/clients/calculateperaturas.go:34-67 | a transport failure is returned as it is; 422 becomes ErrInvalidZipCode, 404 ErrZipCodeNotFound, any other non-200 "error fetching data: status"; the error is nil exactly on 200, with the decoded body |
| ConsultaCep.ConsultaCepUseCase.ConsultaCep | internal/usecases/consultacep.go:27-41 | one call, with the normalised code; a client error comes back unchanged with a nil result; success exactly when the client succeeds, with the six address fields copied; a (nil, nil) answer panics |
| ConsultaCep.ConsultaCepUseCase.ValidateCep | internal/usecases/consultacep.go:43-45 | a code of 8 bytes has 2 to 8 runes; on ASCII input the check holds exactly for 8 runes |
| ConsultaCep.ValidateCepAcceptsEveryCep | internal/usecases/consultacep.go:43-45 | `ValidateCep` (byte length 8, no normalisation) accepts every constructed `Cep` |
| ConsultaCep.ValidateCepAgreesOnAsciiDigits | internal/usecases/consultacep.go:43-45 | on strings of ASCII digits, `ValidateCep` agrees with `ValidateZipCode` |
| CalculaTemperaturas.CalculaTemperaturasUseCase.ProcessaTemperaturas | internal/usecases/calculatemperaturas.go:40-46 | no city yet; the three readings are the formatted Celsius value and its two conversions |
| CalculaTemperaturas.CalculaTemperaturasUseCase.Execute | internal/usecases/calculatemperaturas.go:28-38 | one call, with the city's name; a client error comes back unchanged with a nil result; on success the city is the name asked for, and the readings come from the reply's Celsius value |
| ProcessaTemperaturas.ProcessaTemperaturasService.Execute | internal/usecases/processaTemperaturas.go:31-51 | an invalid code fails with ErrInvalidZipCode and no call; otherwise one call with the normalised code; a client error comes back unchanged; on success the four fields are copied; exactly one of result and error is nil |
| TemperaturasServices.TemperaturasService.Processa | internal/service/temperaturasService.go:23-45 | the address lookup runs exactly when the code is valid, with its digits; the weather lookup runs exactly when the address came back with a city, with that city; after it, its stage's outcome is the outcome; exactly one of result and error is nil |
| TemperaturasServices.ProcessaRejectsInvalidCep | internal/service/temperaturasService.go:24-27 | an invalid code fails with ErrInvalidZipCode, and neither lookup is made |
| TemperaturasServices.ProcessaPropagatesCepError | internal/service/temperaturasService.go:29-32 | an address-lookup error comes back unchanged, and the weather lookup is not made |
| TemperaturasServices.ProcessaRequiresCity | internal/service/temperaturasService.go:34-37 | an address without a city fails with ErrCityIsRequired, and the weather lookup is not made |
| TemperaturasServices.ProcessaPropagatesWeatherError | internal/service/temperaturasService.go:39-42 | a weather-lookup error comes back unchanged |
| TemperaturasServices.ProcessaSuccess | internal/service/temperaturasService.go:23-45 | on success both lookups ran, in order, with the normalised code and then the address's city; the result is the temperature stage's result, with that city |
| Handlers.CapturaErrorResponse | internal/handlers/handlers.go:46-61 | front table: 422 if and only if the error is ErrInvalidZipCode, 404 if and only if ErrZipCodeNotFound, otherwise 500; the body is always the error's text |
| Handlers.ProcessaErrorResponse | internal/handlers/handlers.go:91-106 | back table: 422 if and only if ErrInvalidZipCode or ErrCityIsRequired, 404 if and only if ErrZipCodeNotFound or ErrCityNotFound, otherwise 500 with "Internal Server Error"; the body is the error's text exactly for a sentinel |
| Pipeline.ErrorTablesAgreeThroughStatus | internal/handlers/handlers.go:92-101 | no sentinel is a 500 at the back; every 422 or 404 the back table gives a sentinel is turned back into an error by the front client (internal/infra/clients/calculateperaturas.go:50-56), and the front table gives that error the same status |
| Handlers.CapturaTemperaturasHandler | internal/handlers/handlers.go:20-74 | a body that cannot be read gives 500; an invalid code gives 422 "invalid zipcode" before any call; otherwise the use case's error goes through the front table, a panic aborts, and success is 200 with the result |
| Handlers.CapturaValidationMatchesUseCase | internal/handlers/handlers.go:35-39 | the handler's own check of the code gives the same response the use case's failure would |
| Handlers.ProcessaTemperaturasHandler | internal/handlers/handlers.go:76-121 | the service's error goes through the back table, a panic aborts, and success is 200 with the result |
| Handlers.ProcessaHandlerStatuses | internal/handlers/handlers.go:90-107 | the back handler writes only 200, 404, 422 or 500; 200 always carries a non-null result |
| Handlers.ProcessaHandlerRejectsInvalidCep | internal/handlers/handlers.go:90-96 | an invalid code is answered 422 "invalid zipcode" with no lookup |
| Pipeline.StatusText | internal/infra/clients/calculateperaturas.go:59 | the status text is non-empty exactly for 200, 404, 422 and 500, the statuses the back handler writes; this is true of the model, not of `http.StatusText`, whose other codes are not modelled |
| Pipeline.StatusLine | internal/infra/clients/calculateperaturas.go:59 | a status line starts with the code, which reads back, followed by a blank |
| Pipeline.Decoded | internal/infra/clients/clients.go:111-116 | the four fields the back service encodes are the ones the front service decodes (same JSON names) |
| Pipeline.Deliver | internal/infra/clients/calculateperaturas.go:43-64 | a dropped connection reaches the front client as a transport failure; a written response keeps its status code and, on a JSON result, its fields |
| Pipeline.Front | internal/handlers/handlers.go:42-45 | for a valid code, the front service makes exactly one call to the back service, with the normalised code |
| Pipeline.BackSeesForwardedCode | internal/usecases/processaTemperaturas.go:37 | the back service accepts the forwarded digits and looks up the same digits |
| Pipeline.EndToEnd | internal/infra/clients/calculateperaturas.go:50-60 | for a valid code the caller gets the back service's status, and on 200 its result field for field; every 422 reads "invalid zipcode", every 404 "can not find zipcode", a 500 names the back status line, and a dropped connection becomes 500 with the transport's text |
| Pipeline.CityNotFoundReachesCallerAs404 | internal/handlers/handlers.go:97-101 | a city the weather API does not know is 404 "can not find city" at the back and 404 "can not find zipcode" at the front |
| Pipeline.BackAnswersErroMarkerWith404 | internal/infra/clients/viacep.go:67-69 | an address marked "erro" is answered 404 "can not find zipcode", with no weather lookup |
| Pipeline.BackAnswersUnknownCityWith404 | internal/infra/clients/weatherapi.go:72-77 | weather error code 1006 for the address's city is answered 404 "can not find city" |
| Pipeline.NullAddressAbortsBackAndFails500AtFront | internal/infra/clients/viacep.go:65-67 | a `null` address body makes the back handler panic, and the front answers 500 with the transport's text |

## Left out

- The float conversions `CelsiusToFahrenheit` and `CelsiusToKelvin` (internal/helpers/helpers.go:25-31) and `%.1f` formatting are not modelled. They are float64 arithmetic with `math.Ceil`. The temperature use case is given them as parameters (`FloatOps`). Temperatures are kept as float64 bit patterns.
- JSON encoding and decoding are not modelled. Each decoded body is an input, given as decoding leaves it: `None` where a `null` body sets the target pointer to nil, and, where a malformed body is ignored, the target's zero value: the zero record for a record target, and `None` for the front client's result pointer, which starts nil.
- The Go standard library is not part of this model. `unicode.IsDigit`'s table is written out from the Nd ranges of Unicode 15.0, the version of the tables of Go 1.22, which `r.PathValue` requires at least. A Go toolchain whose tables follow a later Unicode version accepts more digits (for example U+10D40..U+10D49), and there the model and the program differ. `http.StatusText` is given only for the four statuses the handlers write.
- Pipeline.StatusText: gives net/http's text only for 200, 404, 422 and 500 and the empty text for every other code, where `http.StatusText` has texts of its own (for example "Bad Gateway" for 502); no other code reaches the front client, because the back handler writes only those four.
- Percent-encoding of the weather query is not modelled: the query is the map of its three parameters.
- `WeatherResponse` keeps only the location's name, region and country and the current reading's Celsius, Fahrenheit and humidity values. The other fields are decoded but never read.
- Tracing (every span call), logging, the `Content-Type` header and the trailing newline `http.Error` appends are left out. None of them changes a status or a result.
- A handler's failure to encode its JSON response (internal/handlers/handlers.go:65-70, 112-117) is not modelled: encoding these records of strings does not fail.
- Configuration, server bootstrap and routing are left out. The weather API key and the back service's address are fields of the client values. A route's path value is taken to be the code the front client put in the URL.
- The network is a deterministic function of the request, and a dropped connection is exactly one transport failure. Retries inside `http.Transport` are not modelled: the front client shares `http.DefaultTransport`, which may resend a GET when a reused keep-alive connection closes without an answer. In that case a panicking back handler, and ViaCEP behind it, can be reached more than once before the front sees the failure.
- HTTP timeouts and the difference between a request that cannot be built and one that cannot be sent are not modelled: both are `TransportFailure`.
- Input that is not valid UTF-8 is not modelled: a Dafny string is a sequence of Unicode scalar values.
- The in-place filling of a freshly allocated record (the unmarshal at internal/infra/clients/viacep.go:65 and the `Cep` overwrite at line 71) is modelled as building a new value. No alias to the record exists before it is returned.
- The scenario methods of internal/service/temperaturasService_test.go lack the `Test` prefix and never run, and several contradict the implementation. The behaviour here follows internal/service/temperaturasService.go.
