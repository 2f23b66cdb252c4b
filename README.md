# GenericNetworkLayer in Dafny

A model of the Swift package GenericNetworkLayer: a small HTTP client layer that
takes an endpoint descriptor (scheme, host, path, query items, the URL built from
them, and an optional pre-built request), makes one URLSession call, classifies
the response by its status code, and either returns the body with the status
code (`data(from:)`) or decodes the body into a caller-chosen type
(`data<T>(for:)`).

The model is pure: datatypes, functions and lemmas.

- `wrappers.dfy`: `Option` and `Result`.
- `scheme.dfy` (module `SchemeType`): `APISchemeType` with its String raw values.
- `decimal.dfy` (module `Decimal`): the decimal rendering of an `Int` that
  Swift's string interpolation produces, and a reader for it.
- `errors.dfy` (module `NetworkErrors`): `GenericNetworkLayerError` and its
  `localizedDescription`.
- `platform.dfy` (module `Platform`): the Foundation values the layer consumes
  (URL components, URLs, requests, responses, session outcomes), as plain data.
  The session is a parameter of type `Session = SessionCall -> SessionOutcome`.
  `SessionCall` tells `data(for: URLRequest)` from `data(from: URL)`.
- `endpoint.dfy` (module `EndPoint`): the endpoint descriptor and the default
  `url` built from its fields.
- `network_layer.dfy` (module `NetworkLayer`): `checkStatusCode`, `getData`,
  `preformNetworkRequest` (the source's spelling), `data(from:)` and
  `data<T>(for:)`. It also holds a reference description of the accepted ranges
  by status class (section 15 of RFC 9110), with the layer's last recognized
  code in each class.
- `scenarios.dfy` (module `Scenarios`): the package's test scenarios, stated for
  every stubbed body. The test endpoints keep the default `url`, so each scenario
  states which components Foundation accepts.

"No network call when the URL is absent" is stated with `IssuedCalls`. This
ghost function lists the session calls a request makes. One lemma shows that the
result depends on the session only through those calls. Another shows the list
is empty when `url` is absent.

## Model

| member | source | states |
|---|---|---|
| SchemeType.RawValue | Sources/GenericNetworkLayer/APISchemeType/HTTPProtocolCase.swift:11-13 | the raw value of a case is "http" or "https", and "https" exactly for `https` |
| SchemeType.FromRawValue | Sources/GenericNetworkLayer/APISchemeType/HTTPProtocolCase.swift:11-14 | `init(rawValue:)` yields a case whose raw value is the input, and yields none exactly for strings other than "http" and "https" |
| SchemeType.RawValueRoundTrip | Sources/GenericNetworkLayer/APISchemeType/HTTPProtocolCase.swift:11-14 | constructing from a case's raw value gives back that case |
| SchemeType.RawValueInjective | Sources/GenericNetworkLayer/APISchemeType/HTTPProtocolCase.swift:11-14 | distinct cases have distinct raw values |
| SchemeType.ExactlyTwoCases | Sources/GenericNetworkLayer/APISchemeType/HTTPProtocolCase.swift:11-14 | every scheme is `http` or `https`, and the two differ |
| Decimal.NatToString | Sources/GenericNetworkLayer/GenericNetworkLayerError/GenericNetworkLayerError.swift:27 | the rendering of a natural number is non-empty, all digits, and has no leading zero unless the number is 0 |
| Decimal.IntToString | Sources/GenericNetworkLayer/GenericNetworkLayerError/GenericNetworkLayerError.swift:27 | the rendering of an `Int` starts with '-' exactly for negatives, and the rest is digits |
| Decimal.NatToStringValue | Sources/GenericNetworkLayer/GenericNetworkLayerError/GenericNetworkLayerError.swift:27 | the digits of a natural number read back as that number |
| Decimal.ParseIntRoundTrip | Sources/GenericNetworkLayer/GenericNetworkLayerError/GenericNetworkLayerError.swift:27 | reading back the rendering of any integer gives that integer |
| Decimal.IntToStringInjective | Sources/GenericNetworkLayer/GenericNetworkLayerError/GenericNetworkLayerError.swift:27 | distinct integers render as distinct strings |
| NetworkErrors.GenericNetworkLayerError.StatusCode | Sources/GenericNetworkLayer/GenericNetworkLayerError/GenericNetworkLayerError.swift:11-17 | exactly `clientError`, `serverError` and `unknownStatusCode` carry an integer code |
| NetworkErrors.LocalizedDescription | Sources/GenericNetworkLayer/GenericNetworkLayerError/GenericNetworkLayerError.swift:20-33 | every message is non-empty; a code-bearing variant's message is one of the three fixed prefixes followed by the decimal code |
| NetworkErrors.DescriptionRoundTrip | Sources/GenericNetworkLayer/GenericNetworkLayerError/GenericNetworkLayerError.swift:20-33 | every message reads back, through `ParseDescription`, as the error it describes |
| NetworkErrors.DescriptionInjective | Sources/GenericNetworkLayer/GenericNetworkLayerError/GenericNetworkLayerError.swift:20-33 | distinct errors, by variant or by code, have distinct messages |
| EndPoint.DefaultUrl | Sources/GenericNetworkLayer/EndPointProtocol/EndPointProtocol.swift:23-31 | the default URL exists exactly when Foundation accepts the components; it carries the scheme's raw value and the endpoint's host, path and query items |
| EndPoint.DefaultUrlScheme | Sources/GenericNetworkLayer/EndPointProtocol/EndPointProtocol.swift:25 | the scheme component of the default URL reads back as the endpoint's scheme |
| NetworkLayer.CheckStatusCode | Sources/GenericNetworkLayer/GenericNetworkLayer/GenericNetworkLayer.swift:55-78 | a non-HTTP response fails with `failedToConvertResponse`; otherwise a code is returned unchanged exactly when it is accepted, and it is a client error, server error or unknown status code exactly when it is recognized in 4xx, recognized in 5xx, or not recognized |
| NetworkLayer.GetData | Sources/GenericNetworkLayer/GenericNetworkLayer/GenericNetworkLayer.swift:43-53 | a call succeeds exactly when it delivers an HTTP response with an accepted code, and then returns the body and that code; a session error propagates unchanged; a delivered response that fails carries the classifier's error |
| NetworkLayer.PreformNetworkRequest | Sources/GenericNetworkLayer/GenericNetworkLayer/GenericNetworkLayer.swift:32-41 | an endpoint without a URL fails with `urlIsInvalid` |
| NetworkLayer.DataFrom | Sources/GenericNetworkLayer/GenericNetworkLayer/GenericNetworkLayer.swift:25-27 | without a URL it fails with `urlIsInvalid`; otherwise, for the one issued call, a session error passes through, a non-HTTP response fails with `failedToConvertResponse`, and an HTTP response returns the body unchanged with its code exactly when the code is accepted, else the classifier's error; never a decoding error |
| NetworkLayer.DataFor | Sources/GenericNetworkLayer/GenericNetworkLayer/GenericNetworkLayer.swift:19-22 | a failed fetch propagates its error; after a successful fetch, a body that decodes gives (value, fetched status) and a body that does not gives the decoder's own error; conversely a success holds the decoder's value for the fetched body and status, and a decoding error comes from decoding the fetched body |
| NetworkLayer.PreformDependsOnlyOnIssuedCalls | Sources/GenericNetworkLayer/GenericNetworkLayer/GenericNetworkLayer.swift:32-41 | two sessions that agree on the issued calls give the same result |
| NetworkLayer.InvalidUrlMakesNoCall | Sources/GenericNetworkLayer/GenericNetworkLayer/GenericNetworkLayer.swift:33 | without a URL no call is issued, even with a supplied request, and the result is `urlIsInvalid` for every session |
| NetworkLayer.ValidUrlMakesOneCall | Sources/GenericNetworkLayer/GenericNetworkLayer/GenericNetworkLayer.swift:35-39 | with a URL exactly one call is issued: the supplied request if there is one, else a GET on the URL, and the result is that call's classified outcome |
| NetworkLayer.FetchSucceedsIffAccepted | Sources/GenericNetworkLayer/GenericNetworkLayer/GenericNetworkLayer.swift:32-52 | a fetch succeeds exactly when the URL exists and the issued call delivers an HTTP response with an accepted code, and it then returns that body unchanged with that code |
| NetworkLayer.DecodeOnlyAfterSuccess | Sources/GenericNetworkLayer/GenericNetworkLayer/GenericNetworkLayer.swift:19-22 | when the fetch fails, the result of `data<T>` does not depend on the decoder and is not a decoding error |
| NetworkLayer.RecognizedRanges | Sources/GenericNetworkLayer/GenericNetworkLayer/GenericNetworkLayer.swift:59-77 | the class-based reference picks out exactly 100-103, 200-226, 300-308, 400-451 and 500-511, and accepts exactly the first three |
| NetworkLayer.ClassifierTotal | Sources/GenericNetworkLayer/GenericNetworkLayer/GenericNetworkLayer.swift:59-77 | every HTTP status code yields acceptance of itself or one of the three code-bearing errors with that same code |
| Scenarios.ValidUrlEndpointUrl | Tests/GenericNetworkLayerTests/GenericNetworkLayerTests.swift:40-49 | the `validUrl` endpoint, with the default `url`, yields the URL with scheme "https", empty host and empty path, and supplies no request |
| Scenarios.InvalidUrlFails | Tests/GenericNetworkLayerTests/GenericNetworkLayerTests.swift:51-59 | the `invalidUrl` endpoint issues no call and fails with `urlIsInvalid` |
| Scenarios.ClientErrorFails | Tests/GenericNetworkLayerTests/GenericNetworkLayerTests.swift:61-70 | status 401 fails with `clientError(code: 401)`, whose message ends in "401" |
| Scenarios.ServerErrorFails | Tests/GenericNetworkLayerTests/GenericNetworkLayerTests.swift:72-81 | status 500 fails with `serverError(code: 500)`, whose message ends in "500" |
| Scenarios.SuccessReturnsBody | Tests/GenericNetworkLayerTests/GenericNetworkLayerTests.swift:83-92 | status 200 returns the stubbed body unchanged with 200 |
| Scenarios.DecodesAfterSuccess | Tests/GenericNetworkLayerTests/GenericNetworkLayerTests.swift:94-104 | a body the decoder reads as 10, at status 200, gives (10, 200) |
| Scenarios.DecodeFailureIsDecoderError | Sources/GenericNetworkLayer/GenericNetworkLayer/GenericNetworkLayer.swift:21 | a body the decoder rejects fails with the decoder's error even at status 200 |
| Scenarios.CodesPastBoundsAreUnknown | Sources/GenericNetworkLayer/GenericNetworkLayer/GenericNetworkLayer.swift:59-77 | 104, 199, 227, 299, 309, 399, 452, 499, 512, 599, 0, -1, 600 and 999 are unknown status codes |

## Left out

- URLSession I/O and async suspension: the session is the parameter `session`. Its errors are the opaque `TransportError` and are passed on unchanged.
- The validity rule of `URLComponents.url` (Foundation): it is the parameter `accepts` of `DefaultUrl`. An endpoint may also override `url`, so `Endpoint.url` is a field.
- `JSONDecoder`: the decoder is the parameter `decode`, a partial function that returns a value or a `DecodingError`.
- The contents of `URLRequest`, `URL` and `URLResponse` beyond what the layer reads: these are plain records. A response is either an HTTP response with a status code or some other kind.
- Integer width: status codes are unbounded integers, not a 64-bit `Int`; the classification never overflows, so nothing depends on the width.
- Concurrency of independent calls: they share no state, and each call is a pure function of its inputs.
- The stored `urlSession` and `decoder` handles of the struct: they hold no per-call state, and the model passes them as parameters.
- The test scaffolding (`URLProtocolStub`, `EndpointMock`) and `Package.swift`: the tests appear only as the scenarios in `scenarios.dfy`.
