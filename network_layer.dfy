/** The request executor (GenericNetworkLayer.swift): it resolves an endpoint's
    URL, makes one session call, classifies the response by its status code,
    and returns the body with the status or decodes the body. */
module NetworkLayer {
  import opened Wrappers
  import opened Platform
  import opened NetworkErrors
  import opened EndPoint

  /** Anything the public operations can throw: the layer's own errors, an
      error from the session, or an error from the decoder. */
  datatype ThrownError =
    | LayerError(layerError: GenericNetworkLayerError)
    | SessionError(transportError: TransportError)
    | DecoderError(decodingError: DecodingError)

  /** `urlDataResult`: the response body and its status code. */
  datatype UrlDataResult = UrlDataResult(resultedData: Data, statusCode: int)

  /** What `data<T>(for:)` returns: the decoded value and the status code. */
  datatype DecodedResult<T> = DecodedResult(result: T, statusCode: int)

  // Reference description of the status ranges, by status class (the first
  // digit of the code, as in section 15 of RFC 9110): in each class from 1xx to
  // 5xx the layer recognizes the codes up to a last one, and it accepts the
  // recognized codes of the classes 1xx, 2xx and 3xx.

  function StatusClass(code: int): int {
    code / 100
  }

  /** The last code the layer recognizes in each status class. */
  function LastRecognized(statusClass: int): int
    requires 1 <= statusClass <= 5
  {
    [103, 226, 308, 451, 511][statusClass - 1]
  }

  predicate Recognized(code: int) {
    1 <= StatusClass(code) <= 5 && code <= LastRecognized(StatusClass(code))
  }

  predicate Accepted(code: int) {
    Recognized(code) && StatusClass(code) <= 3
  }

  /** `checkStatusCode(for:)`: a response that is not an HTTP response fails
      before any range check; otherwise a recognized 1xx, 2xx or 3xx code is
      returned as it is, a recognized 4xx or 5xx code is a client or server error,
      and every other code is an unknown status code; each error carries the code. */
  function CheckStatusCode(response: UrlResponse): (r: Result<int, GenericNetworkLayerError>)
    ensures response.NonHttpResponse? ==> r == Failure(FailedToConvertResponse)
    ensures response.HttpUrlResponse? ==>
      var code := response.statusCode;
      && (r.Success? <==> Accepted(code))
      && (r.Success? ==> r.value == code)
      && (r == Failure(ClientError(code)) <==> Recognized(code) && StatusClass(code) == 4)
      && (r == Failure(ServerError(code)) <==> Recognized(code) && StatusClass(code) == 5)
      && (r == Failure(UnknownStatusCode(code)) <==> !Recognized(code))
  {
    match response
    case NonHttpResponse => Failure(FailedToConvertResponse)
    case HttpUrlResponse(statusCode) =>
      if 100 <= statusCode <= 103 then Success(statusCode)
      else if 200 <= statusCode <= 226 then Success(statusCode)
      else if 300 <= statusCode <= 308 then Success(statusCode)
      else if 400 <= statusCode <= 451 then Failure(ClientError(statusCode))
      else if 500 <= statusCode <= 511 then Failure(ServerError(statusCode))
      else Failure(UnknownStatusCode(statusCode))
  }

  /** `getData(urlRequest:)` and `getData(url:)`: make the session call, then
      classify its response. */
  function GetData(call: SessionCall, session: Session): (r: Result<UrlDataResult, ThrownError>)
    ensures r.Success? <==>
      session(call).Delivered? && session(call).response.HttpUrlResponse? &&
      Accepted(session(call).response.statusCode)
    ensures r.Success? ==>
      r.value == UrlDataResult(session(call).data, session(call).response.statusCode)
    ensures session(call).TransportFailed? ==> r == Failure(SessionError(session(call).error))
    ensures session(call).Delivered? && r.Failure? ==>
      r == Failure(LayerError(CheckStatusCode(session(call).response).error))
  {
    match session(call)
    case TransportFailed(error) => Failure(SessionError(error))
    case Delivered(resultedData, response) =>
      match CheckStatusCode(response)
      case Failure(e) => Failure(LayerError(e))
      case Success(statusCode) => Success(UrlDataResult(resultedData, statusCode))
  }

  /** `preformNetworkRequest(for:)`: an endpoint without a URL fails with
      `urlIsInvalid`, even when it supplies a request; otherwise its request is
      executed if it supplies one, and a GET on its URL if it does not. */
  function PreformNetworkRequest(endpoint: Endpoint, session: Session): (r: Result<UrlDataResult, ThrownError>)
    ensures endpoint.url.None? ==> r == Failure(LayerError(UrlIsInvalid))
  {
    match endpoint.url
    case None => Failure(LayerError(UrlIsInvalid))
    case Some(url) =>
      if endpoint.urlRequest.Some? then GetData(DataForRequest(endpoint.urlRequest.value), session)
      else GetData(DataFromUrl(url), session)
  }

  /** `data(from:)`: the body and status code, undecoded. Without a URL it
      fails with `urlIsInvalid`; otherwise the one issued call decides: a session
      error passes through, a non-HTTP response fails with
      `failedToConvertResponse`, and an HTTP response returns the body unchanged
      with its code exactly when the code is accepted, else the classifier's error. */
  function DataFrom(endpoint: Endpoint, session: Session): (r: Result<UrlDataResult, ThrownError>)
    ensures r.Failure? ==> !r.error.DecoderError?
    ensures r.Success? ==> Accepted(r.value.statusCode)
    ensures endpoint.url.None? ==> r == Failure(LayerError(UrlIsInvalid))
    ensures endpoint.url.Some? ==>
      var outcome := session(IssuedCalls(endpoint)[0]);
      && (outcome.TransportFailed? ==> r == Failure(SessionError(outcome.error)))
      && (outcome.Delivered? && outcome.response.NonHttpResponse? ==>
            r == Failure(LayerError(FailedToConvertResponse)))
      && (outcome.Delivered? && outcome.response.HttpUrlResponse? ==>
            var code := outcome.response.statusCode;
            && (r.Success? <==> Accepted(code))
            && (r.Success? ==> r.value == UrlDataResult(outcome.data, code))
            && (r.Failure? ==> r == Failure(LayerError(CheckStatusCode(outcome.response).error))))
  {
    PreformNetworkRequest(endpoint, session)
  }

  /** `data<T>(for:)`: fetch, then decode the body only if the fetch succeeded.
      A failed fetch propagates its error; a decoding failure surfaces as the
      decoder's own error; the status code passes through. */
  function DataFor<T>(endpoint: Endpoint, session: Session, decode: Data -> Result<T, DecodingError>)
    : (r: Result<DecodedResult<T>, ThrownError>)
    ensures var fetched := PreformNetworkRequest(endpoint, session);
      && (fetched.Failure? ==> r == Failure(fetched.error))
      && (r.Success? ==>
            && fetched.Success?
            && decode(fetched.value.resultedData) == Success(r.value.result)
            && r.value.statusCode == fetched.value.statusCode)
      && (r.Failure? && r.error.DecoderError? ==>
            && fetched.Success?
            && decode(fetched.value.resultedData) == Failure(r.error.decodingError))
      && (fetched.Success? ==>
            match decode(fetched.value.resultedData)
            case Success(v) => r == Success(DecodedResult(v, fetched.value.statusCode))
            case Failure(e) => r == Failure(DecoderError(e)))
  {
    match PreformNetworkRequest(endpoint, session)
    case Failure(e) => Failure(e)
    case Success(fetched) =>
      match decode(fetched.resultedData)
      case Failure(e) => Failure(DecoderError(e))
      case Success(v) => Success(DecodedResult(v, fetched.statusCode))
  }

  // Properties of the executor

  /** The session calls a request makes: none when the endpoint has no URL,
      otherwise exactly one, for the supplied request or a GET on the URL. */
  ghost function IssuedCalls(endpoint: Endpoint): seq<SessionCall> {
    match endpoint.url
    case None => []
    case Some(url) =>
      match endpoint.urlRequest
      case Some(request) => [DataForRequest(request)]
      case None => [DataFromUrl(url)]
  }

  /** The result depends on the session only through the calls in
      `IssuedCalls`: two sessions that agree on those give the same result. */
  lemma PreformDependsOnlyOnIssuedCalls(endpoint: Endpoint, s1: Session, s2: Session)
    requires forall call :: call in IssuedCalls(endpoint) ==> s1(call) == s2(call)
    ensures PreformNetworkRequest(endpoint, s1) == PreformNetworkRequest(endpoint, s2)
  {
  }

  /** Without a URL no call is made, whatever request the endpoint supplies,
      and the result is `urlIsInvalid` for every session. */
  lemma InvalidUrlMakesNoCall(endpoint: Endpoint, session: Session)
    requires endpoint.url.None?
    ensures IssuedCalls(endpoint) == []
    ensures PreformNetworkRequest(endpoint, session) == Failure(LayerError(UrlIsInvalid))
  {
  }

  /** With a URL exactly one call is made: the supplied request verbatim if
      there is one, a GET on the URL otherwise; the result is that call's
      response, classified. */
  lemma ValidUrlMakesOneCall(endpoint: Endpoint, session: Session)
    requires endpoint.url.Some?
    ensures |IssuedCalls(endpoint)| == 1
    ensures endpoint.urlRequest.Some? ==> IssuedCalls(endpoint)[0] == DataForRequest(endpoint.urlRequest.value)
    ensures endpoint.urlRequest.None? ==> IssuedCalls(endpoint)[0] == DataFromUrl(endpoint.url.value)
    ensures PreformNetworkRequest(endpoint, session) == GetData(IssuedCalls(endpoint)[0], session)
  {
  }

  /** A fetch succeeds exactly when the call delivers an HTTP response with an
      accepted code; it then returns the body unchanged with that code. */
  lemma FetchSucceedsIffAccepted(endpoint: Endpoint, session: Session)
    ensures var r := PreformNetworkRequest(endpoint, session);
      r.Success? <==>
        && endpoint.url.Some?
        && var outcome := session(IssuedCalls(endpoint)[0]);
        && outcome.Delivered? && outcome.response.HttpUrlResponse?
        && Accepted(outcome.response.statusCode)
        && r.value == UrlDataResult(outcome.data, outcome.response.statusCode)
  {
  }

  /** `data<T>(for:)` does not consult the decoder when the fetch fails. */
  lemma DecodeOnlyAfterSuccess<T>(endpoint: Endpoint, session: Session,
                                  d1: Data -> Result<T, DecodingError>,
                                  d2: Data -> Result<T, DecodingError>)
    requires PreformNetworkRequest(endpoint, session).Failure?
    ensures DataFor(endpoint, session, d1) == DataFor(endpoint, session, d2)
    ensures !DataFor(endpoint, session, d1).error.DecoderError?
  {
  }

  /** The reference description by status class picks out exactly the literal
      ranges 100-103, 200-226, 300-308, 400-451 and 500-511. */
  lemma RecognizedRanges(code: int)
    ensures Recognized(code) <==>
      (100 <= code <= 103 || 200 <= code <= 226 || 300 <= code <= 308 ||
       400 <= code <= 451 || 500 <= code <= 511)
    ensures Accepted(code) <==> (100 <= code <= 103 || 200 <= code <= 226 || 300 <= code <= 308)
  {
  }

  /** The five outcomes of the classifier partition the integers. */
  lemma ClassifierTotal(code: int)
    ensures var r := CheckStatusCode(HttpUrlResponse(code));
      r == Success(code) || r == Failure(ClientError(code)) ||
      r == Failure(ServerError(code)) || r == Failure(UnknownStatusCode(code))
  {
  }
}
