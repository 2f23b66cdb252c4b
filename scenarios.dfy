/** The scenarios of the package's tests (GenericNetworkLayerTests.swift),
    stated for every session that stubs the response the test stubs. */
module Scenarios {
  import opened Wrappers
  import opened SchemeType
  import opened Platform
  import opened NetworkErrors
  import opened EndPoint
  import opened NetworkLayer
  import Decimal

  /** The components of the `validUrl` endpoint: https, empty host, empty path. */
  const ValidUrlComponents := UrlComponents(Some("https"), Some(""), "", None)

  /** The `validUrl` endpoint: https, empty host, empty path, no query items,
      no request, and the protocol's default `url`. */
  function ValidUrlEndpoint(accepts: UrlComponents -> bool): Endpoint {
    WithDefaultUrl(Https, Some(""), "", None, None, accepts)
  }

  /** When Foundation accepts its components, the `validUrl` endpoint yields
      the URL `https://` and supplies no request. */
  lemma ValidUrlEndpointUrl(accepts: UrlComponents -> bool)
    requires accepts(ValidUrlComponents)
    ensures ValidUrlEndpoint(accepts).url == Some(Url(ValidUrlComponents))
    ensures ValidUrlEndpoint(accepts).urlRequest.None?
  {
  }

  /** The `invalidUrl` endpoint: http, no host, path "//", for a validity rule
      that, as Foundation's does, rejects these components. */
  function InvalidUrlEndpoint(accepts: UrlComponents -> bool): Endpoint {
    WithDefaultUrl(Http, None, "//", None, None, accepts)
  }

  /** A session whose every call delivers `body` with an HTTP response `code`. */
  function Stub(body: Data, code: int): Session {
    call => Delivered(body, HttpUrlResponse(code))
  }

  lemma InvalidUrlFails(accepts: UrlComponents -> bool, session: Session)
    requires !accepts(UrlComponents(Some("http"), None, "//", None))
    ensures IssuedCalls(InvalidUrlEndpoint(accepts)) == []
    ensures DataFrom(InvalidUrlEndpoint(accepts), session) == Failure(LayerError(UrlIsInvalid))
  {
  }

  lemma ClientErrorFails(accepts: UrlComponents -> bool, body: Data)
    requires accepts(ValidUrlComponents)
    ensures var r := DataFrom(ValidUrlEndpoint(accepts), Stub(body, 401));
      r == Failure(LayerError(ClientError(401))) &&
      LocalizedDescription(r.error.layerError) ==
        "Network request failed due to client error with status code 401"
  {
    assert Decimal.IntToString(401) == "401" by {
      assert Decimal.NatToString(4) == "4";
      assert Decimal.NatToString(40) == "40";
    }
  }

  lemma ServerErrorFails(accepts: UrlComponents -> bool, body: Data)
    requires accepts(ValidUrlComponents)
    ensures var r := DataFrom(ValidUrlEndpoint(accepts), Stub(body, 500));
      r == Failure(LayerError(ServerError(500))) &&
      LocalizedDescription(r.error.layerError) ==
        "Network request failed due to server error with status code 500"
  {
    assert Decimal.IntToString(500) == "500" by {
      assert Decimal.NatToString(5) == "5";
      assert Decimal.NatToString(50) == "50";
    }
  }

  lemma SuccessReturnsBody(accepts: UrlComponents -> bool, body: Data)
    requires accepts(ValidUrlComponents)
    ensures DataFrom(ValidUrlEndpoint(accepts), Stub(body, 200)) == Success(UrlDataResult(body, 200))
  {
  }

  /** A decoder that reads the body as the integer 10 yields 10 and status 200. */
  lemma DecodesAfterSuccess(accepts: UrlComponents -> bool, body: Data, decode: Data -> Result<int, DecodingError>)
    requires accepts(ValidUrlComponents)
    requires decode(body) == Success(10)
    ensures DataFor(ValidUrlEndpoint(accepts), Stub(body, 200), decode) == Success(DecodedResult(10, 200))
  {
  }

  /** A body the decoder rejects fails with the decoder's error, even at status 200. */
  lemma DecodeFailureIsDecoderError(accepts: UrlComponents -> bool, body: Data, decode: Data -> Result<int, DecodingError>, e: DecodingError)
    requires accepts(ValidUrlComponents)
    requires decode(body) == Failure(e)
    ensures DataFor(ValidUrlEndpoint(accepts), Stub(body, 200), decode) == Failure(DecoderError(e))
  {
  }

  /** The codes just past the layer's bounds in each class are unknown. */
  lemma CodesPastBoundsAreUnknown()
    ensures forall code :: code in [104, 199, 227, 299, 309, 399, 452, 499, 512, 599, 0, -1, 600, 999] ==>
      CheckStatusCode(HttpUrlResponse(code)) == Failure(UnknownStatusCode(code))
  {
  }
}
