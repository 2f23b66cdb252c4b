/** The Foundation values the network layer consumes, as abstract data: URL
    components and URLs, requests, responses, and what a URLSession call
    delivers. Their behaviour inside Foundation is not part of this model. */
module Platform {
  import opened Wrappers

  newtype byte = b: int | 0 <= b < 256

  /** A response body (`Data`). */
  type Data = seq<byte>

  datatype QueryItem = QueryItem(name: string, value: Option<string>)

  /** The fields of a `URLComponents` value that an endpoint sets. */
  datatype UrlComponents = UrlComponents(
    scheme: Option<string>,
    host: Option<string>,
    path: string,
    queryItems: Option<seq<QueryItem>>)

  /** A URL that Foundation built from the given components. */
  datatype Url = Url(components: UrlComponents)

  /** A fully formed `URLRequest` supplied by an endpoint. */
  datatype UrlRequest = UrlRequest(
    url: Url,
    httpMethod: string,
    headerFields: seq<(string, string)>,
    httpBody: Option<Data>)

  /** The response a session call yields: an `HTTPURLResponse` with its status
      code, or some other kind of `URLResponse` that has no status code. */
  datatype UrlResponse = HttpUrlResponse(statusCode: int) | NonHttpResponse

  /** The two session calls the layer makes: `data(for: URLRequest)` and
      `data(from: URL)`, which performs a GET on the URL. */
  datatype SessionCall = DataForRequest(request: UrlRequest) | DataFromUrl(url: Url)

  /** An error thrown by the session itself (connectivity and the like). */
  datatype TransportError = TransportError(domain: string, code: int)

  /** An error thrown by the JSON decoder. */
  datatype DecodingError = DecodingError(description: string)

  /** What one session call delivers: a body and a response, or a thrown error. */
  datatype SessionOutcome = Delivered(data: Data, response: UrlResponse) | TransportFailed(error: TransportError)

  /** The network round trip, as an oracle from the call made to its outcome. */
  type Session = SessionCall -> SessionOutcome
}
