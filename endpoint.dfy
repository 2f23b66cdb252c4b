/** An endpoint descriptor (EndPointProtocol.swift): scheme, host, path and
    query items, the URL built from them, and an optional pre-built request. */
module EndPoint {
  import opened Wrappers
  import opened SchemeType
  import opened Platform

  /** One conforming value of `EndPointProtocol`. `url` is what the endpoint's
      `url` property yields: the default built by `DefaultUrl`, or an override. */
  datatype Endpoint = Endpoint(
    scheme: APISchemeType,
    host: Option<string>,
    path: string,
    queryItems: Option<seq<QueryItem>>,
    url: Option<Url>,
    urlRequest: Option<UrlRequest>)

  /** The default `url`: the endpoint's fields are placed into `URLComponents`,
      the scheme as its raw value, and Foundation either builds a URL from them or
      yields none. Foundation's validity rule is the parameter `accepts`. */
  function DefaultUrl(scheme: APISchemeType, host: Option<string>, path: string,
                      queryItems: Option<seq<QueryItem>>,
                      accepts: UrlComponents -> bool): (r: Option<Url>)
    ensures r.Some? ==> r.value.components.scheme == Some(RawValue(scheme))
    ensures r.Some? ==> r.value.components.host == host
    ensures r.Some? ==> r.value.components.path == path
    ensures r.Some? ==> r.value.components.queryItems == queryItems
    ensures r.Some? <==> accepts(UrlComponents(Some(RawValue(scheme)), host, path, queryItems))
  {
    var components := UrlComponents(Some(RawValue(scheme)), host, path, queryItems);
    if accepts(components) then Some(Url(components)) else None
  }

  /** An endpoint that keeps the protocol's default `url`. */
  function WithDefaultUrl(scheme: APISchemeType, host: Option<string>, path: string,
                          queryItems: Option<seq<QueryItem>>,
                          urlRequest: Option<UrlRequest>,
                          accepts: UrlComponents -> bool): Endpoint
  {
    Endpoint(scheme, host, path, queryItems,
             DefaultUrl(scheme, host, path, queryItems, accepts), urlRequest)
  }

  /** The scheme component of a default URL reads back, through the raw-value
      initializer, as the endpoint's scheme. */
  lemma DefaultUrlScheme(scheme: APISchemeType, host: Option<string>, path: string,
                         queryItems: Option<seq<QueryItem>>,
                         accepts: UrlComponents -> bool)
    requires DefaultUrl(scheme, host, path, queryItems, accepts).Some?
    ensures FromRawValue(DefaultUrl(scheme, host, path, queryItems, accepts).value.components.scheme.value)
            == Some(scheme)
  {
  }
}
