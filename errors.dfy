/** The errors the network layer itself throws (GenericNetworkLayerError.swift)
    and their `localizedDescription`. */
module NetworkErrors {
  import opened Wrappers
  import opened Decimal

  datatype GenericNetworkLayerError =
    | UrlIsInvalid
    | FailedToConvertResponse
    | ClientError(code: int)
    | ServerError(code: int)
    | UnknownStatusCode(code: int)
  {
    /** The status code a variant carries, if it carries one. */
    function StatusCode(): (r: Option<int>)
      ensures r.Some? <==> (ClientError? || ServerError? || UnknownStatusCode?)
      ensures r.Some? ==> r.value == code
    {
      match this
      case UrlIsInvalid => None
      case FailedToConvertResponse => None
      case ClientError(c) => Some(c)
      case ServerError(c) => Some(c)
      case UnknownStatusCode(c) => Some(c)
    }
  }

  const UrlIsInvalidMessage := "The given url is invalid"
  const FailedToConvertResponseMessage := "Failed to convert the URLResponse to HTTPUrlResponse"
  const ClientErrorPrefix := "Network request failed due to client error with status code "
  const ServerErrorPrefix := "Network request failed due to server error with status code "
  const UnknownStatusCodePrefix := "Network request failed unknown status code "

  /** The message of each variant: a fixed sentence for the two variants without
      a code, a fixed prefix followed by the decimal code for the other three. */
  function LocalizedDescription(e: GenericNetworkLayerError): (r: string)
    ensures |r| > 0
    ensures e.StatusCode().Some? ==>
      exists prefix :: prefix in {ClientErrorPrefix, ServerErrorPrefix, UnknownStatusCodePrefix} &&
                       r == prefix + IntToString(e.code)
  {
    match e
    case UrlIsInvalid => UrlIsInvalidMessage
    case FailedToConvertResponse => FailedToConvertResponseMessage
    case ClientError(c) => ClientErrorPrefix + IntToString(c)
    case ServerError(c) => ServerErrorPrefix + IntToString(c)
    case UnknownStatusCode(c) => UnknownStatusCodePrefix + IntToString(c)
  }

  /** Recovers the error a message describes, if it is one of the layer's messages. */
  function ParseDescription(s: string): (r: Option<GenericNetworkLayerError>)
  {
    if s == UrlIsInvalidMessage then Some(UrlIsInvalid)
    else if s == FailedToConvertResponseMessage then Some(FailedToConvertResponse)
    else if ClientErrorPrefix <= s then
      match ParseInt(s[|ClientErrorPrefix|..])
      case Some(c) => Some(ClientError(c))
      case None => None
    else if ServerErrorPrefix <= s then
      match ParseInt(s[|ServerErrorPrefix|..])
      case Some(c) => Some(ServerError(c))
      case None => None
    else if UnknownStatusCodePrefix <= s then
      match ParseInt(s[|UnknownStatusCodePrefix|..])
      case Some(c) => Some(UnknownStatusCode(c))
      case None => None
    else None
  }

  /** A message built from a prefix starts with that prefix, and what follows
      the prefix is the rendered code. */
  lemma PrefixedMessage(prefix: string, digits: string)
    ensures prefix <= prefix + digits
    ensures (prefix + digits)[|prefix|..] == digits
  {
  }

  /** A string that differs from `prefix` at a position inside `prefix` does not
      start with `prefix`. */
  lemma DiffersAt(prefix: string, s: string, i: nat)
    requires i < |prefix| && i < |s| && s[i] != prefix[i]
    ensures !(prefix <= s)
  {
  }

  lemma ClientRoundTrip(c: int)
    ensures ParseDescription(ClientErrorPrefix + IntToString(c)) == Some(ClientError(c))
  {
    var s := ClientErrorPrefix + IntToString(c);
    assert |s| > |FailedToConvertResponseMessage| > |UrlIsInvalidMessage|;
    PrefixedMessage(ClientErrorPrefix, IntToString(c));
    ParseIntRoundTrip(c);
  }

  lemma ServerRoundTrip(c: int)
    ensures ParseDescription(ServerErrorPrefix + IntToString(c)) == Some(ServerError(c))
  {
    var s := ServerErrorPrefix + IntToString(c);
    assert |s| > |FailedToConvertResponseMessage| > |UrlIsInvalidMessage|;
    assert s[30] == ServerErrorPrefix[30] == 's';
    DiffersAt(ClientErrorPrefix, s, 30);
    PrefixedMessage(ServerErrorPrefix, IntToString(c));
    ParseIntRoundTrip(c);
  }

  lemma UnknownRoundTrip(c: int)
    ensures ParseDescription(UnknownStatusCodePrefix + IntToString(c)) == Some(UnknownStatusCode(c))
  {
    var s := UnknownStatusCodePrefix + IntToString(c);
    assert |s| > |UrlIsInvalidMessage|;
    assert s[23] == UnknownStatusCodePrefix[23] == 'u' != FailedToConvertResponseMessage[23];
    DiffersAt(ClientErrorPrefix, s, 23);
    DiffersAt(ServerErrorPrefix, s, 23);
    PrefixedMessage(UnknownStatusCodePrefix, IntToString(c));
    ParseIntRoundTrip(c);
  }

  /** Every description reads back as the error it describes. */
  lemma DescriptionRoundTrip(e: GenericNetworkLayerError)
    ensures ParseDescription(LocalizedDescription(e)) == Some(e)
  {
    match e
    case UrlIsInvalid =>
    case FailedToConvertResponse =>
    case ClientError(c) => ClientRoundTrip(c);
    case ServerError(c) => ServerRoundTrip(c);
    case UnknownStatusCode(c) => UnknownRoundTrip(c);
  }

  /** Distinct errors, by variant or by code, have distinct descriptions; the
      tests compare errors through their descriptions only. */
  lemma DescriptionInjective(e1: GenericNetworkLayerError, e2: GenericNetworkLayerError)
    ensures LocalizedDescription(e1) == LocalizedDescription(e2) ==> e1 == e2
  {
    DescriptionRoundTrip(e1);
    DescriptionRoundTrip(e2);
  }
}
