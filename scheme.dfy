/** The web protocol an endpoint uses (APISchemeType.swift): a two-case enum
    whose String raw values are the case names. */
module SchemeType {
  import opened Wrappers

  datatype APISchemeType = Http | Https

  /** The implicit String raw value of a case. */
  function RawValue(s: APISchemeType): (r: string)
    ensures r == "http" || r == "https"
    ensures r == "https" <==> s == Https
  {
    match s
    case Http => "http"
    case Https => "https"
  }

  /** `APISchemeType(rawValue:)`: the failable initializer Swift derives for a
      String-backed enum. */
  function FromRawValue(raw: string): (r: Option<APISchemeType>)
    ensures r.Some? ==> RawValue(r.value) == raw
    ensures r.None? <==> raw != "http" && raw != "https"
  {
    if raw == "http" then Some(Http)
    else if raw == "https" then Some(Https)
    else None
  }

  /** Constructing from the raw value gives back the case. */
  lemma RawValueRoundTrip(s: APISchemeType)
    ensures FromRawValue(RawValue(s)) == Some(s)
  {
  }

  /** Distinct cases have distinct raw values. */
  lemma RawValueInjective(s: APISchemeType, t: APISchemeType)
    ensures RawValue(s) == RawValue(t) ==> s == t
  {
  }

  /** The enum has exactly the two cases `http` and `https`. */
  lemma ExactlyTwoCases(s: APISchemeType)
    ensures s == Http || s == Https
    ensures Http != Https
  {
  }
}
