/** `ReferrerPolicyConfiguration`: Referrer-Policy, one of nine tokens, given
    by the option's raw value. */
module ReferrerPolicyConfiguration {
  import opened Http
  import HeaderKey

  datatype Options =
    | Empty
    | NoReferrer
    | NoReferrerWhenDowngrade
    | SameOrigin
    | Origin
    | StrictOrigin
    | OriginWhenCrossOrigin
    | StrictOriginWhenCrossOrigin
    | UnsafeUrl

  /** The option's raw value, which is the header value. */
  function RawValue(option: Options): (v: string)
    ensures v == "" <==> option == Empty
  {
    match option
    case Empty => ""
    case NoReferrer => "no-referrer"
    case NoReferrerWhenDowngrade => "no-referrer-when-downgrade"
    case SameOrigin => "same-origin"
    case Origin => "origin"
    case StrictOrigin => "strict-origin"
    case OriginWhenCrossOrigin => "origin-when-cross-origin"
    case StrictOriginWhenCrossOrigin => "strict-origin-when-cross-origin"
    case UnsafeUrl => "unsafe-url"
  }

  /** The failable `init(rawValue:)` of a string-backed enumeration. */
  function FromRawValue(s: string): (r: Option<Options>)
    ensures r.Some? ==> RawValue(r.value) == s
  {
    if s == "" then Some(Empty)
    else if s == "no-referrer" then Some(NoReferrer)
    else if s == "no-referrer-when-downgrade" then Some(NoReferrerWhenDowngrade)
    else if s == "same-origin" then Some(SameOrigin)
    else if s == "origin" then Some(Origin)
    else if s == "strict-origin" then Some(StrictOrigin)
    else if s == "origin-when-cross-origin" then Some(OriginWhenCrossOrigin)
    else if s == "strict-origin-when-cross-origin" then Some(StrictOriginWhenCrossOrigin)
    else if s == "unsafe-url" then Some(UnsafeUrl)
    else None
  }

  lemma RawValueRoundTrip(option: Options)
    ensures FromRawValue(RawValue(option)) == Some(option)
  {
  }

  /** The nine raw values are pairwise distinct. */
  lemma RawValueInjective(a: Options, b: Options)
    ensures RawValue(a) == RawValue(b) ==> a == b
  {
    RawValueRoundTrip(a);
    RawValueRoundTrip(b);
  }

  /** Writes Referrer-Policy (present even for `empty`), replacing any earlier value. */
  method SetHeader(option: Options, response: Response)
    modifies response
    ensures response.headers == old(response.headers)[HeaderKey.ReferrerPolicy := RawValue(option)]
    ensures HeaderKey.ReferrerPolicy in response.headers
  {
    response.SetHeader(HeaderKey.ReferrerPolicy, RawValue(option));
  }
}
