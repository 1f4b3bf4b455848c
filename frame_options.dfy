/** `FrameOptionsConfiguration`: X-Frame-Options. */
module FrameOptionsConfiguration {
  import opened Http
  import HeaderKey

  datatype Options = Deny | SameOrigin | Allow(from: string)

  const AllowPrefix: string := "ALLOW-FROM "

  /** The header value; the `allow` origin is interpolated without validation. */
  function Value(option: Options): (v: string)
    ensures option.Allow? <==> |v| >= |AllowPrefix| && v[..|AllowPrefix|] == AllowPrefix
    ensures option.Allow? ==> |v| == 11 + |option.from| && v[11..] == option.from
  {
    match option
    case Deny => "DENY"
    case SameOrigin => "SAMEORIGIN"
    case Allow(from) => AllowPrefix + from
  }

  /** Reads a header value back into the option that produces it. */
  function ParseValue(v: string): (r: Option<Options>)
    ensures r.Some? ==> |v| > 0
  {
    if v == "DENY" then Some(Deny)
    else if v == "SAMEORIGIN" then Some(SameOrigin)
    else if |v| >= |AllowPrefix| && v[..|AllowPrefix|] == AllowPrefix then Some(Allow(v[|AllowPrefix|..]))
    else Option.None
  }

  lemma ValueRoundTrip(option: Options)
    ensures ParseValue(Value(option)) == Some(option)
  {
    if option.Allow? {
      var v := Value(option);
      assert v != "DENY" && v != "SAMEORIGIN" by {
        assert v[0] == 'A';
        assert v[1] == 'L';
      }
      assert v[|AllowPrefix|..] == option.from;
    }
  }

  /** Distinct options give distinct header values. */
  lemma ValueInjective(a: Options, b: Options)
    ensures Value(a) == Value(b) ==> a == b
  {
    ValueRoundTrip(a);
    ValueRoundTrip(b);
  }

  /** Writes X-Frame-Options for every option, replacing any earlier value. */
  method SetHeader(option: Options, response: Response)
    modifies response
    ensures response.headers == old(response.headers)[HeaderKey.XFrameOptions := Value(option)]
  {
    match option {
      case Deny =>
        response.SetHeader(HeaderKey.XFrameOptions, "DENY");
      case SameOrigin =>
        response.SetHeader(HeaderKey.XFrameOptions, "SAMEORIGIN");
      case Allow(from) =>
        response.SetHeader(HeaderKey.XFrameOptions, "ALLOW-FROM " + from);
    }
  }
}
