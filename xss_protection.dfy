/** `XSSProtectionConfiguration`: X-XSS-Protection with four options, the last
    carrying a report URI. */
module XSSProtectionConfiguration {
  import opened Http
  import HeaderKey

  datatype Options = Disable | Enable | Block | Report(uri: string)

  const ReportPrefix: string := "1; report="

  /** The header value. Only `disable` turns the filter off (leading `0`). */
  function Value(option: Options): (v: string)
    ensures |v| > 0
    ensures v[0] == '0' <==> option == Disable
    ensures option.Report? ==> |v| == |ReportPrefix| + |option.uri| && v[|ReportPrefix|..] == option.uri
  {
    match option
    case Disable => "0"
    case Enable => "1"
    case Block => "1; mode=block"
    case Report(uri) => ReportPrefix + uri
  }

  /** Reads a header value back into the option that produces it. */
  function ParseValue(v: string): (r: Option<Options>)
    ensures r.Some? ==> |v| > 0
  {
    if v == "0" then Some(Disable)
    else if v == "1" then Some(Enable)
    else if v == "1; mode=block" then Some(Block)
    else if |v| >= |ReportPrefix| && v[..|ReportPrefix|] == ReportPrefix then Some(Report(v[|ReportPrefix|..]))
    else None
  }

  lemma ValueRoundTrip(option: Options)
    ensures ParseValue(Value(option)) == Some(option)
  {
    if option.Report? {
      var v := Value(option);
      assert v[..|ReportPrefix|] == ReportPrefix;
      assert v != "1; mode=block" by {
        assert v[3] == 'r';
      }
      assert |v| >= 10;
    }
  }

  /** Distinct options give distinct header values. */
  lemma ValueInjective(a: Options, b: Options)
    ensures Value(a) == Value(b) ==> a == b
  {
    ValueRoundTrip(a);
    ValueRoundTrip(b);
  }

  /** Every option writes X-XSS-Protection, replacing any earlier value. */
  method SetHeader(option: Options, response: Response)
    modifies response
    ensures response.headers == old(response.headers)[HeaderKey.XXssProtection := Value(option)]
  {
    match option {
      case Disable =>
        response.SetHeader(HeaderKey.XXssProtection, "0");
      case Enable =>
        response.SetHeader(HeaderKey.XXssProtection, "1");
      case Block =>
        response.SetHeader(HeaderKey.XXssProtection, "1; mode=block");
      case Report(uri) =>
        response.SetHeader(HeaderKey.XXssProtection, "1; report=" + uri);
    }
  }
}
