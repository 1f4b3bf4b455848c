/** `XssProtectionConfiguration`: the older X-XSS-Protection configuration
    with three options and no report URI. */
module XssProtectionConfiguration {
  import opened Http
  import HeaderKey
  import XSS = XSSProtectionConfiguration

  datatype Options = Disable | Enable | Block

  /** The same-named option of the four-option configuration. */
  function Widen(option: Options): (w: XSS.Options)
    ensures !w.Report?
  {
    match option
    case Disable => XSS.Disable
    case Enable => XSS.Enable
    case Block => XSS.Block
  }

  /** The header value; each option agrees with its four-option namesake. */
  function Value(option: Options): (v: string)
    ensures v == XSS.Value(Widen(option))
    ensures v[0] == '0' <==> option == Disable
  {
    match option
    case Disable => "0"
    case Enable => "1"
    case Block => "1; mode=block"
  }

  /** Distinct options give distinct header values. */
  lemma ValueInjective(a: Options, b: Options)
    ensures Value(a) == Value(b) ==> a == b
  {
    XSS.ValueInjective(Widen(a), Widen(b));
  }

  /** Every option writes X-XSS-Protection, replacing any earlier value. */
  method SetHeader(option: Options, response: Response)
    modifies response
    ensures response.headers == old(response.headers)[HeaderKey.XXssProtection := Value(option)]
  {
    match option {
      case Disable =>
        response.SetHeader(HeaderKey.XXssProtection, "0");
      case Enable =>
        response.SetHeader(HeaderKey.XXssProtection, "1");
      case Block =>
        response.SetHeader(HeaderKey.XXssProtection, "1; mode=block");
    }
  }
}
