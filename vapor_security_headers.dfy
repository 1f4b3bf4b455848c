/** The older, self-contained version of the middleware: a fixed list of four
    configurations, optional hard-coded HSTS, and its own header names and
    configuration types. */
module VaporSecurityHeaders {
  import opened Http
  import ModernFrame = FrameOptionsConfiguration
  import ModernXSS = XSSProtectionConfiguration
  import ModernCT = ContentTypeOptionsConfiguration

  const ContentSecurityPolicyHeader: string := "Content-Security-Policy"
  const XXssProtectionHeader: string := "X-XSS-Protection"
  const XFrameOptionsHeader: string := "X-Frame-Options"
  const XContentTypeOptionsHeader: string := "X-Content-Type-Options"
  const StrictTransportSecurityHeader: string := "Strict-Transport-Security"

  /** The literal HSTS value this version writes (note `includeSubdomains`). */
  const HstsValue: string := "max-age=31536000; includeSubdomains; preload"

  datatype XssOptions = Disable | Enable | Block
  datatype FrameOptions = Deny | SameOrigin | Allow(from: string)
  datatype ContentTypeOptions = Nosniff | None

  /** The four configuration structs of this file, plus its
      `StrictTransportSecurityConfiguration`, whose `setHeader` does nothing. */
  datatype Configuration =
    | ContentType(contentType: ContentTypeOptions)
    | ContentSecurityPolicy(value: string)
    | Frame(frame: FrameOptions)
    | Xss(xss: XssOptions)
    | StrictTransportSecurity

  function XssValue(o: XssOptions): (v: string)
    ensures v == ModernXSS.Value(match o case Disable => ModernXSS.Disable case Enable => ModernXSS.Enable case Block => ModernXSS.Block)
  {
    match o
    case Disable => "0"
    case Enable => "1"
    case Block => "1; mode=block"
  }

  function FrameValue(o: FrameOptions): (v: string)
    ensures v == ModernFrame.Value(match o case Deny => ModernFrame.Deny case SameOrigin => ModernFrame.SameOrigin case Allow(f) => ModernFrame.Allow(f))
  {
    match o
    case Deny => "DENY"
    case SameOrigin => "SAMEORIGIN"
    case Allow(from) => "ALLOW-FROM " + from
  }

  /** The headers one configuration's `setHeader` writes: none for content
      type `none` and for this file's HSTS configuration. */
  function Written(c: Configuration): (w: set<string>)
    ensures StrictTransportSecurityHeader !in w
    ensures |w| <= 1
  {
    match c
    case ContentType(Nosniff) => {XContentTypeOptionsHeader}
    case ContentType(None) => {}
    case ContentSecurityPolicy(_) => {ContentSecurityPolicyHeader}
    case Frame(_) => {XFrameOptionsHeader}
    case Xss(_) => {XXssProtectionHeader}
    case StrictTransportSecurity => {}
  }

  /** The headers after one configuration's `setHeader`: the written header,
      if any, is added or replaced, and every other header is as before. */
  function Apply(c: Configuration, h: HeaderMap): (r: HeaderMap)
    ensures c.StrictTransportSecurity? || c == ContentType(ContentTypeOptions.None) ==> r == h
    ensures c == ContentType(Nosniff) ==> r == h[XContentTypeOptionsHeader := ModernCT.Value(ModernCT.Nosniff).value]
    ensures forall k :: k in r <==> k in h || k in Written(c)
    ensures forall k :: k in h && k !in Written(c) ==> r[k] == h[k]
  {
    match c
    case ContentType(Nosniff) => h[XContentTypeOptionsHeader := "nosniff"]
    case ContentType(None) => h
    case ContentSecurityPolicy(value) => h[ContentSecurityPolicyHeader := value]
    case Frame(o) => h[XFrameOptionsHeader := FrameValue(o)]
    case Xss(o) => h[XXssProtectionHeader := XssValue(o)]
    case StrictTransportSecurity => h
  }

  method SetHeader(c: Configuration, response: Response)
    modifies response
    ensures response.headers == Apply(c, old(response.headers))
  {
    match c {
      case ContentType(o) =>
        match o {
          case Nosniff => response.SetHeader(XContentTypeOptionsHeader, "nosniff");
          case None =>
        }
      case ContentSecurityPolicy(value) =>
        response.SetHeader(ContentSecurityPolicyHeader, value);
      case Frame(o) =>
        match o {
          case Deny => response.SetHeader(XFrameOptionsHeader, "DENY");
          case SameOrigin => response.SetHeader(XFrameOptionsHeader, "SAMEORIGIN");
          case Allow(from) => response.SetHeader(XFrameOptionsHeader, "ALLOW-FROM " + from);
        }
      case Xss(o) =>
        match o {
          case Disable => response.SetHeader(XXssProtectionHeader, "0");
          case Enable => response.SetHeader(XXssProtectionHeader, "1");
          case Block => response.SetHeader(XXssProtectionHeader, "1; mode=block");
        }
      case StrictTransportSecurity =>
    }
  }

  function ApplyAll(cs: seq<Configuration>, h: HeaderMap): HeaderMap
    decreases |cs|
  {
    if cs == [] then h else Apply(cs[|cs| - 1], ApplyAll(cs[..|cs| - 1], h))
  }

  /** No configuration of this version touches Strict-Transport-Security: it
      is neither added, removed nor changed. */
  lemma {:induction false} ApplyAllKeepsHsts(cs: seq<Configuration>, h: HeaderMap)
    ensures StrictTransportSecurityHeader in ApplyAll(cs, h) <==> StrictTransportSecurityHeader in h
    ensures StrictTransportSecurityHeader in h ==>
      ApplyAll(cs, h)[StrictTransportSecurityHeader] == h[StrictTransportSecurityHeader]
    decreases |cs|
  {
    if cs != [] {
      ApplyAllKeepsHsts(cs[..|cs| - 1], h);
    }
  }

  datatype Middleware = Middleware(enableHSTS: bool, configurations: seq<Configuration>)

  /** The memberwise initializer, with its defaults. */
  function Make(
    contentType: ContentTypeOptions := Nosniff,
    csp: string := "default-src 'self'",
    frame: FrameOptions := Deny,
    xss: XssOptions := Block,
    enableHSTS: bool := false): (m: Middleware)
    ensures m.enableHSTS == enableHSTS
    ensures m.configurations == [ContentType(contentType), ContentSecurityPolicy(csp), Frame(frame), Xss(xss)]
  {
    Middleware(enableHSTS, [ContentType(contentType), ContentSecurityPolicy(csp), Frame(frame), Xss(xss)])
  }

  /** `init(api:enableHSTS:)`: the API profile differs from the default only in
      its policy, `default-src 'none'` instead of `default-src 'self'`. */
  function MakeProfile(api: bool, enableHSTS: bool := false): (m: Middleware)
    ensures m.enableHSTS == enableHSTS
    ensures |m.configurations| == 4
    ensures m.configurations[0] == ContentType(Nosniff)
    ensures m.configurations[1] == ContentSecurityPolicy(if api then "default-src 'none'" else "default-src 'self'")
    ensures m.configurations[2] == Frame(Deny)
    ensures m.configurations[3] == Xss(Block)
  {
    if api then Make(Nosniff, "default-src 'none'", Deny, Block, enableHSTS)
    else Make(enableHSTS := enableHSTS)
  }

  /** The headers `respond` leaves: HSTS first when enabled, then each
      configuration in list order. */
  function Responded(m: Middleware, h: HeaderMap): HeaderMap {
    ApplyAll(m.configurations, if m.enableHSTS then h[StrictTransportSecurityHeader := HstsValue] else h)
  }

  /** `respond`: after the downstream responder has produced `response`,
      write HSTS when enabled, then run every configuration in order. */
  method Respond(m: Middleware, response: Response)
    modifies response
    ensures response.headers == Responded(m, old(response.headers))
  {
    if m.enableHSTS {
      response.SetHeader(StrictTransportSecurityHeader, HstsValue);
    }
    var cs := m.configurations;
    ghost var start := response.headers;
    for i := 0 to |cs|
      invariant response.headers == ApplyAll(cs[..i], start)
    {
      assert cs[..i + 1][..i] == cs[..i];
      SetHeader(cs[i], response);
    }
    assert cs[..|cs|] == cs;
  }

  /** With HSTS enabled the response carries the literal value; with it
      disabled, whatever the downstream responder set is left as it was, and
      an absent header stays absent. */
  lemma RespondedHsts(m: Middleware, h: HeaderMap)
    ensures m.enableHSTS ==>
      (StrictTransportSecurityHeader in Responded(m, h) && Responded(m, h)[StrictTransportSecurityHeader] == HstsValue)
    ensures !m.enableHSTS ==>
      (StrictTransportSecurityHeader in Responded(m, h) <==> StrictTransportSecurityHeader in h)
    ensures !m.enableHSTS && StrictTransportSecurityHeader in h ==>
      Responded(m, h)[StrictTransportSecurityHeader] == h[StrictTransportSecurityHeader]
  {
    if m.enableHSTS {
      ApplyAllKeepsHsts(m.configurations, h[StrictTransportSecurityHeader := HstsValue]);
    } else {
      ApplyAllKeepsHsts(m.configurations, h);
    }
  }

  /** For any arguments of the memberwise initializer, the response carries
      the given policy, the frame and XSS values of the given options, and
      `nosniff` when requested; with content type `none` the downstream
      responder's X-Content-Type-Options, present or absent, is kept. */
  lemma MakeHeaders(contentType: ContentTypeOptions, csp: string, frame: FrameOptions, xss: XssOptions,
                    enableHSTS: bool, h: HeaderMap)
    ensures var r := Responded(Make(contentType, csp, frame, xss, enableHSTS), h);
      && ContentSecurityPolicyHeader in r && r[ContentSecurityPolicyHeader] == csp
      && XFrameOptionsHeader in r && r[XFrameOptionsHeader] == FrameValue(frame)
      && XXssProtectionHeader in r && r[XXssProtectionHeader] == XssValue(xss)
      && (contentType == Nosniff ==>
            XContentTypeOptionsHeader in r && r[XContentTypeOptionsHeader] == "nosniff")
      && (contentType == ContentTypeOptions.None ==>
            (XContentTypeOptionsHeader in r <==> XContentTypeOptionsHeader in h)
            && (XContentTypeOptionsHeader in h ==> r[XContentTypeOptionsHeader] == h[XContentTypeOptionsHeader]))
  {
    var m := Make(contentType, csp, frame, xss, enableHSTS);
    var h0 := if enableHSTS then h[StrictTransportSecurityHeader := HstsValue] else h;
    ApplyAllFour(m.configurations, h0);
  }

  /** The headers of a profile's response: nosniff, the profile's policy,
      DENY and `1; mode=block`. */
  lemma ProfileHeaders(api: bool, enableHSTS: bool, h: HeaderMap)
    ensures var r := Responded(MakeProfile(api, enableHSTS), h);
      && XContentTypeOptionsHeader in r && r[XContentTypeOptionsHeader] == "nosniff"
      && ContentSecurityPolicyHeader in r
      && r[ContentSecurityPolicyHeader] == (if api then "default-src 'none'" else "default-src 'self'")
      && XFrameOptionsHeader in r && r[XFrameOptionsHeader] == "DENY"
      && XXssProtectionHeader in r && r[XXssProtectionHeader] == "1; mode=block"
  {
    if api {
      MakeHeaders(Nosniff, "default-src 'none'", Deny, Block, enableHSTS, h);
    } else {
      MakeHeaders(Nosniff, "default-src 'self'", Deny, Block, enableHSTS, h);
    }
  }

  lemma ApplyAllFour(cs: seq<Configuration>, h: HeaderMap)
    requires |cs| == 4
    ensures ApplyAll(cs, h) == Apply(cs[3], Apply(cs[2], Apply(cs[1], Apply(cs[0], h))))
  {
    assert ApplyAll(cs[..1], h) == Apply(cs[0], h) by {
      assert cs[..1][..0] == [];
    }
    assert ApplyAll(cs[..2], h) == Apply(cs[1], ApplyAll(cs[..1], h)) by {
      assert cs[..2][..1] == cs[..1];
    }
    assert ApplyAll(cs[..3], h) == Apply(cs[2], ApplyAll(cs[..2], h)) by {
      assert cs[..3][..2] == cs[..2];
    }
    assert ApplyAll(cs, h) == Apply(cs[3], ApplyAll(cs[..3], h));
  }
}
