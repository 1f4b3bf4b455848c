/** `SecurityHeaders`: the middleware's ordered configuration list and the
    step that applies it to every response. */
module SecurityHeaders {
  import opened Http
  import HeaderKey
  import CT = ContentTypeOptionsConfiguration
  import CSP = ContentSecurityPolicyConfiguration
  import Frame = FrameOptionsConfiguration
  import XSS = XSSProtectionConfiguration
  import HSTS = StrictTransportSecurityConfiguration
  import ServerConfiguration
  import ReportOnly = ContentSecurityPolicyReportOnlyConfiguration
  import Referrer = ReferrerPolicyConfiguration

  /** One entry of the list: any of the header configurations. */
  datatype Configuration =
    | ContentTypeOptions(contentType: CT.Options)
    | ContentSecurityPolicy(csp: CSP.Configuration)
    | FrameOptions(frame: Frame.Options)
    | XSSProtection(xss: XSS.Options)
    | StrictTransportSecurity(hsts: HSTS.Configuration)
    | Server(server: ServerConfiguration.Configuration)
    | ContentSecurityPolicyReportOnly(reportOnly: ReportOnly.Configuration)
    | ReferrerPolicy(referrer: Referrer.Options)

  /** The place of each kind of entry in the list the middleware builds. */
  function Rank(c: Configuration): (r: nat)
    ensures r < 8
  {
    match c
    case ContentTypeOptions(_) => 0
    case ContentSecurityPolicy(_) => 1
    case FrameOptions(_) => 2
    case XSSProtection(_) => 3
    case StrictTransportSecurity(_) => 4
    case Server(_) => 5
    case ContentSecurityPolicyReportOnly(_) => 6
    case ReferrerPolicy(_) => 7
  }

  /** The header an entry writes; entries of different kinds write different headers. */
  function Header(c: Configuration): (name: string)
    ensures name == HeaderKey.All()[Rank(c)]
  {
    match c
    case ContentTypeOptions(_) => HeaderKey.XContentTypeOptions
    case ContentSecurityPolicy(_) => HeaderKey.ContentSecurityPolicy
    case FrameOptions(_) => HeaderKey.XFrameOptions
    case XSSProtection(_) => HeaderKey.XXssProtection
    case StrictTransportSecurity(_) => HeaderKey.StrictTransportSecurity
    case Server(_) => HeaderKey.Server
    case ContentSecurityPolicyReportOnly(_) => HeaderKey.ContentSecurityPolicyReportOnly
    case ReferrerPolicy(_) => HeaderKey.ReferrerPolicy
  }

  /** The value an entry writes, or `None` when it writes nothing. */
  function Value(c: Configuration): (v: Option<string>)
    ensures v.None? <==> c == ContentTypeOptions(CT.Options.None)
  {
    match c
    case ContentTypeOptions(o) => CT.Value(o)
    case ContentSecurityPolicy(p) => Some(p.value)
    case FrameOptions(o) => Some(Frame.Value(o))
    case XSSProtection(o) => Some(XSS.Value(o))
    case StrictTransportSecurity(s) => Some(HSTS.HeaderValue(s))
    case Server(s) => Some(s.value)
    case ContentSecurityPolicyReportOnly(p) => Some(p.value)
    case ReferrerPolicy(o) => Some(Referrer.RawValue(o))
  }

  /** Whether applying `c` writes header `name`. */
  predicate Writes(c: Configuration, name: string) {
    Value(c).Some? && Header(c) == name
  }

  /** The headers after one entry's `setHeader`: its own header holds its
      value, and every other header is exactly as before. */
  function Apply(c: Configuration, h: HeaderMap): (r: HeaderMap)
    ensures Value(c).Some? ==> Header(c) in r && r[Header(c)] == Value(c).value
    ensures Value(c).None? ==> r == h
    ensures r.Keys <= h.Keys + {Header(c)}
    ensures forall k :: k in h && k != Header(c) ==> k in r && r[k] == h[k]
  {
    if Value(c).Some? then h[Header(c) := Value(c).value] else h
  }

  /** Applying an entry a second time changes nothing. */
  lemma ApplyIdempotent(c: Configuration, h: HeaderMap)
    ensures Apply(c, Apply(c, h)) == Apply(c, h)
  {
  }

  /** The `setHeader` of the entry's own configuration. */
  method SetHeader(c: Configuration, response: Response)
    modifies response
    ensures response.headers == Apply(c, old(response.headers))
  {
    match c {
      case ContentTypeOptions(o) => CT.SetHeader(o, response);
      case ContentSecurityPolicy(p) => CSP.SetHeader(p, response);
      case FrameOptions(o) => Frame.SetHeader(o, response);
      case XSSProtection(o) => XSS.SetHeader(o, response);
      case StrictTransportSecurity(s) => HSTS.SetHeader(s, response);
      case Server(s) => ServerConfiguration.SetHeader(s, response);
      case ContentSecurityPolicyReportOnly(p) => ReportOnly.SetHeader(p, response);
      case ReferrerPolicy(o) => Referrer.SetHeader(o, response);
    }
  }

  /** The headers after applying every entry once, in list order. */
  function ApplyAll(cs: seq<Configuration>, h: HeaderMap): HeaderMap
    decreases |cs|
  {
    if cs == [] then h else Apply(cs[|cs| - 1], ApplyAll(cs[..|cs| - 1], h))
  }

  /** A header that no entry writes keeps what the downstream responder put
      there, and stays absent if it was absent. */
  lemma {:induction false} ApplyAllUntouched(cs: seq<Configuration>, h: HeaderMap, name: string)
    requires forall i :: 0 <= i < |cs| ==> !Writes(cs[i], name)
    ensures name in ApplyAll(cs, h) <==> name in h
    ensures name in h ==> ApplyAll(cs, h)[name] == h[name]
    decreases |cs|
  {
    if cs != [] {
      ApplyAllUntouched(cs[..|cs| - 1], h, name);
    }
  }

  /** A header ends up with the value of the last entry that writes it. */
  lemma {:induction false} ApplyAllLastWriter(cs: seq<Configuration>, h: HeaderMap, j: nat)
    requires j < |cs| && Value(cs[j]).Some?
    requires forall i :: j < i < |cs| ==> !Writes(cs[i], Header(cs[j]))
    ensures Header(cs[j]) in ApplyAll(cs, h)
    ensures ApplyAll(cs, h)[Header(cs[j])] == Value(cs[j]).value
    decreases |cs|
  {
    if j < |cs| - 1 {
      ApplyAllLastWriter(cs[..|cs| - 1], h, j);
    }
  }

  /** Entries appear in the fixed kind order, so no kind appears twice. */
  predicate InRegistryOrder(cs: seq<Configuration>) {
    forall i, j :: 0 <= i < j < |cs| ==> Rank(cs[i]) < Rank(cs[j])
  }

  /** The middleware: its configuration list is fixed when it is built. */
  datatype Middleware = Middleware(configurations: seq<Configuration>)

  /** The entry for an optional configuration: none when it is absent. */
  function Entry<T>(o: Option<T>, wrap: T -> Configuration): seq<Configuration> {
    if o.Some? then [wrap(o.value)] else []
  }

  function Count<T>(o: Option<T>): nat {
    if o.Some? then 1 else 0
  }

  /** The present optional entries, in the order HSTS, Server, report-only
      policy, Referrer-Policy. */
  function Optionals(
    hsts: Option<HSTS.Configuration>,
    server: Option<ServerConfiguration.Configuration>,
    reportOnly: Option<ReportOnly.Configuration>,
    referrer: Option<Referrer.Options>): (es: seq<Configuration>)
    ensures |es| == Count(hsts) + Count(server) + Count(reportOnly) + Count(referrer)
  {
    Entry(hsts, (s: HSTS.Configuration) => StrictTransportSecurity(s))
      + Entry(server, (s: ServerConfiguration.Configuration) => Server(s))
      + Entry(reportOnly, (p: ReportOnly.Configuration) => ContentSecurityPolicyReportOnly(p))
      + Entry(referrer, (o: Referrer.Options) => ReferrerPolicy(o))
  }

  /** The list `init` builds: the four baseline entries, then the present
      optional configurations. The defaults are the initializer's. */
  function Assemble(
    contentType: CT.Options := CT.Nosniff,
    csp: CSP.Configuration := CSP.Configuration(CSP.SelfPolicy),
    frame: Frame.Options := Frame.Deny,
    xss: XSS.Options := XSS.Block,
    hsts: Option<HSTS.Configuration> := None,
    server: Option<ServerConfiguration.Configuration> := None,
    reportOnly: Option<ReportOnly.Configuration> := None,
    referrer: Option<Referrer.Options> := None): (m: Middleware)
    ensures |m.configurations| == 4 + Count(hsts) + Count(server) + Count(reportOnly) + Count(referrer)
    ensures m.configurations[..4] ==
      [ContentTypeOptions(contentType), ContentSecurityPolicy(csp), FrameOptions(frame), XSSProtection(xss)]
  {
    var baseline := [ContentTypeOptions(contentType), ContentSecurityPolicy(csp), FrameOptions(frame), XSSProtection(xss)];
    var cs := baseline + Optionals(hsts, server, reportOnly, referrer);
    assert cs[..4] == baseline;
    Middleware(cs)
  }

  /** Whatever options are given, the assembled list is in the fixed kind
      order: baseline first, then HSTS, Server, report-only, Referrer-Policy,
      each kind at most once. */
  lemma AssembleInOrder(
    contentType: CT.Options, csp: CSP.Configuration, frame: Frame.Options, xss: XSS.Options,
    hsts: Option<HSTS.Configuration>, server: Option<ServerConfiguration.Configuration>,
    reportOnly: Option<ReportOnly.Configuration>, referrer: Option<Referrer.Options>)
    ensures InRegistryOrder(Assemble(contentType, csp, frame, xss, hsts, server, reportOnly, referrer).configurations)
  {
    var cs := Assemble(contentType, csp, frame, xss, hsts, server, reportOnly, referrer).configurations;
    var e4 := Entry(hsts, (s: HSTS.Configuration) => StrictTransportSecurity(s));
    var e5 := Entry(server, (s: ServerConfiguration.Configuration) => Server(s));
    var e6 := Entry(reportOnly, (p: ReportOnly.Configuration) => ContentSecurityPolicyReportOnly(p));
    var e7 := Entry(referrer, (o: Referrer.Options) => ReferrerPolicy(o));
    assert cs[4..] == e4 + e5 + e6 + e7;
    RankedTail(cs, e4, e5, e6, e7);
  }

  lemma RankedTail(cs: seq<Configuration>, e4: seq<Configuration>, e5: seq<Configuration>, e6: seq<Configuration>, e7: seq<Configuration>)
    requires |cs| >= 4 && cs[4..] == e4 + e5 + e6 + e7
    requires forall i :: 0 <= i < 4 ==> Rank(cs[i]) == i
    requires |e4| <= 1 && |e5| <= 1 && |e6| <= 1 && |e7| <= 1
    requires forall c :: c in e4 ==> Rank(c) == 4
    requires forall c :: c in e5 ==> Rank(c) == 5
    requires forall c :: c in e6 ==> Rank(c) == 6
    requires forall c :: c in e7 ==> Rank(c) == 7
    ensures InRegistryOrder(cs)
  {
  }

  /** An optional configuration has an entry exactly when it is present, and
      that entry carries the given configuration. */
  lemma AssembleOptionalEntries(
    contentType: CT.Options, csp: CSP.Configuration, frame: Frame.Options, xss: XSS.Options,
    hsts: Option<HSTS.Configuration>, server: Option<ServerConfiguration.Configuration>,
    reportOnly: Option<ReportOnly.Configuration>, referrer: Option<Referrer.Options>)
    ensures var cs := Assemble(contentType, csp, frame, xss, hsts, server, reportOnly, referrer).configurations;
      && (forall c :: c in cs ==>
            && (c.StrictTransportSecurity? ==> hsts == Some(c.hsts))
            && (c.Server? ==> server == Some(c.server))
            && (c.ContentSecurityPolicyReportOnly? ==> reportOnly == Some(c.reportOnly))
            && (c.ReferrerPolicy? ==> referrer == Some(c.referrer)))
      && (hsts.Some? ==> StrictTransportSecurity(hsts.value) in cs)
      && (server.Some? ==> Server(server.value) in cs)
      && (reportOnly.Some? ==> ContentSecurityPolicyReportOnly(reportOnly.value) in cs)
      && (referrer.Some? ==> ReferrerPolicy(referrer.value) in cs)
  {
    var cs := Assemble(contentType, csp, frame, xss, hsts, server, reportOnly, referrer).configurations;
    var e4 := Entry(hsts, (s: HSTS.Configuration) => StrictTransportSecurity(s));
    var e5 := Entry(server, (s: ServerConfiguration.Configuration) => Server(s));
    var e6 := Entry(reportOnly, (p: ReportOnly.Configuration) => ContentSecurityPolicyReportOnly(p));
    var e7 := Entry(referrer, (o: Referrer.Options) => ReferrerPolicy(o));
    var baseline := [ContentTypeOptions(contentType), ContentSecurityPolicy(csp), FrameOptions(frame), XSSProtection(xss)];
    assert cs == baseline + e4 + e5 + e6 + e7;
  }

  /** `init`: starts from the four baseline entries and appends each present
      optional configuration in turn. */
  method Init(
    contentType: CT.Options := CT.Nosniff,
    csp: CSP.Configuration := CSP.Configuration(CSP.SelfPolicy),
    frame: Frame.Options := Frame.Deny,
    xss: XSS.Options := XSS.Block,
    hsts: Option<HSTS.Configuration> := None,
    server: Option<ServerConfiguration.Configuration> := None,
    reportOnly: Option<ReportOnly.Configuration> := None,
    referrer: Option<Referrer.Options> := None)
    returns (m: Middleware)
    ensures m == Assemble(contentType, csp, frame, xss, hsts, server, reportOnly, referrer)
  {
    var configurations := [ContentTypeOptions(contentType), ContentSecurityPolicy(csp), FrameOptions(frame), XSSProtection(xss)];
    ghost var baseline := configurations;
    if hsts.Some? {
      configurations := configurations + [StrictTransportSecurity(hsts.value)];
    }
    ghost var e4 := Entry(hsts, (s: HSTS.Configuration) => StrictTransportSecurity(s));
    assert configurations == baseline + e4;
    if server.Some? {
      configurations := configurations + [Server(server.value)];
    }
    ghost var e5 := Entry(server, (s: ServerConfiguration.Configuration) => Server(s));
    assert configurations == baseline + (e4 + e5);
    if reportOnly.Some? {
      configurations := configurations + [ContentSecurityPolicyReportOnly(reportOnly.value)];
    }
    ghost var e6 := Entry(reportOnly, (p: ReportOnly.Configuration) => ContentSecurityPolicyReportOnly(p));
    assert configurations == baseline + (e4 + e5 + e6);
    if referrer.Some? {
      configurations := configurations + [ReferrerPolicy(referrer.value)];
    }
    ghost var e7 := Entry(referrer, (o: Referrer.Options) => ReferrerPolicy(o));
    assert configurations == baseline + (e4 + e5 + e6 + e7);
    m := Middleware(configurations);
  }

  /** `respond`: once the downstream responder has produced `response`, each
      entry's `setHeader` runs once, in list order. */
  method Respond(m: Middleware, response: Response)
    modifies response
    ensures response.headers == ApplyAll(m.configurations, old(response.headers))
  {
    var cs := m.configurations;
    for i := 0 to |cs|
      invariant response.headers == ApplyAll(cs[..i], old(response.headers))
    {
      assert cs[..i + 1][..i] == cs[..i];
      SetHeader(cs[i], response);
    }
    assert cs[..|cs|] == cs;
  }

  /** In a list in registry order every entry that writes a header leaves its
      own value in the response, since no other entry writes the same header. */
  lemma RegistryEntryWins(cs: seq<Configuration>, h: HeaderMap, j: nat)
    requires InRegistryOrder(cs)
    requires j < |cs| && Value(cs[j]).Some?
    ensures Header(cs[j]) in ApplyAll(cs, h)
    ensures ApplyAll(cs, h)[Header(cs[j])] == Value(cs[j]).value
  {
    forall i | j < i < |cs|
      ensures Header(cs[i]) != Header(cs[j])
    {
      assert Rank(cs[j]) < Rank(cs[i]);
      assert HeaderKey.All()[Rank(cs[j])] != HeaderKey.All()[Rank(cs[i])];
    }
    ApplyAllLastWriter(cs, h, j);
  }

  /** The response of a middleware built with the default baseline and any
      content-security policy: nosniff, that policy, DENY, `1; mode=block`,
      and no HSTS, Server, report-only or Referrer-Policy header beyond what
      the downstream responder set. */
  lemma {:induction false} BaselineResponse(csp: CSP.Configuration, h: HeaderMap, name: string)
    requires name in {HeaderKey.StrictTransportSecurity, HeaderKey.Server,
                      HeaderKey.ContentSecurityPolicyReportOnly, HeaderKey.ReferrerPolicy}
    ensures var r := ApplyAll(Assemble(csp := csp).configurations, h);
      && HeaderKey.XContentTypeOptions in r && r[HeaderKey.XContentTypeOptions] == "nosniff"
      && HeaderKey.ContentSecurityPolicy in r && r[HeaderKey.ContentSecurityPolicy] == csp.value
      && HeaderKey.XFrameOptions in r && r[HeaderKey.XFrameOptions] == "DENY"
      && HeaderKey.XXssProtection in r && r[HeaderKey.XXssProtection] == "1; mode=block"
      && (name in r <==> name in h)
      && (name in h ==> r[name] == h[name])
  {
    var cs := Assemble(csp := csp).configurations;
    assert |cs| == 4;
    AssembleInOrder(CT.Nosniff, csp, Frame.Deny, XSS.Block, None, None, None, None);
    RegistryEntryWins(cs, h, 0);
    RegistryEntryWins(cs, h, 1);
    RegistryEntryWins(cs, h, 2);
    RegistryEntryWins(cs, h, 3);
    ApplyAllUntouched(cs, h, name);
  }
}
