/** `SecurityHeadersFactory`: a mutable builder holding one configuration per
    header; each `with` setter replaces one of them and returns the factory,
    and `build` hands them all to the middleware's initializer. */
module Factory {
  import opened Http
  import CT = ContentTypeOptionsConfiguration
  import CSP = ContentSecurityPolicyConfiguration
  import Frame = FrameOptionsConfiguration
  import XSS = XSSProtectionConfiguration
  import HSTS = StrictTransportSecurityConfiguration
  import ServerConfiguration
  import ReportOnly = ContentSecurityPolicyReportOnlyConfiguration
  import Referrer = ReferrerPolicyConfiguration
  import SH = SecurityHeaders

  /** A snapshot of the factory's eight configuration fields. */
  datatype Settings = Settings(
    contentTypeOptions: CT.Options,
    contentSecurityPolicy: CSP.Configuration,
    frameOptions: Frame.Options,
    xssProtection: XSS.Options,
    hsts: Option<HSTS.Configuration>,
    server: Option<ServerConfiguration.Configuration>,
    referrerPolicy: Option<Referrer.Options>,
    contentSecurityPolicyReportOnly: Option<ReportOnly.Configuration>)

  /** The fields of a fresh factory. */
  const Defaults: Settings :=
    Settings(CT.Nosniff, CSP.Configuration(CSP.SelfPolicy), Frame.Deny, XSS.Block, None, None, None, None)

  /** The list `build` produces from a snapshot of the fields. */
  function Built(s: Settings): SH.Middleware {
    SH.Assemble(s.contentTypeOptions, s.contentSecurityPolicy, s.frameOptions, s.xssProtection,
                s.hsts, s.server, s.contentSecurityPolicyReportOnly, s.referrerPolicy)
  }

  class SecurityHeadersFactory {
    var contentTypeOptions: CT.Options
    var contentSecurityPolicy: CSP.Configuration
    var frameOptions: Frame.Options
    var xssProtection: XSS.Options
    var hsts: Option<HSTS.Configuration>
    var server: Option<ServerConfiguration.Configuration>
    var referrerPolicy: Option<Referrer.Options>
    var contentSecurityPolicyReportOnly: Option<ReportOnly.Configuration>

    function Current(): Settings
      reads this
    {
      Settings(contentTypeOptions, contentSecurityPolicy, frameOptions, xssProtection,
               hsts, server, referrerPolicy, contentSecurityPolicyReportOnly)
    }

    /** `init()`: nosniff, `default-src 'self'`, DENY, block; no HSTS, Server,
        Referrer-Policy or report-only policy. */
    constructor ()
      ensures Current() == Defaults
    {
      contentTypeOptions := CT.Nosniff;
      contentSecurityPolicy := CSP.Configuration(CSP.SelfPolicy);
      frameOptions := Frame.Deny;
      xssProtection := XSS.Block;
      hsts := None;
      server := None;
      referrerPolicy := None;
      contentSecurityPolicyReportOnly := None;
    }

    /** `api()`: a fresh factory whose policy is `default-src 'none'`; every
        other field is the default. */
    static method Api() returns (f: SecurityHeadersFactory)
      ensures fresh(f)
      ensures f.Current() == Defaults.(contentSecurityPolicy := CSP.Configuration(CSP.NonePolicy))
    {
      f := new SecurityHeadersFactory();
      f.contentSecurityPolicy := CSP.Configuration(CSP.NonePolicy);
    }

    method WithContentTypeOptions(configuration: CT.Options) returns (r: SecurityHeadersFactory)
      modifies this
      ensures r == this
      ensures Current() == old(Current()).(contentTypeOptions := configuration)
    {
      contentTypeOptions := configuration;
      r := this;
    }

    method WithContentSecurityPolicy(configuration: CSP.Configuration) returns (r: SecurityHeadersFactory)
      modifies this
      ensures r == this
      ensures Current() == old(Current()).(contentSecurityPolicy := configuration)
    {
      contentSecurityPolicy := configuration;
      r := this;
    }

    method WithFrameOptions(configuration: Frame.Options) returns (r: SecurityHeadersFactory)
      modifies this
      ensures r == this
      ensures Current() == old(Current()).(frameOptions := configuration)
    {
      frameOptions := configuration;
      r := this;
    }

    method WithXSSProtection(configuration: XSS.Options) returns (r: SecurityHeadersFactory)
      modifies this
      ensures r == this
      ensures Current() == old(Current()).(xssProtection := configuration)
    {
      xssProtection := configuration;
      r := this;
    }

    method WithStrictTransportSecurity(configuration: HSTS.Configuration) returns (r: SecurityHeadersFactory)
      modifies this
      ensures r == this
      ensures Current() == old(Current()).(hsts := Some(configuration))
    {
      hsts := Some(configuration);
      r := this;
    }

    method WithServer(configuration: ServerConfiguration.Configuration) returns (r: SecurityHeadersFactory)
      modifies this
      ensures r == this
      ensures Current() == old(Current()).(server := Some(configuration))
    {
      server := Some(configuration);
      r := this;
    }

    method WithReferrerPolicy(configuration: Referrer.Options) returns (r: SecurityHeadersFactory)
      modifies this
      ensures r == this
      ensures Current() == old(Current()).(referrerPolicy := Some(configuration))
    {
      referrerPolicy := Some(configuration);
      r := this;
    }

    method WithContentSecurityPolicyReportOnly(configuration: ReportOnly.Configuration) returns (r: SecurityHeadersFactory)
      modifies this
      ensures r == this
      ensures Current() == old(Current()).(contentSecurityPolicyReportOnly := Some(configuration))
    {
      contentSecurityPolicyReportOnly := Some(configuration);
      r := this;
    }

    /** `build()`: every field goes to the matching initializer parameter. */
    method Build() returns (m: SH.Middleware)
      ensures m == Built(Current())
    {
      m := SH.Init(contentTypeOptions, contentSecurityPolicy, frameOptions, xssProtection,
                   hsts, server, contentSecurityPolicyReportOnly, referrerPolicy);
    }
  }

  /** A fresh factory builds exactly the four baseline entries. */
  method BuildDefault() returns (m: SH.Middleware)
    ensures m.configurations == [
      SH.ContentTypeOptions(CT.Nosniff),
      SH.ContentSecurityPolicy(CSP.Configuration("default-src 'self'")),
      SH.FrameOptions(Frame.Deny),
      SH.XSSProtection(XSS.Block)]
  {
    var f := new SecurityHeadersFactory();
    m := f.Build();
  }

  /** `api().with(strictTransportSecurity:)` keeps `default-src 'none'` and
      adds the HSTS entry after the baseline. */
  method BuildApiWithStrictTransportSecurity(hsts: HSTS.Configuration) returns (m: SH.Middleware)
    ensures m.configurations == [
      SH.ContentTypeOptions(CT.Nosniff),
      SH.ContentSecurityPolicy(CSP.Configuration("default-src 'none'")),
      SH.FrameOptions(Frame.Deny),
      SH.XSSProtection(XSS.Block),
      SH.StrictTransportSecurity(hsts)]
  {
    var f := SecurityHeadersFactory.Api();
    var g := f.WithStrictTransportSecurity(hsts);
    m := g.Build();
  }

  /** Setting the same field twice keeps only the second configuration, and
      the setters may be chained in any order without changing the list. */
  method BuildAfterRepeatedSetters(first: ServerConfiguration.Configuration, second: ServerConfiguration.Configuration,
                                   referrer: Referrer.Options) returns (m: SH.Middleware)
    ensures m.configurations == [
      SH.ContentTypeOptions(CT.Nosniff),
      SH.ContentSecurityPolicy(CSP.Configuration("default-src 'self'")),
      SH.FrameOptions(Frame.Deny),
      SH.XSSProtection(XSS.Block),
      SH.Server(second),
      SH.ReferrerPolicy(referrer)]
  {
    var f := new SecurityHeadersFactory();
    var g := f.WithReferrerPolicy(referrer);
    g := g.WithServer(first);
    g := g.WithServer(second);
    m := g.Build();
  }
}
