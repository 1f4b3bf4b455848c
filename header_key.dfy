/** The header names the configurations write. The first six are declared by
    the package; `Strict-Transport-Security` and `Server` are the framework's
    own names. */
module HeaderKey {

  const ContentSecurityPolicy: string := "content-security-policy"
  const XXssProtection: string := "x-xss-protection"
  const XFrameOptions: string := "x-frame-options"
  const XContentTypeOptions: string := "x-content-type-options"
  const ContentSecurityPolicyReportOnly: string := "content-security-policy-report-only"
  const ReferrerPolicy: string := "referrer-policy"
  const StrictTransportSecurity: string := "Strict-Transport-Security"
  const Server: string := "Server"

  /** Every header name the package writes. */
  function All(): (names: seq<string>)
    ensures |names| == 8
    ensures forall i, j :: 0 <= i < j < |names| ==> names[i] != names[j]
  {
    [XContentTypeOptions, ContentSecurityPolicy, XFrameOptions, XXssProtection,
     StrictTransportSecurity, Server, ContentSecurityPolicyReportOnly, ReferrerPolicy]
  }
}
