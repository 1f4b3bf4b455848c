/** `ContentSecurityPolicyConfiguration`: a Content-Security-Policy value kept
    as an opaque, unvalidated string. */
module ContentSecurityPolicyConfiguration {
  import opened Http
  import HeaderKey

  datatype Configuration = Configuration(value: string)

  /** The rendering of the policy builder's `defaultSrc(sources: 'self')`. */
  const SelfPolicy: string := "default-src 'self'"
  /** The rendering of the policy builder's `defaultSrc(sources: 'none')`. */
  const NonePolicy: string := "default-src 'none'"

  /** Writes the stored value verbatim, replacing any earlier policy. */
  method SetHeader(configuration: Configuration, response: Response)
    modifies response
    ensures response.headers == old(response.headers)[HeaderKey.ContentSecurityPolicy := configuration.value]
  {
    response.SetHeader(HeaderKey.ContentSecurityPolicy, configuration.value);
  }
}
