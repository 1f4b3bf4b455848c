/** `ContentSecurityPolicyReportOnlyConfiguration`: a verbatim string written
    to the report-only policy header. */
module ContentSecurityPolicyReportOnlyConfiguration {
  import opened Http
  import HeaderKey

  datatype Configuration = Configuration(value: string)

  /** Writes the value to the report-only header; the enforcing
      Content-Security-Policy header is not touched. */
  method SetHeader(configuration: Configuration, response: Response)
    modifies response
    ensures response.headers == old(response.headers)[HeaderKey.ContentSecurityPolicyReportOnly := configuration.value]
    ensures HeaderKey.ContentSecurityPolicy in old(response.headers) <==> HeaderKey.ContentSecurityPolicy in response.headers
    ensures HeaderKey.ContentSecurityPolicy in old(response.headers) ==>
      response.headers[HeaderKey.ContentSecurityPolicy] == old(response.headers)[HeaderKey.ContentSecurityPolicy]
  {
    response.SetHeader(HeaderKey.ContentSecurityPolicyReportOnly, configuration.value);
  }
}
