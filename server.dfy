/** `ServerConfiguration`: the Server header, set to a verbatim string. */
module ServerConfiguration {
  import opened Http
  import HeaderKey

  datatype Configuration = Configuration(value: string)

  /** Writes Server, replacing whatever the downstream responder put there. */
  method SetHeader(configuration: Configuration, response: Response)
    modifies response
    ensures response.headers == old(response.headers)[HeaderKey.Server := configuration.value]
  {
    response.SetHeader(HeaderKey.Server, configuration.value);
  }
}
