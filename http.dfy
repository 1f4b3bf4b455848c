/** The slice of the web framework the security-header middleware touches: an
    optional value, a response whose header map is written by name with
    replace-or-add semantics, and Swift's 64-bit `Int`. */
module Http {

  datatype Option<+T> = None | Some(value: T)

  /** Swift `Int` on the 64-bit platforms the package targets. */
  type Int64 = x: int | -0x8000_0000_0000_0000 <= x < 0x8000_0000_0000_0000

  /** Response headers, one value per header name. */
  type HeaderMap = map<string, string>

  /** The shared response object every configuration writes its header onto. */
  class Response {
    var headers: HeaderMap

    constructor (headers: HeaderMap)
      ensures this.headers == headers
    {
      this.headers := headers;
    }

    /** `response.headers[name] = value`: any earlier value of `name` is
        replaced, every other header is left alone. */
    method SetHeader(name: string, value: string)
      modifies this
      ensures headers == old(headers)[name := value]
    {
      headers := headers[name := value];
    }
  }
}
