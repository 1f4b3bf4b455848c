/** `ContentTypeOptionsConfiguration`: X-Content-Type-Options, either `nosniff`
    or no header at all. */
module ContentTypeOptionsConfiguration {
  import opened Http
  import HeaderKey

  datatype Options = Nosniff | None

  /** The value written, or `None` when the option writes no header. */
  function Value(option: Options): (v: Option<string>)
    ensures v.Some? <==> option == Nosniff
    ensures v.Some? ==> v.value == "nosniff"
  {
    match option
    case Nosniff => Some("nosniff")
    case None => Option.None
  }

  /** `.nosniff` sets the header, replacing any earlier value; `.none` leaves
      the whole header map as it was, including an existing
      X-Content-Type-Options value. */
  method SetHeader(option: Options, response: Response)
    modifies response
    ensures option == Nosniff ==>
      response.headers == old(response.headers)[HeaderKey.XContentTypeOptions := "nosniff"]
    ensures option == Options.None ==> response.headers == old(response.headers)
  {
    match option {
      case Nosniff =>
        response.SetHeader(HeaderKey.XContentTypeOptions, "nosniff");
      case None =>
    }
  }
}
