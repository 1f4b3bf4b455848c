/** `HTTPSRedirectMiddleware`: decides, per request, whether to pass it on,
    reject it with 400, or answer with a permanent redirect to HTTPS. */
module HttpsRedirect {
  import opened Http

  /** The application's running environment, identified by its name; only
      `development` matters to the decision. */
  datatype Environment = Environment(name: string)

  const Development: Environment := Environment("development")
  const Testing: Environment := Environment("testing")
  const Production: Environment := Environment("production")

  /** The parts of a request the decision reads: the first X-Forwarded-Proto
      and Host header values, the URL's scheme, and the URL as written. */
  datatype Request = Request(
    environment: Environment,
    forwardedProto: Option<string>,
    scheme: Option<string>,
    host: Option<string>,
    url: string)

  /** `PassThrough` hands the request to the next responder; `BadRequest` is
      the failed future with status 400; `PermanentRedirect` is a 301. */
  datatype Outcome = PassThrough | BadRequest | PermanentRedirect(location: string)

  function StatusCode(o: Outcome): (code: Option<int>)
    ensures code.None? <==> o == PassThrough
  {
    match o
    case PassThrough => None
    case BadRequest => Some(400)
    case PermanentRedirect(_) => Some(301)
  }

  /** The protocol the client used: the forwarded header, else the URL's
      scheme, else `http`. */
  function Protocol(r: Request): (p: string)
    ensures r.forwardedProto.Some? ==> p == r.forwardedProto.value
    ensures r.forwardedProto.None? && r.scheme.Some? ==> p == r.scheme.value
    ensures r.forwardedProto.None? && r.scheme.None? ==> p == "http"
  {
    match r.forwardedProto
    case Some(p) => p
    case None =>
      match r.scheme
      case Some(s) => s
      case None => "http"
  }

  /** Whether the allow-list admits `host`; no list admits every host. */
  predicate HostAllowed(allowedHosts: Option<seq<string>>, host: string) {
    allowedHosts.None? || host in allowedHosts.value
  }

  datatype HTTPSRedirectMiddleware = HTTPSRedirectMiddleware(allowedHosts: Option<seq<string>>) {

    /** `respond`: development and HTTPS requests pass; otherwise a request
        without Host, or with a Host outside a given allow-list, gets 400, and
        every other request is redirected to the same host and URL over
        HTTPS. */
    function Respond(r: Request): (o: Outcome)
      ensures o == PassThrough <==> r.environment == Development || Protocol(r) == "https"
      ensures o == BadRequest <==>
        && r.environment != Development && Protocol(r) != "https"
        && (r.host.None? || !HostAllowed(allowedHosts, r.host.value))
      ensures o.PermanentRedirect? ==>
        && r.host.Some? && HostAllowed(allowedHosts, r.host.value)
        && o.location == "https://" + r.host.value + r.url
    {
      if r.environment == Development then PassThrough
      else
        var proto := Protocol(r);
        if proto != "https" then
          match r.host
          case None => BadRequest
          case Some(host) =>
            if allowedHosts.Some? && host !in allowedHosts.value then BadRequest
            else PermanentRedirect("https://" + host + r.url)
        else PassThrough
    }
  }

  /** Every redirect points at an `https://` URL. */
  lemma RedirectIsHttps(m: HTTPSRedirectMiddleware, r: Request)
    requires m.Respond(r).PermanentRedirect?
    ensures |m.Respond(r).location| >= 8 && m.Respond(r).location[..8] == "https://"
  {
    var host := r.host.value;
    assert m.Respond(r).location == "https://" + host + r.url;
  }

  /** Following a redirect converges: the same request arriving over HTTPS
      passes through. */
  lemma RedirectTargetPasses(m: HTTPSRedirectMiddleware, r: Request)
    requires m.Respond(r).PermanentRedirect?
    ensures m.Respond(r.(forwardedProto := None, scheme := Some("https"))) == PassThrough
  {
  }

  /** The allow-list can only turn a redirect into a 400, never the reverse,
      and never affects the pass-through paths. */
  lemma AllowListOnlyRejects(m: HTTPSRedirectMiddleware, r: Request)
    ensures HTTPSRedirectMiddleware(None).Respond(r) == BadRequest ==> m.Respond(r) == BadRequest
    ensures m.Respond(r) == PassThrough <==> HTTPSRedirectMiddleware(None).Respond(r) == PassThrough
    ensures m.Respond(r).PermanentRedirect? ==> m.Respond(r) == HTTPSRedirectMiddleware(None).Respond(r)
  {
  }

  /** The request shapes the redirection tests exercise, as the code decides them. */
  lemma KnownDecisions(url: string)
    ensures HTTPSRedirectMiddleware(Some([])).Respond(Request(Development, None, None, Some("localhost:8080"), url)) == PassThrough
    ensures HTTPSRedirectMiddleware(Some([])).Respond(Request(Testing, Some("https"), None, None, url)) == PassThrough
    ensures HTTPSRedirectMiddleware(Some([])).Respond(Request(Testing, None, None, None, url)) == BadRequest
    ensures HTTPSRedirectMiddleware(Some(["localhost:8081", "example.com"])).Respond(Request(Testing, None, None, Some("localhost:8080"), url)) == BadRequest
    ensures HTTPSRedirectMiddleware(None).Respond(Request(Testing, None, None, Some("localhost:8080"), url)) == PermanentRedirect("https://localhost:8080" + url)
  {
    assert "https://" + "localhost:8080" + url == "https://localhost:8080" + url;
    assert "localhost:8080" != "localhost:8081";
  }
}
