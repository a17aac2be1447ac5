/** The edge request router of the static site worker: it classifies a
    request path and builds the response, catching any failure as a 500. */
module Worker {
  import opened JsString

  /** The worker's environment bindings; each may be absent. */
  datatype Env = Env(environment: Option<string>, siteName: Option<string>, siteDomain: Option<string>)

  type Header = (string, string)

  /** A response as constructed by `new Response(body, init)`: the status
      defaults to 200 and the headers are those the init object lists. */
  datatype Response = Response(status: nat, headers: seq<Header>, body: string)

  /** How evaluating the body of the handler's `try` block ends. */
  datatype Outcome = Returned(response: Response) | Threw(error: string)

  /** Seconds a browser or cache may keep the index document. */
  const CacheTtl: nat := 3600

  /** File extension (with its dot) to MIME type. */
  const ContentTypes: map<string, string> := map[
    ".html" := "text/html",
    ".css" := "text/css",
    ".js" := "application/javascript",
    ".json" := "application/json",
    ".png" := "image/png",
    ".jpg" := "image/jpeg",
    ".jpeg" := "image/jpeg",
    ".svg" := "image/svg+xml",
    ".ico" := "image/x-icon",
    ".woff" := "font/woff",
    ".woff2" := "font/woff2",
    ".ttf" := "font/ttf",
    ".otf" := "font/otf",
    ".webmanifest" := "application/manifest+json"
  ]

  /** The logical pages of the site, all served by the index document. */
  const SpaRoutes: seq<string> := ["/", "/about-us", "/contact"]

  const DefaultSiteName: string := "BuiltByRays™"
  const DefaultFooterName: string := "BuiltByRays"

  /** `JSON.stringify({ error: "API not implemented", message: "This is a static site" })` */
  const ApiErrorBody: string := "{\"error\":\"API not implemented\",\"message\":\"This is a static site\"}"

  const ApiNotImplemented: Response := Response(404, [("Content-Type", "application/json")], ApiErrorBody)
  const NotFound: Response := Response(404, [], "Not Found")
  const InternalServerError: Response := Response(500, [], "Internal Server Error")

  // ---------------------------------------------------------------- static files

  /** `pathname.substring(pathname.lastIndexOf("."))`: the suffix from the
      last dot on, so it starts with a dot and holds no other. */
  function Extension(pathname: string): (ext: string)
    requires '.' in pathname
    ensures 1 <= |ext| <= |pathname| && ext[0] == '.' && '.' !in ext[1..]
    ensures pathname == pathname[..|pathname| - |ext|] + ext
  {
    var k := LastIndexOf(pathname, '.');
    assert pathname == pathname[..k] + pathname[k..];
    pathname[k..]
  }

  /** `CONTENT_TYPES[ext] || "text/plain"`. */
  function ContentType(ext: string): (ct: string)
    ensures ext in ContentTypes ==> ct == ContentTypes[ext]
    ensures ext !in ContentTypes ==> ct == "text/plain"
  {
    Or(if ext in ContentTypes then Some(ContentTypes[ext]) else None, "text/plain")
  }

  /** `handleStaticFile`: a path without a dot is skipped at once; for one
      with a dot the content type is worked out, and then no asset is
      fetched, so the step never answers. */
  function StaticFile(pathname: string): (r: Option<Response>)
    ensures r == None
  {
    if '.' !in pathname then None
    else
      var contentType := ContentType(Extension(pathname));
      None
  }

  // ---------------------------------------------------------------- index document

  /** `env.SITE_NAME || "BuiltByRays™"`, shown at seven places of the page. */
  function DisplayName(env: Env): (name: string)
    ensures env.siteName.Some? && env.siteName.value != "" ==> name == env.siteName.value
    ensures !(env.siteName.Some? && env.siteName.value != "") ==> name == DefaultSiteName
  {
    Or(env.siteName, DefaultSiteName)
  }

  /** `env.SITE_NAME || "BuiltByRays"`, used in the footer's copyright line. */
  function FooterDisplayName(env: Env): (name: string)
    ensures env.siteName.Some? && env.siteName.value != "" ==> name == env.siteName.value
    ensures !(env.siteName.Some? && env.siteName.value != "") ==> name == DefaultFooterName
  {
    Or(env.siteName, DefaultFooterName)
  }

  /** The template literal of `serveIndexHTML`, applied to the display name
      and the copyright name. It is carried as eight fragments, one per
      substitution site, each keeping the literal text right around its name
      (each fragment's contract says where the name sits inside it). The
      static markup between them (the head's metadata and styles, hero,
      services, testimonial, contact details, legal links and script) holds
      no substitution and is not carried: the 157 characters below are the
      carried literal text only. The display name is substituted seven times
      and the copyright name once. */
  function IndexDocument(name: string, footerName: string): (d: string)
    ensures |d| == 157 + 7 * |name| + |footerName|
  {
    TitleElement(name) + LogoAlt(name) + Brand(name) + CallLabel(name)
      + AboutHeading(name) + AboutText(name) + FooterLogoAlt(name) + CopyrightLine(footerName)
  }

  /** The `<title>` element (line 100). */
  function TitleElement(name: string): string {
    "<title>" + name + "</title>"
  }

  /** The header logo's alternative text (lines 158-160). */
  function LogoAlt(name: string): string {
    "alt=\"" + name + " logo\""
  }

  /** The brand next to the logo (line 161). */
  function Brand(name: string): string {
    "<strong>" + name + "</strong>"
  }

  /** The call button's label (lines 169-171). */
  function CallLabel(name: string): string {
    "aria-label=\"Call " + name + "\""
  }

  /** The about section's heading (line 238). */
  function AboutHeading(name: string): string {
    "<h2>About " + name + "</h2>"
  }

  /** The about section's first sentence (lines 239-241). */
  function AboutText(name: string): string {
    "<p>" + name + " is more than a name—it's a promise."
  }

  /** The footer logo's alternative text (lines 270-272). */
  function FooterLogoAlt(name: string): string {
    "alt=\"" + name + " logo small\""
  }

  /** The copyright line of the footer (lines 275-277). */
  function CopyrightLine(footerName: string): string {
    "© <span id=\"y\"></span> " + footerName + ". "
  }

  /** `serveIndexHTML`: the index document with the site name filled in,
      default status, an HTML content type and a one-hour public cache. */
  function ServeIndex(env: Env): (r: Response)
    ensures r.status == 200
    ensures r.headers == [("Content-Type", "text/html"), ("Cache-Control", "public, max-age=3600")]
  {
    assert "public, max-age=" + Decimal(CacheTtl) == "public, max-age=3600" by {
      assert Decimal(3) == "3" && Decimal(36) == "36" && Decimal(360) == "360";
    }
    Response(
      200,
      [("Content-Type", "text/html"), ("Cache-Control", "public, max-age=" + Decimal(CacheTtl))],
      IndexDocument(DisplayName(env), FooterDisplayName(env)))
  }

  // ---------------------------------------------------------------- the handler

  /** The `try` block of `fetch`: the checks in order, first match wins. */
  function Classify(pathname: string, env: Env): (o: Outcome)
    ensures o.Returned?
  {
    if "/api/" <= pathname then Returned(ApiNotImplemented)
    else
      match StaticFile(pathname)
      case Some(response) => Returned(response)
      case None =>
        if pathname in SpaRoutes || "/" <= pathname then Returned(ServeIndex(env))
        else Returned(NotFound)
  }

  /** The `catch` of `fetch`: any exception becomes a bare 500; a returned
      response passes through unchanged. */
  function Recover(o: Outcome): (r: Response)
    ensures o.Threw? ==> r.status == 500 && r.body == "Internal Server Error" && r.headers == []
    ensures o.Returned? ==> r == o.response
  {
    match o
    case Returned(response) => response
    case Threw(_) => InternalServerError
  }

  /** `fetch`, given the request URL's pathname. In effect there are three
      outcomes: the API refusal, the index document, and a plain 404 only
      for a path that does not start with a slash. */
  function Fetch(pathname: string, env: Env): (r: Response)
    ensures "/api/" <= pathname ==> r == ApiNotImplemented
    ensures !("/api/" <= pathname) && "/" <= pathname ==> r == ServeIndex(env)
    ensures !("/" <= pathname) ==> r == NotFound
  {
    Recover(Classify(pathname, env))
  }
}
