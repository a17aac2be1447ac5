/** Properties of the edge request router, stated over the model in `Worker`. */
module WorkerProperties {
  import opened JsString
  import opened Worker

  // ---------------------------------------------------------------- classification

  /** Every allow-listed route starts with a slash, so the fallback condition
      `SPA_ROUTES.includes(p) || p.startsWith("/")` is just its second half. */
  lemma FallbackConditionIsSlash(pathname: string)
    ensures (pathname in SpaRoutes || "/" <= pathname) <==> "/" <= pathname
  {
    forall route | route in SpaRoutes
      ensures "/" <= route
    {
    }
  }

  /** The plain-text 404 is returned exactly for the paths without a leading
      slash, which a URL's pathname never is. */
  lemma NotFoundOnlyWithoutSlash(pathname: string, env: Env)
    ensures Fetch(pathname, env) == NotFound <==> !("/" <= pathname)
  {
  }

  /** Under the typed inputs nothing in the `try` block throws, so the
      handler answers 200 or 404 and never 500. */
  lemma HandlerNeverFails(pathname: string, env: Env)
    ensures Classify(pathname, env).Returned?
    ensures Fetch(pathname, env).status == 200 || Fetch(pathname, env).status == 404
    ensures Fetch(pathname, env).status == 404 <==> "/api/" <= pathname || !("/" <= pathname)
  {
  }

  /** Every fallback path gets the very same response. */
  lemma FallbackPagesIdentical(p1: string, p2: string, env: Env)
    requires "/" <= p1 && !("/api/" <= p1)
    requires "/" <= p2 && !("/api/" <= p2)
    ensures Fetch(p1, env) == Fetch(p2, env)
  {
  }

  /** The site's pages, and an asset-looking path, all serve the index. */
  lemma SitePagesServeIndex(env: Env)
    ensures Fetch("/", env) == ServeIndex(env)
    ensures Fetch("/about-us", env) == ServeIndex(env)
    ensures Fetch("/contact", env) == ServeIndex(env)
    ensures Fetch("/brand/logo.svg", env) == ServeIndex(env)
    ensures Fetch("/api/contact", env) == ApiNotImplemented
  {
    SitePaths();
  }

  /** How the example paths fall under the two prefixes the handler tests. */
  lemma SitePaths()
    ensures "/" <= "/" && !("/api/" <= "/")
    ensures "/" <= "/about-us" && !("/api/" <= "/about-us")
    ensures "/" <= "/contact" && !("/api/" <= "/contact")
    ensures "/" <= "/brand/logo.svg" && !("/api/" <= "/brand/logo.svg")
    ensures "/api/" <= "/api/contact"
  {
    assert "/about-us"[..1] == "/" && "/about-us"[2] != "/api/"[2];
    assert "/contact"[..1] == "/" && "/contact"[1] != "/api/"[1];
    assert "/brand/logo.svg"[..1] == "/" && "/brand/logo.svg"[1] != "/api/"[1];
    assert "/api/contact"[..5] == "/api/";
  }

  /** `ENVIRONMENT` and `SITE_DOMAIN` never affect the response. */
  lemma OnlySiteNameMatters(pathname: string, e1: Env, e2: Env)
    requires e1.siteName == e2.siteName
    ensures Fetch(pathname, e1) == Fetch(pathname, e2)
  {
  }

  // ---------------------------------------------------------------- static files

  /** Lookups are exact and case-sensitive. */
  lemma ContentTypeLookups()
    ensures ContentType(".svg") == "image/svg+xml"
    ensures ContentType(".SVG") == "text/plain"
  {
  }

  // ---------------------------------------------------------------- the index document

  /** Inside each fragment the name sits right after the fragment's opening
      text. */
  lemma NameInFragments(name: string, footerName: string)
    ensures OccursAt(name, TitleElement(name), |"<title>"|)
    ensures OccursAt(name, LogoAlt(name), |"alt=\""|)
    ensures OccursAt(name, Brand(name), |"<strong>"|)
    ensures OccursAt(name, CallLabel(name), |"aria-label=\"Call "|)
    ensures OccursAt(name, AboutHeading(name), |"<h2>About "|)
    ensures OccursAt(name, AboutText(name), |"<p>"|)
    ensures OccursAt(name, FooterLogoAlt(name), |"alt=\""|)
    ensures OccursAt(footerName, CopyrightLine(footerName), |"© <span id=\"y\"></span> "|)
  {
    OccursBetween(name, "<title>", "</title>");
    OccursBetween(name, "alt=\"", " logo\"");
    OccursBetween(name, "<strong>", "</strong>");
    OccursBetween(name, "aria-label=\"Call ", "\"");
    OccursBetween(name, "<h2>About ", "</h2>");
    OccursBetween(name, "<p>", " is more than a name—it's a promise.");
    OccursBetween(name, "alt=\"", " logo small\"");
    OccursBetween(footerName, "© <span id=\"y\"></span> ", ". ");
  }

  /** Each of eight consecutive parts occurs in their concatenation at the
      sum of the lengths before it. */
  lemma EightParts(t: string, l: string, b: string, k: string, h: string, a: string, f: string, c: string)
    ensures var d := t + l + b + k + h + a + f + c;
      && OccursAt(t, d, 0)
      && OccursAt(l, d, |t|)
      && OccursAt(b, d, |t + l|)
      && OccursAt(k, d, |t + l + b|)
      && OccursAt(h, d, |t + l + b + k|)
      && OccursAt(a, d, |t + l + b + k + h|)
      && OccursAt(f, d, |t + l + b + k + h + a|)
      && OccursAt(c, d, |t + l + b + k + h + a + f|)
  {
    // each part occurs in itself, then in each longer prefix of the whole
    OccursSelf(t);
    OccursBefore(t, t, l, 0);
    OccursBefore(t, t + l, b, 0);
    OccursBefore(t, t + l + b, k, 0);
    OccursBefore(t, t + l + b + k, h, 0);
    OccursBefore(t, t + l + b + k + h, a, 0);
    OccursBefore(t, t + l + b + k + h + a, f, 0);
    OccursBefore(t, t + l + b + k + h + a + f, c, 0);
    OccursSelf(l);
    OccursAfter(l, t, l, 0);
    OccursBefore(l, t + l, b, |t|);
    OccursBefore(l, t + l + b, k, |t|);
    OccursBefore(l, t + l + b + k, h, |t|);
    OccursBefore(l, t + l + b + k + h, a, |t|);
    OccursBefore(l, t + l + b + k + h + a, f, |t|);
    OccursBefore(l, t + l + b + k + h + a + f, c, |t|);
    OccursSelf(b);
    OccursAfter(b, t + l, b, 0);
    OccursBefore(b, t + l + b, k, |t + l|);
    OccursBefore(b, t + l + b + k, h, |t + l|);
    OccursBefore(b, t + l + b + k + h, a, |t + l|);
    OccursBefore(b, t + l + b + k + h + a, f, |t + l|);
    OccursBefore(b, t + l + b + k + h + a + f, c, |t + l|);
    OccursSelf(k);
    OccursAfter(k, t + l + b, k, 0);
    OccursBefore(k, t + l + b + k, h, |t + l + b|);
    OccursBefore(k, t + l + b + k + h, a, |t + l + b|);
    OccursBefore(k, t + l + b + k + h + a, f, |t + l + b|);
    OccursBefore(k, t + l + b + k + h + a + f, c, |t + l + b|);
    OccursSelf(h);
    OccursAfter(h, t + l + b + k, h, 0);
    OccursBefore(h, t + l + b + k + h, a, |t + l + b + k|);
    OccursBefore(h, t + l + b + k + h + a, f, |t + l + b + k|);
    OccursBefore(h, t + l + b + k + h + a + f, c, |t + l + b + k|);
    OccursSelf(a);
    OccursAfter(a, t + l + b + k + h, a, 0);
    OccursBefore(a, t + l + b + k + h + a, f, |t + l + b + k + h|);
    OccursBefore(a, t + l + b + k + h + a + f, c, |t + l + b + k + h|);
    OccursSelf(f);
    OccursAfter(f, t + l + b + k + h + a, f, 0);
    OccursBefore(f, t + l + b + k + h + a + f, c, |t + l + b + k + h + a|);
    OccursSelf(c);
    OccursAfter(c, t + l + b + k + h + a + f, c, 0);
  }

  /** The eight substitution sites appear in the source's order: title,
      logo alt, brand, call label, about heading, about text, footer logo
      alt, copyright line. Offsets count the carried fragments only. */
  lemma DocumentLayout(name: string, footerName: string)
    ensures var d := IndexDocument(name, footerName);
      var t, l, b, k, h, a, f, c := TitleElement(name), LogoAlt(name), Brand(name), CallLabel(name),
                                   AboutHeading(name), AboutText(name), FooterLogoAlt(name), CopyrightLine(footerName);
      && OccursAt(t, d, 0)
      && OccursAt(l, d, |t|)
      && OccursAt(b, d, |t + l|)
      && OccursAt(k, d, |t + l + b|)
      && OccursAt(h, d, |t + l + b + k|)
      && OccursAt(a, d, |t + l + b + k + h|)
      && OccursAt(f, d, |t + l + b + k + h + a|)
      && OccursAt(c, d, |t + l + b + k + h + a + f|)
  {
    EightParts(TitleElement(name), LogoAlt(name), Brand(name), CallLabel(name),
               AboutHeading(name), AboutText(name), FooterLogoAlt(name), CopyrightLine(footerName));
  }

  /** The title element holds exactly the display name. In the source the
      doctype and the head's opening tags precede it; among the carried
      fragments it comes first. */
  lemma TitleShowsName(env: Env)
    ensures OccursAt("<title>" + DisplayName(env) + "</title>", ServeIndex(env).body, 0)
  {
    var n, f := DisplayName(env), FooterDisplayName(env);
    assert IndexDocument(n, f)[..|TitleElement(n)|] == TitleElement(n);
  }

  /** The copyright line holds the copyright name followed by `. `. In the
      source the legal links, the closing tags and the script follow it;
      among the carried fragments it comes last. */
  lemma CopyrightShowsFooterName(env: Env)
    ensures var line := "© <span id=\"y\"></span> " + FooterDisplayName(env) + ". ";
      OccursAt(line, ServeIndex(env).body, |ServeIndex(env).body| - |line|)
  {
    var n, f := DisplayName(env), FooterDisplayName(env);
    var d := IndexDocument(n, f);
    assert d[|d| - |CopyrightLine(f)|..] == CopyrightLine(f);
  }

  /** The title element is a prefix of the carried document. */
  lemma TitleFirst(name: string, footerName: string)
    ensures TitleElement(name) <= IndexDocument(name, footerName)
  {
    var d := IndexDocument(name, footerName);
    EightParts(TitleElement(name), LogoAlt(name), Brand(name), CallLabel(name),
               AboutHeading(name), AboutText(name), FooterLogoAlt(name), CopyrightLine(footerName));
    assert d[0..] == d;
  }

  /** Equal documents with display names of equal length have equal display
      names: the title shows them at the same place. */
  lemma SameDocumentSameTitle(n1: string, f1: string, n2: string, f2: string)
    requires IndexDocument(n1, f1) == IndexDocument(n2, f2) && |n1| == |n2|
    ensures n1 == n2
  {
    var d := IndexDocument(n1, f1);
    var t1, t2 := TitleElement(n1), TitleElement(n2);
    TitleFirst(n1, f1);
    TitleFirst(n2, f2);
    assert t1 == d[..|t1|] == t2;
    assert t1[7..7 + |n1|] == n1;
    assert t2[7..7 + |n2|] == n2;
  }

  /** Two environments yield the same document exactly when they yield the
      same display name and the same copyright name. */
  lemma {:induction false} DocumentDeterminesNames(e1: Env, e2: Env)
    ensures ServeIndex(e1).body == ServeIndex(e2).body
      <==> DisplayName(e1) == DisplayName(e2) && FooterDisplayName(e1) == FooterDisplayName(e2)
  {
    var n1, f1 := DisplayName(e1), FooterDisplayName(e1);
    var n2, f2 := DisplayName(e2), FooterDisplayName(e2);
    if IndexDocument(n1, f1) == IndexDocument(n2, f2) {
      assert 7 * |n1| + |f1| == 7 * |n2| + |f2|;
      assert |DefaultSiteName| == 12 && |DefaultFooterName| == 11;
      assert |n1| == |n2|;
      SameDocumentSameTitle(n1, f1, n2, f2);
    }
  }
}
