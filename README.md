# BuiltByRays edge router, modelled in Dafny

This project models the request handler of the BuiltByRays static-site worker
(`src/index.ts`). The worker gets the pathname of each request and sorts it in
a fixed order, where the first match wins:

1. A path starting with `/api/` gets a 404 with a fixed JSON error body.
2. Otherwise the path goes to the static-file step. That step works out an
   extension and a content type, but it never answers.
3. The SPA fallback serves the generated index document. It fires when the
   path is one of `/`, `/about-us`, `/contact`, or when the path starts with `/`.
4. Anything else gets a plain "Not Found" 404.

A `try`/`catch` around all of this turns any exception into a bare 500.

The index document is modelled as a template applied to two names:

- the display name, `SITE_NAME || "BuiltByRays™"`;
- the copyright name, `SITE_NAME || "BuiltByRays"`.

The template is carried as eight fragments, one per substitution site. Each
fragment keeps the literal text right around its name. The static markup
between the sites holds no substitution and is not carried. Offsets and
lengths in the document's contracts therefore count the carried text only.

Everything is pure, so the model uses datatypes, functions and lemmas:

- `js_string.dfy` (module `JsString`): the JavaScript built-ins the handler
  uses. These are `||` on `string | undefined`, `lastIndexOf` for one
  character, and `String(n)` for a non-negative integer. It also defines
  `OccursAt` (one string occurs in another at a given index) and the
  lemmas that move an occurrence into a longer concatenation.
- `worker.dfy` (module `Worker`): the constants `CACHE_TTL`, `CONTENT_TYPES`
  and `SPA_ROUTES`, the response record, the two names and the document's
  fragments, and the handler's operations: `Extension`, `ContentType`,
  `StaticFile`, `IndexDocument`, `ServeIndex`, `Classify` (the `try` block),
  `Recover` (the `catch`) and `Fetch`.
- `worker_properties.dfy` (module `WorkerProperties`): lemmas about the
  handler and the generated document.

The model follows the code. Some of its behaviour is easy to misstate:

- The extension includes its dot (`.png`), and so do the table keys. It is
  the suffix starting at the last dot, not the text after it.
- The display name fills seven places: title, logo alt, brand, call label,
  about heading, about text, footer logo alt. The copyright name fills one
  more, eight sites in all.
- The "Not Found" and "Internal Server Error" responses set no headers in
  the code. Their `text/plain` content type is the platform's default for a
  string body, so in the model their header list is empty.
- `new URL(request.url)` (line 38) runs before the `try`. A URL that fails
  to parse would therefore not be turned into a 500.

## Model

| member | source | states |
|---|---|---|
| `JsString.Or` | src/index.ts:100 | JavaScript's logical-or default: the value itself when it is present and non-empty, the fallback when it is `undefined` or `""` |
| `JsString.LastIndexOf` | src/index.ts:87 | the result is -1 or an index holding the character, and no later index holds it (so -1 exactly when the character is absent) |
| `JsString.Decimal` | src/index.ts:298 | `String(n)` of a non-negative integer below 10^21 yields at least one digit, only digits, and no leading zero |
| `JsString.DecimalRoundTrip` | src/index.ts:298 | reading the numeral back gives `n` |
| `Worker.Extension` | src/index.ts:86-87 | for a path containing a dot, the extension is a suffix of the path that starts with a dot and holds no further dot: the suffix from the last dot |
| `Worker.ContentType` | src/index.ts:88 | the table entry when the extension is a key (exact, case-sensitive), `text/plain` otherwise; the logical-or default never applies to a listed key because no entry is empty |
| `Worker.StaticFile` | src/index.ts:77-93 | `handleStaticFile` returns null for every pathname, with or without a dot |
| `Worker.ServeIndex` | src/index.ts:295-300 | status 200, headers `Content-Type: text/html` and `Cache-Control: public, max-age=3600`, built from `CACHE_TTL` |
| `Worker.Classify` | src/index.ts:42-69 | the `try` block always returns a response: no step can throw under the typed inputs |
| `Worker.Recover` | src/index.ts:70-73 | a thrown exception becomes status 500 with body exactly `Internal Server Error`; a returned response passes through unchanged |
| `Worker.Fetch` | src/index.ts:37-74 | an `/api/` path gets the JSON 404, whatever follows; any other path starting with `/` gets the index document; a path not starting with `/` gets the plain 404 |
| `WorkerProperties.FallbackConditionIsSlash` | src/index.ts:64 | every `SPA_ROUTES` entry starts with `/`, so the fallback condition is exactly "starts with `/`" |
| `WorkerProperties.NotFoundOnlyWithoutSlash` | src/index.ts:68-69 | the plain "Not Found" is returned if and only if the pathname does not start with `/` |
| `WorkerProperties.HandlerNeverFails` | src/index.ts:41-73 | the handler never throws and never answers 500; it answers 404 exactly for `/api/` paths and paths without a leading `/`, and 200 otherwise |
| `WorkerProperties.FallbackPagesIdentical` | src/index.ts:63-66 | any two non-API paths starting with `/` get the identical response |
| `WorkerProperties.SitePagesServeIndex` | src/index.ts:34 | `/`, `/about-us`, `/contact` and an asset path such as `/brand/logo.svg` all get the index response; `/api/contact` gets the JSON 404 |
| `WorkerProperties.OnlySiteNameMatters` | src/index.ts:6-10 | `ENVIRONMENT` and `SITE_DOMAIN` never change the response |
| `WorkerProperties.ContentTypeLookups` | src/index.ts:16-31 | `.svg` maps to `image/svg+xml`, while `.SVG` falls back to `text/plain` |
| `Worker.DisplayName` | src/index.ts:100 | the display name is `SITE_NAME` when it is set and non-empty, and `BuiltByRays™` otherwise; the same expression recurs at lines 159, 161, 170, 238, 240 and 271 |
| `Worker.FooterDisplayName` | src/index.ts:276 | the copyright name is `SITE_NAME` when it is set and non-empty, and `BuiltByRays` (without the trademark sign) otherwise |
| `Worker.IndexDocument` | src/index.ts:96-293 | the carried text is 157 characters of literal markup plus seven copies of the display name and one of the copyright name |
| `WorkerProperties.NameInFragments` | src/index.ts:100-277 | in each of the eight fragments the name sits right after the fragment's opening text: `<title>`, `alt="`, `<strong>`, `aria-label="Call `, `<h2>About `, `<p>`, `alt="`, and for the copyright name `© <span id="y"></span> ` |
| `WorkerProperties.DocumentLayout` | src/index.ts:96-293 | the eight fragments appear in the source's order: title, logo alt, brand, call label, about heading, about text, footer logo alt, copyright line |
| `WorkerProperties.TitleShowsName` | src/index.ts:100 | the title element holds exactly the display name, as `<title>` + display name + `</title>` |
| `WorkerProperties.CopyrightShowsFooterName` | src/index.ts:275-277 | the copyright line holds the copyright name followed by `. ` |
| `WorkerProperties.DocumentDeterminesNames` | src/index.ts:96-293 | two environments yield the same document if and only if they yield the same display name and the same copyright name |

## Left out

- URL parsing (`new URL(request.url)`, line 38): this is a platform call.
  The pathname is the model's input, so a URL that fails to parse (which
  would escape the `try`) is not modelled.
- The `Request` and `Response` objects, `async`/`await`, and the
  `console.error` logging in the `catch`: these are platform I/O. A response
  is a record of status, headers and body.
- The static markup of the index document (the doctype, the head's metadata
  and styles, hero, services, testimonial, contact details, legal links and
  the embedded client script): it holds no substitution and is the same in
  every response. The model keeps only the literal text right around each
  name site, so offsets in the document count that text only. Where the
  title comes first and the copyright line last, that is among the carried
  fragments, not in the full page.
- `main.ts` (year stamp and menu toggle in the browser) and
  `vite.config.ts` (bundler entry points): these are not part of the request
  handler.
- `JSON.stringify` of the fixed API error object: the model writes out the
  string it produces.
- Worker.Recover: no step of the modelled `try` block can throw. Under the
  typed inputs the `Threw` outcome is never produced, so the 500 path is
  stated for `Recover` alone.
- Worker.ContentType: the model looks the extension up as a map key. For
  inherited `Object.prototype` members the JavaScript lookup would differ,
  but every extension starts with a dot and no such member does.
- JsString.Decimal: it is JavaScript's `String(n)` only for integers below
  10^21. From 10^21 up JavaScript prints exponent notation (`1e+21`), which
  the model does not produce. The only value converted is `CACHE_TTL`, 3600.
