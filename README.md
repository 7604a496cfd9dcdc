# vitrio-start server core: session and dispatch protocol

This project models, in Dafny, the request protocol of the vitrio-start server (a Hono-based
server-rendering framework for the vitrio UI library) and proves properties of it:

- **Document requests** (`src/server/framework.tsx`). The CSRF cookie `vitrio_csrf` is
  ensured on every request: an existing token is reused, otherwise one is minted and set.
  A POST finds the first route whose pattern matches and that has an action. It reads the
  form body once and checks that the request's cookie token equals the `_csrf` field. If the
  check passes, it runs the action. It then sets the one-shot `vitrio_flash` cookie to
  `{ok, at}` and always answers 303 back to the same path (POST-Redirect-GET). Any other
  method renders the page, then reads the flash cookie and clears it.
- **API routes** (`src/server/mount-api-routes.ts`): the first route whose path is exactly
  the pathname answers. It calls the handler for the upper-cased method if there is one, and
  answers 405 otherwise. When no route has the path, the result is `null`.
- **Loader/action signals** (`src/server/response.ts`): `redirect`, `notFound`, the
  `isRedirect`/`isNotFound` guards, and the union they form with plain data.
- **Form fields** (`src/server/form.ts`): the loop that collects string fields into an object
  before schema validation.

Modules: `Js` holds JavaScript values, truthiness and number printing. `Response`, `Form`,
`ApiRoutes` and `Framework` follow the four source files. `Session` is a browser cookie jar
across several requests. In `Framework`, the Hono context is the class `Context`:
- read-only `request` and `requestCookies`;
- an appended `setCookies` sequence of `(name, value, attrs)` directives;
- ghost logs of form reads and action invocations.

The methods on it mirror the source functions. Each is proved equal to a pure specification:
`RunSpec` for `runMatchedAction` and `Handle` for `handleDocumentRequest`. The lemmas state
the protocol's properties about those specifications.

Abstract parameters:
- the path matcher `matchPath`, which comes from the vitrio library;
- each route's action, which may return a value or throw;
- the renderer, which may throw;
- `JSON.parse`;
- the minted token (`crypto.randomUUID` / `Math.random`);
- `Date.now()`.

The source decides where it and its own comments disagree. The comment in
`src/server/response.ts:4-15` says a `notFound()` action result makes the framework flash
`ok=false`, and a `redirect()` result is followed without a flash. The shown
`handleDocumentRequest` ignores the action's return value. It flashes `ok=true` and redirects
to the request path (`Framework.SignalsFromActionsAreIgnored`). Likewise, the trailing-slash
301, the 404/500 statuses, security headers and loader redirects that some tests expect
belong to an orchestrator that is not part of this model. None of them is asserted here.

## Model

| member | source | states |
|---|---|---|
| `Js.Decimal` | src/server/framework.tsx:44 | `JSON.stringify` of the timestamp: a non-empty string of decimal digits with no leading zero (0 prints as `"0"`) whose value, read most significant digit first, is exactly the number |
| `Response.Redirect` | src/server/response.ts:18-20 | the result satisfies `isRedirect` and not `isNotFound`, has tag `'redirect'` and keeps `to` and `status` exactly |
| `Response.NotFound` | src/server/response.ts:22-24 | the result satisfies `isNotFound` and not `isRedirect`, has tag `'notfound'`, keeps `status` and has no `to` |
| `Response.Classify` | src/server/response.ts:16 | the union `RedirectResult \| NotFoundResult \| T`: redirect case iff `isRedirect`, not-found case iff `isNotFound`, otherwise the plain value itself; a recognised signal's `to` and `status` are what the object's property reads give |
| `Response.DefaultStatuses` | src/server/response.ts:18-24 | `redirect(to)` defaults to status 303 and `notFound()` to 404 |
| `Response.IsRedirect` | src/server/response.ts:26-28 | only an object with a `_tag` property can satisfy `isRedirect`: null and every non-object are rejected |
| `Response.IsNotFound` | src/server/response.ts:30-32 | only an object with a `_tag` property can satisfy `isNotFound`: null and every non-object are rejected |
| `Response.GuardsReadTheTag` | src/server/response.ts:26-32 | each guard holds exactly of objects whose `_tag` reads as its tag string |
| `Response.GuardsExclusive` | src/server/response.ts:27 | no value satisfies both guards |
| `Response.NonObjectsArePlain` | src/server/response.ts:31 | null, undefined and every non-object value satisfy neither guard and classify as plain data |
| `Response.ClassifyConstructed` | src/server/response.ts:16-32 | a constructed signal classifies back into its own case with its own `to` and `status` |
| `Response.ConstructorsInjective` | src/server/response.ts:18-24 | different arguments give different signals; a redirect is never a not-found signal |
| `Form.FormGet` | src/server/framework.tsx:23 | `formData.get(name)`: null iff no entry has the name, else the value of the first entry with it |
| `Form.CollectStringFields` | src/server/form.ts:12-15 | the loop builds exactly the map `Collected(entries)` |
| `Form.ParseFormData` | src/server/form.ts:7-17 | the schema's parse receives exactly the collected map |
| `Form.CollectedKeys` | src/server/form.ts:14 | a key is collected iff at least one string entry has it, so keys that only carried files are absent |
| `Form.CollectedLastWins` | src/server/form.ts:13-14 | a collected key's value is that of the last string entry with that key |
| `Form.FilesIgnored` | src/server/form.ts:14 | a file entry leaves the collected map unchanged |
| `ApiRoutes.ToUpper` | src/server/mount-api-routes.ts:15 | upper-casing keeps the length and upper-cases every ASCII letter in place |
| `ApiRoutes.FirstWithPath` | src/server/mount-api-routes.ts:17-18 | none iff no route's path equals the pathname, else the least index whose path equals it |
| `ApiRoutes.Select` | src/server/mount-api-routes.ts:17-27 | no route iff no path is equal; at the first route with the path, a function under the upper-cased method is invoked, and otherwise the method is not allowed; an invoked handler is always such a function |
| `ApiRoutes.Dispatch` | src/server/mount-api-routes.ts:17-27 | null iff no route's path is string-equal to the pathname; at the first route with the path, the handler's response when it has a function under the upper-cased method, and 405 otherwise |
| `ApiRoutes.HandleApiRoutes` | src/server/mount-api-routes.ts:10-28 | the first-match scan returns the handler's response, 405, or null as `Dispatch` does |
| `ApiRoutes.ShadowedRoutesUnreachable` | src/server/mount-api-routes.ts:17-24 | routes after the first one with the path, same-path ones included, never change the outcome |
| `ApiRoutes.MethodCaseInsensitive` | src/server/mount-api-routes.ts:19 | methods equal up to ASCII letter case select the same handler |
| `ApiRoutes.LowerCaseGetIsGet` | src/server/mount-api-routes.ts:15 | an example of the case-insensitive lookup: `get` and `Get` dispatch as `GET` does |
| `ApiRoutes.HandlerAnswers` | src/server/mount-api-routes.ts:19-21 | when the first route with the path has a function under the upper-cased method, the answer is that function's response to the request |
| `ApiRoutes.NoHandlerIsMethodNotAllowed` | src/server/mount-api-routes.ts:19-23 | when the first route with the path has no function for the method, the answer is 405 "Method Not Allowed" |
| `ApiRoutes.ExactPathComparison` | src/server/mount-api-routes.ts:18 | two examples of the exact comparison: a trailing slash is not folded, and `:name` is not a parameter |
| `Framework.Context.GetCookie` | src/server/framework.tsx:13 | `getCookie` yields a value iff the request carries the cookie, and then the request's value |
| `Framework.BodyTokenFirstEntry` | src/server/framework.tsx:23 | `String(formData.get('_csrf') ?? '')`: empty when no entry is named `_csrf`; otherwise the first such entry's string, or `[object File]` for a file |
| `Framework.VerifyCsrf` | src/server/framework.tsx:21-25 | true iff the request's cookie token is non-empty and equal to the `_csrf` field; a missing field or a missing cookie never passes |
| `Framework.FlashJsonRoundTrip` | src/server/framework.tsx:44 | the flash JSON has exactly the shape `{"ok":<bool>,"at":<digits>}`, and reading it back gives the same `ok` and `at` |
| `Framework.FlashJsonRecordsOutcome` | src/server/framework.tsx:44 | the flash JSON contains `"ok":true` iff ok, and `"ok":false` iff not |
| `Framework.FirstActionRoute` | src/server/framework.tsx:52-54 | none iff no route both matches and has an action, else the least such index |
| `Framework.Context.ReadForm` | src/server/framework.tsx:56 | reading the body yields the request's form data, or a rejection, and counts one read |
| `Framework.Context.SetCookie` | src/server/framework.tsx:17 | one directive is appended to the response's Set-Cookie list |
| `Framework.EnsureCsrfCookie` | src/server/framework.tsx:12-19 | a non-empty request token is returned and nothing is written; otherwise exactly the minted token's cookie is appended and that token is returned |
| `Framework.ReadAndClearFlash` | src/server/framework.tsx:31-41 | no cookie: null and nothing written; a cookie: the clear directive is appended, then the parse result is returned, or null if parsing fails |
| `Framework.SetFlash` | src/server/framework.tsx:43-49 | appends the HttpOnly, SameSite Lax `vitrio_flash` cookie holding `{ok, at}` |
| `Framework.RunMatchedAction` | src/server/framework.tsx:51-72 | the loop returns what `RunSpec` says and changes the read and invocation logs as it says |
| `Framework.HandleDocumentRequest` | src/server/framework.tsx:79-109 | response, Set-Cookie list, body reads and invoked actions are those of `Handle` |
| `Framework.CsrfCookieLifecycle` | src/server/framework.tsx:13-18 | a non-empty token is reused with no write; otherwise one `vitrio_csrf` cookie (path `/`, Lax, not HttpOnly) is written and its value is the returned token |
| `Framework.MissingCsrfFieldFails` | src/server/framework.tsx:23-24 | a form without `_csrf` never verifies |
| `Framework.RunMatchedActionProtocol` | src/server/framework.tsx:52-71 | only the first candidate is considered; at most one body read and one action; a token failure runs nothing and yields false; a passed check invokes the first candidate's action, whether it returns or throws; true only after a passed check; no candidate gives false with no read |
| `Framework.NoRequestCookieNoAction` | src/server/framework.tsx:22 | without a request token no action runs, and a POST writes the minted token and an `ok=false` flash |
| `Framework.PostRedirectsToSamePath` | src/server/framework.tsx:87-96 | a POST always gives a 303 to the path and exactly one flash write: ok iff the action path completed, false when anything threw; the flash is neither read nor cleared |
| `Framework.NonPostRendersOnly` | src/server/framework.tsx:98-109 | another method reads no body and runs no action; it reads and clears the flash only after rendering succeeds, and answers the document with status 200 |
| `Framework.CsrfEnsuredOnEveryRequest` | src/server/framework.tsx:83-84 | on every outcome, a request without a token gets the minted cookie first, and one with a token gets no CSRF write |
| `Framework.FlashReadAndClear` | src/server/framework.tsx:32-40 | no flash cookie: null and no write; a cookie: an empty Max-Age 0 clear is written, and an unparsable value gives null |
| `Framework.PostWithoutCsrfFlashesFalse` | tests/prg-csrf.spec.ts:46-70 | a POST without a CSRF cookie redirects 303 to the path with a flash containing `"ok":false` |
| `Framework.PostWithTokenFlashesTrue` | tests/prg-csrf.spec.ts:72-103 | a POST with matching cookie and field, whose first candidate action returns, runs that action once and flashes `"ok":true` |
| `Framework.SignalsFromActionsAreIgnored` | src/server/framework.tsx:67-68 | whatever value an action returns, `redirect(to, status)` and `notFound(status)` included, the POST leads to a 303 to the path with an ok flash |
| `Session.TokenReusedOnNextRequest` | src/server/framework.tsx:13-14 | once the browser stored a minted non-empty token, the next request reuses it and writes no CSRF cookie |
| `Session.FlashIsOneShot` | src/server/framework.tsx:31-35 | the request after a POST gets the flash the POST wrote and clears it; the request after that sees null |
| `Session.GetThenPostSucceeds` | tests/prg-csrf.spec.ts:81-102 | a GET mints the token; a POST that returns it as cookie and field is redirected with `"ok":true` after one action run |

## Left out

- Path matching is the `matchPath` parameter of the handler. `src/server/match`, `compilePath`
  and `compileRoutes` are not part of this model.
- Rendering, loaders and the HTML template are left out: `renderToStringAsync`,
  `dehydrateLoaderCache`, the location atom, `opts.title` and `entrySrc`. The renderer is a
  parameter that gives a body or throws. The document records only the body and the embedded
  flash payload.
- Token minting (`newToken`), `Date.now()` and `JSON.parse` are parameters. In particular,
  what `Math.random` can produce is not modelled.
- `Js.Decimal`: prints integers only. It does not model `JSON.stringify`'s exponent notation
  for numbers of 10^21 and above.
- JavaScript objects are modelled by what each property read returns. The prototype chain,
  getters whose result changes from read to read or that have side effects, and proxies are
  not modelled, so `Response.GuardsReadTheTag` speaks of the value `x._tag` reads, not of
  where the property is defined.
- Cookie wire formats are left out: the cookie header is already parsed and decoded into a
  map, and Hono's URL-encoding and serialisation of Set-Cookie headers are not modelled.
- URL parsing is left out: a request carries its pathname, query and hash. `url.searchParams`
  is folded into the query string given to actions.
- `console.error` logging, and `async`/`await` scheduling (every step runs in sequence).
- Actions are pure functions of their context and form data. Their side effects (for example
  a database write) are not modelled. That an action runs once shows in the ghost invocation
  log.
- `ApiRoutes.ToUpper`: ASCII letters only. Unicode case mappings such as `ß` to `SS` are not
  modelled.
- `ApiRoutes.HandleApiRoutes`: a handler that throws or rejects is not modelled. A handler
  answers some `Response`, and calling it once is structural in the scan.
- `Form.CollectStringFields`: it treats `__proto__` as an ordinary key. On a JavaScript plain
  object that name is a prototype setter that ignores strings.
- `schema.parse` and the Zod schemas are the parse parameter. The demo actions and pages are
  not modelled.
- JavaScript numbers are integers here. Statuses and timestamps do not involve fractions.
- The POST test is `method === 'POST'`, which is case-sensitive. It is modelled as exact
  string equality.
