/** The document-request protocol: CSRF cookie, one-shot flash cookie,
    first-match action dispatch and POST-Redirect-GET.

    The request's cookies are read-only; what the handler does to the response
    is a sequence of Set-Cookie directives it appends. Path matching, the
    actions, the renderer, JSON.parse, token minting and the clock are
    parameters. */
module Framework {
  import opened Js
  import opened Form

  const CsrfCookieName: string := "vitrio_csrf"
  const FlashCookieName: string := "vitrio_flash"
  const CsrfFieldName: string := "_csrf"

  /** The options given to `setCookie`. */
  datatype CookieAttrs = CookieAttrs(path: string, sameSite: Option<string>, httpOnly: bool, maxAge: Option<int>)

  /** One `setCookie(c, name, value, attrs)` call: a Set-Cookie header on the response. */
  datatype CookieDirective = CookieDirective(name: string, value: string, attrs: CookieAttrs)

  type Params = map<string, string>

  /** The path matcher imported from the UI library: a parameter map or no match. */
  type Matcher = (string, string) -> Option<Params>

  datatype Location = Location(path: string, query: string, hash: string)

  /** The context an action receives: its route's parameters and the location. */
  datatype ActionCtx = ActionCtx(params: Params, location: Location)

  /** An action either returns a value (which the handler ignores) or throws. */
  datatype ActionOutcome = Returned(value: Value) | Raised

  type Action = (ActionCtx, seq<FormEntry>) -> ActionOutcome

  /** A route as the document handler sees it: its path pattern and its optional action. */
  datatype Route = Route(path: string, action: Option<Action>)

  /** The renderer, run on the location and the CSRF token; None when it throws. */
  type Renderer = (Location, string) -> Option<string>

  /** `JSON.parse`; None when it throws. */
  type JsonParse = string -> Option<Value>

  /** The parts of the incoming request the handler reads. The body is the form
      data `c.req.formData()` resolves to, or None when that rejects. */
  datatype Request = Request(httpMethod: string, path: string, query: string, hash: string,
                             body: Option<seq<FormEntry>>)

  /** What `handleDocumentRequest` returns: a redirect, the HTML document (its
      status, which `c.html` leaves at 200, its rendered body and the flash
      payload it embeds), or a thrown exception. */
  datatype DocResponse =
    | Redirected(location: string, status: int)
    | Document(status: int, body: string, flash: Value)
    | Failed

  const DocumentStatus: int := 200

  // ---------------------------------------------------------------------------
  // The CSRF cookie

  /** The request's CSRF cookie, when it is present and non-empty (truthy). */
  function ExistingCsrf(cookies: map<string, string>): Option<string> {
    if CsrfCookieName in cookies && cookies[CsrfCookieName] != "" then Some(cookies[CsrfCookieName]) else None
  }

  /** The cookie minted for a new session: path `/`, SameSite Lax, readable by pages. */
  function CsrfCookie(token: string): CookieDirective {
    CookieDirective(CsrfCookieName, token, CookieAttrs("/", Some("Lax"), false, None))
  }

  /** The token `ensureCsrfCookie` returns. */
  function CsrfToken(cookies: map<string, string>, minted: string): string {
    match ExistingCsrf(cookies)
    case Some(t) => t
    case None => minted
  }

  /** The directives `ensureCsrfCookie` appends. */
  function CsrfWrites(cookies: map<string, string>, minted: string): seq<CookieDirective> {
    if ExistingCsrf(cookies).Some? then [] else [CsrfCookie(minted)]
  }

  /** The `_csrf` field as `String(formData.get('_csrf') ?? '')` reads it: the
      first entry with that name, the empty string when there is none, and the
      string form of a file when the entry is a file. */
  function BodyToken(form: seq<FormEntry>): string
  {
    match FormGet(form, CsrfFieldName)
    case None => ""
    case Some(Text(s)) => s
    case Some(File(_)) => "[object File]"
  }

  /** The body token is empty when no entry is named `_csrf`; otherwise it is the
      first such entry's string, or `[object File]` when that entry is a file. */
  lemma {:induction false} BodyTokenFirstEntry(form: seq<FormEntry>, i: nat)
    ensures (forall k :: 0 <= k < |form| ==> form[k].0 != CsrfFieldName) ==> BodyToken(form) == ""
    ensures i < |form| && form[i].0 == CsrfFieldName && (forall j :: 0 <= j < i ==> form[j].0 != CsrfFieldName) ==>
              (form[i].1.Text? ==> BodyToken(form) == form[i].1.s)
              && (form[i].1.File? ==> BodyToken(form) == "[object File]")
  {
  }

  /** `verifyCsrf`: the request's cookie token is non-empty and equal to the form's token. */
  function VerifyCsrf(cookies: map<string, string>, form: seq<FormEntry>): (ok: bool)
    ensures ok <==> ExistingCsrf(cookies).Some? && ExistingCsrf(cookies).value == BodyToken(form)
    ensures ok ==> FormGet(form, CsrfFieldName).Some?
    ensures CsrfCookieName !in cookies ==> !ok
  {
    var cookieTok := if CsrfCookieName in cookies then Some(cookies[CsrfCookieName]) else None;
    cookieTok.Some? && cookieTok.value != "" && cookieTok.value == BodyToken(form)
  }

  // ---------------------------------------------------------------------------
  // The flash cookie

  function BoolJson(b: bool): string {
    if b then "true" else "false"
  }

  predicate AllDigits(d: string) {
    forall i :: 0 <= i < |d| ==> '0' <= d[i] <= '9'
  }

  const TrueHead: string := "{\"ok\":true,\"at\":"
  const FalseHead: string := "{\"ok\":false,\"at\":"

  /** The non-empty text between `head` and a closing `}`, if `s` is framed so. */
  function Unframe(s: string, head: string): Option<string> {
    if |s| > |head| + 1 && s[..|head|] == head && s[|s| - 1] == '}' then Some(s[|head|..|s| - 1]) else None
  }

  /** The flash payload as a reader of the cookie value recovers it: exactly
      `{"ok":true,"at":<digits>}` or `{"ok":false,"at":<digits>}`. */
  function ReadFlashJson(s: string): Option<(bool, int)> {
    var dt := Unframe(s, TrueHead);
    var df := Unframe(s, FalseHead);
    if dt.Some? && AllDigits(dt.value) then Some((true, DigitsValue(dt.value)))
    else if df.Some? && AllDigits(df.value) then Some((false, DigitsValue(df.value)))
    else None
  }

  /** `JSON.stringify({ ok, at })` */
  function FlashJson(ok: bool, at: nat): string {
    "{\"ok\":" + BoolJson(ok) + ",\"at\":" + Decimal(at) + "}"
  }

  /** A value framed as `head + d + "}"`, with `d` non-empty, unframes back to `d`. */
  lemma {:induction false} UnframeFramed(head: string, d: string)
    requires |d| > 0
    ensures Unframe(head + d + "}", head) == Some(d)
  {
    var r := head + d + "}";
    assert r[..|head|] == head;
    assert r[|head|..|r| - 1] == d;
  }

  /** The JSON of a false flash does not start with the head of a true one. */
  lemma {:induction false} FalseIsNotFramedAsTrue(d: string)
    ensures Unframe(FalseHead + d + "}", TrueHead) == None
  {
    var r := FalseHead + d + "}";
    if |r| > |TrueHead| + 1 {
      assert r[..|TrueHead|][6] == 'f' != TrueHead[6];
    }
  }

  /** Reading the flash JSON back gives `ok` and `at` again. */
  lemma {:induction false} FlashJsonRoundTrip(ok: bool, at: nat)
    ensures ReadFlashJson(FlashJson(ok, at)) == Some((ok, at))
  {
    var d := Decimal(at);
    assert AllDigits(d);
    if ok {
      assert FlashJson(ok, at) == TrueHead + d + "}";
      UnframeFramed(TrueHead, d);
    } else {
      assert FlashJson(ok, at) == FalseHead + d + "}";
      UnframeFramed(FalseHead, d);
      FalseIsNotFramedAsTrue(d);
    }
  }

  /** The directive `setFlash(c, ok)` appends: HttpOnly, SameSite Lax, path `/`. */
  function FlashCookie(ok: bool, at: nat): CookieDirective {
    CookieDirective(FlashCookieName, FlashJson(ok, at), CookieAttrs("/", Some("Lax"), true, None))
  }

  /** The directive that clears the flash cookie: empty value, Max-Age 0. */
  const ClearFlashCookie: CookieDirective := CookieDirective(FlashCookieName, "", CookieAttrs("/", None, false, Some(0)))

  /** The request's flash cookie, when present and non-empty. */
  function FlashRaw(cookies: map<string, string>): Option<string> {
    if FlashCookieName in cookies && cookies[FlashCookieName] != "" then Some(cookies[FlashCookieName]) else None
  }

  /** The payload `readAndClearFlash` returns; null when there is no cookie or
      when its value does not parse. */
  function FlashRead(cookies: map<string, string>, parse: JsonParse): Value {
    match FlashRaw(cookies)
    case None => Null
    case Some(raw) => match parse(raw) case None => Null case Some(v) => v
  }

  /** The directives `readAndClearFlash` appends. */
  function FlashReadWrites(cookies: map<string, string>): seq<CookieDirective> {
    if FlashRaw(cookies).Some? then [ClearFlashCookie] else []
  }

  /** `p` occurs in `s` at offset `k`. */
  predicate OccursAt(s: string, p: string, k: int) {
    0 <= k && k + |p| <= |s| && s[k..k + |p|] == p
  }

  /** `s.includes(p)`, the test suite's `toContain`. */
  predicate Contains(s: string, p: string) {
    exists k :: 0 <= k <= |s| && OccursAt(s, p, k)
  }

  lemma {:induction false} FlashJsonHasOneLetterO(ok: bool, at: nat, i: int)
    requires 0 <= i < |FlashJson(ok, at)| && FlashJson(ok, at)[i] == 'o'
    ensures i == 2
  {
    var head := "{\"ok\":";
    var rest := BoolJson(ok) + ",\"at\":" + Decimal(at) + "}";
    assert FlashJson(ok, at) == head + rest;
    assert 'o' !in Decimal(at);
  }

  /** `"ok":` followed by the other boolean occurs nowhere in the flash JSON. */
  lemma {:induction false} FlashJsonHasNoOtherOutcome(ok: bool, at: nat, b: bool, k: int)
    requires ok != b
    ensures !OccursAt(FlashJson(ok, at), "\"ok\":" + BoolJson(b), k)
  {
    var s := FlashJson(ok, at);
    var p := "\"ok\":" + BoolJson(b);
    var front := "{\"ok\":" + BoolJson(ok);
    assert s == front + (",\"at\":" + Decimal(at) + "}");
    assert s[6] == front[6] == BoolJson(ok)[0];
    assert p[5] == BoolJson(b)[0] != BoolJson(ok)[0];
    if 0 <= k && k + |p| <= |s| {
      assert p[1] == 'o';
      if s[k + 1] == 'o' {
        FlashJsonHasOneLetterO(ok, at, k + 1);
      }
    }
  }

  /** The flash cookie written after a POST carries `"ok":true` exactly when the
      outcome was ok, and `"ok":false` exactly when it was not. */
  lemma {:induction false} FlashJsonRecordsOutcome(ok: bool, at: nat, b: bool)
    ensures Contains(FlashJson(ok, at), "\"ok\":" + BoolJson(b)) <==> ok == b
  {
    var s := FlashJson(ok, at);
    var p := "\"ok\":" + BoolJson(b);
    if ok == b {
      var front := "{\"ok\":" + BoolJson(ok);
      assert s == front + (",\"at\":" + Decimal(at) + "}");
      assert s[..|front|] == front;
      assert s[1..1 + |p|] == front[1..] == p;
      assert OccursAt(s, p, 1);
    } else {
      forall k | 0 <= k <= |s|
        ensures !OccursAt(s, p, k)
      {
        FlashJsonHasNoOtherOutcome(ok, at, b, k);
      }
    }
  }

  // ---------------------------------------------------------------------------
  // Action dispatch

  /** A route `runMatchedAction` acts on: its pattern matches and it has an action. */
  predicate IsCandidate(r: Route, matchPath: Matcher, path: string) {
    matchPath(r.path, path).Some? && r.action.Some?
  }

  /** The first candidate route, in list order. */
  function FirstActionRoute(routes: seq<Route>, matchPath: Matcher, path: string): (r: Option<nat>)
    ensures r.None? <==> forall j :: 0 <= j < |routes| ==> !IsCandidate(routes[j], matchPath, path)
    ensures r.Some? ==> r.value < |routes| && IsCandidate(routes[r.value], matchPath, path)
                        && forall j :: 0 <= j < r.value ==> !IsCandidate(routes[j], matchPath, path)
    decreases |routes|
  {
    if |routes| == 0 then None
    else if IsCandidate(routes[0], matchPath, path) then Some(0)
    else
      match FirstActionRoute(routes[1..], matchPath, path)
      case None => None
      case Some(i) => Some(i + 1)
  }

  /** `runMatchedAction` resolves to a boolean or throws. */
  datatype RunResult = Finished(ok: bool) | Threw

  /** What `runMatchedAction` does: its result, how often it reads the form body,
      and which routes' actions it invokes. */
  datatype RunTrace = RunTrace(result: RunResult, formReads: nat, invoked: seq<nat>)

  function RunSpec(req: Request, cookies: map<string, string>, routes: seq<Route>, matchPath: Matcher): RunTrace {
    match FirstActionRoute(routes, matchPath, req.path)
    case None => RunTrace(Finished(false), 0, [])
    case Some(i) =>
      match req.body
      case None => RunTrace(Threw, 1, [])
      case Some(form) =>
        if !VerifyCsrf(cookies, form) then RunTrace(Finished(false), 1, [])
        else
          var ctx := ActionCtx(matchPath(routes[i].path, req.path).value, Location(req.path, req.query, req.hash));
          var out := routes[i].action.value(ctx, form);
          RunTrace(if out.Raised? then Threw else Finished(true), 1, [i])
  }

  // ---------------------------------------------------------------------------
  // The whole request

  /** What one call of `handleDocumentRequest` produces. */
  datatype Outcome = Outcome(response: DocResponse, setCookies: seq<CookieDirective>, formReads: nat, actionsRun: seq<nat>)

  function Handle(req: Request, cookies: map<string, string>, routes: seq<Route>, matchPath: Matcher,
                  minted: string, now: nat, render: Renderer, parse: JsonParse): Outcome
  {
    var token := CsrfToken(cookies, minted);
    var csrf := CsrfWrites(cookies, minted);
    if req.httpMethod == "POST" then
      var t := RunSpec(req, cookies, routes, matchPath);
      Outcome(Redirected(req.path, 303), csrf + [FlashCookie(t.result == Finished(true), now)], t.formReads, t.invoked)
    else
      match render(Location(req.path, req.query, req.hash), token)
      case None => Outcome(Failed, csrf, 0, [])
      case Some(body) => Outcome(Document(DocumentStatus, body, FlashRead(cookies, parse)), csrf + FlashReadWrites(cookies), 0, [])
  }

  // ---------------------------------------------------------------------------
  // The Hono context and the handler's steps

  /** The per-request context: the request and its cookies (read-only) and the
      Set-Cookie directives appended so far. Two ghost logs count body reads and
      action invocations. */
  class Context {
    const request: Request
    const requestCookies: map<string, string>
    var setCookies: seq<CookieDirective>
    ghost var formReads: nat
    ghost var actionsRun: seq<nat>

    constructor (request: Request, requestCookies: map<string, string>)
      ensures this.request == request && this.requestCookies == requestCookies
      ensures setCookies == [] && formReads == 0 && actionsRun == []
    {
      this.request := request;
      this.requestCookies := requestCookies;
      setCookies := [];
      formReads := 0;
      actionsRun := [];
    }

    /** `getCookie(c, name)`: reads the request's cookies, never the response's. */
    function GetCookie(name: string): (r: Option<string>)
      ensures r.None? <==> name !in requestCookies
      ensures r.Some? ==> r.value == requestCookies[name]
    {
      if name in requestCookies then Some(requestCookies[name]) else None
    }

    /** `setCookie(c, ...)`: appends one directive. */
    method SetCookie(d: CookieDirective)
      modifies this`setCookies
      ensures setCookies == old(setCookies) + [d]
    {
      setCookies := setCookies + [d];
    }

    /** `c.req.formData()`: the parsed body, or None when parsing rejects. */
    method ReadForm() returns (form: Option<seq<FormEntry>>)
      modifies this`formReads
      ensures form == request.body
      ensures formReads == old(formReads) + 1
    {
      form := request.body;
      formReads := formReads + 1;
    }
  }

  /** `ensureCsrfCookie(c)`: reuse the request's token, or mint one and set it. */
  method EnsureCsrfCookie(c: Context, minted: string) returns (token: string)
    modifies c`setCookies
    ensures token == CsrfToken(c.requestCookies, minted)
    ensures c.setCookies == old(c.setCookies) + CsrfWrites(c.requestCookies, minted)
    ensures ExistingCsrf(c.requestCookies).Some? ==> token == c.requestCookies[CsrfCookieName] && c.setCookies == old(c.setCookies)
    ensures ExistingCsrf(c.requestCookies).None? ==> token == minted && c.setCookies == old(c.setCookies) + [CsrfCookie(token)]
  {
    var existing := c.GetCookie(CsrfCookieName);
    if existing.Some? && existing.value != "" {
      return existing.value;
    }
    token := minted;
    c.SetCookie(CsrfCookie(token));
  }

  /** `readAndClearFlash(c)`: with a flash cookie, always clear it, then parse it. */
  method ReadAndClearFlash(c: Context, parse: JsonParse) returns (flash: Value)
    modifies c`setCookies
    ensures flash == FlashRead(c.requestCookies, parse)
    ensures c.setCookies == old(c.setCookies) + FlashReadWrites(c.requestCookies)
    ensures FlashRaw(c.requestCookies).None? ==> flash == Null && c.setCookies == old(c.setCookies)
    ensures FlashRaw(c.requestCookies).Some? ==> c.setCookies == old(c.setCookies) + [ClearFlashCookie]
  {
    var raw := c.GetCookie(FlashCookieName);
    if raw.None? || raw.value == "" {
      return Null;
    }
    c.SetCookie(ClearFlashCookie);
    var parsed := parse(raw.value);
    if parsed.None? {
      return Null;
    }
    return parsed.value;
  }

  /** `setFlash(c, ok)`, with `Date.now()` given as `now`. */
  method SetFlash(c: Context, ok: bool, now: nat)
    modifies c`setCookies
    ensures c.setCookies == old(c.setCookies) + [FlashCookie(ok, now)]
  {
    c.SetCookie(FlashCookie(ok, now));
  }

  /** `runMatchedAction`: the first route that matches and has an action is the
      only one considered; the body is read once, the token checked, the action
      run. */
  method RunMatchedAction(c: Context, routes: seq<Route>, matchPath: Matcher) returns (r: RunResult)
    modifies c`formReads, c`actionsRun
    ensures var t := RunSpec(c.request, c.requestCookies, routes, matchPath);
            r == t.result && c.formReads == old(c.formReads) + t.formReads
            && c.actionsRun == old(c.actionsRun) + t.invoked
  {
    var path := c.request.path;
    var i := 0;
    while i < |routes|
      invariant 0 <= i <= |routes|
      invariant forall j :: 0 <= j < i ==> !IsCandidate(routes[j], matchPath, path)
      invariant c.formReads == old(c.formReads) && c.actionsRun == old(c.actionsRun)
    {
      var route := routes[i];
      var params := matchPath(route.path, path);
      if params.None? || route.action.None? {
        i := i + 1;
        continue;
      }
      assert FirstActionRoute(routes, matchPath, path) == Some(i);
      var formData := c.ReadForm();
      if formData.None? {
        return Threw;
      }
      if !VerifyCsrf(c.requestCookies, formData.value) {
        return Finished(false);
      }
      var ctx := ActionCtx(params.value, Location(path, c.request.query, c.request.hash));
      var out := route.action.value(ctx, formData.value);
      c.actionsRun := c.actionsRun + [i];
      if out.Raised? {
        return Threw;
      }
      return Finished(true);
    }
    return Finished(false);
  }

  /** `handleDocumentRequest`: ensure the CSRF cookie, then POST runs the action
      and always redirects (303) back to the path with a flash, while any other
      method renders the document, then reads and clears the flash. */
  method HandleDocumentRequest(c: Context, routes: seq<Route>, matchPath: Matcher,
                               minted: string, now: nat, render: Renderer, parse: JsonParse)
    returns (res: DocResponse)
    modifies c`setCookies, c`formReads, c`actionsRun
    ensures var o := Handle(c.request, c.requestCookies, routes, matchPath, minted, now, render, parse);
            res == o.response && c.setCookies == old(c.setCookies) + o.setCookies
            && c.formReads == old(c.formReads) + o.formReads && c.actionsRun == old(c.actionsRun) + o.actionsRun
  {
    var token := EnsureCsrfCookie(c, minted);
    if c.request.httpMethod == "POST" {
      // try { setFlash(c, await runMatchedAction(...)) } catch { setFlash(c, false) }
      var run := RunMatchedAction(c, routes, matchPath);
      SetFlash(c, run == Finished(true), now);
      return Redirected(c.request.path, 303);
    }
    var body := render(Location(c.request.path, c.request.query, c.request.hash), token);
    if body.None? {
      return Failed;
    }
    var flash := ReadAndClearFlash(c, parse);
    return Document(DocumentStatus, body.value, flash);
  }

  // ---------------------------------------------------------------------------
  // Properties of the protocol

  /** The CSRF cookie lifecycle: a non-empty request token is reused and nothing
      is written; otherwise exactly one `vitrio_csrf` cookie (path `/`, SameSite
      Lax, not HttpOnly) is written, carrying the token that is returned. */
  lemma {:induction false} CsrfCookieLifecycle(cookies: map<string, string>, minted: string)
    ensures ExistingCsrf(cookies).Some? ==> CsrfToken(cookies, minted) == cookies[CsrfCookieName]
                                            && CsrfWrites(cookies, minted) == []
    ensures ExistingCsrf(cookies).None? ==>
              && |CsrfWrites(cookies, minted)| == 1
              && var d := CsrfWrites(cookies, minted)[0];
                 d.name == CsrfCookieName && d.value == CsrfToken(cookies, minted) == minted
                 && d.attrs.path == "/" && d.attrs.sameSite == Some("Lax") && !d.attrs.httpOnly
  {
  }

  /** A missing `_csrf` field counts as the empty string and so never verifies. */
  lemma {:induction false} MissingCsrfFieldFails(cookies: map<string, string>, form: seq<FormEntry>)
    requires forall i :: 0 <= i < |form| ==> form[i].0 != CsrfFieldName
    ensures !VerifyCsrf(cookies, form)
  {
  }

  /** The properties of `runMatchedAction`: only the first candidate route is
      considered and the body is read at most once; a failed token check returns
      false and invokes nothing; a passed one invokes that route's action once
      and the result is true unless the action throws, whatever it returns; with
      no candidate the result is false and nothing is read. */
  lemma {:induction false} RunMatchedActionProtocol(req: Request, cookies: map<string, string>, routes: seq<Route>, matchPath: Matcher)
    ensures var t := RunSpec(req, cookies, routes, matchPath);
            && t.formReads <= 1 && |t.invoked| <= 1
            && (FirstActionRoute(routes, matchPath, req.path).None? ==> t == RunTrace(Finished(false), 0, []))
            && (forall k :: k in t.invoked ==> Some(k) == FirstActionRoute(routes, matchPath, req.path))
            && (req.body.Some? && !VerifyCsrf(cookies, req.body.value) ==> t.result == Finished(false) && t.invoked == [])
            && (t.result == Finished(true) ==> |t.invoked| == 1 && req.body.Some? && VerifyCsrf(cookies, req.body.value))
            && (FirstActionRoute(routes, matchPath, req.path).Some? && req.body.Some? && VerifyCsrf(cookies, req.body.value) ==>
                  t.invoked == [FirstActionRoute(routes, matchPath, req.path).value])
  {
  }

  /** A request without a CSRF cookie never runs an action, even though the
      handler has just minted one: verification reads the request's cookie. */
  lemma {:induction false} NoRequestCookieNoAction(req: Request, cookies: map<string, string>, routes: seq<Route>, matchPath: Matcher,
                                minted: string, now: nat, render: Renderer, parse: JsonParse)
    requires ExistingCsrf(cookies).None?
    ensures var o := Handle(req, cookies, routes, matchPath, minted, now, render, parse);
            o.actionsRun == []
            && (req.httpMethod == "POST" ==> o.setCookies == [CsrfCookie(minted), FlashCookie(false, now)])
  {
  }

  /** POST-Redirect-GET: every POST ends in a 303 to the request path, with exactly
      one flash write, `ok` when the action path completed and `false` when the
      token check failed, no route had an action, or anything threw. The flash is
      neither read nor cleared on a POST. */
  lemma {:induction false} PostRedirectsToSamePath(req: Request, cookies: map<string, string>, routes: seq<Route>, matchPath: Matcher,
                                minted: string, now: nat, render: Renderer, parse: JsonParse)
    requires req.httpMethod == "POST"
    ensures var o := Handle(req, cookies, routes, matchPath, minted, now, render, parse);
            var t := RunSpec(req, cookies, routes, matchPath);
            && o.response == Redirected(req.path, 303)
            && o.setCookies == CsrfWrites(cookies, minted) + [FlashCookie(t.result == Finished(true), now)]
            && (t.result.Threw? ==> o.setCookies[|o.setCookies| - 1] == FlashCookie(false, now))
            && ClearFlashCookie !in o.setCookies
            && o.actionsRun == t.invoked
  {
    var o := Handle(req, cookies, routes, matchPath, minted, now, render, parse);
    assert ClearFlashCookie.value == "";
    assert FlashJson(false, now) != "";
    assert FlashJson(true, now) != "";
  }

  /** Any other method never reads the body or runs an action (so reloading the
      page a PRG redirect leads to repeats nothing), never writes a flash, and
      reads and clears the flash only once rendering has succeeded. */
  lemma {:induction false} NonPostRendersOnly(req: Request, cookies: map<string, string>, routes: seq<Route>, matchPath: Matcher,
                           minted: string, now: nat, render: Renderer, parse: JsonParse)
    requires req.httpMethod != "POST"
    ensures var o := Handle(req, cookies, routes, matchPath, minted, now, render, parse);
            var rendered := render(Location(req.path, req.query, req.hash), CsrfToken(cookies, minted));
            && o.formReads == 0 && o.actionsRun == []
            && (rendered.None? ==> o.response == Failed && o.setCookies == CsrfWrites(cookies, minted))
            && (rendered.Some? ==> o.response == Document(200, rendered.value, FlashRead(cookies, parse))
                                   && o.setCookies == CsrfWrites(cookies, minted) + FlashReadWrites(cookies))
  {
  }

  /** The CSRF cookie is ensured before the method branch: on every outcome a
      request without a token starts its Set-Cookie list with the minted token,
      and a request with one writes no CSRF cookie at all. */
  lemma {:induction false} CsrfEnsuredOnEveryRequest(req: Request, cookies: map<string, string>, routes: seq<Route>, matchPath: Matcher,
                                  minted: string, now: nat, render: Renderer, parse: JsonParse)
    ensures var o := Handle(req, cookies, routes, matchPath, minted, now, render, parse);
            && (ExistingCsrf(cookies).None? ==> |o.setCookies| >= 1 && o.setCookies[0] == CsrfCookie(minted))
            && (ExistingCsrf(cookies).Some? ==> forall d :: d in o.setCookies ==> d.name != CsrfCookieName)
  {
  }

  /** `readAndClearFlash`: no cookie means null and no write; a cookie is always
      cleared, and an unparsable one yields null. */
  lemma {:induction false} FlashReadAndClear(cookies: map<string, string>, parse: JsonParse)
    ensures FlashRaw(cookies).None? ==> FlashRead(cookies, parse) == Null && FlashReadWrites(cookies) == []
    ensures FlashRaw(cookies).Some? ==> FlashReadWrites(cookies) == [ClearFlashCookie]
                                        && ClearFlashCookie.value == "" && ClearFlashCookie.attrs.maxAge == Some(0)
    ensures FlashRaw(cookies).Some? && parse(FlashRaw(cookies).value).None? ==> FlashRead(cookies, parse) == Null
  {
  }

  /** A POST with no CSRF cookie: 303 back to the path, and the flash cookie says
      `"ok":false`. */
  lemma {:induction false} PostWithoutCsrfFlashesFalse(req: Request, cookies: map<string, string>, routes: seq<Route>, matchPath: Matcher,
                                    minted: string, now: nat, render: Renderer, parse: JsonParse)
    requires req.httpMethod == "POST" && CsrfCookieName !in cookies
    ensures var o := Handle(req, cookies, routes, matchPath, minted, now, render, parse);
            && o.response == Redirected(req.path, 303)
            && exists d :: d in o.setCookies && d.name == FlashCookieName && Contains(d.value, "\"ok\":false")
                                             && !Contains(d.value, "\"ok\":true")
  {
    var o := Handle(req, cookies, routes, matchPath, minted, now, render, parse);
    FlashJsonRecordsOutcome(false, now, false);
    FlashJsonRecordsOutcome(false, now, true);
    assert "\"ok\":" + BoolJson(false) == "\"ok\":false" && "\"ok\":" + BoolJson(true) == "\"ok\":true";
    assert FlashCookie(false, now) in o.setCookies;
  }

  /** A POST whose cookie token matches its `_csrf` field, on a path whose first
      candidate route's action returns: 303 back to the path with `"ok":true`
      and that action invoked once. */
  lemma {:induction false} PostWithTokenFlashesTrue(req: Request, cookies: map<string, string>, routes: seq<Route>, matchPath: Matcher,
                                 minted: string, now: nat, render: Renderer, parse: JsonParse, token: string, i: nat)
    requires req.httpMethod == "POST" && token != ""
    requires CsrfCookieName in cookies && cookies[CsrfCookieName] == token
    requires req.body.Some? && FormGet(req.body.value, CsrfFieldName) == Some(Text(token))
    requires FirstActionRoute(routes, matchPath, req.path) == Some(i)
    requires routes[i].action.value(ActionCtx(matchPath(routes[i].path, req.path).value,
                                              Location(req.path, req.query, req.hash)), req.body.value).Returned?
    ensures var o := Handle(req, cookies, routes, matchPath, minted, now, render, parse);
            && o.response == Redirected(req.path, 303)
            && o.actionsRun == [i]
            && exists d :: d in o.setCookies && d.name == FlashCookieName && Contains(d.value, "\"ok\":true")
                                             && !Contains(d.value, "\"ok\":false")
  {
    var o := Handle(req, cookies, routes, matchPath, minted, now, render, parse);
    FlashJsonRecordsOutcome(true, now, true);
    FlashJsonRecordsOutcome(true, now, false);
    assert "\"ok\":" + BoolJson(false) == "\"ok\":false" && "\"ok\":" + BoolJson(true) == "\"ok\":true";
    assert FlashCookie(true, now) in o.setCookies;
  }

  /** The handler ignores what an action returns: whatever value it returns,
      a `redirect(to, status)` or `notFound(status)` signal included, the POST
      still ends in a 303 back to the request path with an ok flash. */
  lemma {:induction false} SignalsFromActionsAreIgnored(req: Request, cookies: map<string, string>, routes: seq<Route>, matchPath: Matcher,
                                     minted: string, now: nat, render: Renderer, parse: JsonParse, i: nat)
    requires req.httpMethod == "POST" && req.body.Some? && VerifyCsrf(cookies, req.body.value)
    requires FirstActionRoute(routes, matchPath, req.path) == Some(i)
    requires routes[i].action.value(ActionCtx(matchPath(routes[i].path, req.path).value,
                                              Location(req.path, req.query, req.hash)), req.body.value).Returned?
    ensures var o := Handle(req, cookies, routes, matchPath, minted, now, render, parse);
            && o.response == Redirected(req.path, 303)
            && o.setCookies == CsrfWrites(cookies, minted) + [FlashCookie(true, now)]
            && o.actionsRun == [i]
  {
  }
}
