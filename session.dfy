/** The session across requests: a browser stores the Set-Cookie directives of
    one response and sends the result with the next request. This is where the
    CSRF token's reuse and the flash cookie's one-shot life show. */
module Session {
  import opened Js
  import opened Form
  import opened Framework

  /** What a browser does with one directive (section 5.3 of RFC 6265): a
      Max-Age of zero or less expires the cookie, anything else stores it. */
  function Store(jar: map<string, string>, d: CookieDirective): map<string, string> {
    if d.attrs.maxAge.Some? && d.attrs.maxAge.value <= 0 then jar - {d.name} else jar[d.name := d.value]
  }

  /** The cookie jar after a response's directives, in order. */
  function Apply(jar: map<string, string>, ds: seq<CookieDirective>): map<string, string>
    decreases |ds|
  {
    if |ds| == 0 then jar else Apply(Store(jar, ds[0]), ds[1..])
  }

  lemma {:induction false} ApplyConcat(jar: map<string, string>, a: seq<CookieDirective>, b: seq<CookieDirective>)
    ensures Apply(jar, a + b) == Apply(Apply(jar, a), b)
    decreases |a|
  {
    if |a| == 0 {
      assert a + b == b;
    } else {
      assert (a + b)[0] == a[0] && (a + b)[1..] == a[1..] + b;
      assert Apply(jar, a + b) == Apply(Store(jar, a[0]), a[1..] + b);
      assert Apply(jar, a) == Apply(Store(jar, a[0]), a[1..]);
      ApplyConcat(Store(jar, a[0]), a[1..], b);
    }
  }

  /** Directives for other cookies leave a cookie as it was. */
  lemma {:induction false} ApplyOthers(jar: map<string, string>, ds: seq<CookieDirective>, name: string)
    requires forall i :: 0 <= i < |ds| ==> ds[i].name != name
    ensures name in Apply(jar, ds) <==> name in jar
    ensures name in jar ==> Apply(jar, ds)[name] == jar[name]
    decreases |ds|
  {
    if |ds| > 0 {
      ApplyOthers(Store(jar, ds[0]), ds[1..], name);
    }
  }

  /** Besides the CSRF cookie, a document request only ever writes the flash cookie. */
  lemma {:induction false} OnlyFlashBesidesCsrf(req: Request, cookies: map<string, string>, routes: seq<Route>, matchPath: Matcher,
                             minted: string, now: nat, render: Renderer, parse: JsonParse)
    ensures var o := Handle(req, cookies, routes, matchPath, minted, now, render, parse);
            var csrf := CsrfWrites(cookies, minted);
            && o.setCookies[..|csrf|] == csrf
            && forall i :: |csrf| <= i < |o.setCookies| ==> o.setCookies[i].name == FlashCookieName
  {
  }

  /** The token minted on a session's first request is the one every later
      request reuses: once the browser has stored it, the next request returns it
      and writes no new CSRF cookie. (A minted empty string is not truthy, so it
      would be replaced again.) */
  lemma {:induction false} TokenReusedOnNextRequest(req1: Request, req2: Request, jar: map<string, string>, routes: seq<Route>,
                                 matchPath: Matcher, minted1: string, minted2: string, now1: nat, now2: nat,
                                 render: Renderer, parse: JsonParse)
    requires ExistingCsrf(jar).None? && minted1 != ""
    ensures var o1 := Handle(req1, jar, routes, matchPath, minted1, now1, render, parse);
            var jar1 := Apply(jar, o1.setCookies);
            var o2 := Handle(req2, jar1, routes, matchPath, minted2, now2, render, parse);
            && CsrfToken(jar1, minted2) == minted1
            && CsrfWrites(jar1, minted2) == []
            && forall d :: d in o2.setCookies ==> d.name != CsrfCookieName
  {
    var o1 := Handle(req1, jar, routes, matchPath, minted1, now1, render, parse);
    OnlyFlashBesidesCsrf(req1, jar, routes, matchPath, minted1, now1, render, parse);
    var rest := o1.setCookies[1..];
    assert o1.setCookies == [CsrfCookie(minted1)] + rest;
    ApplyConcat(jar, [CsrfCookie(minted1)], rest);
    var jar0 := Apply(jar, [CsrfCookie(minted1)]);
    assert jar0 == Store(jar, CsrfCookie(minted1));
    forall i | 0 <= i < |rest|
      ensures rest[i].name != CsrfCookieName
    {
      assert rest[i] == o1.setCookies[i + 1];
    }
    ApplyOthers(jar0, rest, CsrfCookieName);
    var jar1 := Apply(jar, o1.setCookies);
    assert ExistingCsrf(jar1) == Some(minted1);
    CsrfEnsuredOnEveryRequest(req2, jar1, routes, matchPath, minted2, now2, render, parse);
  }

  /** The flash is one-shot: the request after a POST is handed what the POST
      wrote and clears it, and the request after that sees null. */
  lemma {:induction false} FlashIsOneShot(post: Request, get1: Request, get2: Request, jar: map<string, string>, routes: seq<Route>,
                       matchPath: Matcher, minted: string, now: nat, render: Renderer, parse: JsonParse)
    requires post.httpMethod == "POST" && get1.httpMethod != "POST" && get2.httpMethod != "POST"
    requires render(Location(get1.path, get1.query, get1.hash), CsrfToken(Apply(jar, Handle(post, jar, routes, matchPath, minted, now, render, parse).setCookies), minted)).Some?
    ensures var o1 := Handle(post, jar, routes, matchPath, minted, now, render, parse);
            var ok := RunSpec(post, jar, routes, matchPath).result == Finished(true);
            var jar1 := Apply(jar, o1.setCookies);
            var o2 := Handle(get1, jar1, routes, matchPath, minted, now, render, parse);
            var jar2 := Apply(jar1, o2.setCookies);
            var o3 := Handle(get2, jar2, routes, matchPath, minted, now, render, parse);
            && FlashRaw(jar1) == Some(FlashJson(ok, now))
            && o2.response.Document?
            && o2.response.flash == (match parse(FlashJson(ok, now)) case None => Null case Some(v) => v)
            && ClearFlashCookie in o2.setCookies
            && FlashCookieName !in jar2
            && (o3.response.Document? ==> o3.response.flash == Null)
            && ClearFlashCookie !in o3.setCookies
  {
    var o1 := Handle(post, jar, routes, matchPath, minted, now, render, parse);
    var ok := RunSpec(post, jar, routes, matchPath).result == Finished(true);
    var csrf1 := CsrfWrites(jar, minted);
    assert o1.setCookies == csrf1 + [FlashCookie(ok, now)];
    ApplyConcat(jar, csrf1, [FlashCookie(ok, now)]);
    var jar1 := Apply(jar, o1.setCookies);
    assert jar1 == Store(Apply(jar, csrf1), FlashCookie(ok, now));
    assert FlashJson(ok, now) != "";
    assert FlashRaw(jar1) == Some(FlashJson(ok, now));

    var o2 := Handle(get1, jar1, routes, matchPath, minted, now, render, parse);
    var csrf2 := CsrfWrites(jar1, minted);
    assert o2.setCookies == csrf2 + [ClearFlashCookie];
    ApplyConcat(jar1, csrf2, [ClearFlashCookie]);
    var jar2 := Apply(jar1, o2.setCookies);
    assert jar2 == Store(Apply(jar1, csrf2), ClearFlashCookie);
    assert FlashCookieName !in jar2;
    assert FlashRaw(jar2).None?;
  }

  /** The round trip of the test suite: a first GET mints the token, and a POST
      that sends it back both as cookie and as the first `_csrf` field, on a path
      whose first candidate route's action returns, is redirected back with an
      `"ok":true` flash after invoking that action once. */
  lemma {:induction false} GetThenPostSucceeds(get: Request, post: Request, jar: map<string, string>, routes: seq<Route>,
                            matchPath: Matcher, minted: string, now: nat, render: Renderer, parse: JsonParse, i: nat)
    requires ExistingCsrf(jar).None? && minted != ""
    requires get.httpMethod != "POST" && post.httpMethod == "POST"
    requires post.body.Some? && FormGet(post.body.value, CsrfFieldName) == Some(Text(minted))
    requires FirstActionRoute(routes, matchPath, post.path) == Some(i)
    requires routes[i].action.value(ActionCtx(matchPath(routes[i].path, post.path).value,
                                              Location(post.path, post.query, post.hash)), post.body.value).Returned?
    ensures var o1 := Handle(get, jar, routes, matchPath, minted, now, render, parse);
            var jar1 := Apply(jar, o1.setCookies);
            var o2 := Handle(post, jar1, routes, matchPath, minted, now, render, parse);
            && o2.response == Redirected(post.path, 303)
            && o2.actionsRun == [i]
            && o2.setCookies == [FlashCookie(true, now)]
            && Contains(FlashJson(true, now), "\"ok\":true")
  {
    TokenReusedOnNextRequest(get, post, jar, routes, matchPath, minted, minted, now, now, render, parse);
    var o1 := Handle(get, jar, routes, matchPath, minted, now, render, parse);
    var jar1 := Apply(jar, o1.setCookies);
    assert CsrfCookieName in jar1 && jar1[CsrfCookieName] == minted;
    PostWithTokenFlashesTrue(post, jar1, routes, matchPath, minted, now, render, parse, minted, i);
    FlashJsonRecordsOutcome(true, now, true);
    assert "\"ok\":" + BoolJson(true) == "\"ok\":true";
  }
}
