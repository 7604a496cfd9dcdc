/** Dispatch of file-based API routes: the first route whose path is exactly the
    request's pathname answers, with the handler for the (upper-cased) method or
    with 405; when no route has that path the caller falls through (null). */
module ApiRoutes {
  import opened Js

  /** The parts of a request the dispatch looks at: the method as sent and the
      pathname of its URL. A handler receives this value, so what it answers
      can depend on the method and pathname only; headers and body are not modelled. */
  datatype Request = Request(methodName: string, pathname: string)

  datatype Response = Response(status: int, body: string)

  /** A property of a route object under a method name: a function (a handler)
      or some other value, which `typeof handler === 'function'` rejects. */
  datatype Member = Handler(run: Request -> Response) | NotAFunction

  /** An API route: its path and the properties it exports by name. */
  datatype ApiRoute = ApiRoute(path: string, members: map<string, Member>)

  const MethodNotAllowed: Response := Response(405, "Method Not Allowed")

  /** Upper-casing of one character, for the ASCII letters. */
  function UpperChar(ch: char): char {
    if 'a' <= ch <= 'z' then (ch as int - 32) as char else ch
  }

  /** `toUpperCase()`, for ASCII text. */
  function ToUpper(s: string): (r: string)
    ensures |r| == |s|
    ensures forall i :: 0 <= i < |s| ==> r[i] == UpperChar(s[i])
    decreases |s|
  {
    if |s| == 0 then "" else [UpperChar(s[0])] + ToUpper(s[1..])
  }

  /** Two characters that are the same letter up to ASCII case. */
  predicate SameIgnoringCase(a: char, b: char) {
    a == b || ('a' <= a <= 'z' && b as int == a as int - 32) || ('a' <= b <= 'z' && a as int == b as int - 32)
  }

  /** The index of the first route whose path is exactly `pathname`. */
  function FirstWithPath(routes: seq<ApiRoute>, pathname: string): (r: Option<nat>)
    ensures r.None? <==> forall j :: 0 <= j < |routes| ==> routes[j].path != pathname
    ensures r.Some? ==> r.value < |routes| && routes[r.value].path == pathname
                        && forall j :: 0 <= j < r.value ==> routes[j].path != pathname
    decreases |routes|
  {
    if |routes| == 0 then None
    else if routes[0].path == pathname then Some(0)
    else
      match FirstWithPath(routes[1..], pathname)
      case None => None
      case Some(i) => Some(i + 1)
  }

  /** What the dispatch decides to do, before anything is called. */
  datatype Selection = NoRoute | NotAllowed | Invoke(index: nat, key: string)

  /** The decision of `handleApiRoutes` for a pathname and a method. */
  function Select(routes: seq<ApiRoute>, pathname: string, methodName: string): (s: Selection)
    ensures s.NoRoute? <==> forall j :: 0 <= j < |routes| ==> routes[j].path != pathname
    ensures !s.NoRoute? ==> exists i :: 0 <= i < |routes| && routes[i].path == pathname
    ensures s.Invoke? ==> s.index < |routes| && routes[s.index].path == pathname
                          && (forall j :: 0 <= j < s.index ==> routes[j].path != pathname)
                          && s.key == ToUpper(methodName)
                          && s.key in routes[s.index].members
                          && routes[s.index].members[s.key].Handler?
    ensures forall i :: 0 <= i < |routes| && routes[i].path == pathname
                        && (forall j :: 0 <= j < i ==> routes[j].path != pathname) ==>
              var key := ToUpper(methodName);
              (key in routes[i].members && routes[i].members[key].Handler? ==> s == Invoke(i, key))
              && (key !in routes[i].members || routes[i].members[key].NotAFunction? ==> s == NotAllowed)
  {
    match FirstWithPath(routes, pathname)
    case None => NoRoute
    case Some(i) =>
      var key := ToUpper(methodName);
      if key in routes[i].members && routes[i].members[key].Handler? then Invoke(i, key)
      else NotAllowed
  }

  /** The response `handleApiRoutes` resolves to, given the selection. */
  function Dispatch(routes: seq<ApiRoute>, req: Request): (res: Option<Response>)
    ensures res.None? <==> forall j :: 0 <= j < |routes| ==> routes[j].path != req.pathname
    ensures forall i :: 0 <= i < |routes| && routes[i].path == req.pathname
                        && (forall j :: 0 <= j < i ==> routes[j].path != req.pathname) ==>
              var key := ToUpper(req.methodName);
              (key in routes[i].members && routes[i].members[key].Handler? ==> res == Some(routes[i].members[key].run(req)))
              && (key !in routes[i].members || routes[i].members[key].NotAFunction? ==> res == Some(MethodNotAllowed))
  {
    match Select(routes, req.pathname, req.methodName)
    case NoRoute => None
    case NotAllowed => Some(MethodNotAllowed)
    case Invoke(i, key) => Some(routes[i].members[key].run(req))
  }

  /** `handleApiRoutes(request, routes)`: a first-match scan with early returns. */
  method HandleApiRoutes(req: Request, routes: seq<ApiRoute>) returns (res: Option<Response>)
    ensures res == Dispatch(routes, req)
    ensures res.None? <==> forall j :: 0 <= j < |routes| ==> routes[j].path != req.pathname
  {
    var key := ToUpper(req.methodName);
    for i := 0 to |routes|
      invariant forall j :: 0 <= j < i ==> routes[j].path != req.pathname
    {
      var route := routes[i];
      if req.pathname == route.path {
        assert FirstWithPath(routes, req.pathname) == Some(i);
        if key in route.members && route.members[key].Handler? {
          var resp := route.members[key].run(req);
          return Some(resp);
        }
        return Some(MethodNotAllowed);
      }
    }
    return None;
  }

  /** Routes after the first one with the pathname are never reached: appending
      routes, even ones with the same path, changes nothing. */
  lemma {:induction false} ShadowedRoutesUnreachable(routes: seq<ApiRoute>, later: seq<ApiRoute>, req: Request)
    requires exists i :: 0 <= i < |routes| && routes[i].path == req.pathname
    ensures Select(routes + later, req.pathname, req.methodName) == Select(routes, req.pathname, req.methodName)
    ensures Dispatch(routes + later, req) == Dispatch(routes, req)
  {
    var all := routes + later;
    var i := FirstWithPath(routes, req.pathname).value;
    var k := FirstWithPath(all, req.pathname);
    assert all[i] == routes[i];
    forall j | 0 <= j < i
      ensures all[j].path != req.pathname
    {
      assert all[j] == routes[j];
    }
    assert k == Some(i);
  }

  /** The handler is looked up under the upper-cased method, so methods that
      differ only in ASCII letter case select the same handler. */
  lemma {:induction false} MethodCaseInsensitive(routes: seq<ApiRoute>, pathname: string, m1: string, m2: string)
    requires |m1| == |m2|
    requires forall i :: 0 <= i < |m1| ==> SameIgnoringCase(m1[i], m2[i])
    ensures Select(routes, pathname, m1) == Select(routes, pathname, m2)
  {
    var u1, u2 := ToUpper(m1), ToUpper(m2);
    forall i | 0 <= i < |m1|
      ensures u1[i] == u2[i]
    {
      assert SameIgnoringCase(m1[i], m2[i]);
    }
    assert u1 == u2;
  }

  /** An illustration of `MethodCaseInsensitive`: `get` and `Get` dispatch like `GET`. */
  lemma {:induction false} LowerCaseGetIsGet(routes: seq<ApiRoute>, pathname: string)
    ensures Select(routes, pathname, "get") == Select(routes, pathname, "GET")
    ensures Select(routes, pathname, "Get") == Select(routes, pathname, "GET")
  {
    MethodCaseInsensitive(routes, pathname, "get", "GET");
    MethodCaseInsensitive(routes, pathname, "Get", "GET");
  }

  /** A route with the pathname but without a handler for the method answers
      405, whatever later routes offer. */
  lemma {:induction false} NoHandlerIsMethodNotAllowed(routes: seq<ApiRoute>, req: Request, i: nat)
    requires i < |routes| && routes[i].path == req.pathname
    requires forall j :: 0 <= j < i ==> routes[j].path != req.pathname
    requires var key := ToUpper(req.methodName); key !in routes[i].members || routes[i].members[key].NotAFunction?
    ensures Dispatch(routes, req) == Some(MethodNotAllowed)
  {
    assert FirstWithPath(routes, req.pathname) == Some(i);
  }

  /** The handler case: the first route with the pathname that has a function
      under the upper-cased method answers with that function's response,
      whatever later routes offer. */
  lemma {:induction false} HandlerAnswers(routes: seq<ApiRoute>, req: Request, i: nat)
    requires i < |routes| && routes[i].path == req.pathname
    requires forall j :: 0 <= j < i ==> routes[j].path != req.pathname
    requires var key := ToUpper(req.methodName); key in routes[i].members && routes[i].members[key].Handler?
    ensures Dispatch(routes, req) == Some(routes[i].members[ToUpper(req.methodName)].run(req))
  {
    assert FirstWithPath(routes, req.pathname) == Some(i);
  }

  /** Two illustrations of the exact comparison that `FirstWithPath` states in
      general: a trailing slash is not folded away and a pattern-looking path is
      not a pattern. */
  lemma {:induction false} ExactPathComparison(members: map<string, Member>)
    ensures Dispatch([ApiRoute("/api/hello", members)], Request("GET", "/api/hello/")) == None
    ensures Dispatch([ApiRoute("/api/:name", members)], Request("GET", "/api/hello")) == None
  {
  }
}
