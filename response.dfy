/** Loader/action results: the `redirect` and `notFound` signal objects, the tag
    predicates that recognise them, and the three-way union they form with
    plain data. */
module Response {
  import opened Js

  /** `redirect(to, status = 303)`: the object `{ _tag: 'redirect', to, status }` */
  function Redirect(to: string, status: int := 303): (r: Value)
    ensures IsRedirect(r) && !IsNotFound(r)
    ensures Get(r, "_tag") == Str("redirect")
    ensures Get(r, "to") == Str(to) && Get(r, "status") == Num(status)
  {
    Obj(map["_tag" := Str("redirect"), "to" := Str(to), "status" := Num(status)])
  }

  /** `notFound(status = 404)`: the object `{ _tag: 'notfound', status }` */
  function NotFound(status: int := 404): (r: Value)
    ensures IsNotFound(r) && !IsRedirect(r)
    ensures Get(r, "_tag") == Str("notfound")
    ensures Get(r, "status") == Num(status) && Get(r, "to") == Undefined
  {
    Obj(map["_tag" := Str("notfound"), "status" := Num(status)])
  }

  /** `isRedirect(x)`: `!!x && typeof x === 'object' && x._tag === 'redirect'` */
  predicate IsRedirect(x: Value)
    ensures IsRedirect(x) ==> x.Obj? && "_tag" in x.props
  {
    Truthy(x) && TypeofObject(x) && Get(x, "_tag") == Str("redirect")
  }

  /** `isNotFound(x)`: `!!x && typeof x === 'object' && x._tag === 'notfound'` */
  predicate IsNotFound(x: Value)
    ensures IsNotFound(x) ==> x.Obj? && "_tag" in x.props
  {
    Truthy(x) && TypeofObject(x) && Get(x, "_tag") == Str("notfound")
  }

  /** The union `RedirectResult | NotFoundResult | T`. The type guards only look
      at `_tag`, so the fields of a recognised signal are whatever values the
      object holds (possibly undefined). */
  datatype ActionResult =
    | RedirectResult(to: Value, status: Value)
    | NotFoundResult(status: Value)
    | PlainResult(value: Value)

  /** How a caller tells the three cases apart with the two type guards. */
  function Classify(x: Value): (r: ActionResult)
    ensures r.RedirectResult? <==> IsRedirect(x)
    ensures r.NotFoundResult? <==> IsNotFound(x)
    ensures r.PlainResult? <==> !IsRedirect(x) && !IsNotFound(x)
    ensures r.PlainResult? ==> r.value == x
    ensures r.RedirectResult? ==> r.to == Get(x, "to") && r.status == Get(x, "status")
    ensures r.NotFoundResult? ==> r.status == Get(x, "status")
  {
    if IsRedirect(x) then RedirectResult(Get(x, "to"), Get(x, "status"))
    else if IsNotFound(x) then NotFoundResult(Get(x, "status"))
    else PlainResult(x)
  }

  /** The defaults of the two constructors. */
  lemma {:induction false} DefaultStatuses(to: string)
    ensures Redirect(to) == Redirect(to, 303) && Get(Redirect(to), "status") == Num(303)
    ensures NotFound() == NotFound(404) && Get(NotFound(), "status") == Num(404)
  {
  }

  /** Both guards recognise exactly the objects whose `_tag` reads as the tag string. */
  lemma {:induction false} GuardsReadTheTag(x: Value)
    ensures IsRedirect(x) <==> x.Obj? && "_tag" in x.props && x.props["_tag"] == Str("redirect")
    ensures IsNotFound(x) <==> x.Obj? && "_tag" in x.props && x.props["_tag"] == Str("notfound")
  {
  }

  /** No value is both a redirect and a not-found signal. */
  lemma {:induction false} GuardsExclusive(x: Value)
    ensures !(IsRedirect(x) && IsNotFound(x))
  {
  }

  /** null, undefined, booleans, numbers, strings and functions are never signals. */
  lemma {:induction false} NonObjectsArePlain(x: Value)
    requires !x.Obj?
    ensures !IsRedirect(x) && !IsNotFound(x)
    ensures Classify(x) == PlainResult(x)
  {
  }

  /** The constructors and the union agree: a constructed signal is classified
      back into its own case with its own fields. */
  lemma {:induction false} ClassifyConstructed(to: string, status: int)
    ensures Classify(Redirect(to, status)) == RedirectResult(Str(to), Num(status))
    ensures Classify(NotFound(status)) == NotFoundResult(Num(status))
  {
  }

  /** The constructors are injective: a signal keeps its arguments exactly. */
  lemma {:induction false} ConstructorsInjective(to1: string, s1: int, to2: string, s2: int)
    ensures Redirect(to1, s1) == Redirect(to2, s2) ==> to1 == to2 && s1 == s2
    ensures NotFound(s1) == NotFound(s2) ==> s1 == s2
    ensures Redirect(to1, s1) != NotFound(s2)
  {
    if Redirect(to1, s1) == Redirect(to2, s2) {
      assert Get(Redirect(to1, s1), "to") == Get(Redirect(to2, s2), "to");
      assert Get(Redirect(to1, s1), "status") == Get(Redirect(to2, s2), "status");
    }
    if NotFound(s1) == NotFound(s2) {
      assert Get(NotFound(s1), "status") == Get(NotFound(s2), "status");
    }
  }
}
