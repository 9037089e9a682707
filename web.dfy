/** The conventional optional value: `None` stands for a JavaScript `undefined`. */
module Wrappers {
  datatype Option<+T> = None | Some(value: T)
}

/**
 * What the route handlers and the page share: JavaScript truthiness of optional
 * string fields, template-literal interpolation, and the shape of a JSON reply.
 */
module Web {
  import opened Wrappers

  /** A JSON string field is truthy when it is present and not the empty string. */
  predicate Truthy(v: Option<string>) {
    v.Some? && v.value != ""
  }

  /** `a || b` on two optional strings. */
  function Or(a: Option<string>, b: Option<string>): (r: Option<string>)
    ensures Truthy(r) <==> Truthy(a) || Truthy(b)
    ensures Truthy(a) ==> r == a
    ensures !Truthy(a) ==> r == b
  {
    if Truthy(a) then a else b
  }

  /** `a || fallback`: the value when truthy, otherwise the fallback literal. */
  function OrElse(a: Option<string>, fallback: string): (r: string)
    ensures Truthy(a) ==> r == a.value
    ensures !Truthy(a) ==> r == fallback
    ensures fallback != "" ==> r != ""
  {
    if Truthy(a) then a.value else fallback
  }

  /** `${v}` inside a template literal: an undefined value is spelled "undefined". */
  function Render(v: Option<string>): (s: string)
    ensures v.Some? ==> s == v.value
    ensures v.None? ==> s == "undefined"
    // only the empty string renders empty, and an undefined value reads like the string "undefined"
    ensures s == "" <==> v == Some("")
    ensures s == "undefined" <==> v == None || v == Some("undefined")
  {
    if v.Some? then v.value else "undefined"
  }

  /**
   * A route's JSON response: a 200 body, or a non-2xx status whose body is `{ error }`.
   * Only `ok` (a 2xx status) and the body are observable to the page.
   */
  datatype Reply<T> = Json(body: T) | ErrorJson(status: int, error: string)

  /** One request handled by a route: the input it passed to its provider (None if it never called it) and its reply. */
  datatype Exchange<I, T> = Exchange(sent: Option<I>, reply: Reply<T>)
}
