/** The few JavaScript value rules the tournament handlers rely on:
    absent fields, truthiness of strings and numbers, the `||` operator,
    destructuring defaults, and an opaque JSON value for what the upstream
    API returns.

    A body field is either absent (`None`, JavaScript `undefined`) or
    present with a value of the type the handler expects. Numbers are
    integers: the model has no floating point, `NaN` or `-0`. */
module JsValues {

  datatype Option<+T> = None | Some(value: T) {

    /** Destructuring with a default (`{ x = d } = body`): the default
        replaces only an absent value. */
    function GetOr(default: T): (r: T)
      ensures Some? ==> r == value
      ensures None? ==> r == default
    {
      match this
      case Some(v) => v
      case None => default
    }
  }

  /** A JSON value as returned by `response.json()`; the handlers only
      pass it along. */
  datatype Json =
    | JNull
    | JBool(b: bool)
    | JNum(n: int)
    | JStr(s: string)
    | JArr(items: seq<Json>)
    | JObj(members: seq<(string, Json)>)

  /** `!!s` for an optional string: `undefined` and `''` are falsy. */
  function TruthyString(s: Option<string>): (b: bool)
    ensures b <==> s !in {None, Some("")}
    ensures b ==> |s.value| > 0
  {
    s.Some? && s.value != ""
  }

  /** `!!n` for an optional integer: `undefined` and `0` are falsy. */
  function TruthyInt(n: Option<int>): (b: bool)
    ensures b <==> n !in {None, Some(0)}
  {
    n.Some? && n.value != 0
  }

  /** JavaScript `a || b` on optional strings: `a` when it is truthy,
      otherwise `b`, whatever `b` is. */
  function Or(a: Option<string>, b: Option<string>): (r: Option<string>)
    ensures TruthyString(a) ==> r == a
    ensures !TruthyString(a) ==> r == b
    ensures TruthyString(r) <==> TruthyString(a) || TruthyString(b)
  {
    if TruthyString(a) then a else b
  }
}
