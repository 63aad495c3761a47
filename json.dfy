/**
 * Loosely typed JavaScript values as the components receive them from `response.json()`
 * and pass around as `any`, with the handful of JavaScript operators the components apply
 * to them: truthiness, optional chaining, `??`, `||`, `Object.keys`, object spread and `String`.
 */
module Json {
  import opened Wrappers
  import Text

  /** A parsed JSON value. Numbers are exact reals (no NaN or infinities). */
  datatype Json =
    | JNull
    | JBool(b: bool)
    | JNum(n: real)
    | JStr(s: string)
    | JArr(items: seq<Json>)
    | JObj(fields: map<string, Json>)

  /** JavaScript truthiness: `null`, `false`, `0` and `""` are falsy, everything else is truthy. */
  predicate Truthy(v: Json) {
    match v
    case JNull => false
    case JBool(b) => b
    case JNum(n) => n != 0.0
    case JStr(s) => s != []
    case JArr(_) => true
    case JObj(_) => true
  }

  /** `v?.key` on a value that may itself be `undefined`; `None` is `undefined`. */
  function Get(v: Option<Json>, key: string): (r: Option<Json>)
    ensures r.Some? <==> v.Some? && v.value.JObj? && key in v.value.fields
  {
    if v.Some? && v.value.JObj? && key in v.value.fields then Some(v.value.fields[key]) else None
  }

  /** `v ?? d`: only `null` and `undefined` fall back to `d`. */
  function Coalesce(v: Option<Json>, d: Json): (r: Json)
    ensures v.Some? && !v.value.JNull? ==> r == v.value
    ensures v.None? || v.value.JNull? ==> r == d
  {
    if v.Some? && !v.value.JNull? then v.value else d
  }

  /** `v || d`: every falsy value falls back to `d`. */
  function OrElse(v: Option<Json>, d: Json): (r: Json)
    ensures v.Some? && Truthy(v.value) ==> r == v.value
    ensures v.None? || !Truthy(v.value) ==> r == d
  {
    if v.Some? && Truthy(v.value) then v.value else d
  }

  /** `v?.length` on a value that may be `undefined`: arrays and strings have one. */
  function Length(v: Option<Json>): Option<nat> {
    if v.Some? && v.value.JArr? then Some(|v.value.items|)
    else if v.Some? && v.value.JStr? then Some(|v.value.s|)
    else None
  }

  /** The own enumerable properties of a value, as object spread `{...v}` copies them. */
  function Spread(v: Json): (m: map<string, Json>)
    ensures v.JObj? ==> m == v.fields
    ensures !v.JObj? && !v.JArr? && !v.JStr? ==> m == map[]
  {
    match v
    case JObj(fields) => fields
    case JArr(items) => IndexKeyed(items)
    case JStr(s) => IndexKeyed(Iterated(v).value)
    case _ => map[]
  }

  /** `[...v]`: arrays give their elements, strings their characters; anything else throws (`None`). */
  function Iterated(v: Json): (r: Option<seq<Json>>)
    ensures v.JArr? ==> r == Some(v.items)
    ensures v.JStr? ==> r.Some? && |r.value| == |v.s| && forall i :: 0 <= i < |v.s| ==> r.value[i] == JStr([v.s[i]])
    ensures r.None? <==> !v.JArr? && !v.JStr?
  {
    match v
    case JArr(items) => Some(items)
    case JStr(s) => Some(seq(|s|, i requires 0 <= i < |s| => JStr([s[i]])))
    case _ => None
  }

  /** The map `{"0": xs[0], "1": xs[1], ...}`. */
  function IndexKeyed(xs: seq<Json>): (m: map<string, Json>)
    ensures forall i :: 0 <= i < |xs| ==> Text.NatToString(i) in m && m[Text.NatToString(i)] == xs[i]
  {
    assert forall i, j :: 0 <= i < |xs| && 0 <= j < |xs| && Text.NatToString(i) == Text.NatToString(j) ==> i == j by {
      forall i: nat, j: nat { Text.NatToStringInjective(i, j); }
    }
    map i | 0 <= i < |xs| :: Text.NatToString(i) := xs[i]
  }

  /** `Object.keys(v).length`. */
  function KeyCount(v: Json): (n: nat)
    ensures v.JObj? ==> n == |v.fields|
  {
    match v
    case JObj(fields) => |fields|
    case JArr(items) => |items|
    case JStr(s) => |s|
    case _ => 0
  }

  /**
   * `String(v)`. Arrays join their elements with commas (`null` elements give ""),
   * objects give "[object Object]". A non-integral number is rendered by its integer
   * part and a trailing "."; its digits after the point are not modelled.
   */
  function ToJsString(v: Json): string
    decreases v
  {
    match v
    case JNull => "null"
    case JBool(b) => if b then "true" else "false"
    case JNum(n) =>
      if n == n.Floor as real then Text.IntToString(n.Floor)
      else if n > 0.0 then Text.IntToString(n.Floor) + "."
      else "-" + Text.IntToString((-n).Floor) + "."
    case JStr(s) => s
    case JArr(items) =>
      JoinWithCommas(seq(|items|, i requires 0 <= i < |items| => if items[i].JNull? then "" else ToJsString(items[i])))
    case JObj(_) => "[object Object]"
  }

  /** `parts.join(",")`. */
  function JoinWithCommas(parts: seq<string>): string {
    if parts == [] then ""
    else if |parts| == 1 then parts[0]
    else parts[0] + "," + JoinWithCommas(parts[1..])
  }
}
