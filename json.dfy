/** JSON values as the server handlers see them: request bodies and stored
    records are untyped, so the handlers' field tests follow JavaScript's
    truthiness, property access, string coercion and object spread. */
module Json {
  import opened Base
  import opened Text

  /** A JSON value. Numbers are integers here; fractional and exponent-form
      numbers are not represented. */
  datatype Json =
    | JNull
    | JBool(b: bool)
    | JNum(n: int)
    | JStr(s: string)
    | JArr(items: seq<Json>)
    | JObj(fields: map<string, Json>)

  /** An object's own properties. */
  type Fields = map<string, Json>

  /** `!!v` for a value that is present. */
  predicate Truthy(v: Json)
  {
    match v
    case JNull => false
    case JBool(b) => b
    case JNum(n) => n != 0
    case JStr(s) => s != ""
    case JArr(_) => true
    case JObj(_) => true
  }

  /** `!!x` where `x` may be `undefined` (None). */
  predicate Present(x: Option<Json>)
  {
    x.Some? && Truthy(x.value)
  }

  /** `o.k` on an object's properties: `undefined` when absent. */
  function Get(o: Fields, k: string): Option<Json>
  {
    if k in o then Some(o[k]) else None
  }

  /** `v.k` for a value that is not null: only objects carry the named
      properties the handlers read. */
  function Prop(v: Json, k: string): Option<Json>
  {
    if v.JObj? then Get(v.fields, k) else None
  }

  /** `String(n)` for an integer. */
  function IntToString(n: int): string
  {
    if n < 0 then "-" + NatToString(-n) else NatToString(n)
  }

  /** `parts.join(",")`. */
  function JoinComma(parts: seq<string>): string
  {
    if parts == [] then "" else if |parts| == 1 then parts[0] else parts[0] + "," + JoinComma(parts[1..])
  }

  /** `String(v)`, the coercion a template literal applies. */
  function ToText(v: Json): string
    decreases v
  {
    match v
    case JNull => "null"
    case JBool(b) => if b then "true" else "false"
    case JNum(n) => IntToString(n)
    case JStr(s) => s
    case JArr(items) =>
      // Array.prototype.join renders null elements as the empty string.
      JoinComma(seq(|items|, i requires 0 <= i < |items| =>
        if items[i].JNull? then "" else ToText(items[i])))
    case JObj(_) => "[object Object]"
  }

  /** `${x}` where `x` may be `undefined`. */
  function TextOf(x: Option<Json>): string
  {
    if x.Some? then ToText(x.value) else "undefined"
  }

  /** The properties `{...v}` copies: an object's own properties, the indexed
      characters of a string, the indexed elements of an array, nothing for
      null, booleans and numbers. */
  function Spread(v: Json): Fields
  {
    match v
    case JObj(f) => f
    case JStr(s) => Indexed(seq(|s|, i requires 0 <= i < |s| => JStr([s[i]])), 0)
    case JArr(items) => Indexed(items, 0)
    case _ => map[]
  }

  /** `{"i": xs[i], ...}` for the indices from `from` on. */
  function Indexed(xs: seq<Json>, from: nat): Fields
    requires from <= |xs|
    decreases |xs| - from
  {
    if from == |xs| then map[] else Indexed(xs, from + 1)[NatToString(from) := xs[from]]
  }

  /** `a === b` between a property that may be `undefined` and a value parsed
      from a different JSON text: objects and arrays are never identical. */
  predicate StrictEquals(a: Option<Json>, b: Json)
  {
    a.Some? && a.value == b && !b.JObj? && !b.JArr?
  }
}
