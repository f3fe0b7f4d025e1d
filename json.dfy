/**
 * The JSON values the front end receives and the JavaScript objects it
 * builds from them. An object is a map from keys to values; a key whose
 * value is `undefined` is absent from the map, which is how every read in
 * the modelled code treats it. Numbers are integers.
 */
module Json {
  import opened Wrappers
  import Text

  datatype Json =
    | Null
    | Bool(b: bool)
    | Num(n: int)
    | Str(s: string)
    | Arr(items: seq<Json>)
    | Obj(fields: map<string, Json>)

  type Item = map<string, Json>

  /** `obj[k]`: `None` for `undefined`. */
  function Get(m: Item, k: string): (r: Option<Json>)
    ensures r.Some? <==> k in m
    ensures r.Some? ==> r.value == m[k]
  {
    if k in m then Some(m[k]) else None
  }

  /** `{ ...m, [k]: v }`: assigning `undefined` leaves the key absent. */
  function Put(m: Item, k: string, v: Option<Json>): (r: Item)
    ensures forall j :: j != k ==> Get(r, j) == Get(m, j)
    ensures Get(r, k) == v
  {
    if v.Some? then m[k := v.value] else m - {k}
  }

  /** `v.name` where `v` may be any value: only objects have properties here. */
  function Field(v: Option<Json>, k: string): Option<Json>
  {
    if v.Some? && v.value.Obj? then Get(v.value.fields, k) else None
  }

  /** JavaScript truthiness. */
  predicate Truthy(v: Option<Json>)
  {
    match v
    case None => false
    case Some(j) =>
      match j
      case Null => false
      case Bool(b) => b
      case Num(n) => n != 0
      case Str(s) => s != ""
      case _ => true
    }

  /** Primitive values, which `===` compares by value. */
  predicate Primitive(j: Json)
  {
    !j.Arr? && !j.Obj?
  }

  /**
   * `a === b`: equal primitives, or both `undefined`. Arrays and objects are
   * compared by reference, and the values compared here never share one.
   */
  predicate StrictEq(a: Option<Json>, b: Option<Json>)
  {
    (a.None? && b.None?) || (a.Some? && b.Some? && Primitive(a.value) && a.value == b.value)
  }

  /** The text of a string value. */
  function AsString(v: Option<Json>): Option<string>
    ensures AsString(v).Some? <==> v.Some? && v.value.Str?
  {
    if v.Some? && v.value.Str? then Some(v.value.s) else None
  }

  /** `a || b` on values. */
  function OrElse(a: Option<Json>, b: Option<Json>): (r: Option<Json>)
    ensures Truthy(a) ==> r == a
    ensures !Truthy(a) ==> r == b
  {
    if Truthy(a) then a else b
  }

  /**
   * `${v}` / `String(v)`: how a value prints inside a template literal. An
   * array prints its elements joined by ',', with `null` printing as ''.
   */
  function Show(v: Option<Json>): string
  {
    match v
    case None => "undefined"
    case Some(j) => ShowValue(j)
  }

  function ShowValue(j: Json): string
  {
    match j
    case Null => "null"
    case Bool(b) => if b then "true" else "false"
    case Num(n) => if n < 0 then "-" + Text.NatToString(-n) else Text.NatToString(n)
    case Str(s) => s
    case Arr(items) => ShowItems(items)
    case Obj(_) => "[object Object]"
  }

  function ShowItems(items: seq<Json>): string
    decreases items
  {
    if items == [] then ""
    else
      var head := if items[0].Null? then "" else ShowValue(items[0]);
      if |items| == 1 then head else head + "," + ShowItems(items[1..])
  }
}
