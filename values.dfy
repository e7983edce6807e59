/** JavaScript values as the plugin sees them: JSON-like trees with
    `undefined`, and arrays that may have holes. */
module Values {
  import opened Wrappers
  import opened Strings

  /** A JavaScript value. An array element `None` is a hole (an index that
      `delete` removed: it still counts in `length` but has no key). Numbers
      are integers. */
  datatype Json =
    | Undef
    | Null
    | Bool(b: bool)
    | Num(n: int)
    | Str(s: string)
    | Arr(items: seq<Option<Json>>)
    | Obj(fields: map<string, Json>)

  /** JavaScript truthiness: `undefined`, `null`, `false`, `0` and `""` are falsy. */
  predicate Truthy(v: Json) {
    match v
    case Undef => false
    case Null => false
    case Bool(b) => b
    case Num(n) => n != 0
    case Str(s) => s != ""
    case _ => true
  }

  /** `a || b`. */
  function OrElse(a: Json, b: Json): (r: Json)
    ensures Truthy(a) ==> r == a
    ensures !Truthy(a) ==> r == b
  {
    if Truthy(a) then a else b
  }

  /** `typeof v === "object"` for a value that is not `null`. */
  predicate IsObject(v: Json) {
    v.Arr? || v.Obj?
  }

  /** `Object.keys(v).length === 0` for an object or an array. */
  predicate NoKeys(v: Json) {
    match v
    case Arr(s) => forall i :: 0 <= i < |s| ==> s[i].None?
    case Obj(m) => m == map[]
    case _ => false
  }

  /** `m[k]` on a plain object: `undefined` when the key is missing. */
  function Get(m: map<string, Json>, k: string): Json {
    if k in m then m[k] else Undef
  }

  /** `arr[i]`: `undefined` for a hole or an index past the end. */
  function At(s: seq<Option<Json>>, i: nat): Json {
    if i < |s| && s[i].Some? then s[i].value else Undef
  }

  /** An `Error` object with the given message. */
  function ErrorValue(message: string): Json {
    Obj(map["message" := Str(message)])
  }

  /** A `TypeError` object with the given message. */
  function TypeErrorValue(message: string): Json {
    Obj(map["name" := Str("TypeError"), "message" := Str(message)])
  }

  /** The TypeError reading property `name` of undefined or null throws. */
  function ReadError(nothing: Json, name: string): Json {
    if nothing.Null? then TypeErrorValue("Cannot read properties of null (reading '" + name + "')")
    else TypeErrorValue("Cannot read properties of undefined (reading '" + name + "')")
  }

  /** The error calling a missing method `name` on `v` throws (`expr` is how
      the source spells `v`). */
  function NoMethod(v: Json, expr: string, name: string): Json {
    match v
    case Undef => TypeErrorValue("Cannot read properties of undefined (reading '" + name + "')")
    case Null => TypeErrorValue("Cannot read properties of null (reading '" + name + "')")
    case _ => TypeErrorValue(expr + "." + name + " is not a function")
  }

  /** Reading the named (non-index) property `name` of `v`: `null` and
      `undefined` throw a TypeError; primitives and arrays have no such
      property. */
  function Property(v: Json, name: string): (r: Result<Json, Json>)
    ensures r.Err? <==> v.Undef? || v.Null?
    ensures v.Obj? ==> r == Ok(Get(v.fields, name))
  {
    match v
    case Undef => Err(TypeErrorValue("Cannot read properties of undefined (reading '" + name + "')"))
    case Null => Err(TypeErrorValue("Cannot read properties of null (reading '" + name + "')"))
    case Obj(m) => Ok(Get(m, name))
    case _ => Ok(Undef)
  }

  /** Reading `v[0]`. */
  function First(v: Json): (r: Result<Json, Json>)
    ensures r.Err? <==> v.Undef? || v.Null?
    ensures v.Arr? ==> r == Ok(At(v.items, 0))
  {
    match v
    case Undef => Err(TypeErrorValue("Cannot read properties of undefined (reading '0')"))
    case Null => Err(TypeErrorValue("Cannot read properties of null (reading '0')"))
    case Arr(s) => Ok(At(s, 0))
    case Obj(m) => Ok(Get(m, "0"))
    case Str(s) => Ok(if s == [] then Undef else Str([s[0]]))
    case _ => Ok(Undef)
  }

  /** `String(v)`, the conversion template literals and `+` on strings apply. */
  function ToJsString(v: Json): string
    decreases v, 1
  {
    match v
    case Undef => "undefined"
    case Null => "null"
    case Bool(b) => if b then "true" else "false"
    case Num(n) => IntToString(n)
    case Str(s) => s
    case Arr(items) => ItemsText(items)
    case Obj(_) => "[object Object]"
  }

  /** `Array.prototype.toString`: the elements joined by ",", with holes,
      undefined and null written as the empty string. */
  function ItemsText(items: seq<Option<Json>>): string
    decreases Arr(items), 0
  {
    Join(seq(|items|, i requires 0 <= i < |items| =>
      if items[i].None? || items[i].value.Undef? || items[i].value.Null? then ""
      else ToJsString(items[i].value)), ",")
  }

  /** The text an error contributes to a message: its `message` when that is
      truthy, and otherwise its string conversion. */
  function ErrorText(e: Json): string {
    if e.Obj? && Truthy(Get(e.fields, "message")) then ToJsString(Get(e.fields, "message"))
    else ToJsString(e)
  }

  /** What a `catch` block that throws `new Error(prefix + (err.message || err))`
      throws for `err`: reading the message of undefined or null throws a
      TypeError first. */
  function Rethrown(prefix: string, e: Json): (r: Json)
    ensures !(e.Undef? || e.Null?) ==> r == ErrorValue(prefix + ErrorText(e))
    ensures e.Undef? || e.Null? ==> r == Property(e, "message").error
  {
    match Property(e, "message")
    case Err(te) => te
    case Ok(_) => ErrorValue(prefix + ErrorText(e))
  }

  /** A JSON array of the given strings. */
  function Strs(parts: seq<string>): (r: Json)
    ensures r.Arr? && |r.items| == |parts|
    ensures forall i :: 0 <= i < |parts| ==> r.items[i] == Some(Str(parts[i]))
  {
    Arr(seq(|parts|, i requires 0 <= i < |parts| => Some(Str(parts[i]))))
  }
}
