/**
 The JavaScript values the node handles: JSON responses, parameter values and
 the `undefined` that a missing property reads as. Objects keep their
 properties in enumeration order (the order `Object.entries` reports), and are
 assumed to have distinct keys, as parsed JSON and object literals do.
 */
module JsValues {

  /** A JavaScript value as far as the node observes it. Numbers are integers here. */
  datatype Js =
    | Undefined
    | Null
    | Bool(b: bool)
    | Num(n: int)
    | Str(s: string)
    | Arr(items: seq<Js>)
    | Obj(fields: seq<(string, Js)>)

  datatype Option<+T> = None | Some(value: T)

  datatype Result<+T, +E> = Ok(value: T) | Err(error: E)

  /** JavaScript truthiness: `undefined`, `null`, `false`, `0` and `''` are falsy. */
  predicate Truthy(v: Js) {
    match v
    case Undefined => false
    case Null => false
    case Bool(b) => b
    case Num(n) => n != 0
    case Str(s) => s != ""
    case Arr(_) => true
    case Obj(_) => true
  }

  /** `typeof v === 'object'`, which also holds of `null`. */
  predicate IsObjectType(v: Js) {
    v.Null? || v.Arr? || v.Obj?
  }

  predicate IsNullish(v: Js) {
    v.Undefined? || v.Null?
  }

  /** `a ?? b`: the right operand exactly when the left one is `null` or `undefined`. */
  function Coalesce(a: Js, b: Js): (r: Js)
    ensures IsNullish(a) ==> r == b
    ensures !IsNullish(a) ==> r == a
  {
    if IsNullish(a) then b else a
  }

  /** `a || b`: the left operand when it is truthy, otherwise the right one. */
  function Or(a: Js, b: Js): (r: Js)
    ensures Truthy(r) <==> Truthy(a) || Truthy(b)
    ensures Truthy(a) ==> r == a
  {
    if Truthy(a) then a else b
  }

  /** The value of the first field named `key`, if any. */
  function Lookup(fields: seq<(string, Js)>, key: string): (r: Option<Js>)
    ensures r.Some? <==> exists i :: 0 <= i < |fields| && fields[i].0 == key
    ensures r.Some? ==> exists i :: 0 <= i < |fields| && fields[i] == (key, r.value)
  {
    if fields == [] then None
    else if fields[0].0 == key then Some(fields[0].1)
    else
      var rest := Lookup(fields[1..], key);
      assert forall i :: 1 <= i < |fields| ==> fields[i] == fields[1..][i - 1];
      rest
  }

  /**
   `v?.key`: the named own property of an object, and `undefined` for
   `null`/`undefined` (optional chaining) and for every other value, none of
   which carries the property names the node reads.
   */
  function Prop(v: Js, key: string): (r: Js)
    ensures !v.Obj? ==> r == Undefined
  {
    match v
    case Obj(fields) =>
      (match Lookup(fields, key)
       case Some(x) => x
       case None => Undefined)
    case _ => Undefined
  }

  /** `xs.join(sep)` for strings. */
  function Join(xs: seq<string>, sep: string): (r: string)
    ensures xs == [] ==> r == ""
    ensures |xs| == 1 ==> r == xs[0]
  {
    if xs == [] then ""
    else if |xs| == 1 then xs[0]
    else xs[0] + sep + Join(xs[1..], sep)
  }
}
