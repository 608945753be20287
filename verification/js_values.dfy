/**
  The JavaScript values the client reads after `JSON.parse`, and the three
  things it does with them: read a property (`payload[0]`, `data.selections`,
  `odds.length`), test truthiness (`data.selections || []`) and convert to a
  string inside a template literal (`${eventName}`).
 */
module JsValues {

  /** A property key. Canonical array-index keys ("0", "1", ...) are `Index`
      keys, for arrays, strings and objects alike; every other key is a `Name`. */
  datatype Key = Index(i: nat) | Name(s: string)

  /** A JavaScript value as produced by `JSON.parse`, plus `undefined`, which
      a property read of a missing key yields. */
  datatype JsValue =
    | Undefined
    | Null
    | Bool(b: bool)
    | Num(n: real)
    | Str(s: string)
    | Arr(elems: seq<JsValue>)
    | Obj(props: map<Key, JsValue>)

  /** Values whose property reads throw a TypeError. */
  predicate Nullish(v: JsValue) {
    v.Undefined? || v.Null?
  }

  /** JavaScript's ToBoolean: the falsy values are undefined, null, false, 0 and "". */
  predicate Truthy(v: JsValue) {
    match v
    case Undefined => false
    case Null => false
    case Bool(b) => b
    case Num(n) => n != 0.0
    case Str(s) => s != ""
    case Arr(_) => true
    case Obj(_) => true
  }

  /** `v[k]` for a value whose property reads do not throw. Only own
      properties and `length` are modelled: none of the keys the client reads
      ("0", "1", "eventMarketId", "selections", "length") is found on a
      built-in prototype. */
  function Prop(v: JsValue, k: Key): JsValue
    requires !Nullish(v)
  {
    match v
    case Str(s) =>
      (match k
       case Index(i) => if i < |s| then Str([s[i]]) else Undefined
       case Name(n) => if n == "length" then Num(|s| as real) else Undefined)
    case Arr(a) =>
      (match k
       case Index(i) => if i < |a| then a[i] else Undefined
       case Name(n) => if n == "length" then Num(|a| as real) else Undefined)
    case Obj(m) => if k in m then m[k] else Undefined
    case _ => Undefined
  }

  /** True when converting `v` to a string (as a template literal does)
      throws. A parsed object with an own "toString" key has a non-callable
      `toString`, and the inherited `valueOf` returns the object itself, so
      the conversion throws a TypeError; an array converts through `join`,
      which converts every element that is not null or undefined. */
  predicate ToStringThrows(v: JsValue) {
    match v
    case Obj(m) => Name("toString") in m
    case Arr(a) => exists i :: 0 <= i < |a| && ToStringThrows(a[i])
    case _ => false
  }
}
