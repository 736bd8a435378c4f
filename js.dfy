/** The part of JavaScript's value model that the modelled code relies on:
    primitive values, plain objects (as ordered property lists), truthiness
    and property access. */
module Js {

  /** A JavaScript value. Numbers are exact reals (NaN is not a value here),
      and an object is its list of own properties in `Object.keys` order. */
  datatype JsValue =
    | Undefined
    | Null
    | Bool(b: bool)
    | Num(n: real)
    | Str(s: string)
    | Obj(props: seq<(string, JsValue)>)

  /** The result of `Boolean(v)`: what `if (v)` and `v || w` test. */
  predicate Truthy(v: JsValue) {
    match v
    case Undefined => false
    case Null => false
    case Bool(b) => b
    case Num(n) => n != 0.0
    case Str(s) => s != ""
    case Obj(_) => true
  }

  /** `o[key]` on a plain object: the value of the first property named
      `key`, or `undefined` when there is none. */
  function Get(props: seq<(string, JsValue)>, key: string): (v: JsValue)
    ensures v != Undefined ==> exists i :: 0 <= i < |props| && props[i] == (key, v)
    ensures (forall i :: 0 <= i < |props| ==> props[i].0 != key) ==> v == Undefined
    ensures |props| > 0 && props[0].0 == key ==> v == props[0].1
  {
    if props == [] then Undefined
    else if props[0].0 == key then props[0].1
    else Get(props[1..], key)
  }

  /** The value of `key` is that of its first occurrence. */
  lemma {:induction false} GetFirstOccurrence(props: seq<(string, JsValue)>, i: nat, key: string)
    requires i < |props| && props[i].0 == key
    requires forall j :: 0 <= j < i ==> props[j].0 != key
    ensures Get(props, key) == props[i].1
  {
    if i > 0 {
      GetFirstOccurrence(props[1..], i - 1, key);
    }
  }

  /** `v[key]` evaluated without throwing: only `null` and `undefined` throw
      a TypeError when read from. */
  predicate Readable(v: JsValue) {
    !v.Undefined? && !v.Null?
  }

  /** `v[key]` for a readable value. A plain object answers from its own
      properties; any other primitive is treated as having none. */
  function Member(v: JsValue, key: string): (r: JsValue)
    requires Readable(v)
    ensures !v.Obj? ==> r == Undefined
    ensures v.Obj? ==> r == Get(v.props, key)
  {
    match v
    case Obj(props) => Get(props, key)
    case _ => Undefined
  }

  /** The keys of an object, in order (`Object.keys`). */
  function Keys(props: seq<(string, JsValue)>): (ks: seq<string>)
    ensures |ks| == |props|
    ensures forall i :: 0 <= i < |props| ==> ks[i] == props[i].0
  {
    seq(|props|, i requires 0 <= i < |props| => props[i].0)
  }

  /** The values of an object, in the same order (`Object.values`). */
  function Values(props: seq<(string, JsValue)>): (vs: seq<JsValue>)
    ensures |vs| == |props|
    ensures forall i :: 0 <= i < |props| ==> vs[i] == props[i].1
  {
    seq(|props|, i requires 0 <= i < |props| => props[i].1)
  }
}
