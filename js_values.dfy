/**
  The JavaScript values a parsed courier reply can hold, and the two
  operations the rate handler performs on them: truthiness tests and
  property reads that throw a TypeError on `null` and `undefined`.
 */
module JsValues {
  datatype JsValue =
    | Undefined
    | Null
    | Bool(b: bool)
    | Num(x: real)
    | Str(s: string)
    | Arr(elems: seq<JsValue>)
    | Obj(props: map<string, JsValue>)

  /** JavaScript truthiness: `false`, `0`, `""`, `null` and `undefined` are falsy. */
  predicate Truthy(v: JsValue)
    ensures !Truthy(v) <==> v == Undefined || v == Null || v == Bool(false) || v == Num(0.0) || v == Str("")
  {
    match v
    case Undefined => false
    case Null => false
    case Bool(b) => b
    case Num(x) => x != 0.0
    case Str(s) => s != ""
    case Arr(_) => true
    case Obj(_) => true
  }

  /** The outcome of evaluating `v.key`: a value, or a thrown TypeError. */
  datatype Access = Value(v: JsValue) | TypeError

  /**
    `v.key` for the four keys the handler reads: "success", "response",
    "data" and "price". Reading a property of `null` or `undefined` throws.
    For these keys an absent own property of an object, and the property of
    a primitive or an array, reads as `undefined`, since no built-in
    prototype defines them. (Other keys differ: `"ab".length` is 2.)
   */
  function GetProperty(v: JsValue, key: string): (r: Access)
    ensures r.TypeError? <==> v.Undefined? || v.Null?
    ensures r.Value? && r.v != Undefined ==> v.Obj? && key in v.props && v.props[key] == r.v
  {
    match v
    case Undefined => TypeError
    case Null => TypeError
    case Obj(props) => if key in props then Value(props[key]) else Value(Undefined)
    case _ => Value(Undefined)
  }

  /** `v.k1.k2…kn`; the first read that throws ends the chain. */
  function GetPath(v: JsValue, keys: seq<string>): (r: Access)
    ensures keys == [] ==> r == Value(v)
    decreases |keys|
  {
    if keys == [] then Value(v)
    else match GetProperty(v, keys[0])
      case TypeError => TypeError
      case Value(w) => GetPath(w, keys[1..])
  }

  /**
    A chain of reads through nested objects that all hold the next key
    reaches the innermost value without throwing.
   */
  lemma {:induction false} GetPathThroughObjects(v: JsValue, keys: seq<string>, leaf: JsValue)
    requires PathHolds(v, keys, leaf)
    ensures GetPath(v, keys) == Value(leaf)
    decreases |keys|
  {
    if keys != [] {
      GetPathThroughObjects(v.props[keys[0]], keys[1..], leaf);
    }
  }

  /** `v` holds `leaf` at the end of the nested-object path `keys`. */
  predicate PathHolds(v: JsValue, keys: seq<string>, leaf: JsValue)
    decreases |keys|
  {
    if keys == [] then v == leaf
    else v.Obj? && keys[0] in v.props && PathHolds(v.props[keys[0]], keys[1..], leaf)
  }

  /**
    A read chain throws exactly when some read before the last one yields
    `null` or `undefined` (or the chain starts on one).
   */
  lemma {:induction false} GetPathThrows(v: JsValue, keys: seq<string>)
    requires |keys| >= 1
    ensures GetPath(v, keys).TypeError? <==>
      exists i :: 0 <= i < |keys| && Prefix(v, keys, i).Value? && (Prefix(v, keys, i).v.Undefined? || Prefix(v, keys, i).v.Null?)
    decreases |keys|
  {
    if v.Undefined? || v.Null? {
      assert Prefix(v, keys, 0) == Value(v);
    } else {
      var w := GetProperty(v, keys[0]).v;
      forall i | 0 <= i < |keys| ensures Prefix(v, keys, i) == if i == 0 then Value(v) else Prefix(w, keys[1..], i - 1) {
        if i > 0 { PrefixStep(v, keys, i); }
      }
      if |keys| > 1 {
        GetPathThrows(w, keys[1..]);
        if GetPath(v, keys).TypeError? {
          var j :| 0 <= j < |keys| - 1 && Prefix(w, keys[1..], j).Value? && (Prefix(w, keys[1..], j).v.Undefined? || Prefix(w, keys[1..], j).v.Null?);
          assert Prefix(v, keys, j + 1) == Prefix(w, keys[1..], j);
        }
      }
    }
  }

  /** The result of reading the first `i` keys of the chain. */
  function Prefix(v: JsValue, keys: seq<string>, i: nat): Access
    requires i <= |keys|
  {
    GetPath(v, keys[..i])
  }

  lemma PrefixStep(v: JsValue, keys: seq<string>, i: nat)
    requires 0 < i <= |keys| && !(v.Undefined? || v.Null?)
    ensures Prefix(v, keys, i) == Prefix(GetProperty(v, keys[0]).v, keys[1..], i - 1)
  {
    assert keys[..i][0] == keys[0];
    assert keys[..i][1..] == keys[1..][..i - 1];
  }
}
