/** The optional value used throughout the model. */
module Wrappers {
  datatype Option<+T> = None | Some(value: T)
}

/**
 * JavaScript values as the middlewares see them: the properties of an error,
 * the values they put into a response object, and the response objects
 * themselves. Numbers are modelled as integers (no fractions, no NaN).
 */
module Json {
  datatype Value =
    | Undefined
    | Null
    | Bool(b: bool)
    | Num(n: int)
    | Str(s: string)
    | Arr(items: seq<Value>)
    | Obj(fields: seq<(string, Value)>)

  /** A plain object: its own keys with their values, in JavaScript's key enumeration order. */
  type Object = seq<(string, Value)>

  /** `v === undefined || v === null` */
  predicate Nullish(v: Value) {
    v.Undefined? || v.Null?
  }

  /** JavaScript truthiness. */
  predicate Truthy(v: Value) {
    match v
    case Undefined => false
    case Null => false
    case Bool(b) => b
    case Num(n) => n != 0
    case Str(s) => s != ""
    case Arr(_) => true
    case Obj(_) => true
  }

  /** `a || b` */
  function Or(a: Value, b: Value): Value {
    if Truthy(a) then a else b
  }

  /** What a property read yields once a nullish value has been deleted: `undefined`. */
  function Clean(v: Value): (r: Value)
    ensures !Nullish(v) ==> r == v
    ensures Nullish(r) ==> r == Undefined
  {
    if Nullish(v) then Undefined else v
  }

  /** `o[key]`: the value stored under `key`, or `undefined` when the key is absent. */
  function Get(o: Object, key: string): Value
    decreases |o|
  {
    if o == [] then Undefined
    else if o[0].0 == key then o[0].1
    else Get(o[1..], key)
  }

  predicate HasKey(o: Object, key: string) {
    exists i :: 0 <= i < |o| && o[i].0 == key
  }

  /** A JavaScript object never holds the same key twice. */
  predicate DistinctKeys(o: Object) {
    forall i, j :: 0 <= i < j < |o| ==> o[i].0 != o[j].0
  }

  lemma {:induction false} GetAbsent(o: Object, key: string)
    requires !HasKey(o, key)
    ensures Get(o, key) == Undefined
    decreases |o|
  {
    if o != [] {
      assert o[0].0 != key;
      assert !HasKey(o[1..], key) by {
        forall i | 0 <= i < |o[1..]| ensures o[1..][i].0 != key {
          assert o[1..][i] == o[i + 1];
        }
      }
      GetAbsent(o[1..], key);
    }
  }

  lemma {:induction false} GetAt(o: Object, i: nat)
    requires DistinctKeys(o) && i < |o|
    ensures Get(o, o[i].0) == o[i].1
    decreases i
  {
    if i > 0 {
      assert o[1..][i - 1] == o[i];
      GetAt(o[1..], i - 1);
    }
  }

  /** The `{ field, message }` entry that both middlewares put into an `errors` array. */
  function FieldError(field: Value, message: Value): Value {
    Obj([("field", field), ("message", message)])
  }
}
