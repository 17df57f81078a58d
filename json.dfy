/**
 * Parsed JSON values as the pipeline's Python code sees them, with the
 * dictionary `get`, truthiness and the `int()` / `float()` conversions.
 * Objects keep their key order, as Python dicts built by `json.loads` do.
 * A dict's keys are distinct, and the model's objects are meant to be read
 * the same way: for an object that repeats a key, `Get` takes the first
 * field, where `json.loads` would have kept the last value.
 */
module Json {
  import opened Wrappers

  datatype Value =
    | Null
    | Bool(b: bool)
    | Int(i: int)
    | Num(r: real)
    | Str(s: string)
    | Arr(items: seq<Value>)
    | Obj(fields: seq<Field>)

  datatype Field = Field(key: string, val: Value)

  type Object = seq<Field>

  /** `d.get(key)`: the value of the first field with that key. */
  function Get(o: Object, key: string): Option<Value>
    decreases |o|
  {
    if |o| == 0 then None
    else if o[0].key == key then Some(o[0].val)
    else Get(o[1..], key)
  }

  /** `get` finds the value of the first field with the key, and nothing when no field has it. */
  lemma {:induction false} GetFindsFirst(o: Object, key: string)
    ensures Get(o, key).None? <==> forall k :: 0 <= k < |o| ==> o[k].key != key
    ensures Get(o, key).Some? ==>
      exists k :: 0 <= k < |o| && o[k].key == key && o[k].val == Get(o, key).value
        && forall j :: 0 <= j < k ==> o[j].key != key
    decreases |o|
  {
    if |o| > 0 && o[0].key != key {
      GetFindsFirst(o[1..], key);
      if Get(o, key).Some? {
        var k :| 0 <= k < |o| - 1 && o[1..][k].key == key && o[1..][k].val == Get(o, key).value
          && forall j :: 0 <= j < k ==> o[1..][j].key != key;
        assert o[k + 1].key == key && forall j :: 0 <= j < k + 1 ==> o[j].key != key;
      }
    }
  }

  /** `d.get(key, default)`. */
  function GetOr(o: Object, key: string, default: Value): Value {
    Get(o, key).GetOr(default)
  }

  /** `d.values()`, in key order. */
  function Values(o: Object): (vs: seq<Value>)
    ensures |vs| == |o| && forall k :: 0 <= k < |o| ==> vs[k] == o[k].val
  {
    seq(|o|, k requires 0 <= k < |o| => o[k].val)
  }

  /** Python truthiness: None, False, zero, and empty strings, lists and dicts are false. */
  predicate Truthy(v: Value) {
    match v
    case Null => false
    case Bool(b) => b
    case Int(i) => i != 0
    case Num(r) => r != 0.0
    case Str(s) => s != ""
    case Arr(items) => items != []
    case Obj(fields) => fields != []
  }

  /** `a or b`: the first operand when it is truthy, else the second. */
  function Or(a: Value, b: Value): Value {
    if Truthy(a) then a else b
  }

  /** Truncation toward zero, as `int()` of a float. */
  function Truncate(r: real): int {
    if r >= 0.0 then r.Floor else -((-r).Floor)
  }

  /**
   * `int(v)`, or None where it raises ValueError or TypeError. The text
   * conversion of a string is the parameter `parseInt`.
   */
  function IntOf(v: Value, parseInt: string -> Option<int>): Option<int> {
    match v
    case Int(i) => Some(i)
    case Bool(b) => Some(if b then 1 else 0)
    case Num(r) => Some(Truncate(r))
    case Str(s) => parseInt(s)
    case _ => None
  }

  /**
   * `float(v)`, or None where it raises ValueError or TypeError. The text
   * conversion of a string is the parameter `parseReal`.
   */
  function FloatOf(v: Value, parseReal: string -> Option<real>): Option<real> {
    match v
    case Int(i) => Some(i as real)
    case Bool(b) => Some(if b then 1.0 else 0.0)
    case Num(r) => Some(r)
    case Str(s) => parseReal(s)
    case _ => None
  }
}
