/**
 * JavaScript values as they reach the front-end from `response.json()` and as the
 * components read them: truthiness, `a || b`, property reads, `Object.keys`,
 * `Object.entries`, the `in` operator and `String(v)`.
 */
module JsValue {
  import opened Wrappers
  import opened JsText

  /**
   * A JavaScript value. Numbers are integers. An object lists its own properties in
   * its own-key order (the order `Object.keys` reports), each key once.
   */
  datatype Value =
    | Undefined
    | Null
    | Bool(b: bool)
    | Num(n: int)
    | Str(s: string)
    | Arr(items: seq<Value>)
    | Obj(fields: seq<(string, Value)>)

  /** JavaScript truthiness: `undefined`, `null`, `false`, `0` and `""` are falsy. */
  predicate Truthy(v: Value)
    ensures IsNullish(v) ==> !Truthy(v)
    ensures v.Arr? || v.Obj? ==> Truthy(v)
    ensures v.Str? ==> (Truthy(v) <==> v.s != "")
    ensures v.Num? ==> (Truthy(v) <==> v.n != 0)
  {
    match v
    case Undefined => false
    case Null => false
    case Bool(b) => b
    case Num(n) => n != 0
    case Str(s) => s != ""
    case Arr(_) => true
    case Obj(_) => true
  }

  /** Reading a property of these throws a TypeError. */
  predicate IsNullish(v: Value) {
    v.Undefined? || v.Null?
  }

  /** `typeof v === 'object'` (which holds for `null` and for arrays). */
  predicate IsObjectType(v: Value)
    ensures IsObjectType(v) ==> (Truthy(v) <==> !v.Null?)
  {
    v.Null? || v.Arr? || v.Obj?
  }

  /** `a || b`: the first operand when it is truthy, otherwise the second. */
  function Or(a: Value, b: Value): (r: Value)
    ensures Truthy(a) ==> r == a
    ensures !Truthy(a) ==> r == b
    ensures Truthy(r) <==> Truthy(a) || Truthy(b)
  {
    if Truthy(a) then a else b
  }

  /** The position of `key` among `fields`, or `|fields|` when it is not there. */
  function FieldIndex(fields: seq<(string, Value)>, key: string): (i: nat)
    ensures i <= |fields|
    ensures forall j :: 0 <= j < i ==> fields[j].0 != key
    ensures i < |fields| ==> fields[i].0 == key
  {
    if |fields| == 0 then 0
    else if fields[0].0 == key then 0
    else 1 + FieldIndex(fields[1..], key)
  }

  /** `key in v` for an object value (for every other value this model never asks). */
  predicate HasKey(v: Value, key: string) {
    v.Obj? && FieldIndex(v.fields, key) < |v.fields|
  }

  lemma HasKeyIff(v: Value, key: string)
    requires v.Obj?
    ensures HasKey(v, key) <==> exists j :: 0 <= j < |v.fields| && v.fields[j].0 == key
  {
  }

  /** The text of a TypeError raised by reading property `key` of `v`. */
  function NullReadMessage(v: Value, key: string): string
    requires IsNullish(v)
  {
    "Cannot read properties of " + (if v.Null? then "null" else "undefined") + " (reading '" + key + "')"
  }

  /**
   * `v[key]` for a value whose properties can be read: an own property of an object,
   * an element or the length of an array or string; `undefined` otherwise.
   */
  function Get(v: Value, key: string): (r: Value)
    requires !IsNullish(v)
    ensures v.Obj? ==> (HasKey(v, key) <==> exists j :: 0 <= j < |v.fields| && v.fields[j].0 == key && r == v.fields[j].1)
    ensures v.Obj? && !HasKey(v, key) ==> r == Undefined
    ensures v.Bool? || v.Num? ==> r == Undefined
  {
    match v
    case Obj(fields) =>
      var i := FieldIndex(fields, key);
      if i < |fields| then fields[i].1 else Undefined
    case Arr(items) =>
      if key == "length" then Num(|items|)
      else (match ArrayIndex(key)
        case Some(i) => if i < |items| then items[i] else Undefined
        case None => Undefined)
    case Str(s) =>
      if key == "length" then Num(|s|)
      else (match ArrayIndex(key)
        case Some(i) => if i < |s| then Str([s[i]]) else Undefined
        case None => Undefined)
    case _ => Undefined
  }

  /** `["0", "1", ..., String(n - 1)]`, the keys of an n-element array or string. */
  function IndexKeys(n: nat): (r: seq<string>)
    ensures |r| == n
    ensures forall i :: 0 <= i < n ==> r[i] == NatToString(i)
  {
    seq(n, i requires 0 <= i < n => NatToString(i))
  }

  /** `Object.entries(v)` for a value that is neither `null` nor `undefined`. */
  function OwnEntries(v: Value): (r: seq<(string, Value)>)
    requires !IsNullish(v)
    ensures v.Obj? ==> r == v.fields
    ensures v.Bool? || v.Num? ==> r == []
    ensures v.Arr? ==> |r| == |v.items|
    ensures v.Str? ==> |r| == |v.s|
  {
    if v.Obj? then v.fields
    else if v.Arr? then IndexedEntries(v.items)
    else if v.Str? then IndexedEntries(seq(|v.s|, i requires 0 <= i < |v.s| => Str([v.s[i]])))
    else []
  }

  /** The entries of an array: each element under its index numeral. */
  function IndexedEntries(items: seq<Value>): (r: seq<(string, Value)>)
    ensures |r| == |items|
    ensures forall i :: 0 <= i < |r| ==> r[i] == (NatToString(i), items[i])
  {
    seq(|items|, i requires 0 <= i < |items| => (NatToString(i), items[i]))
  }

  /** `Object.keys(v)` for a value that is neither `null` nor `undefined`. */
  function Keys(v: Value): (r: seq<string>)
    requires !IsNullish(v)
    ensures |r| == |OwnEntries(v)|
    ensures forall i :: 0 <= i < |r| ==> r[i] == OwnEntries(v)[i].0
  {
    var entries := OwnEntries(v);
    seq(|entries|, i requires 0 <= i < |entries| => entries[i].0)
  }

  /** Every key `Object.keys` reports reads back, through `v[key]`, the value `Object.entries` pairs it with. */
  lemma GetOfKey(v: Value, i: nat)
    requires !IsNullish(v) && i < |Keys(v)|
    requires v.Obj? ==> forall j :: 0 <= j < i ==> v.fields[j].0 != v.fields[i].0
    ensures Get(v, Keys(v)[i]) == OwnEntries(v)[i].1
  {
    match v
    case Obj(fields) =>
      var k := FieldIndex(fields, fields[i].0);
      assert k == i;
    case Arr(items) =>
      ArrayIndexOfNatToString(i);
      assert NatToString(i) != "length";
    case Str(s) =>
      ArrayIndexOfNatToString(i);
      assert NatToString(i) != "length";
  }

  /** `String(v)`: the string conversion `new Error(v)` and `String(cell)` apply. */
  function ToStr(v: Value): (r: string)
    ensures v.Str? ==> r == v.s
    ensures v.Arr? && |v.items| == 0 ==> r == ""
  {
    match v
    case Undefined => "undefined"
    case Null => "null"
    case Bool(b) => if b then "true" else "false"
    case Num(n) => IntToString(n)
    case Str(s) => s
    case Arr(items) =>
      // `Array.prototype.join`: `null` and `undefined` elements contribute nothing
      Join(seq(|items|, i requires 0 <= i < |items| => if IsNullish(items[i]) then "" else ToStr(items[i])))
    case Obj(_) => "[object Object]"
  }

  /** The parts separated by commas. */
  function Join(parts: seq<string>): string {
    if |parts| == 0 then ""
    else if |parts| == 1 then parts[0]
    else Join(parts[..|parts| - 1]) + "," + parts[|parts| - 1]
  }
}
