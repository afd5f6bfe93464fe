/**
 * The JavaScript values the components pass around (identities, API replies,
 * bus payloads, errors, audio elements) and the few language rules the
 * components depend on: truthiness, `typeof x === 'object'`, property reads,
 * object spread with one overridden field, and `String(x)`.
 */
module Js {
  import opened Strings

  /**
   * A JavaScript value. Numbers are integers here; objects are compared by
   * content; `ErrorObj` is an `Error` instance and `Handle` a host object
   * (an `HTMLAudioElement`) known only by its identity.
   */
  datatype Value =
    | Undefined
    | Null
    | Bool(b: bool)
    | Num(n: int)
    | Str(s: string)
    | Arr(items: seq<Value>)
    | Obj(fields: map<string, Value>)
    | ErrorObj(message: string)
    | Handle(id: nat)

  /** The values an `if (x)` accepts. */
  predicate Truthy(v: Value)
  {
    match v
    case Undefined => false
    case Null => false
    case Bool(b) => b
    case Num(n) => n != 0
    case Str(s) => s != ""
    case _ => true
  }

  /** `null` and `undefined`: reading a property of one throws a TypeError. */
  predicate Nullish(v: Value)
  {
    v.Undefined? || v.Null?
  }

  /** The TypeError thrown by reading property `key` of a null or undefined `v`. */
  function ReadError(v: Value, key: string): (e: Value)
    ensures e.ErrorObj? && e.message != ""
  {
    ErrorObj("Cannot read properties of " + ToText(v) + " (reading '" + key + "')")
  }

  /** `typeof v === 'object'`, which holds of `null` as well. */
  predicate IsObject(v: Value)
  {
    v.Null? || v.Arr? || v.Obj? || v.ErrorObj? || v.Handle?
  }

  /**
   * `v[k]` on a value that is not nullish: an own field of an object, the
   * `message` of an error, and `undefined` for anything else.
   */
  function Prop(v: Value, k: string): (r: Value)
    ensures !Nullish(v) && v.Obj? && k !in v.fields ==> r == Undefined
    ensures v.ErrorObj? ==> r == (if k == "message" then Str(v.message) else Undefined)
  {
    match v
    case Obj(fields) => if k in fields then fields[k] else Undefined
    case ErrorObj(m) => if k == "message" then Str(m) else Undefined
    case _ => Undefined
  }

  /** `v && v.k`: the field when v is truthy, v itself otherwise. */
  function Guarded(v: Value, k: string): (r: Value)
    ensures !Truthy(v) ==> !Truthy(r)
    ensures Truthy(r) ==> Truthy(v)
  {
    if Truthy(v) then Prop(v, k) else v
  }

  /**
   * `{...v, k: x}`: the fields of v (none when v is not a plain object) with
   * k set to x.
   */
  function SetField(v: Value, k: string, x: Value): (r: Value)
    ensures r.Obj? && k in r.fields
  {
    match v
    case Obj(fields) => Obj(fields[k := x])
    case _ => Obj(map[k := x])
  }

  /** The spread object holds the new value under the overridden key. */
  lemma SetFieldRead(v: Value, k: string, x: Value)
    ensures Prop(SetField(v, k, x), k) == x
  {
  }

  /** Every other key of the spread object reads as it did in the original object. */
  lemma SetFieldFrame(v: Value, k: string, x: Value, j: string)
    requires j != k && v.Obj?
    ensures Prop(SetField(v, k, x), j) == Prop(v, j)
  {
  }

  /** `String(v)`; an array prints its elements joined by ',', null and undefined as "". */
  function ToText(v: Value): (t: string)
    decreases v, 1
  {
    match v
    case Undefined => "undefined"
    case Null => "null"
    case Bool(b) => if b then "true" else "false"
    case Num(n) => IntText(n)
    case Str(s) => s
    case Arr(items) => Join(ItemTexts(items), ',')
    case Obj(_) => "[object Object]"
    case ErrorObj(m) => if m == "" then "Error" else "Error: " + m
    case Handle(_) => "[object HTMLAudioElement]"
  }

  /** The text of each array element as `Array.prototype.join` writes it. */
  function ItemTexts(items: seq<Value>): (ts: seq<string>)
    ensures |ts| == |items|
    decreases items, 0
  {
    if items == [] then []
    else [if Nullish(items[0]) then "" else ToText(items[0])] + ItemTexts(items[1..])
  }

  /** An array of strings prints as those strings joined by ','. */
  lemma {:induction false} ItemTextsOfStrings(items: seq<Value>, strs: seq<string>)
    requires |items| == |strs|
    requires forall i | 0 <= i < |items| :: items[i] == Str(strs[i])
    ensures ItemTexts(items) == strs
  {
    if items != [] {
      ItemTextsOfStrings(items[1..], strs[1..]);
    }
  }

  /** The array of the given strings. */
  function Strs(strs: seq<string>): (r: seq<Value>)
    ensures |r| == |strs|
    ensures forall i | 0 <= i < |strs| :: r[i] == Str(strs[i])
  {
    if strs == [] then [] else [Str(strs[0])] + Strs(strs[1..])
  }

  /**
   * Printing an array of comma-free strings and splitting the text on ','
   * recovers the strings, provided the array is not empty.
   */
  lemma PrintedStringsSplit(strs: seq<string>)
    requires |strs| >= 1
    requires forall s | s in strs :: ',' !in s
    ensures Split(ToText(Arr(Strs(strs))), ',') == strs
  {
    ItemTextsOfStrings(Strs(strs), strs);
    SplitJoin(strs, ',');
  }

  /** The message of `new Error(v)`: "" for `undefined`, `String(v)` otherwise. */
  function ErrorText(v: Value): (m: string)
    ensures v.Str? ==> m == v.s
    ensures v.Undefined? ==> m == ""
  {
    if v.Undefined? then "" else ToText(v)
  }
}
