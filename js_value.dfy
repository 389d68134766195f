// JavaScript values as the library sees them: the primitive kinds, functions,
// arrays and objects. Functions, arrays and objects carry a `ref` that stands
// for their identity, so that strict equality (`===`) compares objects by
// reference exactly as the engine does. Numbers are restricted to integers.

module JsValues {

  datatype Option<T> = None | Some(value: T)

  datatype Value =
    | Undefined
    | Null
    | Bool(b: bool)
    | Num(n: int)
    | NaN
    | Str(s: string)
      /** a function object; `source` is what converting it to a string yields */
    | Func(ref: nat, source: string)
    | Arr(ref: nat, elems: seq<Value>)
      /** `plain` holds when the object's prototype is Object.prototype (an object
          literal); class instances and other exotic objects are not plain */
    | Obj(ref: nat, plain: bool, fields: map<string, Value>)

  /** `!!v` */
  predicate Truthy(v: Value) {
    match v
    case Undefined => false
    case Null => false
    case Bool(b) => b
    case Num(n) => n != 0
    case NaN => false
    case Str(s) => s != ""
    case _ => true
  }

  predicate Nullish(v: Value) {
    v.Undefined? || v.Null?
  }

  /** `a === b`: objects by identity, NaN equal to nothing */
  predicate StrictEq(a: Value, b: Value) {
    match (a, b)
    case (Undefined, Undefined) => true
    case (Null, Null) => true
    case (Bool(x), Bool(y)) => x == y
    case (Num(x), Num(y)) => x == y
    case (Str(x), Str(y)) => x == y
    case (Func(r, _), Func(q, _)) => r == q
    case (Arr(r, _), Arr(q, _)) => r == q
    case (Obj(r, _, _), Obj(q, _, _)) => r == q
    case _ => false
  }

  /** `typeof v` */
  function TypeOf(v: Value): string {
    match v
    case Undefined => "undefined"
    case Null => "object"
    case Bool(_) => "boolean"
    case Num(_) => "number"
    case NaN => "number"
    case Str(_) => "string"
    case Func(_, _) => "function"
    case Arr(_, _) => "object"
    case Obj(_, _, _) => "object"
  }

  /** Reading a missing own property yields `undefined`. */
  function Get(m: map<string, Value>, k: string): Value {
    if k in m then m[k] else Undefined
  }

  function Digit(d: nat): char
    requires d < 10
  {
    "0123456789"[d]
  }

  predicate IsDigit(c: char) {
    '0' <= c <= '9'
  }

  /** Decimal notation of a non-negative integer, as Number.prototype.toString prints it. */
  function NatToString(n: nat): (s: string)
    ensures |s| > 0
    ensures forall i :: 0 <= i < |s| ==> IsDigit(s[i])
    ensures n > 0 ==> s[0] != '0'
  {
    if n < 10 then [Digit(n)] else NatToString(n / 10) + [Digit(n % 10)]
  }

  /** Decimal value of a string of digits. */
  function DigitsValue(s: string): nat
    requires forall i :: 0 <= i < |s| ==> IsDigit(s[i])
  {
    if s == [] then 0
    else
      assert IsDigit(s[|s| - 1]);
      10 * DigitsValue(s[..|s| - 1]) + (s[|s| - 1] as int - '0' as int)
  }

  lemma {:induction false} DigitsValueOfNatToString(n: nat)
    ensures DigitsValue(NatToString(n)) == n
    decreases n
  {
    var s := NatToString(n);
    if n < 10 {
      assert s == [Digit(n)];
      assert s[..|s| - 1] == [];
    } else {
      DigitsValueOfNatToString(n / 10);
      assert s[..|s| - 1] == NatToString(n / 10);
    }
  }

  /** Different array indices give different property keys. */
  lemma NatToStringInjective(m: nat, n: nat)
    requires NatToString(m) == NatToString(n)
    ensures m == n
  {
    DigitsValueOfNatToString(m);
    DigitsValueOfNatToString(n);
  }

  function IntToString(n: int): (s: string)
    ensures |s| > 0
  {
    if n < 0 then "-" + NatToString(-n) else NatToString(n)
  }

  /**
   * String conversion as applied to a value used as a property key or
   * concatenated to a string: arrays join their elements with commas
   * (undefined and null elements print empty), ordinary objects print
   * "[object Object]" and functions their source text.
   */
  function ToStr(v: Value): string {
    match v
    case Undefined => "undefined"
    case Null => "null"
    case Bool(b) => if b then "true" else "false"
    case Num(n) => IntToString(n)
    case NaN => "NaN"
    case Str(s) => s
    case Func(_, src) => src
    case Arr(_, es) => Join(es)
    case Obj(_, _, _) => "[object Object]"
  }

  function Join(es: seq<Value>): string
    decreases es
  {
    if es == [] then ""
    else
      var last := es[|es| - 1];
      assert last in es;
      var piece := if Nullish(last) then "" else ToStr(last);
      if |es| == 1 then piece else Join(es[..|es| - 1]) + "," + piece
  }

  /** The array index a property key names, if it is a canonical index. */
  function IndexOfKey(k: string): (r: Option<nat>)
    ensures r.Some? ==> NatToString(r.value) == k
  {
    if k != [] && (forall i :: 0 <= i < |k| ==> IsDigit(k[i])) && NatToString(DigitsValue(k)) == k
    then Some(DigitsValue(k))
    else None
  }

  lemma IndexOfKeyOfIndex(i: nat)
    ensures IndexOfKey(NatToString(i)) == Some(i)
  {
    DigitsValueOfNatToString(i);
  }

  /** The index-keyed own properties of an array or string, as a map. */
  function Indexed(es: seq<Value>): (m: map<string, Value>)
  {
    if es == [] then map[]
    else
      IndexOfKeyOfIndex(|es| - 1);
      Indexed(es[..|es| - 1])[NatToString(|es| - 1) := es[|es| - 1]]
  }

  /** Each key of `Indexed(es)` is the canonical text of an index of `es`, and maps to the element there. */
  lemma {:induction false} IndexedAt(es: seq<Value>, k: string)
    requires k in Indexed(es)
    ensures IndexOfKey(k).Some? && IndexOfKey(k).value < |es|
    ensures Indexed(es)[k] == es[IndexOfKey(k).value]
    decreases |es|
  {
    var last := NatToString(|es| - 1);
    IndexOfKeyOfIndex(|es| - 1);
    if k != last {
      IndexedAt(es[..|es| - 1], k);
    }
  }

  /** A key that is not the canonical text of an index is no key of `Indexed(es)`. */
  lemma NotIndexKey(es: seq<Value>, k: string)
    requires IndexOfKey(k).None?
    ensures k !in Indexed(es)
  {
    if k in Indexed(es) {
      IndexedAt(es, k);
    }
  }

  lemma IndexedValuesAreElements(es: seq<Value>)
    ensures forall k | k in Indexed(es) :: Indexed(es)[k] in es
  {
    forall k | k in Indexed(es) ensures Indexed(es)[k] in es {
      IndexedAt(es, k);
    }
  }

  function Chars(s: string): (es: seq<Value>)
    ensures |es| == |s|
    ensures forall i :: 0 <= i < |s| ==> es[i] == Str([s[i]])
  {
    seq(|s|, i requires 0 <= i < |s| => Str([s[i]]))
  }

  /**
   * The keys and values `for (key in v)` visits: an object's own fields, the
   * indices of an array or a string, and nothing for any other value.
   * (Enumeration order is not modelled.)
   */
  function Enumerable(v: Value): (m: map<string, Value>)
    ensures v.Obj? ==> m == v.fields
    ensures v.Arr? ==> forall k | k in m :: m[k] in v.elems
    ensures !(v.Obj? || v.Arr? || v.Str?) ==> m == map[]
  {
    match v
    case Obj(_, _, f) => f
    case Arr(_, es) => IndexedValuesAreElements(es); Indexed(es)
    case Str(s) => Indexed(Chars(s))
    case _ => map[]
  }

  /** `v[key]` on a value that is neither undefined nor null (which throw). */
  function GetProp(v: Value, key: string): (r: Value)
    requires !Nullish(v)
    ensures v.Obj? ==> r == Get(v.fields, key)
  {
    match v
    case Obj(_, _, f) => Get(f, key)
    case Arr(_, es) =>
      if key == "length" then Num(|es|)
      else
        var ix := IndexOfKey(key);
        if ix.Some? && ix.value < |es| then es[ix.value] else Undefined
    case Str(s) =>
      if key == "length" then Num(|s|)
      else
        var ix := IndexOfKey(key);
        if ix.Some? && ix.value < |s| then Str([s[ix.value]]) else Undefined
    case _ => Undefined
  }
}
