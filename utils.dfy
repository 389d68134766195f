// The small helpers every class of the library leans on: id generation,
// property filtering, shape matching and the object test.

module Utils {
  import opened JsValues

  /** The text `(prefix || "")` contributes to a uid. */
  function PrefixText(prefix: Value): string {
    if Truthy(prefix) then ToStr(prefix) else ""
  }

  /**
   * `uid(prefix)`: the prefix, or nothing when it is falsy, followed by a
   * random decimal number. The random number is not computed here: it is
   * passed in as `digits`.
   */
  function Uid(prefix: Value, digits: string): (id: string)
    ensures |id| == |PrefixText(prefix)| + |digits|
    ensures id[..|PrefixText(prefix)|] == PrefixText(prefix)
    ensures id[|PrefixText(prefix)|..] == digits
  {
    PrefixText(prefix) + digits
  }

  /** Two uids with the same prefix differ exactly when their random parts do. */
  lemma UidInjective(prefix: Value, a: string, b: string)
    requires Uid(prefix, a) == Uid(prefix, b)
    ensures a == b
  {
    var n := |PrefixText(prefix)|;
    assert a == Uid(prefix, a)[n..];
  }

  /**
   * `omit(obj, fn)`: a fresh object holding the properties of `obj` for
   * which `fn(value, key)` is falsy. Enumeration order is not modelled; the
   * loop takes the keys in any order.
   */
  method Omit(obj: map<string, Value>, drop: (Value, string) -> bool) returns (result: map<string, Value>)
    ensures forall k :: k in result <==> k in obj && !drop(obj[k], k)
    ensures forall k | k in result :: result[k] == obj[k]
  {
    result := map[];
    var todo := obj.Keys;
    while todo != {}
      invariant todo <= obj.Keys
      invariant forall k :: k in result <==> k in obj && k !in todo && !drop(obj[k], k)
      invariant forall k | k in result :: result[k] == obj[k]
      decreases todo
    {
      var key :| key in todo;
      if !drop(obj[key], key) {
        result := result[key := obj[key]];
      }
      todo := todo - {key};
    }
  }

  /**
   * The shape test of `matchFn(base)(item)`: every property `for (key in
   * base)` visits is present on `item` (not undefined) and strictly equal to
   * the base's value.
   */
  predicate Matches(base: Value, item: Value)
    requires !Nullish(item) || Enumerable(base) == map[]
  {
    forall k | k in Enumerable(base) ::
      !GetProp(item, k).Undefined? && StrictEq(GetProp(item, k), Enumerable(base)[k])
  }

  /**
   * `matchFn(base)` applied to `item`: the loop gives up at the first key
   * whose value is missing or differs. Reading a property of undefined or
   * null throws, so `item` must be an object unless `base` has no keys.
   */
  method MatchFn(base: Value, item: Value) returns (matched: bool)
    requires !Nullish(item) || Enumerable(base) == map[]
    ensures matched <==> Matches(base, item)
    ensures Enumerable(base) == map[] ==> matched
  {
    var props := Enumerable(base);
    var todo := props.Keys;
    while todo != {}
      invariant todo <= props.Keys
      invariant forall k | k in props && k !in todo ::
        !GetProp(item, k).Undefined? && StrictEq(GetProp(item, k), props[k])
      decreases todo
    {
      var key :| key in todo;
      var objVal := props[key];
      var itemVal := GetProp(item, key);
      if itemVal.Undefined? || !StrictEq(itemVal, objVal) {
        return false;
      }
      todo := todo - {key};
    }
    return true;
  }

  /** A base property whose value is undefined can never be matched. */
  lemma UndefinedInBaseMatchesNothing(base: Value, item: Value, k: string)
    requires !Nullish(item)
    requires k in Enumerable(base) && Enumerable(base)[k].Undefined?
    ensures !Matches(base, item)
  {
  }

  /** An object matches itself exactly when none of its values is undefined or NaN. */
  lemma ObjectMatchesItself(ref: nat, plain: bool, fields: map<string, Value>)
    ensures Matches(Obj(ref, plain, fields), Obj(ref, plain, fields))
        <==> forall k | k in fields :: !fields[k].Undefined? && !fields[k].NaN?
  {
    var o := Obj(ref, plain, fields);
    if forall k | k in fields :: !fields[k].Undefined? && !fields[k].NaN? {
      forall k | k in fields
        ensures !GetProp(o, k).Undefined? && StrictEq(GetProp(o, k), fields[k])
      {
        assert GetProp(o, k) == fields[k];
      }
    } else {
      var k :| k in fields && (fields[k].Undefined? || fields[k].NaN?);
      assert GetProp(o, k) == fields[k];
    }
  }

  /**
   * `isObject(v)`: a falsy argument is returned as it is; any other value
   * gives true exactly for non-array objects.
   */
  function IsObject(v: Value): (r: Value)
    ensures !Truthy(v) ==> r == v
    ensures Truthy(v) ==> r.Bool?
    ensures Truthy(r) <==> v.Obj?
  {
    if !Truthy(v) then v else Bool(TypeOf(v) == "object" && !v.Arr?)
  }
}
