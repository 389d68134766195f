// The merge-and-diff engine: folds source objects into a target in place and
// records, per key, what it changed. Objects are values here; the object being
// merged into is the map of its own properties, and a nested merge rebuilds the
// nested object with its identity (`ref`) kept, which is how an in-place update
// of that object looks from outside.

module MergeDiff {
  import opened JsValues

  /** One recorded change: a replaced value, or the changes made inside a nested object. */
  datatype Diff = Set(v: Value) | Nested(entries: map<string, Diff>)

  /** What `for (key in right)` visits in `merge`: nothing unless `typeof right === "object"`. */
  function Source(right: Value): (m: map<string, Value>)
    ensures TypeOf(right) != "object" ==> m == map[]
    ensures right.Obj? ==> m == right.fields
  {
    if TypeOf(right) == "object" then Enumerable(right) else map[]
  }

  /** `isPlain(v)`: whether the prototype of `v` is Object.prototype; throws on undefined and null. */
  predicate IsPlain(v: Value)
    requires !Nullish(v)
  {
    v.Obj? && v.plain
  }

  /** The branch that merges recursively instead of replacing: an object target value and a plain source value. */
  predicate Descends(leftItem: Value, rightItem: Value) {
    leftItem.Obj? && !Nullish(rightItem) && IsPlain(rightItem)
  }

  /**
   * `merge(left, right)` runs without a TypeError: `isPlain` is only asked of
   * a source value that differs from an object-valued target value, and it
   * throws on undefined and null.
   */
  predicate Mergeable(left: map<string, Value>, right: Value)
    decreases right, 0
  {
    var src := Source(right);
    forall k | k in src :: MergeableKey(Get(left, k), src[k])
  }

  /** One key of the loop at `merge-and-diff.js` lines 28-45 runs without a TypeError. */
  predicate MergeableKey(leftItem: Value, rightItem: Value)
    decreases rightItem, 1
  {
    StrictEq(leftItem, rightItem) || !leftItem.Obj? ||
    (!Nullish(rightItem) && (IsPlain(rightItem) ==> Mergeable(leftItem.fields, rightItem)))
  }

  /** No value `merge` visits in `right` is undefined or null, at any depth it descends to. */
  predicate NoNullish(right: Value)
    decreases right
  {
    var src := Source(right);
    forall k | k in src :: !Nullish(src[k]) && (IsPlain(src[k]) ==> NoNullish(src[k]))
  }

  /** A source without undefined or null values merges into any properties without a TypeError. */
  lemma {:induction false} NoNullishMergeable(left: map<string, Value>, right: Value)
    requires NoNullish(right)
    ensures Mergeable(left, right)
    decreases right
  {
    var src := Source(right);
    forall k | k in src ensures MergeableKey(Get(left, k), src[k]) {
      var leftItem := Get(left, k);
      if leftItem.Obj? && !StrictEq(leftItem, src[k]) && IsPlain(src[k]) {
        NoNullishMergeable(leftItem.fields, src[k]);
      }
    }
  }

  /** The properties of `left` after `merge(left, right, diff)`. */
  function Merged(left: map<string, Value>, right: Value): map<string, Value>
    decreases right, 3
  {
    left + Changes(left, right)
  }

  /** The keys `merge` writes into `left`, with the values it writes. */
  function Changes(left: map<string, Value>, right: Value): map<string, Value>
    decreases right, 2
  {
    var src := Source(right);
    map k | k in src && !StrictEq(Get(left, k), src[k]) :: NewValue(Get(left, k), src[k])
  }

  /** The value a key holds after the loop body at `merge-and-diff.js` lines 34-44 ran for it. */
  function NewValue(leftItem: Value, rightItem: Value): Value
    decreases rightItem, 4
  {
    if Descends(leftItem, rightItem) then
      Obj(leftItem.ref, leftItem.plain, Merged(leftItem.fields, rightItem))
    else
      rightItem
  }

  /** The entries `merge(left, right, diff)` writes into `diff`. */
  function Diffed(left: map<string, Value>, right: Value): map<string, Diff>
    decreases right, 3
  {
    var src := Source(right);
    map k | k in src && !StrictEq(Get(left, k), src[k]) :: DiffEntry(Get(left, k), src[k])
  }

  /** The diff entry the loop body at `merge-and-diff.js` lines 34-44 writes for a key. */
  function DiffEntry(leftItem: Value, rightItem: Value): Diff
    decreases rightItem, 4
  {
    if Descends(leftItem, rightItem) then Nested(Diffed(leftItem.fields, rightItem)) else Set(rightItem)
  }

  /** Every source in turn can be merged into the target as the earlier ones left it. */
  predicate AllMergeable(target: map<string, Value>, sources: seq<Value>)
  {
    sources == [] ||
    (AllMergeable(target, sources[..|sources| - 1]) &&
     Mergeable(MergedAll(target, sources[..|sources| - 1]), sources[|sources| - 1]))
  }

  /** The target after merging every source, first to last. */
  function MergedAll(target: map<string, Value>, sources: seq<Value>): map<string, Value>
  {
    if sources == [] then target
    else
      var front := sources[..|sources| - 1];
      Merged(MergedAll(target, front), sources[|sources| - 1])
  }

  /** The one diff object all sources write into: a later source overwrites an earlier entry. */
  function DiffedAll(target: map<string, Value>, sources: seq<Value>): map<string, Diff>
  {
    if sources == [] then map[]
    else
      var front := sources[..|sources| - 1];
      DiffedAll(target, front) + Diffed(MergedAll(target, front), sources[|sources| - 1])
  }

  /** The diff is replaced by null when no key was recorded (`merge-and-diff.js` lines 13-15). */
  function Finish(d: map<string, Diff>): (r: Option<map<string, Diff>>)
    ensures r.None? <==> d == map[]
    ensures r.Some? ==> r.value == d
  {
    if |d| == 0 then None else Some(d)
  }

  lemma DiffedAt(left: map<string, Value>, right: Value, k: string)
    ensures k in Diffed(left, right) <==> k in Source(right) && !StrictEq(Get(left, k), Source(right)[k])
    ensures k in Diffed(left, right) ==> Diffed(left, right)[k] == DiffEntry(Get(left, k), Source(right)[k])
  {
  }

  lemma MergedAt(left: map<string, Value>, right: Value, k: string)
    ensures k in Merged(left, right) <==> k in left || (k in Source(right) && !StrictEq(Get(left, k), Source(right)[k]))
    ensures Get(Merged(left, right), k)
         == if k in Source(right) && !StrictEq(Get(left, k), Source(right)[k])
            then NewValue(Get(left, k), Source(right)[k]) else Get(left, k)
  {
  }

  /** Replays recorded changes onto the properties they were recorded against. */
  function ApplyDiff(left: map<string, Value>, d: map<string, Diff>): map<string, Value>
    decreases Nested(d), 0
  {
    left + map k | k in d :: ApplyEntry(Get(left, k), d[k])
  }

  function ApplyEntry(leftItem: Value, entry: Diff): Value
    decreases entry, 1
  {
    match entry
    case Set(v) => v
    case Nested(e) =>
      if leftItem.Obj? then Obj(leftItem.ref, leftItem.plain, ApplyDiff(leftItem.fields, e)) else leftItem
  }

  lemma ApplyDiffAt(left: map<string, Value>, d: map<string, Diff>, k: string)
    ensures k in ApplyDiff(left, d) <==> k in left || k in d
    ensures k in d ==> ApplyDiff(left, d)[k] == ApplyEntry(Get(left, k), d[k])
    ensures k !in d ==> Get(ApplyDiff(left, d), k) == Get(left, k)
  {
  }

  /** Two maps with the same keys and the same value at each key are equal. */
  lemma SameEntries<V>(a: map<string, V>, b: map<string, V>)
    requires forall k :: k in a <==> k in b
    requires forall k | k in a :: a[k] == b[k]
    ensures a == b
  {
  }

  /**
   * The diff is complete: replaying it onto the old properties gives exactly
   * the merged properties, nested objects included.
   */
  lemma {:induction false} ApplyDiffRebuildsMerge(left: map<string, Value>, right: Value)
    ensures ApplyDiff(left, Diffed(left, right)) == Merged(left, right)
    decreases right, 1
  {
    var a := ApplyDiff(left, Diffed(left, right));
    var m := Merged(left, right);
    forall k
      ensures k in a <==> k in m
      ensures k in a ==> a[k] == m[k]
    {
      RebuildsAt(left, right, k);
    }
    SameEntries(a, m);
  }

  lemma {:induction false} RebuildsAt(left: map<string, Value>, right: Value, k: string)
    ensures k in ApplyDiff(left, Diffed(left, right)) <==> k in Merged(left, right)
    ensures Get(ApplyDiff(left, Diffed(left, right)), k) == Get(Merged(left, right), k)
    decreases right, 0
  {
    var src := Source(right);
    var d := Diffed(left, right);
    DiffedAt(left, right, k);
    MergedAt(left, right, k);
    ApplyDiffAt(left, d, k);
    if k in d && Descends(Get(left, k), src[k]) {
      ApplyDiffRebuildsMerge(Get(left, k).fields, src[k]);
    }
  }

  /**
   * The diff records exactly the keys of the source whose value was not
   * strictly equal to the target's; only those keys change, every other
   * property of the target is kept, and a recorded key holds the source value
   * unless it was merged into recursively.
   */
  lemma DiffRecordsExactlyTheChanges(left: map<string, Value>, right: Value)
    ensures Diffed(left, right).Keys
         == set k | k in Source(right) && !StrictEq(Get(left, k), Source(right)[k])
    ensures Merged(left, right).Keys == left.Keys + Diffed(left, right).Keys
    ensures forall k :: k !in Diffed(left, right) ==> Get(Merged(left, right), k) == Get(left, k)
    ensures forall k | k in Diffed(left, right) :: ChangeRecorded(left, right, k)
  {
    var d := Diffed(left, right);
    var m := Merged(left, right);
    var src := Source(right);
    forall k
      ensures k in d <==> k in src && !StrictEq(Get(left, k), src[k])
      ensures k in m <==> k in left || k in d
      ensures k !in d ==> Get(m, k) == Get(left, k)
      ensures k in d ==> ChangeRecorded(left, right, k)
    {
      DiffedAt(left, right, k);
      MergedAt(left, right, k);
    }
  }

  /** What the diff and the merged properties hold for a recorded key. */
  predicate ChangeRecorded(left: map<string, Value>, right: Value, k: string)
    requires k in Diffed(left, right)
  {
    DiffedAt(left, right, k);
    MergedAt(left, right, k);
    var rightItem := Source(right)[k];
    k in Merged(left, right) &&
    if Descends(Get(left, k), rightItem) then
      Diffed(left, right)[k].Nested? && Merged(left, right)[k].Obj? &&
      Merged(left, right)[k].ref == Get(left, k).ref
    else
      Diffed(left, right)[k] == Set(rightItem) && Merged(left, right)[k] == rightItem
  }

  /** `merge` returns at once when the source is not of type "object". */
  lemma NonObjectSourceChangesNothing(left: map<string, Value>, right: Value)
    requires TypeOf(right) != "object"
    ensures Mergeable(left, right)
    ensures Merged(left, right) == left
    ensures Diffed(left, right) == map[]
  {
  }

  function Nans(fields: map<string, Value>): map<string, Diff> {
    map k | k in fields && fields[k].NaN? :: Set(NaN)
  }

  /**
   * Merging an object into its own properties changes nothing, yet records
   * every NaN-valued key, because NaN is not strictly equal to itself.
   */
  lemma SelfMerge(fields: map<string, Value>, ref: nat, plain: bool)
    ensures Mergeable(fields, Obj(ref, plain, fields))
    ensures Merged(fields, Obj(ref, plain, fields)) == fields
    ensures Diffed(fields, Obj(ref, plain, fields)) == Nans(fields)
  {
    var right := Obj(ref, plain, fields);
    var m := Merged(fields, right);
    var d := Diffed(fields, right);
    forall k
      ensures k in m <==> k in fields
      ensures k in m ==> m[k] == fields[k]
      ensures k in d <==> k in Nans(fields)
      ensures k in d ==> d[k] == Nans(fields)[k]
    {
      SelfMergeAt(fields, ref, plain, k);
    }
    SameEntries(m, fields);
    SameEntries(d, Nans(fields));
  }

  lemma SelfMergeAt(fields: map<string, Value>, ref: nat, plain: bool, k: string)
    ensures var right := Obj(ref, plain, fields);
      (k in Merged(fields, right) <==> k in fields) &&
      Get(Merged(fields, right), k) == Get(fields, k) &&
      (k in Diffed(fields, right) <==> k in fields && fields[k].NaN?) &&
      (k in Diffed(fields, right) ==> Diffed(fields, right)[k] == Set(NaN))
  {
    var right := Obj(ref, plain, fields);
    DiffedAt(fields, right, k);
    MergedAt(fields, right, k);
  }

  /** A constructor call whose sources merge only into the very same properties reports a null diff exactly when none holds NaN. */
  lemma SelfMergeDiffIsNullIffNoNaN(fields: map<string, Value>, ref: nat, plain: bool)
    ensures AllMergeable(fields, [Obj(ref, plain, fields)])
    ensures MergedAll(fields, [Obj(ref, plain, fields)]) == fields
    ensures Finish(DiffedAll(fields, [Obj(ref, plain, fields)])).None?
        <==> forall k | k in fields :: !fields[k].NaN?
  {
    var sources := [Obj(ref, plain, fields)];
    assert sources[..0] == [];
    SelfMerge(fields, ref, plain);
    assert DiffedAll(fields, sources) == Nans(fields);
    if forall k | k in fields :: !fields[k].NaN? {
      assert Nans(fields) == map[];
    } else {
      var k :| k in fields && fields[k].NaN?;
      assert k in Nans(fields);
    }
  }

  /** Sources of a type other than "object" leave the target as it was and the diff null. */
  lemma {:induction false} NonObjectSourcesChangeNothing(target: map<string, Value>, sources: seq<Value>)
    requires forall i | 0 <= i < |sources| :: TypeOf(sources[i]) != "object"
    ensures AllMergeable(target, sources)
    ensures MergedAll(target, sources) == target
    ensures Finish(DiffedAll(target, sources)) == None
    decreases |sources|
  {
    if sources != [] {
      var front := sources[..|sources| - 1];
      NonObjectSourcesChangeNothing(target, front);
      NonObjectSourceChangesNothing(target, sources[|sources| - 1]);
    }
  }

  /** A null diff means the target was left exactly as it was. */
  lemma {:induction false} NullDiffMeansUnchanged(target: map<string, Value>, sources: seq<Value>)
    requires Finish(DiffedAll(target, sources)) == None
    ensures MergedAll(target, sources) == target
    decreases |sources|
  {
    if sources != [] {
      var front := sources[..|sources| - 1];
      var last := sources[|sources| - 1];
      assert DiffedAll(target, sources) == DiffedAll(target, front) + Diffed(MergedAll(target, front), last);
      assert DiffedAll(target, front) == map[] && Diffed(MergedAll(target, front), last) == map[];
      NullDiffMeansUnchanged(target, front);
      DiffRecordsExactlyTheChanges(MergedAll(target, front), last);
    }
  }

  /** A key no source enumerates keeps its value. */
  lemma {:induction false} UntouchedKeyKept(target: map<string, Value>, sources: seq<Value>, k: string)
    requires forall i | 0 <= i < |sources| :: k !in Source(sources[i])
    ensures Get(MergedAll(target, sources), k) == Get(target, k)
    ensures k !in DiffedAll(target, sources)
    decreases |sources|
  {
    if sources != [] {
      var front := sources[..|sources| - 1];
      UntouchedKeyKept(target, front, k);
      DiffRecordsExactlyTheChanges(MergedAll(target, front), sources[|sources| - 1]);
    }
  }

  /** A constructor call with one source is one `merge` of it. */
  lemma SingleSource(target: map<string, Value>, source: Value)
    requires Mergeable(target, source)
    ensures AllMergeable(target, [source])
    ensures MergedAll(target, [source]) == Merged(target, source)
    ensures DiffedAll(target, [source]) == Diffed(target, source)
  {
    var sources := [source];
    assert sources[..0] == [] && sources[..1] == sources;
    AllStep(target, sources, 0);
    UnionWithEmpty(Diffed(target, source));
  }

  /**
   * Merging into an empty target is a shallow copy of the enumerated source
   * properties, less those whose value is undefined (strictly equal to the
   * missing target value).
   */
  lemma MergeIntoEmpty(right: Value)
    ensures Mergeable(map[], right)
    ensures Merged(map[], right) == map k | k in Source(right) && !Source(right)[k].Undefined? :: Source(right)[k]
  {
    var src := Source(right);
    assert Mergeable(map[], right) by {
      forall k | k in src ensures MergeableKey(Get(map[], k), src[k]) {
      }
    }
    forall k
      ensures k in Merged(map[], right) <==> k in src && !src[k].Undefined?
      ensures Get(Merged(map[], right), k) == if k in src && !src[k].Undefined? then src[k] else Undefined
    {
      MergedAt(map[], right, k);
    }
  }

  /**
   * For a key whose source value is not a plain object, the merged target
   * holds that value, or one strictly equal to it when it already did.
   */
  lemma SourceValueWins(left: map<string, Value>, right: Value, k: string)
    requires k in Source(right)
    requires !(Source(right)[k].Obj? && Source(right)[k].plain)
    ensures var v := Source(right)[k];
      Get(Merged(left, right), k) == v || StrictEq(Get(Merged(left, right), k), v)
  {
    MergedAt(left, right, k);
  }

  /**
   * For a key whose value in the last source is not a plain object, the
   * target ends up holding that value (or one strictly equal to it, when it
   * already did), whatever the earlier sources said.
   */
  lemma LastSourceWins(target: map<string, Value>, sources: seq<Value>, k: string)
    requires sources != []
    requires k in Source(sources[|sources| - 1])
    requires var v := Source(sources[|sources| - 1])[k]; !(v.Obj? && v.plain)
    ensures var v := Source(sources[|sources| - 1])[k];
      Get(MergedAll(target, sources), k) == v || StrictEq(Get(MergedAll(target, sources), k), v)
  {
    var front := sources[..|sources| - 1];
    SourceValueWins(MergedAll(target, front), sources[|sources| - 1], k);
  }

  lemma {:induction false} AllMergeablePrefix(target: map<string, Value>, sources: seq<Value>, n: nat)
    requires AllMergeable(target, sources)
    requires n < |sources|
    ensures AllMergeable(target, sources[..n + 1])
    decreases |sources| - n
  {
    if n + 1 == |sources| {
      assert sources[..n + 1] == sources;
    } else {
      var front := sources[..|sources| - 1];
      AllMergeablePrefix(target, front, n);
      assert front[..n + 1] == sources[..n + 1];
    }
  }

  /** The entries of `m` whose keys are among `ks`. */
  function Restrict<V>(m: map<string, V>, ks: set<string>): (r: map<string, V>)
    ensures forall k :: k in r <==> k in m && k in ks
    ensures forall k | k in r :: r[k] == m[k]
  {
    map k | k in m && k in ks :: m[k]
  }

  lemma RestrictStep<V>(m: map<string, V>, ks: set<string>, key: string)
    ensures key in m ==> Restrict(m, ks + {key}) == Restrict(m, ks)[key := m[key]]
    ensures key !in m ==> Restrict(m, ks + {key}) == Restrict(m, ks)
  {
    if key in m {
      assert Restrict(m, ks + {key}).Keys == Restrict(m, ks)[key := m[key]].Keys;
    } else {
      assert Restrict(m, ks + {key}).Keys == Restrict(m, ks).Keys;
    }
  }

  lemma RestrictAll<V>(m: map<string, V>, ks: set<string>)
    requires m.Keys <= ks
    ensures Restrict(m, ks) == m
  {
    assert Restrict(m, ks).Keys == m.Keys;
  }

  lemma RestrictNone<V>(m: map<string, V>, base: map<string, V>)
    ensures base + Restrict(m, {}) == base
  {
    assert Restrict(m, {}) == map[];
  }

  lemma UnionWithEmpty<V>(m: map<string, V>)
    ensures map[] + m == m
  {
  }

  lemma UpdateOfUnion<V>(a: map<string, V>, b: map<string, V>, k: string, v: V)
    ensures (a + b)[k := v] == a + b[k := v]
  {
  }

  /** What one iteration of the loop at `merge-and-diff.js` lines 28-45 does to the two maps built so far. */
  lemma KeyStep(left: map<string, Value>, right: Value, diff: map<string, Diff>, done: set<string>, key: string,
                leftNow: map<string, Value>, diffNow: map<string, Diff>)
    requires Mergeable(left, right)
    requires key in Source(right) && key !in done
    requires leftNow == left + Restrict(Changes(left, right), done)
    requires diffNow == diff + Restrict(Diffed(left, right), done)
    ensures Get(leftNow, key) == Get(left, key)
    ensures MergeableKey(Get(left, key), Source(right)[key])
    ensures StrictEq(Get(left, key), Source(right)[key]) ==>
      leftNow == left + Restrict(Changes(left, right), done + {key}) &&
      diffNow == diff + Restrict(Diffed(left, right), done + {key})
    ensures !StrictEq(Get(left, key), Source(right)[key]) ==>
      leftNow[key := NewValue(Get(left, key), Source(right)[key])] == left + Restrict(Changes(left, right), done + {key}) &&
      diffNow[key := DiffEntry(Get(left, key), Source(right)[key])] == diff + Restrict(Diffed(left, right), done + {key})
  {
    var src := Source(right);
    var c := Changes(left, right);
    var d := Diffed(left, right);
    RestrictStep(c, done, key);
    RestrictStep(d, done, key);
    if !StrictEq(Get(left, key), src[key]) {
      UpdateOfUnion(left, Restrict(c, done), key, c[key]);
      UpdateOfUnion(diff, Restrict(d, done), key, d[key]);
    }
  }

  /** One more source: the fold definitions unrolled at a prefix of the sources. */
  lemma AllStep(target: map<string, Value>, sources: seq<Value>, i: nat)
    requires i < |sources|
    ensures var before := MergedAll(target, sources[..i]);
      MergedAll(target, sources[..i + 1]) == Merged(before, sources[i]) &&
      DiffedAll(target, sources[..i + 1]) == DiffedAll(target, sources[..i]) + Diffed(before, sources[i]) &&
      (AllMergeable(target, sources[..i + 1]) <==> AllMergeable(target, sources[..i]) && Mergeable(before, sources[i]))
  {
    assert sources[..i + 1][..i] == sources[..i];
  }

  class MergeAndDiff {
    var target: map<string, Value>
    var diff: Option<map<string, Diff>>

    /** `new MergeAndDiff(target, ...sources)` */
    constructor(target0: map<string, Value>, sources: seq<Value>)
      requires AllMergeable(target0, sources)
      ensures target == MergedAll(target0, sources)
      ensures diff == Finish(DiffedAll(target0, sources))
    {
      target := target0;
      diff := None;
      new;
      var d: map<string, Diff> := map[];
      var i := 0;
      while i < |sources|
        invariant 0 <= i <= |sources|
        invariant AllMergeable(target0, sources[..i])
        invariant target == MergedAll(target0, sources[..i])
        invariant d == DiffedAll(target0, sources[..i])
      {
        AllMergeablePrefix(target0, sources, i);
        AllStep(target0, sources, i);
        target, d := Merge(target, sources[i], d);
        i := i + 1;
      }
      assert sources[..|sources|] == sources;
      diff := Finish(d);
    }

    /**
     * `merge(left, right, diff)`: returns the new properties of `left` and of
     * `diff`. A nested object is merged into through a recursive call that
     * writes a fresh nested diff.
     */
    method Merge(left: map<string, Value>, right: Value, diff: map<string, Diff>)
      returns (left': map<string, Value>, diff': map<string, Diff>)
      requires Mergeable(left, right)
      ensures left' == Merged(left, right)
      ensures diff' == diff + Diffed(left, right)
      decreases right, 1
    {
      left', diff' := left, diff;
      if TypeOf(right) != "object" {
        NonObjectSourceChangesNothing(left, right);
        return;
      }
      var src := Enumerable(right);
      var todo := src.Keys;
      ghost var done: set<string> := {};
      RestrictNone(Changes(left, right), left);
      RestrictNone(Diffed(left, right), diff);
      while todo != {}
        invariant todo + done == src.Keys && todo !! done
        invariant left' == left + Restrict(Changes(left, right), done)
        invariant diff' == diff + Restrict(Diffed(left, right), done)
        decreases todo
      {
        var key :| key in todo;
        var rightItem := src[key];
        var leftItem := Get(left', key);
        KeyStep(left, right, diff, done, key, left', diff');
        if !StrictEq(leftItem, rightItem) {
          var newItem, entry := MergeKey(leftItem, rightItem);
          left' := left'[key := newItem];
          diff' := diff'[key := entry];
        }
        todo := todo - {key};
        done := done + {key};
      }
      RestrictAll(Changes(left, right), done);
      RestrictAll(Diffed(left, right), done);
    }

    /**
     * The body of the loop at `merge-and-diff.js` lines 37-44 for a key whose two
     * values differ: merge into an object target value from a plain source
     * value, otherwise overwrite; returns the key's new value and its diff entry.
     */
    method MergeKey(leftItem: Value, rightItem: Value) returns (newItem: Value, entry: Diff)
      requires MergeableKey(leftItem, rightItem)
      requires !StrictEq(leftItem, rightItem)
      ensures newItem == NewValue(leftItem, rightItem)
      ensures entry == DiffEntry(leftItem, rightItem)
      decreases rightItem, 2
    {
      if leftItem.Obj? && IsPlain(rightItem) {
        var nestedLeft, nestedDiff := Merge(leftItem.fields, rightItem, map[]);
        assert nestedDiff == Diffed(leftItem.fields, rightItem);
        newItem, entry := Obj(leftItem.ref, leftItem.plain, nestedLeft), Nested(nestedDiff);
      } else {
        newItem, entry := rightItem, Set(rightItem);
      }
    }
  }
}
