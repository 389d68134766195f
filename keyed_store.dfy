// The keyed store Collection and Cache are both built on: an ordered list of
// entries (`items`) beside an index object (`_map`) from property keys to
// entries. An entry is a plain value or a Model instance. This module holds
// what the two classes share: how `get` finds the key to read, and a pure
// account of one call of `add`, against which both `add` methods are proved.
//
// Within one `add`, the entries the call itself makes (a model built around a
// new value, or the value itself) do not exist yet when the call starts, so
// the account refers to them by their position in the batch (`Made(pos)`) and
// to the entries already stored by themselves (`Held(entry)`).

module KeyedStore {
  import opened JsValues
  import opened MergeDiff
  import opened Models

  /** The argument of `add(objects)`: one value or model, or an array of values and models. */
  datatype Objects = Single(x: Js) | Array(elems: seq<Js>)

  /** What `add(objects)` iterates over: the elements of an array, or the one value it was given (`collection.js` lines 130-132). */
  function Batch(objects: Objects): (batch: seq<Js>)
    ensures objects.Array? ==> batch == objects.elems
    ensures objects.Single? && objects.x.Val? && objects.x.v.Arr? ==> batch == Vals(objects.x.v.elems)
    ensures objects.Single? && !(objects.x.Val? && objects.x.v.Arr?) ==> batch == [objects.x]
  {
    match objects
    case Array(elems) => elems
    case Single(x) => if x.Val? && x.v.Arr? then Vals(x.v.elems) else [x]
  }

  function Vals(vs: seq<Value>): (js: seq<Js>)
    ensures |js| == |vs| && forall i | 0 <= i < |vs| :: js[i] == Val(vs[i])
  {
    seq(|vs|, i requires 0 <= i < |vs| => Val(vs[i]))
  }

  /** `if (items)` of the constructor: an array is always truthy. */
  predicate ObjectsTruthy(objects: Objects) {
    objects.Array? || JsTruthy(objects.x)
  }

  /**
   * No object occurs twice in the batch. `add` writes to the objects it is
   * given (`update` deletes their `id`, a wrapping store tags them with
   * `_parentCache`), which a later occurrence of the same object would see.
   */
  predicate DistinctObjects(batch: seq<Js>) {
    forall i, j | 0 <= i < j < |batch| ::
      (batch[i].Val? && batch[j].Val? && batch[i].v.Obj? ==> !StrictEq(batch[i].v, batch[j].v)) &&
      (batch[i].Inst? && batch[j].Inst? ==> batch[i].m != batch[j].m)
  }

  /**
   * What `get` and `add` read of an argument: a value itself, or a model's
   * attributes and `_internalId` (`get` reads only its `id` attribute).
   */
  datatype Seen = SeenVal(v: Value) | SeenModel(props: map<string, Value>, iid: string)

  function SeenOf(j: Js): (s: Seen)
    reads if j.Inst? then {j.m} else {}
    ensures j.Val? <==> s.SeenVal?
  {
    if j.Inst? then SeenModel(j.m.props, j.m.internalId) else SeenVal(j.v)
  }

  /** What `add` reads of each element of the batch when the call starts. */
  function SeenAll(batch: seq<Js>): (seen: seq<Seen>)
    reads ModelsOf(batch)
    ensures |seen| == |batch|
    ensures forall i | 0 <= i < |batch| :: seen[i] == SeenOf(batch[i])
  {
    if batch == [] then []
    else
      var n := |batch| - 1;
      assert ModelsOf(batch[..n]) <= ModelsOf(batch) by {
        forall j | j in batch[..n] ensures j in batch { }
      }
      SeenAll(batch[..n]) + [SeenOf(batch[n])]
  }

  /** What `get` reads of the batch now is what it read of `seen`: the values, and the ids of the models. */
  ghost predicate SeenNow(seen: seq<Seen>, batch: seq<Js>)
    reads ModelsOf(batch)
  {
    |seen| == |batch| && forall i {:trigger seen[i]} | 0 <= i < |batch| :: AsValue(seen[i]) == AsValue(SeenOf(batch[i]))
  }

  /** `seen` agrees with `batch` on its values, and reads a model wherever the batch holds one. */
  predicate Fits(seen: seq<Seen>, batch: seq<Js>) {
    |seen| == |batch| &&
    forall i | 0 <= i < |batch| ::
      (batch[i].Val? ==> seen[i] == SeenVal(batch[i].v)) && (batch[i].Inst? ==> seen[i].SeenModel?)
  }

  lemma SeenAllFits(batch: seq<Js>)
    ensures Fits(SeenAll(batch), batch)
  {
  }

  /** How `get` sees an argument: a model as an object holding only its `id`, which is all `get` reads of it. */
  function AsValue(s: Seen): (x: Value)
    ensures s.SeenVal? ==> x == s.v
    ensures s.SeenModel? ==> x.Obj? && Get(x.fields, "id") == Get(s.props, "id")
  {
    match s
    case SeenVal(v) => v
    case SeenModel(props, _) => Obj(0, false, map["id" := Get(props, "id")])
  }

  /** The element as the object `new this.model(obj)` is built from: a value, or a model through its attributes. */
  function Whole(s: Seen): (x: Value)
    ensures s.SeenModel? ==> x == Obj(0, false, s.props)
  {
    match s
    case SeenVal(v) => v
    case SeenModel(props, _) => Obj(0, false, props)
  }

  predicate SeenNullish(s: Seen) {
    s.SeenVal? && Nullish(s.v)
  }

  /** `if (obj)` */
  predicate SeenTruthy(s: Seen) {
    s.SeenModel? || Truthy(s.v)
  }

  /**
   * The property key `get(idOrObject)` reads `_map` at, for an argument that
   * is not undefined: an object (`typeof` "object") with a truthy `id` is
   * looked up by that id, anything else by itself, both converted to a string.
   * A null argument throws, since its `id` is read.
   */
  function LookupKey(x: Value): (key: string)
    requires !x.Null?
    ensures x.Obj? && Truthy(Get(x.fields, "id")) ==> key == ToStr(x.fields["id"])
    ensures x.Str? ==> key == x.s
  {
    if TypeOf(x) == "object" && Truthy(GetProp(x, "id")) then ToStr(GetProp(x, "id")) else ToStr(x)
  }

  /** `if (entry)` */
  predicate JsTruthy(j: Js) {
    j.Inst? || Truthy(j.v)
  }

  predicate JsNullish(j: Js) {
    j.Val? && Nullish(j.v)
  }

  /** `entry.id`, for an entry that is not undefined or null. */
  function IdOf(j: Js): Value
    requires !JsNullish(j)
    reads if j.Inst? then {j.m} else {}
  {
    if j.Inst? then Get(j.m.props, "id") else GetProp(j.v, "id")
  }

  /** An entry during one `add`: one stored before the call, or the one made for the batch's value at `pos`. */
  datatype Slot = Held(entry: Js) | Made(pos: nat)

  /** Everything `add` depends on besides the store and the batch. */
  datatype AddConfig = AddConfig(
    /** whether `this.model` is set (the model class is Model itself) */
    wrap: bool,
    /** the store, as the value `obj._parentCache` is set to */
    parent: Value,
    /** what `new this.model(obj)` draws from outside, per batch position */
    draws: nat -> Fresh,
    /** the random digits of `generateModelId()`, per batch position */
    gen: nat -> string)

  /** The store as one `add` call has left it so far, and whether every step so far ran without a TypeError. */
  datatype AddState = AddState(items: seq<Slot>, index: map<string, Slot>, added: seq<Slot>, ok: bool)

  function Helds(items: seq<Js>): (ss: seq<Slot>)
    ensures |ss| == |items|
    ensures forall i | 0 <= i < |items| :: ss[i] == Held(items[i])
  {
    seq(|items|, i requires 0 <= i < |items| => Held(items[i]))
  }

  /** The state an `add` call starts from. */
  function Start(items: seq<Js>, index: map<string, Js>): AddState {
    AddState(Helds(items), map k | k in index :: Held(index[k]), [], true)
  }

  /** `obj._parentCache = this`, as the value the model is then built from. */
  function Tagged(x: Value, parent: Value): (t: Value)
    ensures x.Obj? ==> t.Obj? && t.fields == x.fields["_parentCache" := parent]
  {
    if x.Obj? then Obj(x.ref, x.plain, x.fields["_parentCache" := parent]) else x
  }

  /** `new this.model(obj)` runs without a TypeError, on an object it can tag. */
  predicate WrapReady(x: Value, cfg: AddConfig, p: nat) {
    x.Obj? && Constructible([Tagged(x, cfg.parent)], cfg.draws(p))
  }

  /** The `id` of the entry made for the batch's element read as `s` at position `p`. */
  function MadeId(s: Seen, cfg: AddConfig, p: nat): Value
    requires !SeenNullish(s)
  {
    var x := Whole(s);
    if cfg.wrap then
      (if WrapReady(x, cfg, p) then Get(Constructed([Tagged(x, cfg.parent)], cfg.draws(p)), "id") else Undefined)
    else GetProp(x, "id")
  }

  /**
   * The `_internalId` of the model a wrapping store makes of the batch's
   * element `j` at position `p`: a model's own, which `new this.model(obj)`
   * merges over the drawn one, or the drawn one.
   */
  function MadeIid(j: Js, cfg: AddConfig, p: nat): string {
    if j.Inst? then j.m.internalId else Utils.Uid(Str("iid-"), cfg.draws(p).iidDigits)
  }

  /** `oid = obj.id || this.generateModelId()`, as the key the new entry is stored under. */
  function MadeKey(s: Seen, cfg: AddConfig, p: nat): string
    requires !SeenNullish(s)
  {
    var id := MadeId(s, cfg, p);
    if Truthy(id) then ToStr(id) else GeneratedKey(cfg.gen(p))
  }

  /** The key of an entry whose `id` is the one made for the element read as `s`. */
  lemma KeyOfMadeId(s: Seen, cfg: AddConfig, p: nat, id: Value)
    requires !SeenNullish(s) && id == MadeId(s, cfg, p)
    ensures MadeKey(s, cfg, p) == if Truthy(id) then ToStr(id) else GeneratedKey(cfg.gen(p))
  {
  }

  /** `generateModelId()` */
  function GeneratedKey(digits: string): (key: string)
    ensures |key| == 4 + |digits| && key[..4] == "cid-"
  {
    Utils.Uid(Str("cid-"), digits)
  }

  /**
   * A found entry can be updated without a TypeError: it is a model (a plain
   * value has no `update` method), whether stored before or by this call, and
   * the data is a value with no undefined or null that could land on an
   * object-valued attribute (`pr.clean`).
   */
  predicate Updatable(c: Slot, pr: Probe, probes: seq<Probe>, wrap: bool) {
    pr.clean &&
    ((c.Held? && c.entry.Inst?) || (c.Made? && (wrap || (c.pos < |probes| && probes[c.pos].model))))
  }

  /**
   * What one iteration of `add` reads of the batch's element at position `p`:
   * whether it is undefined or null, whether it is truthy, the key `get`
   * reads, the key a new entry for it is stored under, whether a found model
   * can be updated with it, whether a new model can be built from it, and
   * whether it is a model.
   */
  datatype Probe = Probe(nullish: bool, truthy: bool, key: string, madeKey: string, clean: bool, wrappable: bool, model: bool)

  function ProbeOf(s: Seen, cfg: AddConfig, p: nat): Probe {
    if SeenNullish(s) then Probe(true, false, "", "", false, false, false)
    else
      Probe(false, SeenTruthy(s), LookupKey(AsValue(s)), MadeKey(s, cfg, p),
            s.SeenVal? && NoNullish(Stripped(s.v)),
            cfg.wrap ==> WrapReady(Whole(s), cfg, p),
            s.SeenModel?)
  }

  /** What `add` reads of each element of the batch. */
  function Probes(seen: seq<Seen>, cfg: AddConfig): (probes: seq<Probe>)
    ensures |probes| == |seen|
  {
    seq(|seen|, i requires 0 <= i < |seen| => ProbeOf(seen[i], cfg, i))
  }

  /** `probes` is what `add` reads of the elements read as `seen`. */
  predicate Describes(probes: seq<Probe>, seen: seq<Seen>, cfg: AddConfig) {
    |probes| == |seen| &&
    forall i {:trigger ProbeOf(seen[i], cfg, i)} | 0 <= i < |seen| :: probes[i] == ProbeOf(seen[i], cfg, i)
  }

  lemma ProbesDescribe(seen: seq<Seen>, cfg: AddConfig)
    ensures Describes(Probes(seen, cfg), seen, cfg)
  {
    var probes := Probes(seen, cfg);
    forall i | 0 <= i < |seen|
      ensures probes[i] == ProbeOf(seen[i], cfg, i)
    {
    }
  }

  lemma ProbeNullish(probes: seq<Probe>, seen: seq<Seen>, cfg: AddConfig, p: nat)
    requires Describes(probes, seen, cfg) && p < |seen|
    ensures probes[p].nullish == SeenNullish(seen[p])
  {
    assert probes[p] == ProbeOf(seen[p], cfg, p);
  }

  lemma ProbeWrappable(probes: seq<Probe>, seen: seq<Seen>, cfg: AddConfig, p: nat)
    requires Describes(probes, seen, cfg) && p < |seen|
    requires !SeenNullish(seen[p]) && probes[p].wrappable
    ensures cfg.wrap ==> WrapReady(Whole(seen[p]), cfg, p)
  {
    assert probes[p] == ProbeOf(seen[p], cfg, p);
  }

  /** `if (cachedObj)` for an entry of the account. */
  predicate SlotTruthy(s: Slot, probes: seq<Probe>, wrap: bool) {
    match s
    case Held(j) => JsTruthy(j)
    case Made(p) => wrap || (p < |probes| && probes[p].truthy)
  }

  /** Whether the value read as `pr` finds a truthy entry already in the index. */
  predicate Hit(st: AddState, pr: Probe, probes: seq<Probe>, wrap: bool) {
    pr.key in st.index && SlotTruthy(st.index[pr.key], probes, wrap)
  }

  /**
   * One iteration of the loop at `collection.js` lines 136-163,
   * 86-113 (cache.js), on the batch's value at `p` as `probes[p]` reads it:
   * an undefined or null value throws (`get` reads its `id`), a hit appends
   * the entry found to the event (its `update` throws unless `Updatable`), a
   * miss appends the new entry to the items and stores it under its key
   * (building the model throws unless the value allows it).
   */
  function Step(probes: seq<Probe>, wrap: bool, st: AddState, p: nat): AddState
    requires p < |probes|
  {
    var pr := probes[p];
    if pr.nullish then
      st.(ok := false)
    else if Hit(st, pr, probes, wrap) then
      var c := st.index[pr.key];
      st.(added := st.added + [c], ok := st.ok && Updatable(c, pr, probes, wrap))
    else
      st.(items := st.items + [Made(p)],
          index := st.index[pr.madeKey := Made(p)],
          added := st.added + [Made(p)],
          ok := st.ok && pr.wrappable)
  }

  /** The entry a step appends to the event: the one found, or the one it makes. */
  function StepSlot(probes: seq<Probe>, wrap: bool, st: AddState, p: nat): Slot
    requires p < |probes|
  {
    if Hit(st, probes[p], probes, wrap) then st.index[probes[p].key] else Made(p)
  }

  /** A step that keeps the call going appends its slot to the entries added. */
  lemma StepAdds(probes: seq<Probe>, wrap: bool, st: AddState, p: nat)
    requires p < |probes| && Step(probes, wrap, st, p).ok
    ensures Step(probes, wrap, st, p).added == st.added + [StepSlot(probes, wrap, st, p)]
  {
  }

  /** The first `n` iterations. */
  function Run(probes: seq<Probe>, wrap: bool, st: AddState, n: nat): AddState
    requires n <= |probes|
  {
    if n == 0 then st else Step(probes, wrap, Run(probes, wrap, st, n - 1), n - 1)
  }

  /** The whole loop, as read through `probes`. */
  function Outcome(items: seq<Js>, index: map<string, Js>, probes: seq<Probe>, wrap: bool): AddState {
    Run(probes, wrap, Start(items, index), |probes|)
  }

  /** The whole loop of one `add` call, on the store `(items, index)`, of the batch read as `seen`. */
  function AddOutcome(items: seq<Js>, index: map<string, Js>, seen: seq<Seen>, cfg: AddConfig): AddState {
    Outcome(items, index, Probes(seen, cfg), cfg.wrap)
  }


  // ----- from the account to the entries -----

  /** The entry a slot stands for, once `made` holds the entries made for the batch so far. */
  function Concrete(s: Slot, made: seq<Js>): Js {
    match s
    case Held(j) => j
    case Made(p) => if p < |made| then made[p] else Val(Undefined)
  }

  function Concretes(ss: seq<Slot>, made: seq<Js>): (js: seq<Js>)
    ensures |js| == |ss|
    ensures forall i | 0 <= i < |ss| :: js[i] == Concrete(ss[i], made)
  {
    seq(|ss|, i requires 0 <= i < |ss| => Concrete(ss[i], made))
  }

  function ConcreteIndex(m: map<string, Slot>, made: seq<Js>): (r: map<string, Js>)
    ensures r.Keys == m.Keys
    ensures forall k | k in m :: r[k] == Concrete(m[k], made)
  {
    map k | k in m :: Concrete(m[k], made)
  }

  /** `added.length === 1 ? added[0] : added` */
  datatype Added = One(entry: Js) | Many(entries: seq<Js>)

  function AddResult(added: seq<Js>): (r: Added)
    ensures r.One? <==> |added| == 1
    ensures r.One? ==> r.entry == added[0]
    ensures r.Many? ==> r.entries == added
  {
    if |added| == 1 then One(added[0]) else Many(added)
  }

  /** The events a store triggers. */
  datatype StoreEvent = AddEvent(entries: seq<Js>) | RemoveEvent

  /** Every `Made` slot of the state refers to a position below `n`, and those the index holds are items. */
  predicate Shaped(st: AddState, n: nat) {
    (forall i | 0 <= i < |st.items| :: st.items[i].Made? ==> st.items[i].pos < n) &&
    (forall i | 0 <= i < |st.added| :: st.added[i].Made? ==> st.added[i].pos < n) &&
    (forall k | k in st.index :: st.index[k].Made? ==> st.index[k].pos < n && st.index[k] in st.items)
  }

  // ----- what one `add` call does -----

  lemma StartShaped(items: seq<Js>, index: map<string, Js>)
    ensures Shaped(Start(items, index), 0)
  {
  }

  lemma StepShaped(probes: seq<Probe>, wrap: bool, st: AddState, p: nat)
    requires p < |probes| && Shaped(st, p)
    ensures Shaped(Step(probes, wrap, st, p), p + 1)
  {
  }

  /** A TypeError ends the call: a run that ends well ran well at every earlier step. */
  lemma {:induction false} OkPrefix(probes: seq<Probe>, wrap: bool, st: AddState, m: nat, n: nat)
    requires m <= n <= |probes|
    requires Run(probes, wrap, st, n).ok
    ensures Run(probes, wrap, st, m).ok
    decreases n
  {
    if m < n {
      OkPrefix(probes, wrap, st, m, n - 1);
    }
  }

  /**
   * What `add` keeps: the items stored before stay in front, in order; no key
   * leaves the index; and every value of the batch contributes exactly one
   * entry to the `add` event, in input order.
   */
  lemma {:induction false} RunKeepsStore(probes: seq<Probe>, wrap: bool, st: AddState, n: nat)
    requires n <= |probes|
    ensures |st.items| <= |Run(probes, wrap, st, n).items|
    ensures Run(probes, wrap, st, n).items[..|st.items|] == st.items
    ensures st.index.Keys <= Run(probes, wrap, st, n).index.Keys
    ensures Run(probes, wrap, st, n).ok ==> |Run(probes, wrap, st, n).added| == |st.added| + n
    decreases n
  {
    if n > 0 {
      var before := Run(probes, wrap, st, n - 1);
      RunKeepsStore(probes, wrap, st, n - 1);
      StepGrows(probes, wrap, before, n - 1);
      var after := Step(probes, wrap, before, n - 1);
      assert after.items[..|st.items|] == after.items[..|before.items|][..|st.items|];
    }
  }

  lemma StepGrows(probes: seq<Probe>, wrap: bool, st: AddState, p: nat)
    requires p < |probes|
    ensures Step(probes, wrap, st, p).items in {st.items, st.items + [Made(p)]}
    ensures |st.items| <= |Step(probes, wrap, st, p).items|
    ensures Step(probes, wrap, st, p).items[..|st.items|] == st.items
    ensures st.index.Keys <= Step(probes, wrap, st, p).index.Keys
    ensures Step(probes, wrap, st, p).ok ==> st.ok && !probes[p].nullish
    ensures !probes[p].nullish ==> |Step(probes, wrap, st, p).added| == |st.added| + 1
    ensures !probes[p].nullish ==> Step(probes, wrap, st, p).added == st.added + [StepSlot(probes, wrap, st, p)]
  {
  }

  /**
   * A value whose key finds a truthy entry appends that entry to the event and
   * leaves items and index alone; any other value appends its new entry to the
   * items and stores it under its own id or a generated key.
   */
  lemma StepEffect(probes: seq<Probe>, wrap: bool, st: AddState, p: nat)
    requires p < |probes| && !probes[p].nullish
    ensures var pr := probes[p]; var after := Step(probes, wrap, st, p);
      if Hit(st, pr, probes, wrap) then
        after.items == st.items && after.index == st.index &&
        after.added == st.added + [st.index[pr.key]]
      else
        after.items == st.items + [Made(p)] && after.added == st.added + [Made(p)] &&
        after.index.Keys == st.index.Keys + {pr.madeKey} && after.index[pr.madeKey] == Made(p) &&
        forall k | k in st.index && k != pr.madeKey :: after.index[k] == st.index[k]
  {
  }

  /**
   * A batch whose every value finds a truthy entry already stored changes
   * neither the items nor the index.
   */
  lemma AllHitsKeepStore(items: seq<Js>, index: map<string, Js>, seen: seq<Seen>, cfg: AddConfig)
    requires forall p | 0 <= p < |seen| :: !SeenNullish(seen[p]) && LookupKey(AsValue(seen[p])) in index
    requires forall k | k in index :: JsTruthy(index[k])
    ensures AddOutcome(items, index, seen, cfg).items == Start(items, index).items
    ensures AddOutcome(items, index, seen, cfg).index == Start(items, index).index
  {
    var probes := Probes(seen, cfg);
    ProbesDescribe(seen, cfg);
    forall p | 0 <= p < |seen|
      ensures !probes[p].nullish && probes[p].key in Start(items, index).index
    {
      assert probes[p] == ProbeOf(seen[p], cfg, p);
    }
    AllHitsRun(probes, cfg.wrap, Start(items, index), |seen|);
  }

  lemma {:induction false} AllHitsRun(probes: seq<Probe>, wrap: bool, st: AddState, n: nat)
    requires n <= |probes|
    requires forall p | 0 <= p < n :: !probes[p].nullish && probes[p].key in st.index
    requires forall k | k in st.index :: SlotTruthy(st.index[k], probes, wrap)
    ensures Run(probes, wrap, st, n).items == st.items
    ensures Run(probes, wrap, st, n).index == st.index
    decreases n
  {
    if n > 0 {
      AllHitsRun(probes, wrap, st, n - 1);
      StepEffect(probes, wrap, Run(probes, wrap, st, n - 1), n - 1);
    }
  }

  /** An entry without a truthy id is stored under a generated key, which starts with "cid-". */
  lemma GeneratedKeyShape(x: Value, cfg: AddConfig, p: nat)
    requires !Nullish(x) && !cfg.wrap && !Truthy(GetProp(x, "id"))
    ensures MadeKey(SeenVal(x), cfg, p) == GeneratedKey(cfg.gen(p))
    ensures MadeKey(SeenVal(x), cfg, p)[..4] == "cid-"
  {
  }

  /**
   * A store without `model` stores a model as it is, under its own `id` when
   * that is truthy and under a generated key otherwise.
   */
  lemma StoredModelKey(props: map<string, Value>, iid: string, cfg: AddConfig, p: nat)
    requires !cfg.wrap
    ensures Truthy(Get(props, "id")) ==> MadeKey(SeenModel(props, iid), cfg, p) == ToStr(Get(props, "id"))
    ensures !Truthy(Get(props, "id")) ==> MadeKey(SeenModel(props, iid), cfg, p)[..4] == "cid-"
  {
  }

  /**
   * A wrapped element, value or model, is stored under the id of the model
   * built from it, which is always truthy.
   */
  lemma WrappedKeyIsModelId(s: Seen, cfg: AddConfig, p: nat)
    requires !SeenNullish(s) && cfg.wrap && WrapReady(Whole(s), cfg, p)
    ensures MadeKey(s, cfg, p) == ToStr(Constructed([Tagged(Whole(s), cfg.parent)], cfg.draws(p))["id"])
  {
    ConstructedId([Tagged(Whole(s), cfg.parent)], cfg.draws(p));
  }

  // ----- from the account to the entries: bookkeeping -----

  lemma ConcretesOfStart(items: seq<Js>, index: map<string, Js>, made: seq<Js>)
    ensures Concretes(Start(items, index).items, made) == items
    ensures ConcreteIndex(Start(items, index).index, made) == index
  {
  }

  lemma ConcretesAppend(ss: seq<Slot>, s: Slot, made: seq<Js>)
    ensures Concretes(ss + [s], made) == Concretes(ss, made) + [Concrete(s, made)]
  {
  }

  /** Entries made later do not change what the earlier slots stand for. */
  lemma ConcretesGrow(st: AddState, n: nat, made: seq<Js>, e: Js)
    requires Shaped(st, n) && |made| == n
    ensures Concretes(st.items, made + [e]) == Concretes(st.items, made)
    ensures Concretes(st.added, made + [e]) == Concretes(st.added, made)
    ensures ConcreteIndex(st.index, made + [e]) == ConcreteIndex(st.index, made)
  {
  }

  lemma ConcreteIndexUpdate(m: map<string, Slot>, k: string, s: Slot, made: seq<Js>)
    ensures ConcreteIndex(m[k := s], made) == ConcreteIndex(m, made)[k := Concrete(s, made)]
  {
  }

  /** `_map[key]` of `get(idOrObject)`, as the entry found or None for undefined; undefined itself finds nothing. */
  function Lookup(index: map<string, Js>, x: Value): (r: Option<Js>)
    requires !x.Null?
    ensures r.Some? ==> r.value in index.Values
    ensures x.Undefined? ==> r.None?
    ensures !x.Undefined? ==> (r.Some? <==> LookupKey(x) in index)
  {
    if x.Undefined? then None
    else if LookupKey(x) in index then Some(index[LookupKey(x)]) else None
  }

  /**
   * `remove` deletes `_map[item.id]`: for an entry without a truthy id of
   * its own, that key is never a generated one, so an entry stored under a
   * generated key stays in the index.
   */
  lemma GeneratedKeyOutlivesRemove(j: Js, key: string)
    requires !JsNullish(j) && !Truthy(IdOf(j))
    requires |key| >= 4 && key[..4] == "cid-"
    ensures ToStr(IdOf(j)) != key
  {
    var id := IdOf(j);
    assert key[0] == 'c';
    if id.Num? {
      assert IsDigit(ToStr(id)[0]);
    }
  }

  /**
   * The entry `update` goes for, given the key it looks up (`data.id` for a
   * collection, `useId || data.id` for a cache): a falsy key looks nothing
   * up, and a falsy entry counts as not found.
   */
  function UpdateTarget(index: map<string, Js>, key: Value): (r: Option<Js>)
    ensures r.Some? <==> Truthy(key) && LookupKey(key) in index && JsTruthy(index[LookupKey(key)])
    ensures r.Some? ==> r.value == index[LookupKey(key)]
  {
    if Truthy(key) then
      var found := Lookup(index, key);
      if found.Some? && JsTruthy(found.value) then found else None
    else None
  }

  /** A hit of one step of `add`, seen on the entries: the items and the index stay, the found entry is added. */
  lemma ConcreteHit(probes: seq<Probe>, wrap: bool, st: AddState, p: nat, made: seq<Js>, e: Js)
    requires p < |probes| && !probes[p].nullish && Hit(st, probes[p], probes, wrap)
    requires Shaped(st, p) && |made| == p
    ensures var after := Step(probes, wrap, st, p);
      Concretes(after.items, made + [e]) == Concretes(st.items, made) &&
      ConcreteIndex(after.index, made + [e]) == ConcreteIndex(st.index, made) &&
      Concretes(after.added, made + [e]) ==
        Concretes(st.added, made) + [ConcreteIndex(st.index, made)[probes[p].key]]
  {
    StepEffect(probes, wrap, st, p);
    ConcretesGrow(st, p, made, e);
    ConcretesAppend(st.added, st.index[probes[p].key], made + [e]);
  }

  /** A miss of one step of `add`, seen on the entries: the new entry `e` is appended and stored under its key. */
  lemma ConcreteMiss(probes: seq<Probe>, wrap: bool, st: AddState, p: nat, made: seq<Js>, e: Js)
    requires p < |probes| && !probes[p].nullish && !Hit(st, probes[p], probes, wrap)
    requires Shaped(st, p) && |made| == p
    ensures var after := Step(probes, wrap, st, p);
      Concretes(after.items, made + [e]) == Concretes(st.items, made) + [e] &&
      ConcreteIndex(after.index, made + [e]) == ConcreteIndex(st.index, made)[probes[p].madeKey := e] &&
      Concretes(after.added, made + [e]) == Concretes(st.added, made) + [e]
  {
    StepEffect(probes, wrap, st, p);
    ConcretesGrow(st, p, made, e);
    ConcretesAppend(st.items, Made(p), made + [e]);
    ConcretesAppend(st.added, Made(p), made + [e]);
    ConcreteIndexUpdate(st.index, probes[p].madeKey, Made(p), made + [e]);
  }

  /** What a step that runs without a TypeError tells about the value it read. */
  lemma StepOk(probes: seq<Probe>, wrap: bool, st: AddState, p: nat)
    requires p < |probes| && Step(probes, wrap, st, p).ok
    ensures st.ok && !probes[p].nullish
    ensures Hit(st, probes[p], probes, wrap) ==> Updatable(st.index[probes[p].key], probes[p], probes, wrap)
    ensures !Hit(st, probes[p], probes, wrap) ==> probes[p].wrappable
  {
  }

  /**
   * The entries made so far fit the account: a wrapping store makes only
   * models (a hit keeps the model found), any other store stores the element itself.
   */
  predicate MadeFits(made: seq<Js>, batch: seq<Js>, wrap: bool) {
    |made| <= |batch| &&
    forall q | 0 <= q < |made| :: if wrap then made[q].Inst? else made[q] == batch[q]
  }

  /** `if (cachedObj)` agrees between the account and the entries. */
  lemma TruthyAgrees(s: Slot, made: seq<Js>, batch: seq<Js>, seen: seq<Seen>, probes: seq<Probe>, cfg: AddConfig)
    requires Describes(probes, seen, cfg) && Fits(seen, batch) && MadeFits(made, batch, cfg.wrap)
    requires s.Made? ==> s.pos < |made|
    ensures JsTruthy(Concrete(s, made)) == SlotTruthy(s, probes, cfg.wrap)
  {
    if s.Made? && !cfg.wrap {
      assert probes[s.pos] == ProbeOf(seen[s.pos], cfg, s.pos);
    }
  }

  /** No entry of the store is undefined or null. */
  predicate NoNullishEntries(items: seq<Js>, index: map<string, Js>) {
    (forall j | j in items :: !JsNullish(j)) && (forall k | k in index :: !JsNullish(index[k]))
  }

  /** The store, the entries added and the entries made so far are those of the account `st`. */
  predicate Tracks(items: seq<Js>, index: map<string, Js>, added: seq<Js>,
                   batch: seq<Js>, cfg: AddConfig, st: AddState, made: seq<Js>) {
    MadeFits(made, batch, cfg.wrap) && st.ok && Shaped(st, |made|) &&
    items == Concretes(st.items, made) && index == ConcreteIndex(st.index, made) &&
    added == Concretes(st.added, made) && NoNullishEntries(items, index) && WrapsFit(made, st, cfg, batch)
  }

  /** Every model a wrapping store made and kept as an item carries the internal id made for that position. */
  predicate WrapsFit(made: seq<Js>, st: AddState, cfg: AddConfig, batch: seq<Js>) {
    cfg.wrap ==> forall q | 0 <= q < |made| && q < |batch| && Made(q) in st.items ::
      made[q].Inst? && made[q].m.internalId == MadeIid(batch[q], cfg, q)
  }


  /** `get(obj)` finds a truthy entry exactly when the account's step is a hit. */
  lemma HitAgrees(items: seq<Js>, index: map<string, Js>, added: seq<Js>, batch: seq<Js>, seen: seq<Seen>,
                  probes: seq<Probe>, cfg: AddConfig, st: AddState, p: nat, made: seq<Js>)
    requires Describes(probes, seen, cfg) && Fits(seen, batch)
    requires p < |batch| && |made| == p && !SeenNullish(seen[p])
    requires Tracks(items, index, added, batch, cfg, st, made)
    ensures Hit(st, probes[p], probes, cfg.wrap) <==>
      Lookup(index, AsValue(seen[p])).Some? && JsTruthy(Lookup(index, AsValue(seen[p])).value)
  {
    assert probes[p] == ProbeOf(seen[p], cfg, p);
    var key := LookupKey(AsValue(seen[p]));
    if key in st.index {
      TruthyAgrees(st.index[key], made, batch, seen, probes, cfg);
    }
  }

  /**
   * A hit, seen on the entries: the entry found is a model, the element is a
   * value it can be updated with, and the store stays as it is.
   */
  lemma TrackHit(items: seq<Js>, index: map<string, Js>, added: seq<Js>, batch: seq<Js>, seen: seq<Seen>,
                 probes: seq<Probe>, cfg: AddConfig, st: AddState, p: nat, made: seq<Js>)
    requires Describes(probes, seen, cfg) && Fits(seen, batch)
    requires p < |batch| && |made| == p && Step(probes, cfg.wrap, st, p).ok
    requires Tracks(items, index, added, batch, cfg, st, made)
    requires !SeenNullish(seen[p]) && Hit(st, probes[p], probes, cfg.wrap)
    ensures LookupKey(AsValue(seen[p])) in index && batch[p].Val?
    ensures index[LookupKey(AsValue(seen[p]))].Inst? && NoNullish(Stripped(batch[p].v))
    ensures index[LookupKey(AsValue(seen[p]))] == Concrete(st.index[probes[p].key], made)
    ensures var c := index[LookupKey(AsValue(seen[p]))];
      Tracks(items, index, added + [c], batch, cfg, Step(probes, cfg.wrap, st, p),
             made + [if cfg.wrap then c else batch[p]])
  {
    assert probes[p] == ProbeOf(seen[p], cfg, p);
    var slot := st.index[probes[p].key];
    if slot.Made? && !cfg.wrap {
      assert probes[slot.pos] == ProbeOf(seen[slot.pos], cfg, slot.pos);
    }
    var c := index[LookupKey(AsValue(seen[p]))];
    var e := if cfg.wrap then c else batch[p];
    StepShaped(probes, cfg.wrap, st, p);
    StepGrows(probes, cfg.wrap, st, p);
    ConcreteHit(probes, cfg.wrap, st, p, made, e);
    MadeFitsStep(made, batch, cfg.wrap, e);
    WrapsFitStep(made, st, Step(probes, cfg.wrap, st, p), cfg, batch, e);
  }

  /** A miss, seen on the entries: the new entry is appended and stored under the key of the account. */
  lemma TrackMiss(items: seq<Js>, index: map<string, Js>, added: seq<Js>, batch: seq<Js>, seen: seq<Seen>,
                  probes: seq<Probe>, cfg: AddConfig, st: AddState, p: nat, made: seq<Js>, e: Js)
    requires Describes(probes, seen, cfg) && Fits(seen, batch)
    requires p < |batch| && |made| == p && Step(probes, cfg.wrap, st, p).ok
    requires Tracks(items, index, added, batch, cfg, st, made)
    requires !SeenNullish(seen[p]) && !Hit(st, probes[p], probes, cfg.wrap)
    requires if cfg.wrap then e.Inst? && e.m.internalId == MadeIid(batch[p], cfg, p) else e == batch[p]
    ensures Tracks(items + [e], index[MadeKey(seen[p], cfg, p) := e], added + [e],
                   batch, cfg, Step(probes, cfg.wrap, st, p), made + [e])
  {
    assert probes[p] == ProbeOf(seen[p], cfg, p);
    StepShaped(probes, cfg.wrap, st, p);
    StepGrows(probes, cfg.wrap, st, p);
    ConcreteMiss(probes, cfg.wrap, st, p, made, e);
    MadeFitsStep(made, batch, cfg.wrap, e);
    NoNullishStore(items, index, MadeKey(seen[p], cfg, p), e);
    WrapsFitStep(made, st, Step(probes, cfg.wrap, st, p), cfg, batch, e);
  }

  lemma MadeFitsStep(made: seq<Js>, batch: seq<Js>, wrap: bool, e: Js)
    requires MadeFits(made, batch, wrap) && |made| < |batch|
    requires if wrap then e.Inst? else e == batch[|made|]
    ensures MadeFits(made + [e], batch, wrap)
  {
  }

  // ----- what `add` does to the models it finds -----

  /**
   * Whether the slot stands for the model `m`: a model stored before the
   * call, or a model of the batch that a store without `model` stored as it is.
   */
  predicate Names(s: Slot, batch: seq<Js>, wrap: bool, m: Model) {
    match s
    case Held(j) => j == Inst(m)
    case Made(q) => !wrap && q < |batch| && batch[q] == Inst(m)
  }

  /**
   * The data `update` is called with on the model `m`, in order: the values
   * of the batch whose entry in `added` (one per position) stands for `m`.
   */
  function HitData(m: Model, added: seq<Slot>, batch: seq<Js>, wrap: bool): (datas: seq<Value>)
    ensures |datas| <= |added|
    ensures (forall i | 0 <= i < |added| :: !Names(added[i], batch, wrap, m)) ==> datas == []
    decreases |added|
  {
    if added == [] then []
    else
      var n := |added| - 1;
      HitData(m, added[..n], batch, wrap) + HitAt(m, added[n], n, batch, wrap)
  }

  /** The data the entry `s` appended for position `n` passes to `update` on `m`: none, or the value there. */
  function HitAt(m: Model, s: Slot, n: nat, batch: seq<Js>, wrap: bool): seq<Value> {
    if n < |batch| && batch[n].Val? && Names(s, batch, wrap, m) then [batch[n].v] else []
  }

  lemma HitDataAppend(m: Model, added: seq<Slot>, s: Slot, batch: seq<Js>, wrap: bool)
    ensures HitData(m, added + [s], batch, wrap) == HitData(m, added, batch, wrap) + HitAt(m, s, |added|, batch, wrap)
  {
    assert (added + [s])[..|added|] == added;
  }

  /** The updates of one more step follow those of the steps before it. */
  lemma HitsAccumulate(s0: ModelState, s1: ModelState, s2: ModelState, m: Model, added: seq<Slot>, s: Slot, batch: seq<Js>, wrap: bool)
    requires s1 == AfterUpdates(s0, HitData(m, added, batch, wrap))
    requires s2 == AfterUpdates(s1, HitAt(m, s, |added|, batch, wrap))
    ensures s2 == AfterUpdates(s0, HitData(m, added + [s], batch, wrap))
  {
    HitDataAppend(m, added, s, batch, wrap);
    var h := HitData(m, added, batch, wrap);
    var hit := HitAt(m, s, |added|, batch, wrap);
    if hit == [] {
      assert h + hit == h;
      assert AfterUpdates(s1, hit) == s1;
    } else {
      var d := hit[0];
      assert hit == [d];
      AfterUpdatesSnoc(s1, [], d);
      assert [] + [d] == hit;
      assert AfterUpdates(s1, []) == s1;
      AfterUpdatesSnoc(s0, h, d);
    }
  }

  /** Models in the states `Expected` gives them are each in the state their hits give it. */
  lemma ExpectedStates(ms: set<Model>, start: map<Model, ModelState>, added: seq<Slot>, batch: seq<Js>, wrap: bool)
    requires ms <= start.Keys && StatesAre(ms, Expected(start, added, batch, wrap))
    ensures forall m | m in ms :: m.State() == AfterUpdates(start[m], HitData(m, added, batch, wrap))
  {
    forall m | m in ms
      ensures m.State() == AfterUpdates(start[m], HitData(m, added, batch, wrap))
    {
      assert m.State() == Expected(start, added, batch, wrap)[m];
    }
  }

  /** The states of the models of `ms`, now. */
  ghost function StatesOf(ms: set<Model>): (states: map<Model, ModelState>)
    reads ms
    ensures states.Keys == ms && StatesAre(ms, states)
  {
    map m | m in ms :: m.State()
  }

  /** Each model of `ms` is in the state `states` gives it. */
  ghost predicate StatesAre(ms: set<Model>, states: map<Model, ModelState>)
    reads ms
  {
    forall m | m in ms :: m in states && m.State() == states[m]
  }

  /** The states the models of `start` reach when updated with the data the entries `added` pass them. */
  function Expected(start: map<Model, ModelState>, added: seq<Slot>, batch: seq<Js>, wrap: bool): (states: map<Model, ModelState>)
    ensures states.Keys == start.Keys
  {
    map m | m in start :: AfterUpdates(start[m], HitData(m, added, batch, wrap))
  }

  /** The states after one more entry: the model it stands for, if any, takes the value at position `n`. */
  function Advance(cur: map<Model, ModelState>, s: Slot, n: nat, batch: seq<Js>, wrap: bool): (next: map<Model, ModelState>)
    ensures next.Keys == cur.Keys
  {
    map m | m in cur :: AfterUpdates(cur[m], HitAt(m, s, n, batch, wrap))
  }

  /** Models in the states one more entry advances theirs to are in the states of all the entries. */
  lemma ExpectedAdvance(ms: set<Model>, start: map<Model, ModelState>, added: seq<Slot>, s: Slot, batch: seq<Js>, wrap: bool)
    requires ms <= start.Keys
    requires StatesAre(ms, Advance(Expected(start, added, batch, wrap), s, |added|, batch, wrap))
    ensures StatesAre(ms, Expected(start, added + [s], batch, wrap))
  {
    var before := Expected(start, added, batch, wrap);
    var after := Advance(before, s, |added|, batch, wrap);
    var whole := Expected(start, added + [s], batch, wrap);
    forall m | m in ms
      ensures m.State() == whole[m]
    {
      var s1 := AfterUpdates(start[m], HitData(m, added, batch, wrap));
      var s2 := AfterUpdates(s1, HitAt(m, s, |added|, batch, wrap));
      assert before[m] == s1;
      assert after[m] == s2;
      HitsAccumulate(start[m], s1, s2, m, added, s, batch, wrap);
    }
  }

  /** A miss updates no model: the element at its position is a value only when no model is made of it. */
  lemma AdvanceMiss(cur: map<Model, ModelState>, n: nat, batch: seq<Js>, wrap: bool)
    ensures Advance(cur, Made(n), n, batch, wrap) == cur
  {
    forall m | m in cur
      ensures Advance(cur, Made(n), n, batch, wrap)[m] == cur[m]
    {
      assert HitAt(m, Made(n), n, batch, wrap) == [];
    }
  }

  /** The model a hit updates, and only that one, takes the value at this position. */
  lemma FoundStep(m: Model, c: Model, before: ModelState, after: ModelState, data: Value, slot: Slot, made: seq<Js>,
                  batch: seq<Js>, st: AddState, members: set<Model>, wrap: bool)
    requires m in members
    requires after == if m == c then AfterUpdate(before, data) else before
    requires |st.added| < |batch| && batch[|st.added|] == Val(data)
    requires MadeFits(made, batch, wrap) && Apart(made, st, wrap, members)
    requires slot.Made? ==> slot.pos < |made| && slot in st.items
    requires Concrete(slot, made) == Inst(c)
    ensures after == AfterUpdates(before, HitAt(m, slot, |st.added|, batch, wrap))
  {
    NamesConcrete(slot, made, batch, wrap, st, members, m);
    if m == c {
      assert HitAt(m, slot, |st.added|, batch, wrap) == [data];
      assert [data][..0] == [];
    }
  }

  /**
   * `cachedObj.update(obj)` on a hit: the model found, which the slot stands
   * for, is updated with the batch's value at this position, and no other
   * model changes; the ids `add` reads of the batch's models stay.
   */
  method UpdateFound(c: Model, data: Value, ghost slot: Slot, ghost made: seq<Js>, ghost batch: seq<Js>, ghost seen: seq<Seen>,
                     ghost st: AddState, ghost members: set<Model>, ghost cur: map<Model, ModelState>, ghost wrap: bool,
                     ghost start: map<Model, ModelState>, ghost parent: Value)
    requires Mergeable(c.props, Stripped(data))
    requires |st.added| < |batch| && batch[|st.added|] == Val(data)
    requires MadeFits(made, batch, wrap) && Apart(made, st, wrap, members)
    requires slot.Made? ==> slot.pos < |made| && slot in st.items
    requires Concrete(slot, made) == Inst(c)
    requires StatesAre(members, cur) && SeenNow(seen, batch)
    requires wrap ==> Outside(batch, {c}) && TaggedUpTo(batch, |st.added|, start, parent)
    modifies c
    ensures StatesAre(members, Advance(cur, slot, |st.added|, batch, wrap)) && SeenNow(seen, batch)
    ensures wrap ==> TaggedUpTo(batch, |st.added| + 1, start, parent)
  {
    label pre:
    var _ := c.Update(data);
    assert SeenNow(seen, batch) by {
      forall q | 0 <= q < |batch|
        ensures AsValue(SeenOf(batch[q])) == AsValue(seen[q])
      {
        assert AsValue(seen[q]) == old@pre(AsValue(SeenOf(batch[q])));
      }
    }
    if wrap {
      forall q | 0 <= q < |batch| && batch[q].Inst?
        ensures batch[q].m in start
        ensures batch[q].m.State() == if q < |st.added| + 1 then TagState(start[batch[q].m], parent) else start[batch[q].m]
      {
        assert batch[q].m != c;
      }
    }
    forall m | m in members
      ensures m.State() == Advance(cur, slot, |st.added|, batch, wrap)[m]
    {
      FoundStep(m, c, cur[m], m.State(), data, slot, made, batch, st, members, wrap);
    }
  }

  /**
   * In a store with `model`, `add` updates only models it held
   * before the call: one of its own batch is never updated.
   */
  lemma {:induction false} WrapHitsOnlyHeld(m: Model, added: seq<Slot>, batch: seq<Js>)
    requires forall i | 0 <= i < |added| :: added[i] != Held(Inst(m))
    ensures HitData(m, added, batch, true) == []
    decreases |added|
  {
    if added != [] {
      WrapHitsOnlyHeld(m, added[..|added| - 1], batch);
    }
  }

  /** `obj._parentCache = this` on a model of the batch that a wrapping store wraps. */
  function TagState(s: ModelState, parent: Value): ModelState {
    s.(props := s.props["_parentCache" := parent])
  }

  /**
   * In a wrapping store, the models of the batch before position `p` have
   * been tagged with `_parentCache`, and the others are as they were.
   */
  ghost predicate TaggedUpTo(batch: seq<Js>, p: nat, start: map<Model, ModelState>, parent: Value)
    reads ModelsOf(batch)
  {
    forall q | 0 <= q < |batch| && batch[q].Inst? ::
      batch[q].m in start && batch[q].m.State() == if q < p then TagState(start[batch[q].m], parent) else start[batch[q].m]
  }

  /** What `add` reads of the batch when the call starts comes from the states the models are in then. */
  lemma SeenAllFrom(batch: seq<Js>, start: map<Model, ModelState>)
    requires forall m | m in ModelsOf(batch) :: m in start && start[m] == m.State()
    ensures SeenFrom(SeenAll(batch), batch, start)
  {
    forall q | 0 <= q < |batch| && batch[q].Inst?
      ensures batch[q].m in start && SeenAll(batch)[q] == SeenModel(start[batch[q].m].props, batch[q].m.internalId)
    {
      assert batch[q].m in ModelsOf(batch);
    }
  }

  /** None of the models of the batch is one of `ms`. */
  predicate Outside(batch: seq<Js>, ms: set<Model>) {
    forall q | 0 <= q < |batch| && batch[q].Inst? :: batch[q].m !in ms
  }

  lemma OutsideOf(batch: seq<Js>, ms: set<Model>)
    requires ModelsOf(batch) !! ms
    ensures Outside(batch, ms)
  {
    forall q | 0 <= q < |batch| && batch[q].Inst?
      ensures batch[q].m !in ms
    {
      assert batch[q].m in ModelsOf(batch);
    }
  }

  /** Once every position is past, each model of the batch is tagged. */
  lemma TaggedAll(batch: seq<Js>, start: map<Model, ModelState>, parent: Value)
    requires TaggedUpTo(batch, |batch|, start, parent)
    ensures forall m | m in ModelsOf(batch) :: m in start && m.State() == TagState(start[m], parent)
  {
    forall m | m in ModelsOf(batch)
      ensures m in start && m.State() == TagState(start[m], parent)
    {
      var j :| j in batch && j.Inst? && j.m == m;
      var q :| 0 <= q < |batch| && batch[q] == j;
    }
  }

  /**
   * What `add` reads of the element at `p` agrees with the element before it
   * is placed: a value is read as itself, a model by its attributes, which a
   * wrapping store has not tagged yet.
   */
  lemma PlaceReady(batch: seq<Js>, p: nat, seen: seq<Seen>, start: map<Model, ModelState>, wrap: bool, parent: Value)
    requires p < |batch| && Fits(seen, batch) && SeenNow(seen, batch) && SeenFrom(seen, batch, start)
    requires wrap ==> TaggedUpTo(batch, p, start, parent)
    ensures batch[p].Val? ==> seen[p] == SeenVal(batch[p].v)
    ensures batch[p].Inst? ==> seen[p].SeenModel? && Get(seen[p].props, "id") == Get(batch[p].m.props, "id")
    ensures batch[p].Inst? && wrap ==> batch[p].m.props == seen[p].props
  {
    if batch[p].Inst? {
      assert AsValue(seen[p]) == AsValue(SeenOf(batch[p]));
    }
  }

  /** `seen` read the models of the batch in the states `start`. */
  predicate SeenFrom(seen: seq<Seen>, batch: seq<Js>, start: map<Model, ModelState>) {
    |seen| == |batch| &&
    forall q | 0 <= q < |batch| && batch[q].Inst? ::
      batch[q].m in start && seen[q] == SeenModel(start[batch[q].m].props, batch[q].m.internalId)
  }

  /**
   * The models made by a wrapping store that are kept as items are none of
   * `members`: they did not exist when the call started.
   */
  predicate Apart(made: seq<Js>, st: AddState, wrap: bool, members: set<Model>) {
    wrap ==> forall q | 0 <= q < |made| && Made(q) in st.items :: made[q].Inst? && made[q].m !in members
  }

  /** One more entry keeps the made models apart from `members` when it is not one of them, or not kept. */
  lemma ApartGrows(made: seq<Js>, st: AddState, st': AddState, wrap: bool, members: set<Model>, e: Js)
    requires Apart(made, st, wrap, members)
    requires st'.items in {st.items, st.items + [Made(|made|)]}
    requires wrap && Made(|made|) in st'.items ==> e.Inst? && e.m !in members
    ensures Apart(made + [e], st', wrap, members)
  {
    var made' := made + [e];
    if wrap {
      forall q | 0 <= q < |made'| && Made(q) in st'.items
        ensures made'[q].Inst? && made'[q].m !in members
      {
        if q < |made| {
          assert Made(q) in st.items;
        }
      }
    }
  }

  /** For a model of `members`, a slot names it exactly when the entry it stands for is that model. */
  lemma NamesConcrete(s: Slot, made: seq<Js>, batch: seq<Js>, wrap: bool, st: AddState, members: set<Model>, m: Model)
    requires MadeFits(made, batch, wrap) && Apart(made, st, wrap, members)
    requires s.Made? ==> s.pos < |made| && s in st.items
    requires m in members
    ensures Names(s, batch, wrap, m) <==> Concrete(s, made) == Inst(m)
  {
  }

  lemma NoNullishStore(items: seq<Js>, index: map<string, Js>, k: string, e: Js)
    requires NoNullishEntries(items, index) && !JsNullish(e)
    ensures NoNullishEntries(items + [e], index[k := e])
  {
  }

  lemma WrapsFitStep(made: seq<Js>, st: AddState, after: AddState, cfg: AddConfig, batch: seq<Js>, e: Js)
    requires WrapsFit(made, st, cfg, batch) && |made| < |batch|
    requires after.items in {st.items, st.items + [Made(|made|)]}
    requires cfg.wrap && Made(|made|) in after.items ==> e.Inst? && e.m.internalId == MadeIid(batch[|made|], cfg, |made|)
    ensures WrapsFit(made + [e], after, cfg, batch)
  {
    if cfg.wrap {
      forall q | 0 <= q < |made| + 1 && q < |batch| && Made(q) in after.items
        ensures (made + [e])[q].Inst? && (made + [e])[q].m.internalId == MadeIid(batch[q], cfg, q)
      {
        if q < |made| {
          assert Made(q) in st.items;
        }
      }
    }
  }

  /** The models an index holds. */
  function ModelsIn(index: map<string, Js>): set<Model> {
    set k | k in index && index[k].Inst? :: index[k].m
  }

  /** Storing an entry adds at most its model to those the index holds. */
  lemma ModelsInUpdate(index: map<string, Js>, k: string, e: Js)
    ensures ModelsIn(index[k := e]) <= ModelsIn(index) + (if e.Inst? then {e.m} else {})
  {
  }

  /** How `item[key]` sees an entry: a model through its attributes, a value as itself. */
  function View(j: Js): Value
    reads if j.Inst? then {j.m} else {}
  {
    if j.Inst? then Obj(0, false, j.m.props) else j.v
  }

  /** `containsAll(item)` of `findByProperty(shape)`: the shape test of `matchFn`. */
  predicate MatchesJs(shape: Value, j: Js)
    requires !JsNullish(j)
    reads if j.Inst? then {j.m} else {}
  {
    Utils.Matches(shape, View(j))
  }

  /** The models among a sequence of entries. */
  function ModelsOf(s: seq<Js>): set<Model> {
    set j | j in s && j.Inst? :: j.m
  }

  lemma ValsHoldNoModels(batch: seq<Js>)
    requires forall i | 0 <= i < |batch| :: batch[i].Val?
    ensures ModelsOf(batch) == {}
  {
  }

  /** The entries of `s` that match `shape`, in order. */
  function Matching(shape: Value, s: seq<Js>): (r: seq<Js>)
    requires forall j | j in s :: !JsNullish(j)
    reads ModelsOf(s)
  {
    if s == [] then []
    else
      var last := s[|s| - 1];
      Matching(shape, s[..|s| - 1]) + (if MatchesJs(shape, last) then [last] else [])
  }

  /**
   * The loop of `findByProperty(shape)` over the entries `s`, in the order
   * `forEach` visits them: `containsAll` is the shape test of `matchFn`.
   */
  method FindMatching(shape: Value, s: seq<Js>) returns (results: seq<Js>)
    requires forall j | j in s :: !JsNullish(j)
    ensures results == Matching(shape, s)
  {
    results := [];
    var i := 0;
    while i < |s|
      invariant 0 <= i <= |s|
      invariant results == Matching(shape, s[..i])
    {
      var item := s[i];
      assert item in s;
      label before:
      var matched := Utils.MatchFn(shape, View(item));
      assert unchanged@before(ModelsOf(s[..i]));
      MatchingStep(shape, s, i);
      if matched {
        results := results + [item];
      }
      i := i + 1;
    }
    assert s[..|s|] == s;
  }

  /** One more entry of `s` visited: it is kept exactly when it matches. */
  lemma MatchingStep(shape: Value, s: seq<Js>, i: nat)
    requires forall j | j in s :: !JsNullish(j)
    requires i < |s|
    ensures !JsNullish(s[i]) && !Nullish(View(s[i]))
    ensures Matching(shape, s[..i + 1]) == Matching(shape, s[..i]) + if MatchesJs(shape, s[i]) then [s[i]] else []
  {
    assert s[i] in s;
    assert s[..i + 1][..i] == s[..i];
  }

  /** An entry is among the matches exactly when it is an entry of `s` that matches the shape. */
  lemma {:induction false} MatchingMembers(shape: Value, s: seq<Js>)
    requires forall j | j in s :: !JsNullish(j)
    ensures forall j | j in Matching(shape, s) :: j in s && MatchesJs(shape, j)
    ensures forall j | j in s && MatchesJs(shape, j) :: j in Matching(shape, s)
    ensures (forall j | j in s :: !MatchesJs(shape, j)) ==> Matching(shape, s) == []
  {
    if s != [] {
      var init := s[..|s| - 1];
      assert s == init + [s[|s| - 1]];
      MatchingMembers(shape, init);
    }
  }

  /** The first match is the first entry of `s` that matches the shape. */
  lemma {:induction false} MatchingFirst(shape: Value, s: seq<Js>, k: nat)
    requires forall j | j in s :: !JsNullish(j)
    requires k < |s| && MatchesJs(shape, s[k])
    requires forall i | 0 <= i < k :: !MatchesJs(shape, s[i])
    ensures Matching(shape, s) != [] && Matching(shape, s)[0] == s[k]
  {
    var init := s[..|s| - 1];
    if k == |s| - 1 {
      MatchingMembers(shape, init);
    } else {
      assert init[k] == s[k];
      MatchingFirst(shape, init, k);
    }
  }

  /**
   * The head of the matches: there is none exactly when no entry matches,
   * and otherwise it is the first entry of `s` that matches.
   */
  lemma MatchingHead(shape: Value, s: seq<Js>)
    requires forall j | j in s :: !JsNullish(j)
    ensures Matching(shape, s) == [] <==> forall j | j in s :: !MatchesJs(shape, j)
    ensures Matching(shape, s) != [] ==> Matching(shape, s)[0] in s && MatchesJs(shape, Matching(shape, s)[0])
    ensures forall k | 0 <= k < |s| && MatchesJs(shape, s[k]) ::
      (forall i | 0 <= i < k :: !MatchesJs(shape, s[i])) ==> Matching(shape, s) != [] && Matching(shape, s)[0] == s[k]
  {
    MatchingMembers(shape, s);
    if Matching(shape, s) != [] {
      assert Matching(shape, s)[0] in Matching(shape, s);
    }
    forall k | 0 <= k < |s| && MatchesJs(shape, s[k]) && (forall i | 0 <= i < k :: !MatchesJs(shape, s[i]))
      ensures Matching(shape, s) != [] && Matching(shape, s)[0] == s[k]
    {
      MatchingFirst(shape, s, k);
    }
  }

  /** `array.filter(cond)`: the entries of `s` that `cond` holds for, in order. */
  function Kept(s: seq<Js>, cond: Js -> bool): seq<Js> {
    if s == [] then []
    else Kept(s[..|s| - 1], cond) + (if cond(s[|s| - 1]) then [s[|s| - 1]] else [])
  }

  /** One more entry of `s` visited: it is kept exactly when `cond` holds for it. */
  lemma KeptStep(s: seq<Js>, cond: Js -> bool, i: nat)
    requires i < |s|
    ensures Kept(s[..i + 1], cond) == Kept(s[..i], cond) + if cond(s[i]) then [s[i]] else []
  {
    assert s[..i + 1][..i] == s[..i];
  }

  /** An entry is kept exactly when it is an entry of `s` that `cond` holds for; no more entries than `s` has are kept. */
  lemma {:induction false} KeptMembers(s: seq<Js>, cond: Js -> bool)
    ensures |Kept(s, cond)| <= |s|
    ensures forall j | j in Kept(s, cond) :: j in s && cond(j)
    ensures forall j | j in s && cond(j) :: j in Kept(s, cond)
  {
    if s != [] {
      var init := s[..|s| - 1];
      assert s == init + [s[|s| - 1]];
      KeptMembers(init, cond);
    }
  }

  // ----- iterating over the index -----

  /** `order` lists each key of `index` once: the order in which `for (key in _map)` visits them. */
  predicate Enumerates(order: seq<string>, index: map<string, Js>) {
    (forall k | k in order :: k in index) && (forall k | k in index :: k in order) &&
    (forall i, j | 0 <= i < j < |order| :: order[i] != order[j])
  }

  /** `_map[key]` for each key of `order`. */
  function ValuesIn(order: seq<string>, index: map<string, Js>): (vs: seq<Js>)
    requires forall k | k in order :: k in index
    ensures |vs| == |order|
    ensures forall i | 0 <= i < |order| :: vs[i] == index[order[i]]
  {
    seq(|order|, i requires 0 <= i < |order| => index[order[i]])
  }

  /** Visiting every key once takes as many steps as the index has keys. */
  lemma {:induction false} EnumerationLength(order: seq<string>, index: map<string, Js>)
    requires Enumerates(order, index)
    ensures |order| == |index|
  {
    DistinctCard(order);
    assert (set k | k in order) == index.Keys;
  }

  lemma {:induction false} DistinctCard(order: seq<string>)
    requires forall i, j | 0 <= i < j < |order| :: order[i] != order[j]
    ensures |set k | k in order| == |order|
  {
    if order != [] {
      var init := order[..|order| - 1];
      var last := order[|order| - 1];
      DistinctCard(init);
      assert last !in init;
      assert (set k | k in order) == (set k | k in init) + {last};
    }
  }

  // ----- find(query) of the cache -----

  /** The case folding of a RegExp with the `i` flag, on ASCII letters. */
  function Fold(c: char): char {
    if 'a' <= c <= 'z' then (c as int - 32) as char else c
  }

  /** No RegExp metacharacter: `new RegExp('^' + query, 'i')` matches `query` itself, case-insensitively. */
  predicate PlainPattern(query: string) {
    forall i | 0 <= i < |query| :: query[i] !in "\\^$.|?*+()[]{}"
  }

  /** `new RegExp('^' + query, 'i').test(key)`, for a plain pattern. */
  predicate StartsWithFolded(key: string, query: string) {
    |query| <= |key| && forall i | 0 <= i < |query| :: Fold(key[i]) == Fold(query[i])
  }

  /**
   * What `find(query)` collects over the keys `order`: the entry under
   * `query` itself is put in front (`unshift`), the other entries whose key
   * starts with `query` case-insensitively are appended (`push`).
   */
  function Found(order: seq<string>, index: map<string, Js>, query: string): seq<Js>
    requires forall k | k in order :: k in index
  {
    if order == [] then []
    else
      var rest := Found(order[..|order| - 1], index, query);
      var key := order[|order| - 1];
      if key == query then [index[key]] + rest
      else if StartsWithFolded(key, query) then rest + [index[key]]
      else rest
  }

  /** The entry stored under `query` itself comes first. */
  lemma {:induction false} FoundExactFirst(order: seq<string>, index: map<string, Js>, query: string)
    requires Enumerates(order, index) && query in index
    ensures Found(order, index, query) != [] && Found(order, index, query)[0] == index[query]
  {
    var init := order[..|order| - 1];
    if order[|order| - 1] != query {
      assert query in init by {
        var i :| 0 <= i < |order| && order[i] == query;
        assert i < |order| - 1 && init[i] == query;
      }
      EnumeratesInit(order, index);
      FoundExactFirst(init, index - {order[|order| - 1]}, query);
      FoundOther(init, index, index - {order[|order| - 1]}, query);
    }
  }

  lemma EnumeratesInit(order: seq<string>, index: map<string, Js>)
    requires Enumerates(order, index) && order != []
    ensures Enumerates(order[..|order| - 1], index - {order[|order| - 1]})
  {
    var init := order[..|order| - 1];
    forall k | k in index - {order[|order| - 1]}
      ensures k in init
    {
      {
        var i :| 0 <= i < |order| && order[i] == k;
        assert init[i] == k;
      }
    }
  }

  /** `Found` reads only the entries under the keys it visits. */
  lemma {:induction false} FoundOther(order: seq<string>, index: map<string, Js>, other: map<string, Js>, query: string)
    requires forall k | k in order :: k in index && k in other && index[k] == other[k]
    ensures Found(order, index, query) == Found(order, other, query)
  {
    if order != [] {
      FoundOther(order[..|order| - 1], index, other, query);
    }
  }

  /** An entry is found exactly when it is stored under a key that starts with `query` case-insensitively. */
  lemma {:induction false} FoundMembers(order: seq<string>, index: map<string, Js>, query: string)
    requires forall k | k in order :: k in index
    ensures forall i | 0 <= i < |order| && StartsWithFolded(order[i], query) :: index[order[i]] in Found(order, index, query)
    ensures forall j | j in Found(order, index, query) ::
      exists i :: 0 <= i < |order| && StartsWithFolded(order[i], query) && index[order[i]] == j
  {
    if order != [] {
      var init := order[..|order| - 1];
      var key := order[|order| - 1];
      FoundMembers(init, index, query);
      assert key == query ==> StartsWithFolded(key, query);
      forall j | j in Found(order, index, query)
        ensures exists i :: 0 <= i < |order| && StartsWithFolded(order[i], query) && index[order[i]] == j
      {
        if j in Found(init, index, query) {
          var i :| 0 <= i < |init| && StartsWithFolded(init[i], query) && index[init[i]] == j;
          assert order[i] == init[i];
        } else {
          assert StartsWithFolded(order[|order| - 1], query) && index[order[|order| - 1]] == j;
        }
      }
      forall i | 0 <= i < |order| && StartsWithFolded(order[i], query)
        ensures index[order[i]] in Found(order, index, query)
      {
        if i < |order| - 1 {
          assert init[i] == order[i];
        }
      }
    }
  }

  // ----- sorting -----

  /** `items` in the order `sort(a, b)` asks for, with `sort(a, b) = rank(a) - rank(b)`. */
  predicate SortedBy(s: seq<Js>, rank: Js -> int) {
    forall i, j | 0 <= i < j < |s| :: rank(s[i]) <= rank(s[j])
  }

  /** `items.sort(sort)`: insertion sort, which keeps entries of equal rank in their order. */
  method SortByRank(s: seq<Js>, rank: Js -> int) returns (r: seq<Js>)
    ensures SortedBy(r, rank)
    ensures multiset(r) == multiset(s)
  {
    r := [];
    var i := 0;
    while i < |s|
      invariant 0 <= i <= |s|
      invariant SortedBy(r, rank)
      invariant multiset(r) == multiset(s[..i])
    {
      r := Insert(r, s[i], rank);
      assert s[..i + 1] == s[..i] + [s[i]];
      i := i + 1;
    }
    assert s[..|s|] == s;
  }

  /** Inserts `x` after every entry whose rank is not larger. */
  method Insert(r: seq<Js>, x: Js, rank: Js -> int) returns (t: seq<Js>)
    requires SortedBy(r, rank)
    ensures SortedBy(t, rank)
    ensures multiset(t) == multiset(r) + multiset{x}
  {
    var j := 0;
    while j < |r| && rank(r[j]) <= rank(x)
      invariant 0 <= j <= |r|
      invariant forall i | 0 <= i < j :: rank(r[i]) <= rank(x)
    {
      j := j + 1;
    }
    t := r[..j] + [x] + r[j..];
    assert r == r[..j] + r[j..];
    SortedInsert(r, x, rank, j);
  }

  lemma SortedInsert(r: seq<Js>, x: Js, rank: Js -> int, j: nat)
    requires SortedBy(r, rank) && j <= |r|
    requires forall i | 0 <= i < j :: rank(r[i]) <= rank(x)
    requires j < |r| ==> rank(x) < rank(r[j])
    ensures SortedBy(r[..j] + [x] + r[j..], rank)
  {
    var t := r[..j] + [x] + r[j..];
    assert forall i | 0 <= i < |t| :: t[i] == if i < j then r[i] else if i == j then x else r[i - 1];
    assert forall i | j < i < |t| :: rank(x) <= rank(t[i]);
  }
}
