// The Collection class: an ordered list of entries (`items`) beside an index
// (`_map`) from property keys to entries. The class extends Model in the
// source; of its Model part, the two settings `add` reads (`model` and `sort`)
// are constants here, and the events it triggers are logged.

module Collections {
  import opened JsValues
  import opened MergeDiff
  import opened Models
  import opened KeyedStore

  class Collection {
    /** the identity of the collection, as the value `_parentCache` refers to */
    const ref: nat
    /** `this.model` is set: new entries are wrapped in models */
    const wrap: bool
    /** `this.sort`, as the rank its comparator `(a, b) => rank(a) - rank(b)` compares */
    const rank: Option<Js -> int>
    /** `this.items` */
    var items: seq<Js>
    /** `this._map` */
    var index: map<string, Js>
    /** the "add" and "remove" events triggered so far */
    var emitted: seq<StoreEvent>

    /** No entry is undefined or null (`add` never stores one). */
    ghost predicate Valid()
      reads this
    {
      NoNullishEntries(items, index)
    }

    /** The models the index holds, which `add`, `update` and `remove` act on. */
    function Members(): set<Model>
      reads this
    {
      ModelsIn(index)
    }

    /** The models a member's `destroy` reaches: those it listens to and those listening to it. */
    function Neighbours(): set<Model>
      reads this, Members()
    {
      set m, r | m in Members() && r in m.Remotes() + m.HookOwners() :: r
    }

    /** What `add` depends on besides the batch. */
    function Config(draws: nat -> Fresh, gen: nat -> string): AddConfig {
      AddConfig(wrap, Obj(ref, false, map[]), draws, gen)
    }

    /**
     * `new Collection(items, ...configs)`: starts empty whatever the configs
     * say, then adds `initial` when it is truthy.
     */
    constructor(initial: Objects, ref: nat, wrap: bool, rank: Option<Js -> int>, draws: nat -> Fresh, gen: nat -> string)
      requires ObjectsTruthy(initial) ==>
        DistinctObjects(Batch(initial)) &&
        AddOutcome([], map[], SeenAll(Batch(initial)), AddConfig(wrap, Obj(ref, false, map[]), draws, gen)).ok
      modifies ModelsOf(Batch(initial))
      ensures Valid()
      ensures this.ref == ref && this.wrap == wrap && this.rank == rank
      ensures !ObjectsTruthy(initial) ==> items == [] && index == map[] && emitted == []
      ensures !ObjectsTruthy(initial) ==> forall m | m in ModelsOf(Batch(initial)) :: m.State() == old(m.State())
      ensures ObjectsTruthy(initial) ==> exists made: seq<Js>, result: Added ::
        AddsUp(AddOutcome([], map[], old(SeenAll(Batch(initial))), Config(draws, gen)), made, result, [])
      ensures ObjectsTruthy(initial) && !wrap ==> forall m | m in ModelsOf(Batch(initial)) ::
        m.State() == AfterUpdates(old(m.State()),
          HitData(m, AddOutcome([], map[], old(SeenAll(Batch(initial))), Config(draws, gen)).added, Batch(initial), wrap))
      ensures ObjectsTruthy(initial) && wrap ==> forall m | m in ModelsOf(Batch(initial)) ::
        m.State() == TagState(old(m.State()), Obj(ref, false, map[]))
    {
      ghost var seen := SeenAll(Batch(initial));
      this.ref := ref;
      this.wrap := wrap;
      this.rank := rank;
      items := [];
      index := map[];
      emitted := [];
      new;
      if ObjectsTruthy(initial) {
        assert Members() == {} && Config(draws, gen) == AddConfig(wrap, Obj(ref, false, map[]), draws, gen);
        assert SeenAll(Batch(initial)) == seen;
        assert forall m | m in ModelsOf(Batch(initial)) :: m.State() == old(m.State());
        var result, made := Add(initial, draws, gen);
      }
    }

    /** `empty()`: drops every entry, without destroying models or triggering "remove". */
    method Empty()
      modifies this`items, this`index
      ensures items == [] && index == map[]
      ensures Valid()
    {
      index := map[];
      items := [];
    }

    /**
     * `index(i)`: the item at `i`, counted from the end when `i` is
     * negative; None (undefined) when out of range or when the item is falsy.
     */
    function Index(i: int): (r: Option<Js>)
      reads this
      ensures r.Some? ==> r.value in items && JsTruthy(r.value)
      ensures 0 <= i < |items| && JsTruthy(items[i]) ==> r == Some(items[i])
      ensures -|items| <= i < 0 && JsTruthy(items[|items| + i]) ==> r == Some(items[|items| + i])
      ensures 0 <= i < |items| && !JsTruthy(items[i]) ==> r.None?
      ensures -|items| <= i < 0 && !JsTruthy(items[|items| + i]) ==> r.None?
      ensures i < -|items| || |items| <= i ==> r.None?
    {
      var j := if i < 0 then |items| + i else i;
      if 0 <= j < |items| && JsTruthy(items[j]) then Some(items[j]) else None
    }

    /** `first()` */
    function First(): (r: Option<Js>)
      reads this
      ensures items == [] ==> r.None?
      ensures items != [] && JsTruthy(items[0]) ==> r == Some(items[0])
      ensures items != [] && !JsTruthy(items[0]) ==> r.None?
    {
      Index(0)
    }

    /** `last()` */
    function Last(): (r: Option<Js>)
      reads this
      ensures items == [] ==> r.None?
      ensures items != [] && JsTruthy(items[|items| - 1]) ==> r == Some(items[|items| - 1])
      ensures items != [] && !JsTruthy(items[|items| - 1]) ==> r.None?
    {
      Index(-1)
    }

    /** `ids()`: the keys of the index (their order is not modelled). */
    function Ids(): (ids: set<string>)
      reads this
      ensures forall k :: k in ids <==> k in index
    {
      index.Keys
    }

    /** `length`: the number of items, whatever the index holds. */
    function Length(): (n: nat)
      reads this
      ensures n == |items|
    {
      |items|
    }

    /** `get(idOrObject)`, where the argument may be a model; a null argument throws. */
    function Get(x: Js): (r: Option<Js>)
      reads this, if x.Inst? then {x.m} else {}
      requires !(x.Val? && x.v.Null?)
      ensures r.Some? ==> r.value in index.Values
      ensures x.Val? && x.v.Str? && x.v.s in index ==> r == Some(index[x.v.s])
      ensures x.Val? && x.v.Str? && x.v.s !in index ==> r.None?
      ensures x.Val? && x.v.Obj? && Truthy(JsValues.Get(x.v.fields, "id")) ==>
        (r.Some? <==> ToStr(x.v.fields["id"]) in index)
      ensures x == Val(Undefined) ==> r.None?
      ensures x.Inst? && Truthy(JsValues.Get(x.m.props, "id")) ==>
        (r.Some? <==> ToStr(JsValues.Get(x.m.props, "id")) in index)
    {
      Lookup(index, AsValue(SeenOf(x)))
    }

    /**
     * The store, the events and the result are those an `add` call with the
     * account `out` leaves, given the entries `made` for its batch: the items
     * of the account, sorted when `sort` is set, the index of the account, and
     * one "add" event with the entries added.
     */
    ghost predicate AddsUp(out: AddState, made: seq<Js>, result: Added, before: seq<StoreEvent>)
      reads this
    {
      index == ConcreteIndex(out.index, made) &&
      (rank.None? ==> items == Concretes(out.items, made)) &&
      (rank.Some? ==> SortedBy(items, rank.value)) &&
      multiset(items) == multiset(Concretes(out.items, made)) &&
      emitted == before + [AddEvent(Concretes(out.added, made))] &&
      result == AddResult(Concretes(out.added, made))
    }

    /**
     * `add(objects)`: the loop at `collection.js` lines 136-163, then the sort,
     * then the "add" event. The result and the new state are the account
     * `AddOutcome` of the call, with the ghost `made` holding the entry made for
     * each element of the batch; each model the store held (or, without
     * `model`, the batch holds) has been updated with the values of the batch
     * that found it, in order, and is otherwise as it was; with `model` set,
     * each model of the batch has been tagged with `_parentCache` and wrapped.
     */
    method Add(objects: Objects, draws: nat -> Fresh, gen: nat -> string) returns (result: Added, ghost made: seq<Js>)
      requires Valid() && DistinctObjects(Batch(objects))
      requires wrap ==> ModelsOf(Batch(objects)) !! Members()
      requires AddOutcome(items, index, SeenAll(Batch(objects)), Config(draws, gen)).ok
      modifies this`items, this`index, this`emitted, Members(), ModelsOf(Batch(objects))
      ensures Valid() && |made| == |Batch(objects)|
      ensures AddsUp(AddOutcome(old(items), old(index), old(SeenAll(Batch(objects))), Config(draws, gen)), made, result, old(emitted))
      ensures !wrap ==> forall q | 0 <= q < |made| :: made[q] == Batch(objects)[q]
      ensures WrapsFit(made, AddOutcome(old(items), old(index), old(SeenAll(Batch(objects))), Config(draws, gen)), Config(draws, gen),
                       Batch(objects))
      ensures forall m | m in old(Members()) ::
        m.State() == AfterUpdates(old(m.State()),
          HitData(m, AddOutcome(old(items), old(index), old(SeenAll(Batch(objects))), Config(draws, gen)).added, Batch(objects), wrap))
      ensures !wrap ==> forall m | m in ModelsOf(Batch(objects)) ::
        m.State() == AfterUpdates(old(m.State()),
          HitData(m, AddOutcome(old(items), old(index), old(SeenAll(Batch(objects))), Config(draws, gen)).added, Batch(objects), wrap))
      ensures wrap ==> forall m | m in ModelsOf(Batch(objects)) :: m.State() == TagState(old(m.State()), Obj(ref, false, map[]))
    {
      var batch := Batch(objects);
      var added;
      ghost var out := AddOutcome(items, index, SeenAll(batch), Config(draws, gen));
      if wrap {
        OutsideOf(batch, Members());
      }
      added, made := AddAll(batch, draws, gen);
      result := Settle(added, out, made, old(Members()) + ModelsOf(batch));
    }

    /** The end of `add`: the sort, when `sort` is set, then the "add" event and the result. */
    method Settle(added: seq<Js>, ghost out: AddState, ghost made: seq<Js>, ghost models: set<Model>) returns (result: Added)
      requires items == Concretes(out.items, made) && index == ConcreteIndex(out.index, made)
      requires added == Concretes(out.added, made) && Valid()
      modifies this`items, this`emitted
      ensures Valid() && AddsUp(out, made, result, old(emitted))
      ensures forall m | m in models :: m.State() == old(m.State())
    {
      if rank.Some? {
        ghost var unsorted := items;
        items := SortByRank(items, rank.value);
        assert forall j | j in items :: j in multiset(unsorted);
      }
      emitted := emitted + [AddEvent(added)];
      result := AddResult(added);
    }

    /** The loop of `add` and what it does to the models. */
    method AddAll(batch: seq<Js>, draws: nat -> Fresh, gen: nat -> string) returns (added: seq<Js>, ghost made: seq<Js>)
      requires Valid() && DistinctObjects(batch) && AddOutcome(items, index, SeenAll(batch), Config(draws, gen)).ok
      requires wrap ==> Outside(batch, Members())
      modifies this`items, this`index, Members(), ModelsOf(batch)
      ensures |made| == |batch|
      ensures Tracks(items, index, added, batch, Config(draws, gen),
                     AddOutcome(old(items), old(index), old(SeenAll(batch)), Config(draws, gen)), made)
      ensures forall m | m in old(Members()) ::
        m.State() == AfterUpdates(old(m.State()),
          HitData(m, AddOutcome(old(items), old(index), old(SeenAll(batch)), Config(draws, gen)).added, batch, wrap))
      ensures !wrap ==> forall m | m in ModelsOf(batch) ::
        m.State() == AfterUpdates(old(m.State()),
          HitData(m, AddOutcome(old(items), old(index), old(SeenAll(batch)), Config(draws, gen)).added, batch, wrap))
      ensures wrap ==> forall m | m in ModelsOf(batch) :: m.State() == TagState(old(m.State()), Obj(ref, false, map[]))
    {
      ghost var seen := SeenAll(batch);
      ghost var probes := Probes(seen, Config(draws, gen));
      ProbesDescribe(seen, Config(draws, gen));
      SeenAllFits(batch);
      ghost var members := Members() + (if wrap then {} else ModelsOf(batch));
      ghost var start := StatesOf(Members() + ModelsOf(batch));
      SeenAllFrom(batch, start);
      assert wrap ==> TaggedUpTo(batch, 0, start, Obj(ref, false, map[]));
      ghost var st0 := Start(items, index);
      ghost var st;
      added, made, st := AddLoop(batch, draws, gen, seen, probes, members, start, st0);
      assert Going(1, batch, Config(draws, gen), seen, probes, members, start, st0, |batch|, st, added, made);
      assert Going(0, batch, Config(draws, gen), seen, probes, members, start, st0, |batch|, st, added, made);
      assert st == Outcome(old(items), old(index), probes, wrap);
      ExpectedStates(members, start, st.added, batch, wrap);
      if wrap {
        TaggedAll(batch, start, Obj(ref, false, map[]));
      }
    }

    /**
     * The loop of `add` after `p` iterations, from the account `st0`: the
     * account is `st`, the store, the entries added and the entries made are
     * those of the account, the ids `add` reads of the batch stay, each
     * model of `members` has been updated with the values that found it, and
     * in a wrapping store the models of the batch seen so far are tagged. The
     * loop states it at `depth` 2, which the verifier unfolds only where a
     * proof asks for the layer below.
     */
    ghost predicate Going(depth: nat, batch: seq<Js>, cfg: AddConfig, seen: seq<Seen>, probes: seq<Probe>, members: set<Model>,
                          start: map<Model, ModelState>, st0: AddState, p: nat, st: AddState, added: seq<Js>, made: seq<Js>)
      reads this, members, ModelsOf(batch)
      decreases depth
    {
      if depth > 0 then Going(depth - 1, batch, cfg, seen, probes, members, start, st0, p, st, added, made)
      else
        p <= |batch| && |made| == p && |st.added| == p && p <= |probes| && st == Run(probes, cfg.wrap, st0, p) &&
        Tracks(items, index, added, batch, cfg, st, made) && SeenNow(seen, batch) && Apart(made, st, cfg.wrap, members) &&
        StatesAre(members, Expected(start, st.added, batch, cfg.wrap)) && SeenFrom(seen, batch, start) &&
        DistinctObjects(batch) && (cfg.wrap ==> Outside(batch, members) && Outside(batch, Members()) && TaggedUpTo(batch, p, start, cfg.parent))
    }

    /** The loop of `add` (`collection.js` lines 136-163). */
    method AddLoop(batch: seq<Js>, draws: nat -> Fresh, gen: nat -> string, ghost seen: seq<Seen>, ghost probes: seq<Probe>,
                   ghost members: set<Model>, ghost start: map<Model, ModelState>, ghost st0: AddState)
      returns (added: seq<Js>, ghost made: seq<Js>, ghost st: AddState)
      requires Valid() && Describes(probes, seen, Config(draws, gen)) && Fits(seen, batch) && SeenNow(seen, batch)
      requires Run(probes, wrap, st0, |probes|).ok && st0 == Start(items, index)
      requires members == Members() + (if wrap then {} else ModelsOf(batch)) && StatesAre(members, start) && members <= start.Keys
      requires wrap ==> Outside(batch, Members()) && TaggedUpTo(batch, 0, start, Config(draws, gen).parent)
      requires SeenFrom(seen, batch, start) && DistinctObjects(batch)
      modifies this`items, this`index, Members(), ModelsOf(batch)
      ensures Going(2, batch, Config(draws, gen), seen, probes, members, start, st0, |batch|, st, added, made)
    {
      ghost var cfg := Config(draws, gen);
      st := st0;
      added := [];
      made := [];
      GoingStart(batch, cfg, seen, probes, members, start);
      var p := 0;
      while p < |batch|
        invariant p <= |batch|
        invariant Going(2, batch, cfg, seen, probes, members, start, st0, p, st, added, made)
        invariant forall m | m in Members() :: m in members || fresh(m)
      {
        added, made := AddStep(batch, p, draws, gen, seen, probes, members, start, st0, st, made, added);
        st := Step(probes, wrap, st, p);
        p := p + 1;
      }
    }

    /** The loop starts from the store as it is, before any iteration. */
    lemma GoingStart(batch: seq<Js>, cfg: AddConfig, seen: seq<Seen>, probes: seq<Probe>, members: set<Model>,
                     start: map<Model, ModelState>)
      requires Valid() && SeenNow(seen, batch) && StatesAre(members, start) && SeenFrom(seen, batch, start) && DistinctObjects(batch)
      requires cfg.wrap ==> Outside(batch, members) && Outside(batch, Members()) && TaggedUpTo(batch, 0, start, cfg.parent)
      ensures Going(2, batch, cfg, seen, probes, members, start, Start(items, index), 0, Start(items, index), [], [])
    {
      ConcretesOfStart(items, index, []);
      StartShaped(items, index);
      assert Going(0, batch, cfg, seen, probes, members, start, Start(items, index), 0, Start(items, index), [], []);
    }

    /** One iteration of the loop of `add`, and the account advanced by it. */
    method AddStep(batch: seq<Js>, p: nat, draws: nat -> Fresh, gen: nat -> string, ghost seen: seq<Seen>,
                   ghost probes: seq<Probe>, ghost members: set<Model>, ghost start: map<Model, ModelState>,
                   ghost st0: AddState, ghost st: AddState, ghost made: seq<Js>, added: seq<Js>)
      returns (added': seq<Js>, ghost made': seq<Js>)
      requires p < |batch| && Describes(probes, seen, Config(draws, gen)) && Fits(seen, batch)
      requires Going(2, batch, Config(draws, gen), seen, probes, members, start, st0, p, st, added, made)
      requires Run(probes, wrap, st0, |probes|).ok && members <= start.Keys
      modifies this`items, this`index, Members(), if wrap && batch[p].Inst? then {batch[p].m} else {}
      ensures Going(2, batch, Config(draws, gen), seen, probes, members, start, st0, p + 1, Step(probes, wrap, st, p), added', made')
      ensures forall m | m in Members() :: m in old(Members()) || (!wrap && m in ModelsOf(batch)) || fresh(m)
    {
      assert Going(1, batch, Config(draws, gen), seen, probes, members, start, st0, p, st, added, made);
      assert Going(0, batch, Config(draws, gen), seen, probes, members, start, st0, p, st, added, made);
      assert |made| == p;
      OkPrefix(probes, wrap, st0, p + 1, |batch|);
      StepGrows(probes, wrap, st, p);
      ghost var cur := Expected(start, st.added, batch, wrap);
      added', made' := AddOne(batch, p, draws, gen, seen, probes, st, made, added, members, cur, start);
      StepAdds(probes, wrap, st, p);
      ExpectedAdvance(members, start, st.added, StepSlot(probes, wrap, st, p), batch, wrap);
      assert Going(0, batch, Config(draws, gen), seen, probes, members, start, st0, p + 1, Step(probes, wrap, st, p), added', made');
    }

    /** One iteration of the loop of `add`, on the batch's element at `p`: `get(obj)`, then a hit or a miss. */
    method AddOne(batch: seq<Js>, p: nat, draws: nat -> Fresh, gen: nat -> string, ghost seen: seq<Seen>,
                  ghost probes: seq<Probe>, ghost st: AddState, ghost made: seq<Js>, added: seq<Js>,
                  ghost members: set<Model>, ghost cur: map<Model, ModelState>, ghost start: map<Model, ModelState>)
      returns (added': seq<Js>, ghost made': seq<Js>)
      requires p < |batch| && |made| == p && Describes(probes, seen, Config(draws, gen)) && Fits(seen, batch)
      requires Tracks(items, index, added, batch, Config(draws, gen), st, made)
      requires Step(probes, wrap, st, p).ok && SeenNow(seen, batch) && Apart(made, st, wrap, members)
      requires |st.added| == p && StatesAre(members, cur) && SeenFrom(seen, batch, start) && DistinctObjects(batch)
      requires wrap ==> Outside(batch, members) && Outside(batch, Members()) && TaggedUpTo(batch, p, start, Config(draws, gen).parent)
      modifies this`items, this`index, Members(), if wrap && batch[p].Inst? then {batch[p].m} else {}
      ensures Tracks(items, index, added', batch, Config(draws, gen), Step(probes, wrap, st, p), made')
      ensures |made'| == p + 1
      ensures forall m | m in Members() :: m in old(Members()) || (!wrap && m in ModelsOf(batch)) || fresh(m)
      ensures SeenNow(seen, batch) && Apart(made', Step(probes, wrap, st, p), wrap, members)
      ensures StatesAre(members, Advance(cur, StepSlot(probes, wrap, st, p), p, batch, wrap))
      ensures wrap ==> Outside(batch, Members()) && TaggedUpTo(batch, p + 1, start, Config(draws, gen).parent)
    {
      StepOk(probes, wrap, st, p);
      ProbeNullish(probes, seen, Config(draws, gen), p);
      var x := batch[p];
      var cached := Get(x);
      HitAgrees(items, index, added, batch, seen, probes, Config(draws, gen), st, p, made);
      if cached.Some? && JsTruthy(cached.value) {
        added', made' := AddFound(batch, p, cached.value, draws, gen, seen, probes, st, made, added, members, cur, start);
      } else {
        added', made' := AddNew(batch, p, draws, gen, seen, probes, st, made, added, members, cur, start);
        AdvanceMiss(cur, p, batch, wrap);
      }
    }

    /** A duplicate (`collection.js` lines 142-146): the model found is updated with the value. */
    method AddFound(batch: seq<Js>, p: nat, c: Js, draws: nat -> Fresh, gen: nat -> string, ghost seen: seq<Seen>,
                    ghost probes: seq<Probe>, ghost st: AddState, ghost made: seq<Js>, added: seq<Js>,
                    ghost members: set<Model>, ghost cur: map<Model, ModelState>, ghost start: map<Model, ModelState>)
      returns (added': seq<Js>, ghost made': seq<Js>)
      requires p < |batch| && |made| == p && Describes(probes, seen, Config(draws, gen)) && Fits(seen, batch)
      requires Tracks(items, index, added, batch, Config(draws, gen), st, made)
      requires Step(probes, wrap, st, p).ok && SeenNow(seen, batch) && Apart(made, st, wrap, members)
      requires |st.added| == p && StatesAre(members, cur)
      requires wrap ==> Outside(batch, Members()) && TaggedUpTo(batch, p, start, Config(draws, gen).parent)
      requires !SeenNullish(seen[p]) && Hit(st, probes[p], probes, wrap)
      requires Lookup(index, AsValue(seen[p])) == Some(c)
      modifies Members()
      ensures Tracks(items, index, added', batch, Config(draws, gen), Step(probes, wrap, st, p), made')
      ensures |made'| == p + 1
      ensures forall m | m in Members() :: m in old(Members()) || (!wrap && m in ModelsOf(batch)) || fresh(m)
      ensures SeenNow(seen, batch) && Apart(made', Step(probes, wrap, st, p), wrap, members)
      ensures StatesAre(members, Advance(cur, StepSlot(probes, wrap, st, p), p, batch, wrap))
      ensures wrap ==> Outside(batch, Members()) && TaggedUpTo(batch, p + 1, start, Config(draws, gen).parent)
    {
      ghost var cfg := Config(draws, gen);
      StepGrows(probes, wrap, st, p);
      TrackHit(items, index, added, batch, seen, probes, cfg, st, p, made);
      ghost var slot := st.index[probes[p].key];
      assert c.m in Members() by {
        assert index[LookupKey(AsValue(seen[p]))] == c;
      }
      NoNullishMergeable(c.m.props, Stripped(batch[p].v));
      assert wrap ==> Outside(batch, {c.m});
      UpdateFound(c.m, batch[p].v, slot, made, batch, seen, st, members, cur, wrap, start, cfg.parent);
      ApartGrows(made, st, Step(probes, wrap, st, p), wrap, members, if wrap then c else batch[p]);
      added' := added + [c];
      made' := made + [if wrap then c else batch[p]];
    }

    /** A new entry (`collection.js` lines 148-161), made by `Place`. */
    method AddNew(batch: seq<Js>, p: nat, draws: nat -> Fresh, gen: nat -> string, ghost seen: seq<Seen>,
                  ghost probes: seq<Probe>, ghost st: AddState, ghost made: seq<Js>, added: seq<Js>,
                  ghost members: set<Model>, ghost cur: map<Model, ModelState>, ghost start: map<Model, ModelState>)
      returns (added': seq<Js>, ghost made': seq<Js>)
      requires p < |batch| && |made| == p && Describes(probes, seen, Config(draws, gen)) && Fits(seen, batch)
      requires Tracks(items, index, added, batch, Config(draws, gen), st, made)
      requires Step(probes, wrap, st, p).ok && SeenNow(seen, batch) && Apart(made, st, wrap, members)
      requires |st.added| == p && StatesAre(members, cur) && SeenFrom(seen, batch, start) && DistinctObjects(batch)
      requires wrap ==> Outside(batch, members) && Outside(batch, Members()) && TaggedUpTo(batch, p, start, Config(draws, gen).parent)
      requires !SeenNullish(seen[p]) && !Hit(st, probes[p], probes, wrap)
      modifies this`items, this`index, if wrap && batch[p].Inst? then {batch[p].m} else {}
      ensures Tracks(items, index, added', batch, Config(draws, gen), Step(probes, wrap, st, p), made')
      ensures |made'| == p + 1
      ensures forall m | m in Members() :: m in old(Members()) || (!wrap && m in ModelsOf(batch)) || fresh(m)
      ensures SeenNow(seen, batch) && Apart(made', Step(probes, wrap, st, p), wrap, members)
      ensures StatesAre(members, cur) && StepSlot(probes, wrap, st, p) == Made(p)
      ensures wrap ==> Outside(batch, Members()) && TaggedUpTo(batch, p + 1, start, Config(draws, gen).parent)
    {
      ghost var cfg := Config(draws, gen);
      StepGrows(probes, wrap, st, p);
      StepOk(probes, wrap, st, p);
      ProbeWrappable(probes, seen, cfg, p);
      var e := PlaceAt(batch, p, draws, gen, seen, members, cur, start);
      ApartGrows(made, st, Step(probes, wrap, st, p), wrap, members, e);
      TrackMiss(old(items), old(index), added, batch, seen, probes, cfg, st, p, made, e);
      added' := added + [e];
      made' := made + [e];
    }

    /** `Place` for the element at `p`, and what that leaves of the models the loop of `add` follows. */
    method PlaceAt(batch: seq<Js>, p: nat, draws: nat -> Fresh, gen: nat -> string, ghost seen: seq<Seen>,
                   ghost members: set<Model>, ghost cur: map<Model, ModelState>, ghost start: map<Model, ModelState>)
      returns (e: Js)
      requires p < |batch| && Fits(seen, batch) && SeenNow(seen, batch) && SeenFrom(seen, batch, start) && DistinctObjects(batch)
      requires !SeenNullish(seen[p]) && StatesAre(members, cur)
      requires wrap ==> WrapReady(Whole(seen[p]), Config(draws, gen), p)
      requires wrap ==> Outside(batch, members) && Outside(batch, Members()) && TaggedUpTo(batch, p, start, Config(draws, gen).parent)
      modifies this`items, this`index, if wrap && batch[p].Inst? then {batch[p].m} else {}
      ensures !wrap ==> e == batch[p]
      ensures wrap ==> e.Inst? && fresh(e.m) && e.m.internalId == MadeIid(batch[p], Config(draws, gen), p)
      ensures items == old(items) + [e] && index == old(index)[MadeKey(seen[p], Config(draws, gen), p) := e]
      ensures forall m | m in Members() :: m in old(Members()) || (!wrap && m in ModelsOf(batch)) || fresh(m)
      ensures StatesAre(members, cur) && SeenNow(seen, batch)
      ensures wrap ==> Outside(batch, Members()) && TaggedUpTo(batch, p + 1, start, Config(draws, gen).parent)
    {
      PlaceReady(batch, p, seen, start, wrap, Config(draws, gen).parent);
      var x := batch[p];
      assert wrap && x.Inst? ==> x.m !in members;
      ghost var others := members + ModelsOf(batch) - (if wrap && x.Inst? then {x.m} else {});
      e := Place(x, p, draws, gen, seen[p], others, batch, seen);
      if wrap {
        // only the model at `p` was tagged, and it is no other position's model
        forall q | 0 <= q < |batch| && batch[q].Inst?
          ensures batch[q].m in start
          ensures batch[q].m.State() == if q < p + 1 then TagState(start[batch[q].m], Config(draws, gen).parent) else start[batch[q].m]
        {
          if q != p && x.Inst? {
            if q < p {
              assert batch[q].m != x.m;
            } else {
              assert x.m != batch[q].m;
            }
            assert batch[q].m in ModelsOf(batch);
          }
        }
      }
      ModelsInUpdate(old(index), MadeKey(seen[p], Config(draws, gen), p), e);
      if !wrap && x.Inst? {
        assert x.m in ModelsOf(batch);
      }
    }

    /**
     * An element `add` did not find (`collection.js` lines 149-161): with
     * `model` set, the element is wrapped by `Wrap`; the entry is appended to
     * the items and stored under its id, or under a generated key when it has
     * none.
     */
    method Place(x: Js, p: nat, draws: nat -> Fresh, gen: nat -> string, ghost s: Seen, ghost others: set<Model>,
                 ghost batch: seq<Js>, ghost seen: seq<Seen>) returns (e: Js)
      requires !JsNullish(x) && (x.Val? ==> s == SeenVal(x.v))
      requires wrap && x.Inst? ==> x.m !in others
      requires p < |batch| && batch[p] == x && SeenNow(seen, batch)
      requires forall m | m in ModelsOf(batch) :: m in others || (wrap && x.Inst? && m == x.m)
      requires x.Inst? ==> s.SeenModel? && JsValues.Get(s.props, "id") == JsValues.Get(x.m.props, "id")
      requires x.Inst? && wrap ==>
        x.m.props["_parentCache" := Obj(ref, false, map[])] == s.props["_parentCache" := Obj(ref, false, map[])]
      requires wrap ==> WrapReady(Whole(s), Config(draws, gen), p)
      modifies this`items, this`index, if wrap && x.Inst? then {x.m} else {}
      ensures !wrap ==> e == x
      ensures wrap ==> e.Inst? && fresh(e.m) && e.m.internalId == MadeIid(x, Config(draws, gen), p)
      ensures wrap ==>
        e.m.State() == ModelState(Constructed([Tagged(Whole(s), Obj(ref, false, map[]))], draws(p)), multiset{}, map[], [])
      ensures wrap && x.Inst? ==> x.m.State() == TagState(old(x.m.State()), Obj(ref, false, map[]))
      ensures items == old(items) + [e]
      ensures index == old(index)[MadeKey(s, Config(draws, gen), p) := e]
      ensures forall m | m in others :: m.State() == old(m.State())
      ensures SeenNow(seen, batch)
    {
      if wrap {
        e := Wrap(x, p, draws, gen, s, others, batch, seen);
      } else {
        e := x;
        assert IdOf(e) == MadeId(s, Config(draws, gen), p);
      }
      var oid := KeyOf(e, p, gen, s, Config(draws, gen));
      Store(e, oid);
    }

    /** The key a new entry is stored under: its id as a string, or a generated one. */
    method KeyOf(e: Js, p: nat, gen: nat -> string, ghost s: Seen, ghost cfg: AddConfig) returns (oid: string)
      requires !JsNullish(e) && !SeenNullish(s) && cfg.gen == gen && IdOf(e) == MadeId(s, cfg, p)
      ensures oid == MadeKey(s, cfg, p)
    {
      var id := IdOf(e);
      oid := if Truthy(id) then ToStr(id) else GeneratedKey(gen(p));
      KeyOfMadeId(s, cfg, p, id);
    }

    /** The end of one iteration of `add`: the entry is appended to the items and stored under `oid`. */
    method Store(e: Js, oid: string)
      modifies this`items, this`index
      ensures items == old(items) + [e] && index == old(index)[oid := e]
    {
      items := items + [e];
      index := index[oid := e];
    }

    /**
     * The wrapping step of `add` (`collection.js`
     * lines 150-151): the element is tagged with `_parentCache` and a new
     * model is built from it, a model element lending the new model its
     * attributes and its internal id.
     */
    method Wrap(x: Js, p: nat, draws: nat -> Fresh, gen: nat -> string, ghost s: Seen, ghost others: set<Model>,
                ghost batch: seq<Js>, ghost seen: seq<Seen>) returns (e: Js)
      requires wrap && !JsNullish(x) && (x.Val? ==> s == SeenVal(x.v))
      requires x.Inst? ==> x.m !in others
      requires p < |batch| && batch[p] == x && SeenNow(seen, batch)
      requires forall m | m in ModelsOf(batch) :: m in others || (x.Inst? && m == x.m)
      requires x.Inst? ==> s.SeenModel?
      requires x.Inst? ==>
        x.m.props["_parentCache" := Obj(ref, false, map[])] == s.props["_parentCache" := Obj(ref, false, map[])]
      requires WrapReady(Whole(s), Config(draws, gen), p)
      modifies if x.Inst? then {x.m} else {}
      ensures e.Inst? && fresh(e.m) && e.m.internalId == MadeIid(x, Config(draws, gen), p)
      ensures e.m.State() == ModelState(Constructed([Tagged(Whole(s), Obj(ref, false, map[]))], draws(p)), multiset{}, map[], [])
      ensures x.Inst? ==> x.m.State() == TagState(old(x.m.State()), Obj(ref, false, map[]))
      ensures IdOf(e) == MadeId(s, Config(draws, gen), p)
      ensures forall m | m in others :: m.State() == old(m.State())
      ensures SeenNow(seen, batch)
    {
      var parent := Obj(ref, false, map[]);
      if x.Inst? {
        x.m.props := x.m.props["_parentCache" := parent];
        assert Obj(0, false, x.m.props) == Tagged(Whole(s), parent);
        var m := new Model.FromModel(x.m, draws(p));
        e := Inst(m);
        // tagging adds `_parentCache`, and leaves the `id` the batch is read by
        forall q | 0 <= q < |batch|
          ensures AsValue(seen[q]) == AsValue(SeenOf(batch[q]))
        {
          assert AsValue(seen[q]) == old(AsValue(SeenOf(batch[q])));
          if batch[q].Inst? && batch[q].m != x.m {
            assert batch[q].m in ModelsOf(batch);
          }
        }
      } else {
        var m := new Model([Tagged(x.v, parent)], draws(p));
        e := Inst(m);
      }
    }

    /**
     * `update(data)`: with a truthy `data.id` that finds a truthy entry, that
     * entry (a model) is updated with the data and returned, the store and
     * every other model staying as they are; otherwise the result is that of
     * `add(data)`.
     */
    method Update(data: Value, draws: nat -> Fresh, gen: nat -> string) returns (result: Added, ghost made: seq<Js>)
      requires Valid() && !Nullish(data)
      requires UpdateTarget(index, GetProp(data, "id")).Some? ==>
        UpdateTarget(index, GetProp(data, "id")).value.Inst? &&
        Mergeable(UpdateTarget(index, GetProp(data, "id")).value.m.props, Stripped(data))
      requires UpdateTarget(index, GetProp(data, "id")).None? ==>
        DistinctObjects(Batch(Single(Val(data)))) &&
        AddOutcome(items, index, SeenAll(Batch(Single(Val(data)))), Config(draws, gen)).ok
      modifies this`items, this`index, this`emitted, Members()
      ensures Valid()
      ensures old(UpdateTarget(index, GetProp(data, "id"))).Some? ==>
        var c := old(UpdateTarget(index, GetProp(data, "id"))).value;
        result == One(c) && items == old(items) && index == old(index) && emitted == old(emitted) &&
        c.m.State() == AfterUpdate(old(c.m.State()), data) &&
        forall m | m in old(Members()) && m != c.m :: m.State() == old(m.State())
      ensures old(UpdateTarget(index, GetProp(data, "id"))).None? ==>
        |made| == |Batch(Single(Val(data)))| &&
        AddsUp(AddOutcome(old(items), old(index), SeenAll(Batch(Single(Val(data)))), Config(draws, gen)), made, result, old(emitted)) &&
        forall m | m in old(Members()) ::
          m.State() == AfterUpdates(old(m.State()),
            HitData(m, AddOutcome(old(items), old(index), SeenAll(Batch(Single(Val(data)))), Config(draws, gen)).added, Batch(Single(Val(data))), wrap))
    {
      var key := GetProp(data, "id");
      if Truthy(key) {
        var item := Get(Val(key));
        if item.Some? && JsTruthy(item.value) {
          var c := item.value;
          assert c.m in Members() by {
            assert index[LookupKey(key)] == c;
          }
          var _ := c.m.Update(data);
          result := One(c);
          made := [];
          return;
        }
      }
      result, made := AddData(data, draws, gen);
    }

    /** The miss path of `update` (`collection.js` line 223): `add(data)`, with the state `add` gives each member. */
    method AddData(data: Value, draws: nat -> Fresh, gen: nat -> string) returns (result: Added, ghost made: seq<Js>)
      requires Valid() && !Nullish(data)
      requires DistinctObjects(Batch(Single(Val(data)))) &&
        AddOutcome(items, index, SeenAll(Batch(Single(Val(data)))), Config(draws, gen)).ok
      modifies this`items, this`index, this`emitted, Members()
      ensures Valid()
      ensures |made| == |Batch(Single(Val(data)))| &&
        AddsUp(AddOutcome(old(items), old(index), SeenAll(Batch(Single(Val(data)))), Config(draws, gen)), made, result, old(emitted)) &&
        forall m | m in old(Members()) ::
          m.State() == AfterUpdates(old(m.State()),
            HitData(m, AddOutcome(old(items), old(index), SeenAll(Batch(Single(Val(data)))), Config(draws, gen)).added, Batch(Single(Val(data))), wrap))
    {
      ValsHoldNoModels(Batch(Single(Val(data))));
      ghost var seen := SeenAll(Batch(Single(Val(data))));
      result, made := Add(Single(Val(data)), draws, gen);
      assert SeenAll(Batch(Single(Val(data)))) == seen;
    }

    /**
     * The calls `forEach(callback)` makes, as (entry, position) pairs, where
     * `stop(entry, i)` stands for `callback(entry, i) === false`: the items in
     * order, up to and including the first one the callback stops at.
     */
    method ForEach(stop: (Js, nat) -> bool) returns (calls: seq<(Js, nat)>)
      ensures |calls| <= |items|
      ensures forall i | 0 <= i < |calls| :: calls[i] == (items[i], i)
      ensures forall i | 0 <= i < |calls| - 1 :: !stop(items[i], i)
      ensures |calls| < |items| ==> calls != [] && stop(items[|calls| - 1], |calls| - 1)
    {
      calls := [];
      var length := |items|;
      var i := 0;
      while i < length
        invariant 0 <= i <= length && |calls| == i
        invariant forall k | 0 <= k < i :: calls[k] == (items[k], k) && !stop(items[k], k)
      {
        calls := calls + [(items[i], i)];
        if stop(items[i], i) {
          return;
        }
        i := i + 1;
      }
    }

    /** `findByProperty(shape)`: the items that match the shape, in order. */
    method FindByProperty(shape: Value) returns (results: seq<Js>)
      requires Valid()
      ensures results == Matching(shape, items)
    {
      results := FindMatching(shape, items);
    }

    /** `getByProperty(shape)`: the first item that matches the shape, or None (null) when none does. */
    method GetByProperty(shape: Value) returns (r: Option<Js>)
      requires Valid()
      ensures r.None? <==> forall j | j in items :: !MatchesJs(shape, j)
      ensures r.Some? ==> r.value in items && MatchesJs(shape, r.value)
      ensures forall k | 0 <= k < |items| && MatchesJs(shape, items[k]) ::
        (forall i | 0 <= i < k :: !MatchesJs(shape, items[i])) ==> r == Some(items[k])
    {
      var found := FindByProperty(shape);
      MatchingHead(shape, items);
      if |found| > 0 {
        r := Some(found[0]);
      } else {
        r := None;
      }
    }

    /** `filter(cond)`: the items `cond` holds for, in order, without changing the collection. */
    function Filter(cond: Js -> bool): (r: seq<Js>)
      reads this
      ensures r == Kept(items, cond) && |r| <= |items|
      ensures forall j | j in r :: j in items && cond(j)
      ensures forall j | j in items && cond(j) :: j in r
    {
      KeptMembers(items, cond);
      Kept(items, cond)
    }

    /**
     * `remove(id, keepModel)`: on a hit, destroys a model entry unless
     * `keepModel` is truthy, deletes `_map[item.id]` (which is not the key
     * looked up when the entry has no id of its own) and triggers "remove";
     * `items` is never touched. A miss changes nothing. No model's attributes
     * change; the destroyed model's "destroy" reaches only the models it
     * listened to and those listening to it.
     */
    method Remove(id: Js, keepModel: bool) returns (ghost order: seq<string>)
      requires Valid() && !(id.Val? && id.v.Null?)
      modifies this`index, this`emitted, Members(), Neighbours()
      ensures Valid()
      ensures items == old(items)
      ensures old(Get(id)).None? ==> index == old(index) && emitted == old(emitted)
      ensures old(Get(id)).Some? ==>
        index == old(index) - {old(ToStr(IdOf(Get(id).value)))} &&
        emitted == old(emitted) + [RemoveEvent]
      ensures forall o | o in old(Members() + Neighbours()) :: o.props == old(o.props)
      ensures !(old(Get(id)).Some? && old(Get(id)).value.Inst? && !keepModel) ==>
        forall o | o in old(Members() + Neighbours()) :: o.State() == old(o.State())
      ensures old(Get(id)).Some? && old(Get(id)).value.Inst? && !keepModel ==>
        var m := old(Get(id)).value.m;
        m.emitted == old(m.emitted) + [Destroyed] && m.listeners == multiset{} && m.foreign == map[] &&
        (forall k :: k in order <==> k in old(m.PurgedForeign())) &&
        (forall o | o in old(m.HookOwners()) && o != m :: o.foreign == old(o.foreign) - {m.internalId}) &&
        (forall r | r in old(m.Remotes()) && r != m ::
          r.listeners == old(r.listeners) - Offs(r, Flatten(old(m.PurgedForeign()), order))) &&
        forall o | o in old(Members() + Neighbours()) && o != m ::
          o.emitted == old(o.emitted) &&
          (o !in old(m.Remotes()) ==> o.listeners == old(o.listeners)) &&
          (o !in old(m.HookOwners()) ==> o.foreign == old(o.foreign))
    {
      order := [];
      var item := Get(id);
      if item.Some? {
        order := Discard(item.value, keepModel);
      }
    }

    /** `remove` on a hit: the entry `c` found is dropped from the index, after its model is destroyed unless kept. */
    method Discard(c: Js, keepModel: bool) returns (ghost order: seq<string>)
      requires Valid() && c in index.Values
      modifies this`index, this`emitted, Members(), Neighbours()
      ensures Valid()
      ensures items == old(items)
      ensures index == old(index) - {old(ToStr(IdOf(c)))} && emitted == old(emitted) + [RemoveEvent]
      ensures forall o | o in old(Members() + Neighbours()) :: o.props == old(o.props)
      ensures !(c.Inst? && !keepModel) ==>
        forall o | o in old(Members() + Neighbours()) :: o.State() == old(o.State())
      ensures c.Inst? && !keepModel ==>
        var m := c.m;
        m.emitted == old(m.emitted) + [Destroyed] && m.listeners == multiset{} && m.foreign == map[] &&
        (forall k :: k in order <==> k in old(m.PurgedForeign())) &&
        (forall o | o in old(m.HookOwners()) && o != m :: o.foreign == old(o.foreign) - {m.internalId}) &&
        (forall r | r in old(m.Remotes()) && r != m ::
          r.listeners == old(r.listeners) - Offs(r, Flatten(old(m.PurgedForeign()), order))) &&
        forall o | o in old(Members() + Neighbours()) && o != m ::
          o.emitted == old(o.emitted) &&
          (o !in old(m.Remotes()) ==> o.listeners == old(o.listeners)) &&
          (o !in old(m.HookOwners()) ==> o.foreign == old(o.foreign))
    {
      order := [];
      var key := ToStr(IdOf(c));
      if !keepModel && c.Inst? {
        assert c.m in Members();
        order := Release(c.m);
      }
      index := index - {key};
      emitted := emitted + [RemoveEvent];
    }

    /** `item.destroy()` on a member of the store, as the members and their neighbours see it. */
    method Release(m: Model) returns (ghost order: seq<string>)
      requires m in Members()
      modifies Members(), Neighbours()
      ensures m.emitted == old(m.emitted) + [Destroyed] && m.listeners == multiset{} && m.foreign == map[]
      ensures forall k :: k in order <==> k in old(m.PurgedForeign())
      ensures forall o | o in old(m.HookOwners()) && o != m :: o.foreign == old(o.foreign) - {m.internalId}
      ensures forall r | r in old(m.Remotes()) && r != m ::
        r.listeners == old(r.listeners) - Offs(r, Flatten(old(m.PurgedForeign()), order))
      ensures forall o | o in old(Members() + Neighbours()) :: o.props == old(o.props)
      ensures forall o | o in old(Members() + Neighbours()) && o != m ::
        o.emitted == old(o.emitted) &&
        (o !in old(m.Remotes()) ==> o.listeners == old(o.listeners)) &&
        (o !in old(m.HookOwners()) ==> o.foreign == old(o.foreign))
    {
      assert forall r | r in m.Remotes() + m.HookOwners() :: r in Neighbours();
      order := m.Destroy();
    }
  }
}
