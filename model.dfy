// The Model class: an object whose attributes are its own properties, built by
// merging constructor arguments last to first, updated through merge-and-diff,
// and wired to an event emitter. The emitter itself (EventEmitter2) is outside
// the model: what is kept of it is the registry of (event name, callback)
// pairs and the log of emitted events. Program callbacks are identified by a
// number; their effects are not modelled. The one callback the library itself
// installs, the hook `listenTo` puts on a remote model's "destroy" event, is
// modelled, and emitting "destroy" runs it.

module Models {
  import opened JsValues
  import opened MergeDiff
  import opened Utils

  /** A value handed to the library, or an instance of Model. */
  datatype Js = Val(v: Value) | Inst(m: Model)

  /** A registered callback: one of the program's, or the hook installed by `listenTo`. */
  datatype Callback = External(id: nat) | PurgeForeign(owner: Model)

  /** One entry of `_foreignListeners`: a listener this model put on another model. */
  datatype Registration = Registration(remote: Model, eventName: string, callback: nat)

  datatype ModelEvent =
    | Updated(data: Value, diff: Option<map<string, Diff>>)
    | Destroyed
    | Custom(name: string, args: seq<Value>)

  function EventName(e: ModelEvent): string {
    match e
    case Updated(_, _) => "update"
    case Destroyed => "destroy"
    case Custom(name, _) => name
  }

  /**
   * What a new model draws from outside: the random digits of its internal
   * id and of a generated id, and the identities of the two config objects
   * it allocates.
   */
  datatype Fresh = Fresh(iidDigits: string, usualRef: nat, eventConfigRef: nat, idDigits: string)

  /** The properties a model has before its arguments are merged in (`model.js` lines 15-23). */
  function InitialProps(draw: Fresh): map<string, Value> {
    map["usual" := Obj(draw.usualRef, true,
          map["eventConfig" := Obj(draw.eventConfigRef, true,
                map["wildcard" := Bool(true), "maxListeners" := Num(0)])])]
  }

  /** Each argument, from the last to the first, can be merged into what the later ones built. */
  predicate RevMergeable(init: map<string, Value>, attrs: seq<Value>) {
    attrs == [] || (RevMergeable(init, attrs[1..]) && Mergeable(ApplyRev(init, attrs[1..]), attrs[0]))
  }

  /** The properties after merging the arguments last to first (`model.js` lines 28-30). */
  function ApplyRev(init: map<string, Value>, attrs: seq<Value>): map<string, Value> {
    if attrs == [] then init else Merged(ApplyRev(init, attrs[1..]), attrs[0])
  }

  /** `generateId()` */
  function GenerateId(digits: string): (id: string)
    ensures |id| == 2 + |digits| && id[..2] == "m-"
  {
    Uid(Str("m-"), digits)
  }

  /** The id assignment of `model.js` lines 34-41. */
  function AssignId(p: map<string, Value>, digits: string): map<string, Value>
    requires !Nullish(Get(p, "usual"))
  {
    var idProperty := GetProp(Get(p, "usual"), "idProperty");
    var p1 := if Truthy(idProperty) && Truthy(Get(p, ToStr(idProperty)))
              then p["id" := Get(p, ToStr(idProperty))] else p;
    if Truthy(Get(p1, "id")) then p1 else p1["id" := Str(GenerateId(digits))]
  }

  /** The constructor neither throws: every merge succeeds and `this.usual` can be read. */
  predicate Constructible(attrs: seq<Value>, draw: Fresh) {
    RevMergeable(InitialProps(draw), attrs) && !Nullish(Get(ApplyRev(InitialProps(draw), attrs), "usual"))
  }

  /** The properties of `new Model(...attrs)`. */
  function Constructed(attrs: seq<Value>, draw: Fresh): map<string, Value>
    requires Constructible(attrs, draw)
  {
    AssignId(ApplyRev(InitialProps(draw), attrs), draw.idDigits)
  }

  /** The data object `update` merges, once its `id` and `usual` properties are deleted. */
  function Stripped(data: Value): (r: Value)
    ensures "id" !in Source(r) && "usual" !in Source(r)
    ensures !data.Obj? ==> r == data
  {
    assert !IsDigit("id"[0]) && !IsDigit("usual"[0]);
    assert IndexOfKey("id").None? && IndexOfKey("usual").None?;
    if data.Arr? then
      NotIndexKey(data.elems, "id");
      NotIndexKey(data.elems, "usual");
      data
    else if Truthy(data) && data.Obj? then Obj(data.ref, data.plain, data.fields - {"id", "usual"}) else data
  }

  /** The properties after `update(data)`. */
  function UpdatedProps(props: map<string, Value>, data: Value): map<string, Value> {
    Merged(props, Stripped(data))
  }

  /** What a store's operations may change of a model: attributes, registry, hooks and events. */
  datatype ModelState = ModelState(
    props: map<string, Value>,
    listeners: multiset<(string, Callback)>,
    foreign: map<string, seq<Registration>>,
    emitted: seq<ModelEvent>)

  /** The "update" event `update(data)` emits on a model with the properties `props`. */
  function UpdateEvent(props: map<string, Value>, data: Value): (e: ModelEvent)
    ensures UpdateSent(e, data)
  {
    Updated(Stripped(data), Finish(Diffed(props, Stripped(data))))
  }

  /** The state after `update(data)`: merged attributes and one more "update" event. */
  function AfterUpdate(s: ModelState, data: Value): (r: ModelState)
    ensures r.listeners == s.listeners && r.foreign == s.foreign
    ensures Get(r.props, "id") == Get(s.props, "id")
    ensures |r.emitted| == |s.emitted| + 1 && r.emitted[..|s.emitted|] == s.emitted
    ensures r.emitted[|s.emitted|].Updated? && r.emitted[|s.emitted|].data == Stripped(data)
  {
    UpdateKeepsIdAndConfig(s.props, data);
    s.(props := UpdatedProps(s.props, data), emitted := s.emitted + [UpdateEvent(s.props, data)])
  }

  /** The properties after `update` with each of `datas` in turn. */
  function PropsAfter(props: map<string, Value>, datas: seq<Value>): (r: map<string, Value>)
    ensures Get(r, "id") == Get(props, "id")
    decreases |datas|
  {
    if datas == [] then props
    else
      var n := |datas| - 1;
      UpdateKeepsIdAndConfig(PropsAfter(props, datas[..n]), datas[n]);
      UpdatedProps(PropsAfter(props, datas[..n]), datas[n])
  }

  /** The events `update` emits with each of `datas` in turn, on a model with the properties `props`. */
  function EventsAfter(props: map<string, Value>, datas: seq<Value>): (es: seq<ModelEvent>)
    ensures |es| == |datas|
    decreases |datas|
  {
    if datas == [] then []
    else
      var n := |datas| - 1;
      EventsAfter(props, datas[..n]) + [UpdateEvent(PropsAfter(props, datas[..n]), datas[n])]
  }

  /** The state after `update` with each of `datas` in turn. */
  function AfterUpdates(s: ModelState, datas: seq<Value>): (r: ModelState)
    ensures r.listeners == s.listeners && r.foreign == s.foreign
    ensures Get(r.props, "id") == Get(s.props, "id")
    ensures |r.emitted| == |s.emitted| + |datas| && r.emitted[..|s.emitted|] == s.emitted
  {
    s.(props := PropsAfter(s.props, datas), emitted := s.emitted + EventsAfter(s.props, datas))
  }

  /** The events `update` emits with each of `datas` follow the earlier events, one per data, in order. */
  lemma {:induction false} UpdatesSent(s: ModelState, datas: seq<Value>)
    ensures forall i | 0 <= i < |datas| :: UpdateSent(AfterUpdates(s, datas).emitted[|s.emitted| + i], datas[i])
    decreases |datas|
  {
    if datas != [] {
      var n := |datas| - 1;
      UpdatesSent(s, datas[..n]);
      assert datas[..n] + [datas[n]] == datas;
      AfterUpdatesSnoc(s, datas[..n], datas[n]);
      var before := AfterUpdates(s, datas[..n]);
      var r := AfterUpdates(s, datas);
      assert r == AfterUpdate(before, datas[n]);
      forall i | 0 <= i < n
        ensures r.emitted[|s.emitted| + i] == before.emitted[|s.emitted| + i] && datas[..n][i] == datas[i]
      {
        assert r.emitted[..|before.emitted|] == before.emitted;
      }
    }
  }

  lemma AfterUpdatesSnoc(s: ModelState, datas: seq<Value>, data: Value)
    ensures AfterUpdates(s, datas + [data]) == AfterUpdate(AfterUpdates(s, datas), data)
  {
    assert (datas + [data])[..|datas|] == datas;
    assert s.emitted + EventsAfter(s.props, datas + [data]) ==
      (s.emitted + EventsAfter(s.props, datas)) + [UpdateEvent(PropsAfter(s.props, datas), data)];
  }

  /** The event is the "update" that sent this data. */
  predicate UpdateSent(e: ModelEvent, data: Value) {
    e.Updated? && e.data == Stripped(data)
  }

  /** The keys `toJSON` omits: those starting with an underscore, and "usual". */
  predicate Hidden(key: string) {
    (|key| > 0 && key[0] == '_') || key == "usual"
  }

  /** Flattens `_foreignListeners` in the order its keys are visited. */
  function Flatten(f: map<string, seq<Registration>>, order: seq<string>): seq<Registration>
    requires forall k | k in order :: k in f
  {
    if order == [] then [] else Flatten(f, order[..|order| - 1]) + f[order[|order| - 1]]
  }

  /** The listener pairs `off` removes from `remote` for a list of registrations. */
  function Offs(remote: Model, regs: seq<Registration>): multiset<(string, Callback)> {
    if regs == [] then multiset{}
    else
      var g := regs[|regs| - 1];
      Offs(remote, regs[..|regs| - 1]) +
      (if g.remote == remote then multiset{(g.eventName, External(g.callback))} else multiset{})
  }

  /** `Model.isInstance(x)` */
  function IsInstance(x: Js): (r: bool)
    ensures r <==> x.Inst?
  {
    x.Inst?
  }

  /** A generated id is a non-empty string, hence truthy. */
  lemma GeneratedIdTruthy(digits: string)
    ensures Truthy(Str(GenerateId(digits)))
  {
  }

  /** The id assignment gives a truthy `id` and touches no other property. */
  lemma AssignIdOnlyTouchesId(p: map<string, Value>, digits: string)
    requires !Nullish(Get(p, "usual"))
    ensures "id" in AssignId(p, digits) && Truthy(AssignId(p, digits)["id"])
    ensures forall k | k != "id" :: (k in AssignId(p, digits) <==> k in p) && Get(AssignId(p, digits), k) == Get(p, k)
  {
    GeneratedIdTruthy(digits);
  }

  /**
   * After construction `id` is truthy: it is the property `usual.idProperty`
   * names when that and its value are truthy, otherwise the merged `id` when
   * truthy, otherwise a generated one.
   */
  lemma ConstructedId(attrs: seq<Value>, draw: Fresh)
    requires Constructible(attrs, draw)
    ensures var p := ApplyRev(InitialProps(draw), attrs);
      var c := Constructed(attrs, draw);
      var idProperty := GetProp(Get(p, "usual"), "idProperty");
      var named := Truthy(idProperty) && Truthy(Get(p, ToStr(idProperty)));
      "id" in c && Truthy(c["id"]) &&
      (named ==> c["id"] == Get(p, ToStr(idProperty))) &&
      (!named && Truthy(Get(p, "id")) ==> c["id"] == p["id"]) &&
      (!named && !Truthy(Get(p, "id")) ==> c["id"] == Str(GenerateId(draw.idDigits)))
  {
    AssignIdOnlyTouchesId(ApplyRev(InitialProps(draw), attrs), draw.idDigits);
  }

  /** No argument has `k` among the keys `merge` visits. */
  predicate NoneEnumerates(attrs: seq<Value>, k: string) {
    attrs == [] || (k !in Source(attrs[0]) && NoneEnumerates(attrs[1..], k))
  }

  /** A key no argument enumerates keeps its initial value through the constructor's merges. */
  lemma {:induction false} RevUntouchedKeyKept(init: map<string, Value>, attrs: seq<Value>, k: string)
    requires NoneEnumerates(attrs, k)
    ensures Get(ApplyRev(init, attrs), k) == Get(init, k)
    decreases |attrs|
  {
    if attrs != [] {
      RevUntouchedKeyKept(init, attrs[1..], k);
      MergedAt(ApplyRev(init, attrs[1..]), attrs[0], k);
    }
  }

  /**
   * The constructor merges its arguments last to first, so for a key of the
   * first argument whose value is not a plain object, that value ends up in
   * the model (or one strictly equal to it), whatever later arguments said.
   */
  lemma FirstArgumentWins(attrs: seq<Value>, draw: Fresh, k: string)
    requires Constructible(attrs, draw)
    requires attrs != [] && k != "id" && k in Source(attrs[0])
    requires var v := Source(attrs[0])[k]; !(v.Obj? && v.plain)
    ensures var v := Source(attrs[0])[k];
      Get(Constructed(attrs, draw), k) == v || StrictEq(Get(Constructed(attrs, draw), k), v)
  {
    AssignIdOnlyTouchesId(ApplyRev(InitialProps(draw), attrs), draw.idDigits);
    SourceValueWins(ApplyRev(InitialProps(draw), attrs[1..]), attrs[0], k);
  }

  /**
   * Without a `usual` argument the model keeps the default configuration, in
   * which no `idProperty` is set, so its id is the merged `id` when truthy and
   * a generated one otherwise.
   */
  lemma DefaultConfigKept(attrs: seq<Value>, draw: Fresh)
    requires RevMergeable(InitialProps(draw), attrs)
    requires NoneEnumerates(attrs, "usual")
    ensures Constructible(attrs, draw)
    ensures Get(ApplyRev(InitialProps(draw), attrs), "usual") == InitialProps(draw)["usual"]
    ensures GetProp(Get(ApplyRev(InitialProps(draw), attrs), "usual"), "idProperty") == Undefined
  {
    RevUntouchedKeyKept(InitialProps(draw), attrs, "usual");
  }

  /** `getCollection()` of a new model is undefined unless an argument supplies `_collection`. */
  lemma NoCollectionUnlessGiven(attrs: seq<Value>, draw: Fresh)
    requires Constructible(attrs, draw)
    requires NoneEnumerates(attrs, "_collection")
    ensures Get(Constructed(attrs, draw), "_collection") == Undefined
  {
    RevUntouchedKeyKept(InitialProps(draw), attrs, "_collection");
    AssignIdOnlyTouchesId(ApplyRev(InitialProps(draw), attrs), draw.idDigits);
  }

  /** `update` never changes `id` or `usual`: both are deleted from the data before the merge. */
  lemma UpdateKeepsIdAndConfig(props: map<string, Value>, data: Value)
    ensures Get(UpdatedProps(props, data), "id") == Get(props, "id")
    ensures Get(UpdatedProps(props, data), "usual") == Get(props, "usual")
  {
    MergedAt(props, Stripped(data), "id");
    MergedAt(props, Stripped(data), "usual");
  }

  /**
   * Any other key of the data object is written, the attribute named by
   * `usual.idProperty` included, so that attribute can change while `id` stays.
   */
  lemma UpdateOverwritesAttributes(props: map<string, Value>, data: Value, k: string)
    requires data.Obj? && k in data.fields && k != "id" && k != "usual"
    requires !(data.fields[k].Obj? && data.fields[k].plain)
    ensures Get(UpdatedProps(props, data), k) == data.fields[k]
         || StrictEq(Get(UpdatedProps(props, data), k), data.fields[k])
  {
    assert Source(Stripped(data)) == data.fields - {"id", "usual"};
    SourceValueWins(props, Stripped(data), k);
  }

  /**
   * The diff `update` emits is null exactly when every key of the stripped data
   * was strictly equal to the model's, and then the model is unchanged.
   */
  lemma UpdateDiffNullIffNothingChanged(props: map<string, Value>, data: Value)
    ensures var src := Source(Stripped(data));
      Finish(Diffed(props, Stripped(data))).None? <==> forall k | k in src :: StrictEq(Get(props, k), src[k])
    ensures Finish(Diffed(props, Stripped(data))).None? ==> UpdatedProps(props, data) == props
  {
    var src := Source(Stripped(data));
    DiffRecordsExactlyTheChanges(props, Stripped(data));
    if !forall k | k in src :: StrictEq(Get(props, k), src[k]) {
      var k :| k in src && !StrictEq(Get(props, k), src[k]);
      assert k in Diffed(props, Stripped(data));
    }
    if Finish(Diffed(props, Stripped(data))).None? {
      SameEntries(UpdatedProps(props, data), props);
    }
  }

  class Model {
    /** `_internalId` */
    const internalId: string
    /** the model's own attributes */
    var props: map<string, Value>
    /** the registry of the model's emitter */
    var listeners: multiset<(string, Callback)>
    /** `_foreignListeners`, keyed by the remote model's internal id */
    var foreign: map<string, seq<Registration>>
    /** the events emitted so far */
    var emitted: seq<ModelEvent>

    /** The part of the model a store's operations may change. */
    function State(): ModelState
      reads this
    {
      ModelState(props, listeners, foreign, emitted)
    }

    constructor(attrs: seq<Value>, draw: Fresh)
      requires Constructible(attrs, draw)
      ensures internalId == Uid(Str("iid-"), draw.iidDigits)
      ensures props == Constructed(attrs, draw)
      ensures listeners == multiset{} && foreign == map[] && emitted == []
    {
      internalId := Uid(Str("iid-"), draw.iidDigits);
      props := InitialProps(draw);
      listeners := multiset{};
      foreign := map[];
      emitted := [];
      new;
      var i := |attrs|;
      while i > 0
        invariant 0 <= i <= |attrs|
        invariant RevMergeable(InitialProps(draw), attrs[i..])
        invariant props == ApplyRev(InitialProps(draw), attrs[i..])
        invariant listeners == multiset{} && foreign == map[] && emitted == []
      {
        i := i - 1;
        RevMergeableSuffix(InitialProps(draw), attrs, i);
        RevStep(InitialProps(draw), attrs, i);
        var _ := Merge(attrs[i]);
      }
      assert attrs[0..] == attrs;
      SetId(draw.idDigits);
    }

    /**
     * `new Model(src)` for a model `src`: its attributes are merged as any
     * argument's are, and so is its own `_internalId` field, which replaces
     * the one just drawn (model.js:12, then :28-30); its `_events` and
     * `_foreignListeners` are merged too but replaced afterwards (model.js:44, :48).
     */
    constructor FromModel(src: Model, draw: Fresh)
      requires Constructible([Obj(0, false, src.props)], draw)
      ensures internalId == src.internalId
      ensures props == Constructed([Obj(0, false, src.props)], draw)
      ensures listeners == multiset{} && foreign == map[] && emitted == []
    {
      var attrs := Obj(0, false, src.props);
      internalId := src.internalId;
      props := InitialProps(draw);
      listeners := multiset{};
      foreign := map[];
      emitted := [];
      new;
      RevStep(InitialProps(draw), [attrs], 0);
      assert [attrs][1..] == [];
      var _ := Merge(attrs);
      SetId(draw.idDigits);
    }

    /** The id assignment that ends the constructor (`model.js` lines 34-41). */
    method SetId(digits: string)
      requires !Nullish(Get(props, "usual"))
      modifies this`props
      ensures props == AssignId(old(props), digits)
    {
      var idProperty := GetProp(Get(props, "usual"), "idProperty");
      if Truthy(idProperty) && Truthy(Get(props, ToStr(idProperty))) {
        props := props["id" := Get(props, ToStr(idProperty))];
      }
      if !Truthy(Get(props, "id")) {
        props := props["id" := Str(GenerateId(digits))];
      }
    }

    /** The models holding a hook on this model's "destroy" event. */
    function HookOwners(): set<Model>
      reads this
    {
      set c | c in listeners && c.0 == "destroy" && c.1.PurgeForeign? :: c.1.owner
    }

    /** The models this model registered listeners on. */
    function Remotes(): set<Model>
      reads this
    {
      AllRemotes(foreign)
    }

    /** `_merge(attrs)`: merges one argument into the model's own properties. */
    method Merge(attrs: Value) returns (md: MergeAndDiff)
      requires Mergeable(props, attrs)
      modifies this
      ensures fresh(md)
      ensures props == Merged(old(props), attrs)
      ensures md.target == props && md.diff == Finish(Diffed(old(props), attrs))
      ensures listeners == old(listeners) && foreign == old(foreign) && emitted == old(emitted)
    {
      SingleSource(props, attrs);
      md := new MergeAndDiff(props, [attrs]);
      props := md.target;
    }

    /**
     * `events.emit(...)`: records the event; on "destroy" the hooks installed
     * by `listenTo` drop this model from their owners' `_foreignListeners`.
     */
    method Emit(e: ModelEvent)
      modifies this`emitted, (if EventName(e) == "destroy" then HookOwners() else {})`foreign
      ensures emitted == old(emitted) + [e]
      ensures EventName(e) == "destroy" ==>
        forall o | o in old(HookOwners()) :: o.foreign == old(o.foreign) - {internalId}
    {
      emitted := emitted + [e];
      if EventName(e) == "destroy" {
        var owners := HookOwners();
        forall o | o in owners {
          o.foreign := o.foreign - {internalId};
        }
      }
    }

    /** `trigger(name, ...args)` */
    method Trigger(name: string, args: seq<Value>)
      modifies this`emitted, (if name == "destroy" then HookOwners() else {})`foreign
      ensures emitted == old(emitted) + [Custom(name, args)]
      ensures name == "destroy" ==>
        forall o | o in old(HookOwners()) :: o.foreign == old(o.foreign) - {internalId}
    {
      Emit(Custom(name, args));
    }

    /** `on(name, callback)` */
    method On(eventName: string, callback: nat)
      modifies this`listeners
      ensures listeners == old(listeners) + multiset{(eventName, External(callback))}
    {
      listeners := listeners + multiset{(eventName, External(callback))};
    }

    /** `off(name, callback)`: removes one registration of the pair, if there is one. */
    method Off(eventName: string, callback: nat)
      modifies this`listeners
      ensures listeners == old(listeners) - multiset{(eventName, External(callback))}
    {
      listeners := listeners - multiset{(eventName, External(callback))};
    }

    /**
     * `update(data)`: deletes `id` and `usual` from the data object (which is
     * returned, since the caller's object is changed), merges it and emits
     * "update" with the data and the diff.
     */
    method Update(data: Value) returns (sent: Value)
      requires Mergeable(props, Stripped(data))
      modifies this
      ensures sent == Stripped(data)
      ensures props == UpdatedProps(old(props), data)
      ensures emitted == old(emitted) + [Updated(sent, Finish(Diffed(old(props), sent)))]
      ensures listeners == old(listeners) && foreign == old(foreign)
      ensures State() == AfterUpdate(old(State()), data)
    {
      sent := Stripped(data);
      var mergeData := Merge(sent);
      Emit(Updated(sent, mergeData.diff));
    }

    /**
     * `listenTo(remote, eventName, callback)`: registers the callback on the
     * remote model and remembers it; the first registration on a remote also
     * installs the hook that forgets them when the remote is destroyed.
     */
    method ListenTo(remote: Model, eventName: string, callback: nat)
      modifies this`foreign, remote`listeners
      ensures foreign == old(foreign)[remote.internalId :=
        (if remote.internalId in old(foreign) then old(foreign)[remote.internalId] else [])
        + [Registration(remote, eventName, callback)]]
      ensures remote.listeners == old(remote.listeners)
        + (if remote.internalId in old(foreign) then multiset{} else multiset{("destroy", PurgeForeign(this))})
        + multiset{(eventName, External(callback))}
    {
      var rid := remote.internalId;
      if rid !in foreign {
        foreign := foreign[rid := []];
        remote.listeners := remote.listeners + multiset{("destroy", PurgeForeign(this))};
      }
      foreign := foreign[rid := foreign[rid] + [Registration(remote, eventName, callback)]];
      remote.listeners := remote.listeners + multiset{(eventName, External(callback))};
    }

    /**
     * `removeAllListeners()`: empties this model's registry, then takes every
     * registration of `_foreignListeners` off its remote model, and empties
     * `_foreignListeners`. The keys are visited in the order `order`; the
     * registrations are gathered key by key and then taken off in that order,
     * which is the order of the source's nested loops.
     */
    method RemoveAllListeners() returns (ghost order: seq<string>)
      modifies this`listeners, this`foreign, Remotes()`listeners
      ensures listeners == multiset{} && foreign == map[]
      ensures forall k :: k in order <==> k in old(foreign)
      ensures forall i, j | 0 <= i < j < |order| :: order[i] != order[j]
      ensures forall r | r in old(Remotes()) && r != this ::
        r.listeners == old(r.listeners) - Offs(r, Flatten(old(foreign), order))
    {
      listeners := multiset{};
      var todo := foreign.Keys;
      var all: seq<Registration> := [];
      order := [];
      while todo != {}
        invariant todo <= foreign.Keys
        invariant forall k :: k in order <==> k in foreign && k !in todo
        invariant forall i, j | 0 <= i < j < |order| :: order[i] != order[j]
        invariant all == Flatten(foreign, order)
        decreases todo
      {
        var key :| key in todo;
        assert (order + [key])[..|order|] == order;
        all := all + foreign[key];
        order := order + [key];
        todo := todo - {key};
      }
      FlattenRemotes(foreign, order);
      OffEach(all);
      forall r | r in old(Remotes()) && r != this
        ensures r.listeners == old(r.listeners) - Offs(r, all)
      {
        if r !in RemotesOf(all) {
          OffsOfStranger(r, all);
        }
      }
      foreign := map[];
    }

    /** `destroy()`: emits "destroy", then removes all listeners. */
    method Destroy() returns (ghost order: seq<string>)
      modifies this`listeners, this`foreign, this`emitted, Remotes()`listeners, HookOwners()`foreign
      ensures emitted == old(emitted) + [Destroyed]
      ensures listeners == multiset{} && foreign == map[]
      ensures forall o | o in old(HookOwners()) && o != this :: o.foreign == old(o.foreign) - {internalId}
      ensures forall k :: k in order <==> k in old(PurgedForeign())
      ensures forall r | r in old(Remotes()) && r != this ::
        r.listeners == old(r.listeners) - Offs(r, Flatten(old(PurgedForeign()), order))
    {
      Emit(Destroyed);
      ghost var purged := foreign;
      assert purged == old(PurgedForeign());
      order := RemoveAllListeners();
      forall r | r in old(Remotes()) && r != this
        ensures r.listeners == old(r.listeners) - Offs(r, Flatten(purged, order))
      {
        if r !in AllRemotes(purged) {
          FlattenRemotes(purged, order);
          OffsOfStranger(r, Flatten(purged, order));
        }
      }
    }

    /** `_foreignListeners` as the "destroy" hooks leave it just before `removeAllListeners` runs. */
    function PurgedForeign(): map<string, seq<Registration>>
      reads this
    {
      if this in HookOwners() then foreign - {internalId} else foreign
    }

    /** `getCollection()`: the `_collection` attribute, which nothing in the library sets. */
    function GetCollection(): (c: Value)
      reads this
      ensures "_collection" !in props ==> c.Undefined?
    {
      Get(props, "_collection")
    }

    /**
     * `toJSON()`: omits the keys starting with an underscore and "usual",
     * then copies what is left by merging it into an empty object, which
     * also drops undefined values. The copy is shallow: nested objects are
     * the model's own.
     */
    method ToJSON() returns (json: map<string, Value>)
      ensures forall k :: k in json <==> k in props && !Hidden(k) && !props[k].Undefined?
      ensures forall k | k in json :: json[k] == props[k]
    {
      var obj := Omit(props, (value, key) => Hidden(key));
      // the object `omit` returns is fresh; its identity plays no part in the merge
      var copy := Obj(0, true, obj);
      MergeIntoEmpty(copy);
      SingleSource(map[], copy);
      var md := new MergeAndDiff(map[], [copy]);
      json := md.target;
    }
  }

  lemma {:induction false} RevMergeableSuffix(init: map<string, Value>, attrs: seq<Value>, i: nat)
    requires RevMergeable(init, attrs)
    requires i <= |attrs|
    ensures RevMergeable(init, attrs[i..])
    decreases i
  {
    if i > 0 {
      RevMergeableSuffix(init, attrs[1..], i - 1);
      assert attrs[1..][i - 1..] == attrs[i..];
    }
  }

  /** One more argument, taken from the back: the fold definitions unrolled at a suffix. */
  lemma RevStep(init: map<string, Value>, attrs: seq<Value>, i: nat)
    requires i < |attrs|
    ensures ApplyRev(init, attrs[i..]) == Merged(ApplyRev(init, attrs[i + 1..]), attrs[i])
    ensures RevMergeable(init, attrs[i..]) <==>
      RevMergeable(init, attrs[i + 1..]) && Mergeable(ApplyRev(init, attrs[i + 1..]), attrs[i])
  {
    assert attrs[i..][1..] == attrs[i + 1..];
  }

  /** The models a table of registrations names. */
  function AllRemotes(f: map<string, seq<Registration>>): set<Model> {
    set k, g | k in f && g in f[k] :: g.remote
  }

  lemma {:induction false} FlattenRemotes(f: map<string, seq<Registration>>, order: seq<string>)
    requires forall k | k in order :: k in f
    ensures RemotesOf(Flatten(f, order)) <= AllRemotes(f)
    decreases |order|
  {
    if order != [] {
      var key := order[|order| - 1];
      FlattenRemotes(f, order[..|order| - 1]);
      forall r | r in RemotesOf(f[key]) ensures r in AllRemotes(f) {
        var g :| g in f[key] && g.remote == r;
      }
    }
  }

  /** The models a list of registrations names. */
  function RemotesOf(regs: seq<Registration>): set<Model> {
    set g | g in regs :: g.remote
  }

  /** `regs.map(g => g.remote.events.off(g.eventName, g.callback))` (`model.js` lines 99-101). */
  method OffEach(regs: seq<Registration>)
    modifies RemotesOf(regs)`listeners
    ensures forall r | r in RemotesOf(regs) :: r.listeners == old(r.listeners) - Offs(r, regs)
  {
    ghost var rs := RemotesOf(regs);
    ghost var before := Snapshot(rs);
    var j := 0;
    assert regs[..0] == [];
    while j < |regs|
      invariant 0 <= j <= |regs|
      invariant OffsDone(rs, before, regs[..j])
    {
      var g := regs[j];
      PrefixStep(regs, j);
      assert g.remote in rs;
      OffsDoneOthers(rs, before, regs[..j], g.remote);
      g.remote.Off(g.eventName, g.callback);
      OffsDoneStep(rs, before, regs[..j], g);
      j := j + 1;
    }
    PrefixWhole(regs);
  }

  /** The registries of the models `rs`, as they are now. */
  ghost function Snapshot(rs: set<Model>): (m: map<Model, multiset<(string, Callback)>>)
    reads rs
    ensures m.Keys == rs
    ensures forall r | r in rs :: m[r] == r.listeners
  {
    map r | r in rs :: r.listeners
  }

  /** Each model in `rs` has lost, since `before`, the pairs the registrations `done` name. */
  ghost predicate OffsDone(rs: set<Model>, before: map<Model, multiset<(string, Callback)>>, done: seq<Registration>)
    reads rs
  {
    forall r | r in rs :: r in before && r.listeners == before[r] - Offs(r, done)
  }

  /** `OffsDone` splits into one model and the others, whose registries the next step leaves alone. */
  lemma OffsDoneOthers(rs: set<Model>, before: map<Model, multiset<(string, Callback)>>,
                       done: seq<Registration>, x: Model)
    requires x in rs
    requires OffsDone(rs, before, done)
    ensures OffsDone(rs - {x}, before, done)
    ensures x in before && x.listeners == before[x] - Offs(x, done)
  {
  }

  /** Taking the pair of one more registration off its remote extends `OffsDone` by it. */
  lemma OffsDoneStep(rs: set<Model>, before: map<Model, multiset<(string, Callback)>>,
                     done: seq<Registration>, g: Registration)
    requires g.remote in rs && g.remote in before
    requires OffsDone(rs - {g.remote}, before, done)
    requires g.remote.listeners ==
      before[g.remote] - Offs(g.remote, done) - multiset{(g.eventName, External(g.callback))}
    ensures OffsDone(rs, before, done + [g])
  {
    var pair := (g.eventName, External(g.callback));
    assert (done + [g])[..|done|] == done;
    forall r | r in rs ensures r in before && r.listeners == before[r] - Offs(r, done + [g]) {
      if r == g.remote {
        DifferenceOfDifference(before[r], Offs(r, done), multiset{pair});
      } else {
        assert r in rs - {g.remote};
      }
    }
  }

  lemma PrefixStep<T>(s: seq<T>, j: nat)
    requires j < |s|
    ensures s[..j + 1] == s[..j] + [s[j]]
  {
  }

  lemma PrefixWhole<T>(s: seq<T>)
    ensures s[..|s|] == s
  {
  }

  lemma DifferenceOfDifference<T>(m: multiset<T>, a: multiset<T>, b: multiset<T>)
    ensures (m - a) - b == m - (a + b)
  {
  }

  lemma {:induction false} OffsAppend(r: Model, a: seq<Registration>, b: seq<Registration>)
    ensures Offs(r, a + b) == Offs(r, a) + Offs(r, b)
    decreases |b|
  {
    if b != [] {
      assert (a + b)[..|a + b| - 1] == a + b[..|b| - 1];
      OffsAppend(r, a, b[..|b| - 1]);
    } else {
      assert a + b == a;
    }
  }

  lemma {:induction false} OffsOfStranger(r: Model, regs: seq<Registration>)
    requires r !in RemotesOf(regs)
    ensures Offs(r, regs) == multiset{}
    decreases |regs|
  {
    if regs != [] {
      assert regs[|regs| - 1] in regs;
      assert RemotesOf(regs[..|regs| - 1]) <= RemotesOf(regs);
      OffsOfStranger(r, regs[..|regs| - 1]);
    }
  }
}
