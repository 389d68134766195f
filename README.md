# usual: merge-and-diff, Model, Collection and Cache in Dafny

This project models the core of the `usual` JavaScript toolkit and proves
properties of that model. The toolkit is a small in-memory record and
container library:

- **`MergeAndDiff`** folds source objects into a target in place and keeps a
  parallel `diff` of what changed. It recurses into nested objects when the
  source value is a plain object. The `diff` becomes `null` when nothing was
  recorded.
- **`Model`** is a record built by merging its arguments last to first. It
  gets a truthy `id`, either taken from `usual.idProperty`, kept from its
  attributes or generated. `update` merges new data in, never touching `id`
  or `usual`, and emits `update` with the diff. `listenTo` registers a
  listener on another model and records it, so that `destroy` and
  `removeAllListeners` can take it off again.
- **`Collection`** (and the earlier **`Cache`**) is an ordered `items` list
  plus a `_map` key index. Its entries are plain values or Model instances:
  - `add` updates the member a value's `id` already names; otherwise it
    appends the value (wrapped in a model when `model` is set) and keys it
    by its `id` or a generated `cid-` key. A Model instance passed in is
    found by its `id`. When it finds nothing, a store without `model` keeps it
    as it is, and one with `model` tags it with `_parentCache` and wraps it
    in a new model that takes over its attributes and internal id;
  - `remove` deletes only the `_map` entry;
  - `update`, `get`, `index`, `first`, `last`, `ids`, `length`, `forEach`,
    `findByProperty`, `getByProperty` and `filter` are the queries and the
    second mutator;
  - `Cache` drives `length`, `forEach`, `filter` and the property searches
    by `_map` instead of `items`, takes an explicit key in `update`, and
    adds the prefix search `find`.
- **`utils`** provides `omit`, `matchFn` (shape matching), `isObject` and
  the prefixed `uid`.

## Layout

| file | module | contents |
|---|---|---|
| `js_value.dfy` | `JsValues` | JavaScript values: undefined, null, booleans, integer numbers, NaN, strings, functions, arrays and objects. Objects carry a reference so that `===` is identity. Also truthiness, `typeof`, property reads, the keys `for…in` visits and property-key strings. |
| `utils.dfy` | `Utils` | `uid`, `omit` (a loop), `matchFn` (a loop with early exit), `isObject`. |
| `merge_and_diff.dfy` | `MergeDiff` | `Merged`/`Diffed`, the specification functions of one merge, and their lemmas. Class `MergeAndDiff` holds the constructor's loop over the sources and the recursive `merge` with its key loop, proved against those functions. |
| `model.dfy` | `Models` | Class `Model`: attributes (`props`), an abstract listener registry, the `_foreignListeners` table and an emitted-event log. Also the specification functions of construction and `update`. |
| `keyed_store.dfy` | `KeyedStore` | The `add` algorithm as a step function over the batch, shared by both stores. Also lookup, `update` targets, shape search, filter, `find` and the sorted insertion used for `sort`. |
| `collection.dfy` | `Collections` | Class `Collection`. |
| `cache.dfy` | `Caches` | Class `Cache`. |

Each state-changing operation is a method whose `ensures` gives its new
state in terms of a specification function of the old state. That covers
the store's fields and every model the method may modify. `add` gives each
model it may reach the state `update` leaves after the values of the batch
that found it, in order (`KeyedStore.HitData`, `Models.AfterUpdates`). A
model no value found keeps its state. In a store with `model` set, a model
passed in is instead tagged with `_parentCache` and wrapped, and keeps the
rest of its state. `update` gives the updated member's
whole new state, and no other member changes. `remove` gives what `destroy`
does to the destroyed member and to the models it listened to or was
listened to by. Every other member and neighbour keeps its state. The
properties the library promises are lemmas about those functions. In `add`,
the state a call reaches is computed by `KeyedStore.AddOutcome`. Its slots
name either an entry stored before the call or "the entry made for the
batch's value at position p", so the function does not depend on which
objects the method allocates.

Where the library's own documentation and its code disagree, the model
follows the code:

- `remove` never splices `items`. It only deletes `_map[item.id]`, so an
  entry stored under a generated key stays in `_map`.
- `Model.toJSON` makes a shallow copy, not a deep one, and it drops
  attributes whose value is undefined.
- `Cache.update(data, useId)` hands `useId` on to `add`, which ignores it.
- `getCollection()` is documented (model.js:138-141) to return the
  collection a model is an item of. But `add` sets `_parentCache`, never
  `_collection`, so it returns undefined unless an argument supplied
  `_collection` (`Models.NoCollectionUnlessGiven`).

## Model

| member | source | states |
|---|---|---|
| JsValues.NatToString | package/collection.js:185 | The property key of a non-negative number is a non-empty digit string with no leading zero. |
| JsValues.DigitsValueOfNatToString | package/collection.js:185 | Reading a number's property key back as decimal digits gives the number again. |
| JsValues.NatToStringInjective | package/collection.js:161 | Two different numeric ids never name the same `_map` key. |
| JsValues.IndexOfKeyOfIndex | package/merge-and-diff.js:28 | The key `for…in` gives an array element is read back as that element's index. |
| JsValues.IndexedAt | package/merge-and-diff.js:28 | Every key `for…in` visits in an array is the decimal form of an index in range, and it holds that element. |
| JsValues.Enumerable | package/utils.js:21 | `for…in` visits exactly an object's own fields. An array yields only its elements. Atoms other than strings yield nothing. |
| JsValues.GetProp | package/utils.js:23 | Reading `item[key]` from an object gives the field's value, or undefined when the field is absent. |
| Utils.Uid | package/utils.js:5-7 | A uid is the prefix text (empty for a falsy prefix) followed by the drawn digits. |
| Utils.UidInjective | package/utils.js:5-7 | With the same prefix, different digits give different uids. |
| Utils.Omit | package/utils.js:9-17 | The result has exactly the keys for which the predicate is false, with their values unchanged. |
| Utils.MatchFn | package/utils.js:19-30 | The item matches iff, for every key of the base, its value is defined and strictly equal to the base's. A base with no keys matches every item. |
| Utils.UndefinedInBaseMatchesNothing | package/utils.js:24 | A base holding an undefined value matches no item. |
| Utils.ObjectMatchesItself | package/utils.js:21-28 | An object matches itself iff none of its values is undefined or NaN. |
| Utils.IsObject | package/utils.js:32-34 | A falsy input comes back unchanged. The result is truthy exactly for non-array objects. |
| MergeDiff.Source | package/merge-and-diff.js:24-28 | A source whose `typeof` is not "object" contributes no keys. An object contributes exactly its own fields. |
| MergeDiff.Finish | package/merge-and-diff.js:13-15 | The diff is null exactly when no top-level key was recorded. Otherwise it is the recorded map, even if its entries are empty nested diffs. |
| MergeDiff.NoNullishMergeable | package/merge-and-diff.js:37 | A source with no undefined or null value, at any depth the merge descends to, never reaches the throwing `isPlain(null)`. |
| MergeDiff.DiffRecordsExactlyTheChanges | package/merge-and-diff.js:28-45 | The diff keys are exactly the source keys whose value is not strictly equal to the target's. The merged keys are the old keys plus those. Keys outside the diff keep their value. A recursed key keeps the target object's identity and gets a nested diff; any other key gets the source value in both. |
| MergeDiff.ApplyDiffRebuildsMerge | package/merge-and-diff.js:28-45 | Replaying the diff onto the original target rebuilds the merged target exactly, so the diff records every change. |
| MergeDiff.NonObjectSourceChangesNothing | package/merge-and-diff.js:24-26 | A source that is not of type "object" leaves the target unchanged and records nothing. |
| MergeDiff.NonObjectSourcesChangeNothing | package/merge-and-diff.js:9-26 | When no source is of type "object", the target is unchanged and the diff is null. |
| MergeDiff.SelfMerge | package/merge-and-diff.js:34-36 | Merging an object into itself leaves it unchanged. The only diff entries are its NaN-valued keys. |
| MergeDiff.SelfMergeDiffIsNullIffNoNaN | package/merge-and-diff.js:5-16 | A self-merge through the constructor yields a null diff exactly when the object holds no NaN. |
| MergeDiff.NullDiffMeansUnchanged | package/merge-and-diff.js:5-16 | A null diff after all sources means the target is unchanged. |
| MergeDiff.UntouchedKeyKept | package/merge-and-diff.js:28-45 | A key that no source enumerates keeps its value and never appears in the diff. |
| MergeDiff.SingleSource | package/merge-and-diff.js:5-16 | The constructor with one source is exactly one merge. |
| MergeDiff.MergeIntoEmpty | package/merge-and-diff.js:28-45 | Merging into an empty object copies every source field except the undefined ones. |
| MergeDiff.SourceValueWins | package/merge-and-diff.js:41-44 | For a key whose source value is not a plain object, the target ends up with that value. |
| MergeDiff.LastSourceWins | package/merge-and-diff.js:9-12 | For a non-plain value in the last source, the target ends up with the last source's value, whatever the earlier sources held. |
| MergeDiff.MergeAndDiff.constructor | package/merge-and-diff.js:5-16 | The target is the sources merged left to right, and the diff is their combined diff, or null when empty. |
| MergeDiff.MergeAndDiff.Merge | package/merge-and-diff.js:22-46 | The in-place recursive merge produces the specified merged target. It extends the diff by exactly the specified entries. |
| MergeDiff.MergeAndDiff.MergeKey | package/merge-and-diff.js:34-44 | One key either recurses, keeping the object's identity and yielding a nested diff, or replaces the value wholesale and records it. |
| Models.GenerateId | package/model.js:134-136 | A generated id is "m-" followed by the drawn digits. |
| Models.GeneratedIdTruthy | package/model.js:39-41 | A generated id is truthy. |
| Models.AssignIdOnlyTouchesId | package/model.js:34-41 | Id assignment makes `id` truthy and changes no other attribute. |
| Models.ConstructedId | package/model.js:34-41 | After construction `id` is truthy. It is the `usual.idProperty` attribute when both are truthy; otherwise a truthy merged `id`; otherwise a generated one. |
| Models.RevUntouchedKeyKept | package/model.js:28-30 | An attribute no argument enumerates keeps its initial value. |
| Models.FirstArgumentWins | package/model.js:28-30 | For a non-id key whose value in the first argument is not a plain object, the constructed model holds the first argument's value. |
| Models.DefaultConfigKept | package/model.js:15-30 | When no argument sets `usual`, the model keeps the default config, with no `idProperty`. |
| Models.NoCollectionUnlessGiven | package/model.js:142-144 | When no argument supplies `_collection`, `getCollection()` returns undefined. |
| Models.Stripped | package/model.js:121-124 | The data passed on has no `id` and no `usual` key. Non-object data is untouched. |
| Models.UpdateKeepsIdAndConfig | package/model.js:120-125 | `update` never changes `id` or `usual`. |
| Models.UpdateOverwritesAttributes | package/model.js:120-125 | `update` sets a non-plain value under any key other than `id` and `usual`, including the one `idProperty` names. |
| Models.UpdateDiffNullIffNothingChanged | package/model.js:125-126 | The update diff is null iff every data value strictly equals the current attribute. Then the attributes are unchanged. |
| Models.UpdateEvent | package/model.js:126 | The "update" event carries the data with `id` and `usual` removed. |
| Models.AfterUpdate | package/model.js:120-127 | After `update(data)` a model keeps its listeners, foreign table and `id`. Its log gains exactly one event, an "update" carrying the stripped data. |
| Models.PropsAfter | package/model.js:120-125 | Any number of updates in turn leave `id` as it was. |
| Models.AfterUpdates | package/model.js:120-127 | Updates with each data in turn keep the listeners, the foreign table and `id`. They extend the log by one event per data and keep the earlier events. |
| Models.UpdatesSent | package/model.js:126 | The events those updates add are "update" events carrying each data, stripped, in the order the updates ran. |
| Models.AfterUpdatesSnoc | package/model.js:120-127 | Updating with one more data is one more `update` after the earlier ones. |
| Models.IsInstance | package/model.js:175-177 | True exactly for Model instances. |
| Models.Model.constructor | package/model.js:9-50 | A new model gets an `iid-` internal id and the constructed attributes. It has no listeners, an empty foreign table and no events. |
| Models.Model.FromModel | package/model.js:9-50 | `new Model(src)` for a model `src`: the new model takes over `src`'s internal id. Its attributes are those constructed from `src`'s attributes. It starts with no listeners, an empty foreign table and no events. |
| Models.Model.SetId | package/model.js:34-41 | The attributes become those with the id assigned. |
| Models.Model.Merge | package/model.js:110-112 | `_merge` merges into the attributes and returns the merged target and diff. Listeners, the foreign table and the event log are untouched. |
| Models.Model.Emit | package/model.js:88 | The event is logged. On "destroy", every model that listened to this one drops it from its foreign table. |
| Models.Model.Trigger | package/model.js:146-148 | The event is logged with its arguments. On "destroy", the listenTo hooks run. |
| Models.Model.On | package/model.js:150-152 | One registration of the pair is added. |
| Models.Model.Off | package/model.js:154-156 | One registration of the pair is removed, if any. |
| Models.Model.Update | package/model.js:120-127 | The stripped data is merged, and one "update" event is emitted with that data and the diff (null when nothing changed). Listeners and the foreign table are untouched. |
| Models.Model.ListenTo | package/model.js:58-73 | The registration is appended to the remote's entry. The first call also hooks the remote's "destroy". The remote gains the listener. |
| Models.Model.RemoveAllListeners | package/model.js:96-104 | No local listener and no foreign entry is left. Every other remote loses exactly the registrations recorded against it. |
| Models.Model.Destroy | package/model.js:87-90 | "destroy" is emitted first, removing this model from its listeners' tables. Then nothing is registered locally, the foreign table is empty, and every remote loses exactly the recorded registrations. |
| Models.Model.GetCollection | package/model.js:142-144 | Undefined when the `_collection` attribute was never set. |
| Models.Model.ToJSON | package/model.js:168-173 | Exactly the attributes not starting with "_", not "usual" and not undefined, with their values. |
| Models.OffEach | package/model.js:98-102 | Each remote loses exactly the listeners registered against it in the list. |
| KeyedStore.LookupKey | package/collection.js:180-188 | An object with a truthy `id` is looked up by that id. A string is looked up by itself. |
| KeyedStore.Batch | package/collection.js:130-132 | `add` iterates over the elements of an array argument, and otherwise over the one argument it was given. |
| KeyedStore.SeenAll | package/collection.js:141 | What `add` reads of each element when the call starts: the value itself, or the `id` of a Model instance. |
| KeyedStore.AsValue | package/collection.js:182-185 | `get` sees a Model instance as an object holding only its `id`, which is all it reads of it. |
| KeyedStore.GeneratedKey | package/collection.js:69-71 | A generated key is "cid-" followed by the drawn digits. |
| KeyedStore.GeneratedKeyShape | package/collection.js:156 | In a store without `model`, a value with no truthy `id` is keyed by a generated "cid-" key. |
| KeyedStore.StoredModelKey | package/collection.js:156 | A store without `model` keys a model element by its truthy `id` as a string, and otherwise by a "cid-" key. |
| KeyedStore.WrappedKeyIsModelId | package/collection.js:149-156 | With `model` set, a new entry is keyed by the id of the model built from the tagged value. |
| KeyedStore.Lookup | package/collection.js:180-188 | `get` finds only stored entries: nothing for undefined, and an entry exactly when the lookup key is in `_map`. |
| KeyedStore.UpdateTarget | package/collection.js:208-211 | `update` finds a target iff the key is truthy and names a truthy `_map` entry. The target is that entry. |
| KeyedStore.AddResult | package/collection.js:171-172 | `add` returns the lone entry when exactly one resulted, otherwise all of them in order. |
| KeyedStore.RunKeepsStore | package/collection.js:136-163 | `add` only appends to `items` and only adds `_map` keys. A successful batch yields one entry per value. |
| KeyedStore.StepEffect | package/collection.js:139-161 | A hit leaves `items` and `_map` alone and reports the stored entry. A miss appends the new entry and keys it under its made key. |
| KeyedStore.AllHitsKeepStore | package/collection.js:139-146 | A batch whose every value is already keyed changes neither `items` nor `_map`. |
| KeyedStore.StepOk | package/collection.js:141-151 | A step runs only on a non-nullish value. A hit needs a model entry and plain-value data. A miss in a store with `model` needs an object, plain or a Model instance, that a model can be built from. |
| KeyedStore.OkPrefix | package/collection.js:136-163 | A batch that runs without a TypeError ran without one at every earlier point. |
| KeyedStore.HitData | package/collection.js:141-143 | The data `update` is called with on one model: the batch values whose entry stands for that model, in order. A model no entry stands for gets none. |
| KeyedStore.HitsAccumulate | package/collection.js:136-146 | The updates of one more iteration follow those of the iterations before it. |
| KeyedStore.ExpectedAdvance | package/collection.js:136-163 | Every model is in the state of all the updates so far once one more iteration has advanced it. |
| KeyedStore.AdvanceMiss | package/collection.js:148-161 | An iteration that makes a new entry updates no model. |
| KeyedStore.ExpectedStates | package/collection.js:136-163 | After the loop, each model is in the state its updates give it. |
| KeyedStore.FoundStep | package/collection.js:142-143 | A hit updates the model found with the value at this position, and no other model. |
| KeyedStore.UpdateFound | package/collection.js:143 | `cachedObj.update(obj)` advances the found model by the value and changes no other model. The ids `add` reads of the batch stay. |
| KeyedStore.WrapHitsOnlyHeld | package/collection.js:149-152 | In a store with `model` set, `add` updates only models held before the call, never one of its own batch. |
| KeyedStore.GeneratedKeyOutlivesRemove | package/collection.js:196-203 | An entry without a truthy id never has its own `id` key equal to a generated key, so `remove` cannot delete it. |
| KeyedStore.FindMatching | package/collection.js:252-272 | The shape search returns the matching entries in order. |
| KeyedStore.MatchingMembers | package/collection.js:254-270 | An entry is in the result iff it is in the searched list and matches. No match means an empty result. |
| KeyedStore.MatchingHead | package/collection.js:278-284 | The first result is the first matching entry. There is none exactly when nothing matches. |
| KeyedStore.KeptMembers | package/collection.js:303-305 | The filter result is no longer than the list. An entry is in it iff it is in the list and satisfies the condition. |
| KeyedStore.EnumerationLength | package/cache.js:168-170 | A duplicate-free enumeration of `_map` has one element per key. |
| KeyedStore.FoundExactFirst | package/cache.js:181-193 | An entry keyed exactly by the query comes first in the `find` result. |
| KeyedStore.FoundMembers | package/cache.js:184-191 | Every entry whose key starts with the query, ignoring case, is in the `find` result. Every result comes from such a key. |
| KeyedStore.SortByRank | package/collection.js:165-167 | The result is sorted by rank and is a permutation of the input. |
| KeyedStore.Insert | package/collection.js:166 | Insertion keeps the list sorted and adds exactly one element. |
| KeyedStore.SortedInsert | package/collection.js:166 | Inserting at the first position of larger rank keeps a sorted list sorted. |
| Collections.Collection.constructor | package/collection.js:15-34 | A new collection starts empty, whatever the config holds. A truthy first argument is then added as `add` specifies. With `model` set, each model of the argument ends up tagged with `_parentCache` and otherwise unchanged. |
| Collections.Collection.Empty | package/collection.js:59-62 | `items` and `_map` are emptied. |
| Collections.Collection.Index | package/collection.js:78-83 | A non-negative index counts from the front and a negative one from the back. A falsy item at the position, or a position out of range, gives undefined. |
| Collections.Collection.First | package/collection.js:95-97 | The first item if it is truthy. Undefined for an empty list or a falsy first item. |
| Collections.Collection.Last | package/collection.js:102-104 | The last item if it is truthy. Undefined for an empty list or a falsy last item. |
| Collections.Collection.Ids | package/collection.js:88-90 | Exactly the keys of `_map`. |
| Collections.Collection.Length | package/collection.js:230-232 | The length of `items`, not the number of keys. |
| Collections.Collection.Get | package/collection.js:180-188 | Gives stored entries only. A string finds the entry under it, and nothing when it is not a key; undefined finds nothing. An object or a Model instance with a truthy `id` finds an entry exactly when that id is a key. |
| Collections.Collection.Add | package/collection.js:128-174 | `items` and `_map` become those of the specified outcome. Without `sort`, the order is kept; with it, `items` is sorted by rank and is a permutation of the outcome. One "add" event carries every new and updated entry in input order. The result is the lone entry or the list. Each model held before or passed in is in the state `update` leaves after the values that found it, in order. A model no value found keeps its state. With `model` set, each model passed in ends up tagged with `_parentCache` and otherwise unchanged. |
| Collections.Collection.AddAll | package/collection.js:136-163 | The loop leaves the store, the added entries and the made entries of the account, and each model in the state of its updates. |
| Collections.Collection.AddLoop | package/collection.js:136-163 | The loop keeps the account, the store, the ids it reads and the models' states in step after every iteration. |
| Collections.Collection.AddStep | package/collection.js:136-163 | One iteration advances the account by one step and keeps the loop's invariant. |
| Collections.Collection.AddOne | package/collection.js:141-161 | One iteration: a hit updates the model found; a miss makes a new entry and updates no model. |
| Collections.Collection.AddFound | package/collection.js:142-146 | A hit leaves `items` and `_map` alone, pushes the entry found and advances only the model found. |
| Collections.Collection.AddNew | package/collection.js:148-161 | A miss appends the new entry, keys it under its made key and leaves every model as it was. |
| Collections.Collection.Settle | package/collection.js:165-172 | The sort, the "add" event and the result for an accumulated batch. |
| Collections.Collection.PlaceAt | package/collection.js:148-161 | The entry made for position p is appended and keyed by the account's made key. With `model` set it is a fresh model with the internal id made for p; the batch's models up to p are tagged and the rest are as they were, and the ids `add` reads of the batch stay. |
| Collections.Collection.Place | package/collection.js:149-161 | A new entry is the element itself, or, with `model` set, a fresh model whose state is the one constructed from the tagged element; a model element is tagged. The entry is appended to `items` and keyed by its made key. No other model changes. |
| Collections.Collection.Wrap | package/collection.js:150-151 | The element is tagged with `_parentCache` and a fresh model is built from it: its state is the constructed one, its internal id is a model element's own or a new one, and its id is the one made for the position. No other model changes. |
| Collections.Collection.KeyOf | package/collection.js:156 | The new entry's key is its truthy id as a string, or else a generated key: the key the account made for its position. |
| Collections.Collection.Store | package/collection.js:160-161 | The entry is appended to `items` and stored in `_map` under the key. |
| Collections.Collection.Update | package/collection.js:208-225 | A truthy `data.id` naming a truthy entry updates that model and returns it, leaving `items`, `_map` and the event log alone. The model gets exactly the new state of one `update`, and no other member changes. Otherwise `update` is exactly `add(data)`, with the state `add` gives each member. |
| Collections.Collection.AddData | package/collection.js:223 | The miss path of `update`: `add(data)` for the one value, with the store, the events and the result of the specified outcome, and each member in the state `update` leaves after the values that found it. |
| Collections.Collection.Remove | package/collection.js:196-206 | A miss changes nothing. A hit destroys a model member unless `keepModel`, deletes only the `_map` key of the member's own id, emits "remove", and never touches `items`. The destroyed member emits "destroy" and loses its listeners and foreign table. The models it listened to lose exactly its registrations, and those listening to it drop it from their tables. No attribute changes, and every other member and neighbour keeps its state. |
| Collections.Collection.Discard | package/collection.js:198-205 | A hit deletes the key of the entry's own id and emits "remove". It destroys a model entry unless kept, with the effects `Remove` states. |
| Collections.Collection.Release | package/collection.js:200 | `item.destroy()`, as the members and their neighbours see it: the teardown of `Models.Model.Destroy` and nothing else. |
| Collections.Collection.ForEach | package/collection.js:238-245 | The callback sees the items in order with their indices and stops right after the first call returning false. |
| Collections.Collection.FindByProperty | package/collection.js:252-272 | The items matching the shape, in `items` order. |
| Collections.Collection.GetByProperty | package/collection.js:278-284 | Null exactly when nothing matches. Otherwise the first matching item. |
| Collections.Collection.Filter | package/collection.js:303-305 | The items satisfying the condition, in `items` order (`KeyedStore.Kept`): an item is in the result iff it satisfies the condition. |
| Caches.Cache.constructor | package/cache.js:10-29 | A new cache starts empty. A truthy first argument is then added as `add` specifies. With `model` set, each model of the argument ends up tagged with `_parentCache` and otherwise unchanged. |
| Caches.Cache.Empty | package/cache.js:50-53 | `items` and `_map` are emptied. |
| Caches.Cache.Index | package/cache.js:59-64 | A non-negative index counts from the front and a negative one from the back. A falsy item at the position, or a position out of range, gives undefined. |
| Caches.Cache.First | package/cache.js:70-72 | The first item if it is truthy. Undefined for an empty list or a falsy first item. |
| Caches.Cache.Last | package/cache.js:74-76 | The last item if it is truthy. Undefined for an empty list or a falsy last item. |
| Caches.Cache.Ids | package/cache.js:66-68 | Exactly the keys of `_map`. |
| Caches.Cache.Length | package/cache.js:168-170 | The number of `_map` keys, not the length of `items`. |
| Caches.Cache.Get | package/cache.js:127-135 | Gives stored entries only. A string finds the entry under it, and nothing when it is not a key; undefined finds nothing. An object or a Model instance with a truthy `id` finds an entry exactly when that id is a key. |
| Caches.Cache.Add | package/cache.js:78-124 | `items` and `_map` become those of the specified outcome, sorted by rank when `sort` is set. One "add" event carries every new and updated entry. The result is the lone entry or the list. Each model held before or passed in is in the state `update` leaves after the values that found it, in order. A model no value found keeps its state. With `model` set, each model passed in ends up tagged with `_parentCache` and otherwise unchanged. |
| Caches.Cache.AddAll | package/cache.js:86-113 | The loop leaves the store, the added entries and the made entries of the account, and each model in the state of its updates. |
| Caches.Cache.AddLoop | package/cache.js:86-113 | The loop keeps the account, the store, the ids it reads and the models' states in step after every iteration. |
| Caches.Cache.AddStep | package/cache.js:86-113 | One iteration advances the account by one step and keeps the loop's invariant. |
| Caches.Cache.AddOne | package/cache.js:91-111 | One iteration: a hit updates the model found; a miss makes a new entry and updates no model. |
| Caches.Cache.AddFound | package/cache.js:92-96 | A hit leaves `items` and `_map` alone, pushes the entry found and advances only the model found. |
| Caches.Cache.AddNew | package/cache.js:98-111 | A miss appends the new entry, keys it under its made key and leaves every model as it was. |
| Caches.Cache.Settle | package/cache.js:115-122 | The sort, the "add" event and the result for an accumulated batch. |
| Caches.Cache.PlaceAt | package/cache.js:98-111 | The entry made for position p is appended and keyed by the account's made key. With `model` set it is a fresh model with the internal id made for p; the batch's models up to p are tagged and the rest are as they were, and the ids `add` reads of the batch stay. |
| Caches.Cache.Place | package/cache.js:98-111 | A new entry is the element itself, or, with `model` set, a fresh model whose state is the one constructed from the tagged element; a model element is tagged. The entry is appended to `items` and keyed by its made key. No other model changes. |
| Caches.Cache.Wrap | package/cache.js:100-101 | The element is tagged with `_parentCache` and a fresh model is built from it: its state is the constructed one, its internal id is a model element's own or a new one, and its id is the one made for the position. No other model changes. |
| Caches.Cache.KeyOf | package/cache.js:106 | The new entry's key is its truthy id as a string, or else a generated key: the key the account made for its position. |
| Caches.Cache.Store | package/cache.js:110-111 | The entry is appended to `items` and stored in `_map` under the key. |
| Caches.UpdateKey | package/cache.js:150-151 | The lookup key is truthy iff `useId` or `data.id` is. |
| Caches.Cache.Update | package/cache.js:149-166 | A hit on `useId`, else on `data.id`, updates that model and returns it, leaving the store alone. The model gets exactly the new state of one `update`, and no other member changes. Otherwise `update` is exactly `add(data)`, with the state `add` gives each member. |
| Caches.Cache.AddData | package/cache.js:164 | The miss path of `update`: `add(data)` for the one value, with the store, the events and the result of the specified outcome, and each member in the state `update` leaves after the values that found it. |
| Caches.Cache.Remove | package/cache.js:137-147 | A miss changes nothing. A hit destroys a model member, deletes only the `_map` key of its own id, emits "remove", and never touches `items`. The destroyed member emits "destroy" and loses its listeners and foreign table. The models it listened to lose exactly its registrations, and those listening to it drop it from their tables. No attribute changes, and every other member and neighbour keeps its state. |
| Caches.Cache.Discard | package/cache.js:139-145 | A hit deletes the key of the entry's own id and emits "remove". It destroys a model entry, with the effects `Remove` states. |
| Caches.Cache.Release | package/cache.js:141 | `item.destroy()`, as the members and their neighbours see it: the teardown of `Models.Model.Destroy` and nothing else. |
| Caches.Cache.ForEach | package/cache.js:172-179 | The callback sees the `_map` entries with their keys in enumeration order and stops right after the first call returning false. |
| Caches.Cache.Find | package/cache.js:181-193 | The entry keyed exactly by the query comes first. Every result has a key starting with the query (ignoring case), and every such entry is found. |
| Caches.Cache.FindByProperty | package/cache.js:195-215 | The `_map` values matching the shape, in enumeration order. |
| Caches.Cache.GetByProperty | package/cache.js:217-223 | Null exactly when no `_map` value matches. Otherwise the first match. |
| Caches.Cache.Filter | package/cache.js:234-242 | Exactly the `_map` values satisfying the condition, in enumeration order. |

## Left out

- EventEmitter2 internals are not modelled: wildcard matching, `maxListeners` and callback dispatch. Each model keeps only a multiset of (event name, callback) registrations and a log of the events it emitted. The one dispatched callback modelled is the "destroy" hook `listenTo` installs.
- Randomness is not modelled. `uid`, `generateId` and `generateModelId` take their digits from parameters (`Fresh` draws and `gen`), and so do the identities of newly allocated objects. Uniqueness of generated ids is not assumed.
- Models.Model.constructor: `generateId()` is only reached when no truthy id was found. The model uses its drawn digits in that case only, and "called at most once" is not stated separately.
- Numbers are integers plus NaN. Floating point, `-0` and `toFixed` rounding are not modelled.
- Keys inherited through the prototype chain are not modelled. Enumeration and property reads see own properties only.
- The `extend` deep-merge library is not part of this model. `update` on a stored entry that is not a model, the `extend` branch of collection.js:216 and cache.js:157, is excluded by precondition.
- package/base.js is not part of this model. A Cache member that is a Base instance is represented by a Model; Base's `destroy` and `update` are taken to behave as Model's.
- `Symbol.iterator` and the `toJSON` methods of Collection and Cache are not modelled. They are protocol plumbing over `items`.
- `utils.result` is not modelled. No core operation uses it.
- The `test/collection.js` expectations that describe a later Collection API are not modelled: `atIndex`, `find`, `sorter`, `idProperty`, splicing on remove, and dropping primitives.
- Callbacks (`forEach`'s callback, `filter`'s condition, the `sort` comparator) are pure functions of the entry. The `context` argument is not modelled, and neither is a callback that mutates the store.
- The `sort` comparator is given as a rank function, with comparator(a, b) = rank(a) − rank(b). Stability of `Array.prototype.sort` is not stated; only "sorted and a permutation" is.
- Collections.Collection.Add: the hit branch requires the data to hold no undefined or null value at any depth the merge descends to. That is stronger than what the member's `update` needs.
- Collections.Collection.Add: with `model` set, the batch values must be objects. An array or function value, which JavaScript would tag and wrap, is excluded.
- Collections.Collection.Add: a model `add` builds gets its state when it is built (`Collections.Collection.Place`). The ensures of `Add` give its key and internal id only. Later updates of a made model within the same batch, by a later element with its id, are not restated.
- Caches.Cache.Add: the same restrictions as Collections.Collection.Add.
- Collections.Collection.Add: a batch that holds the same object or the same Model instance twice is excluded by precondition (`KeyedStore.DistinctObjects`). In JavaScript the first occurrence's `update` deletes the object's `id`, and a wrapping store tags it with `_parentCache`, so the second occurrence is looked up differently. The model reads every element as it was when the call started. The constructor and `update`, which call `add`, carry the same precondition.
- Caches.Cache.Add: the same precondition against a repeated object, for the same reason; so do the Cache constructor and `Caches.Cache.Update`.
- Collections.Collection.Add: a Model instance in the batch that finds an entry is excluded by precondition (`KeyedStore.StepOk`, through `KeyedStore.Updatable`). Its `update(obj)` would merge the instance's `_internalId`, `_events` and `_foreignListeners`, which the model keeps outside the attributes (see Models.Model.constructor below). A Model instance that finds nothing is accepted.
- Collections.Collection.Add: with `model` set, a model of the batch must not already be a member (`ModelsOf(Batch(objects)) !! Members()`). Such a model misses only when `remove` dropped its key but left it in `items`. It would then be tagged while being a member, and the contract gives each member the state `update` leaves.
- Caches.Cache.Add: the same two exclusions as Collections.Collection.Add, for the same reasons.
- Collections.Collection.Update: the data is a plain value. `update(instance)` is not modelled, because it reaches `add` or a member's `update` with the instance's internal fields.
- Caches.Cache.Update: the data is a plain value, for the same reason as Collections.Collection.Update.
- Collections.Collection.Update: `update(data)` on a hit deletes `id` and `usual` from the caller's own `data` (model.js:121-124). Values are immutable here, so the caller's object keeps its `id` and `usual`; only the stripped copy reaches the model.
- Caches.Cache.Update: the caller's `data` likewise keeps its `id` and `usual` after a hit.
- Collections.Collection.Add: on a hit, `cachedObj.update(obj)` deletes `id` and `usual` from the caller's element (collection.js:143). The caller's element is not modelled as changed; it keeps its `id` and `usual`.
- Caches.Cache.Add: the caller's element likewise keeps its `id` and `usual` after a hit (cache.js:93).
- MergeDiff.MergeAndDiff.Merge: objects are immutable values that carry a reference only for `===`. An object reachable under two keys, or shared between the target and a source, becomes two independent copies once merged into. JavaScript mutates the one shared object, so both keys would see every change.
- Models.Model.constructor: `_internalId`, `_events` and `_foreignListeners` are fields of the class, not attributes in `props`. An argument holding an `_internalId` key therefore does not replace the internal id, as it does in JavaScript (package/model.js:12 sets it before the merge at lines 28-30). Nor does `findByProperty` see these three keys on a model.
- The model class of a store is always `Model` itself. A subclass passed as `model`, with its own constructor or methods, is not modelled.
- `obj._parentCache = this` changes the caller's object. The model writes it onto the value the new model is built from; the caller's own object is not modelled as changed.
- A Collection is itself a Model (collection.js:8), and a Cache is a Base (cache.js:8). Here stores and models are separate classes, so a store is never an entry of another store.
- The store's own Model part is reduced to the fields the store uses: `model`, `sort` and the event log. `name` and the store's own listeners are not modelled.
- The enumeration order of `_map` is a parameter of the Cache queries: a duplicate-free list of exactly its keys. JavaScript's integer-key ordering rule is not modelled.
- Caches.Cache.Find: the query must not contain regular-expression metacharacters, and case is folded for ASCII letters only. A query that is not a string is not modelled.
- Caches.Cache.ForEach: a missing callback (`callback &&`) is not modelled; a callback is always given.
- Models.Model.Update: the data is a plain value. Updating with another Model instance, which would merge its internal fields, is not modelled.
