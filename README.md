# Enumerable content-change protocol (Ember runtime), modelled in Dafny

This project models the content-change notification protocol of Ember's
`Enumerable` mixin as its tests pin it down, together with the small fake
enumerable those tests build on it (`TestEnumerable`).

- A collection announces a change with `enumerableContentWillChange` and
  `enumerableContentDidChange`. Each call takes no arguments, two item arrays
  `(removed, added)`, or two counts `(removedCount, addedCount)`. The model
  takes these as a `Descriptor` (`Unspecified | Items | Counts`,
  `descriptors.dfy`). `Classify` reads the raw argument pair back as a
  descriptor, which shows that observers get the arguments exactly as passed.
- Enumerable observers are added with `addEnumerableObserver` and removed
  with `removeEnumerableObserver`. Each one is registered at most once. Each
  will/did call runs the matching hook once on every registered observer, with
  `(obj, removing, adding)`, or `(obj, null, null)` when no arguments were
  given.
- The tests' recording observer keeps the arguments of its last will and did
  calls. The model keeps these records in the collection, in a map from
  observer identity to `Record`. Each record also counts the calls, so
  "called once per pair" can be stated (`observers.dfy`).
- Two counters stand in for the `length` and `[]` property observers. `[]`
  fires on every did-change. `length` fires on a did-change only when the size
  may have changed (`LengthMayChange`): no arguments, item arrays of different
  lengths, or different counts. A will-change fires neither.
- `TestEnumerable` keeps its items in `content` (`enumerable.dfy`).
  `addObject` appends an item only when it is absent, and then announces only
  a did-change, with no will-change and no arguments. `nextObject` reads by
  index, with bounds checks. `slice` returns a copy.
- `scenarios.dfy` has one method per test of the protocol. The assertions
  of each test are among that method's postconditions. Some postconditions
  claim more than the test checks:
  - `NotifiesContentObserver` also states that the will call does not fire
    `[]`. The test reads the counter only before the pair and after it.
  - `LengthCounts` and `ObserverRecords` generalize the `length` and observer
    tests to every descriptor.
  - `RemovedObserverUnaffected` generalizes the removal test to any
    enumerable, observer and descriptors.
  - `AddObjectAppendsOnce` performs the `mutate` step of the shared suite
    (line 49) and checks `addObject`, `slice` and `nextObject` together. It
    matches no single test.

`DummyEnum` (an enumerable with no items) is a `TestEnumerable` with empty
content. Observers are identified by a number.

## Model

| member | source | states |
|---|---|---|
| `Sequences.Insert` | packages/ember-runtime/tests/mixins/enumerable_test.js:17-19 | insertion as in `addObject`: the item is present afterwards, nothing else is added, the old items stay as a prefix, length grows by one exactly when the item was absent, and no duplicates are introduced |
| `Sequences.InsertIdempotent` | packages/ember-runtime/tests/mixins/enumerable_test.js:17-18 | inserting an item a second time changes nothing |
| `Sequences.Remove` | packages/ember-runtime/tests/mixins/enumerable_test.js:322-323 | removal of an observer: the removed element is gone, every other element stays, nothing new appears, and no duplicates are introduced |
| `Sequences.RemoveAbsent` | packages/ember-runtime/tests/mixins/enumerable_test.js:322-323 | removing an element that is not present leaves the sequence unchanged |
| `Sequences.RemoveIdempotent` | packages/ember-runtime/tests/mixins/enumerable_test.js:322-323 | removing the same observer twice has the effect of removing it once |
| `Descriptors.Classify` | packages/ember-runtime/tests/mixins/enumerable_test.js:211-253 | the three call shapes (none, two arrays, two numbers) read back as a descriptor whose argument pair is exactly what was passed; mixed shapes are rejected, in both directions |
| `Descriptors.Arguments` | packages/ember-runtime/tests/mixins/enumerable_test.js:287-320 | defines the `(removing, adding)` pair an observer is called with: `(null, null)`, the two item arrays, or the two counts, as the `deepEqual` checks compare |
| `Descriptors.SizeDelta` | packages/ember-runtime/tests/mixins/enumerable_test.js:219-253 | defines the announced change in size: added minus removed, for item arrays by their lengths, unknown when no arguments are given |
| `Descriptors.LengthMayChange` | packages/ember-runtime/tests/mixins/enumerable_test.js:211-253 | `length` may have changed exactly when the announced change in size is unknown (no arguments) or not zero, so `(['bar'], ['foo'])` and `(1, 1)` do not fire it and the others do |
| `Descriptors.ArgumentsRoundTrip` | packages/ember-runtime/tests/mixins/enumerable_test.js:287-320 | the argument pair handed to observers reads back as the descriptor the caller gave |
| `Observers.Untouched` | packages/ember-runtime/tests/mixins/enumerable_test.js:264-266 | defines the recording observer's initial state: `_before` and `_after` are `null`, and neither hook has run |
| `Observers.Record.Receive` | packages/ember-runtime/tests/mixins/enumerable_test.js:268-276 | defines one hook call: the will hook stores its arguments as `_before`, the did hook as `_after`, and the call is counted |
| `Observers.DeliverReachesEachOnce` | packages/ember-runtime/tests/mixins/enumerable_test.js:264-279 | delivering to a duplicate-free observer list runs each listed observer's hook exactly once and leaves unlisted observers untouched |
| `Enumerables.IndexOf` | packages/ember-runtime/tests/mixins/enumerable_test.js:18 | the index of the first occurrence of the item, or -1 exactly when it is absent |
| `Enumerables.TestEnumerable.constructor` | packages/ember-runtime/tests/mixins/enumerable_test.js:13-15 | the content is the given array, or empty when none is given; no observers registered and no observer has fired |
| `Enumerables.TestEnumerable.Length` | packages/ember-runtime/tests/mixins/enumerable_test.js:27-29 | defines the `length` property as the number of items |
| `Enumerables.TestEnumerable.NextObject` | packages/ember-runtime/tests/mixins/enumerable_test.js:23-25 | an item exactly for indices below `length` (and not negative), and that item is the one stored at the index; `undefined` otherwise |
| `Enumerables.TestEnumerable.Slice` | packages/ember-runtime/tests/mixins/enumerable_test.js:27-33 | the copy equals the content, its size is `length`, each position holds what `nextObject` yields there, and `nextObject` yields nothing just past it |
| `Enumerables.TestEnumerable.NoticeOf` | packages/ember-runtime/tests/mixins/enumerable_test.js:287-320 | observers are called with the collection itself and an argument pair that reads back as the descriptor given |
| `Enumerables.TestEnumerable.Notify` | packages/ember-runtime/tests/mixins/enumerable_test.js:264-279 | one hook is called once on every registered observer and on no other observer; nothing but the records changes |
| `Enumerables.TestEnumerable.EnumerableContentWillChange` | packages/ember-runtime/tests/mixins/enumerable_test.js:171-187 | each registered observer's will hook runs once with the arguments as passed; neither the `length` nor the `[]` observer fires; content and registrations are unchanged |
| `Enumerables.TestEnumerable.EnumerableContentDidChange` | packages/ember-runtime/tests/mixins/enumerable_test.js:211-253 | the `[]` observer fires once; the `length` observer fires once exactly when the size may have changed; each registered observer's did hook runs once with the arguments as passed |
| `Enumerables.TestEnumerable.AddEnumerableObserver` | packages/ember-runtime/tests/mixins/enumerable_test.js:279 | the observer is registered; registering it again changes nothing; nothing else changes |
| `Enumerables.TestEnumerable.RemoveEnumerableObserver` | packages/ember-runtime/tests/mixins/enumerable_test.js:322-323 | the observer is no longer registered, the others stay, and removing an unregistered observer changes nothing |
| `Enumerables.TestEnumerable.AddObject` | packages/ember-runtime/tests/mixins/enumerable_test.js:17-21 | a present item leaves the whole state unchanged; an absent item is appended at the end and a single argument-less did-change follows (both property observers fire once, each observer's did hook runs once) |
| `EnumerableScenarios.NewDummy` | packages/ember-runtime/tests/mixins/enumerable_test.js:158-161 | a fresh enumerable with no items, observers or notifications |
| `EnumerableScenarios.NotifiesContentObserver` | packages/ember-runtime/tests/mixins/enumerable_test.js:171-187 | the `[]` observer has not fired at first or after the will call, and has fired once after the did call |
| `EnumerableScenarios.LengthCounts` | packages/ember-runtime/tests/mixins/enumerable_test.js:193-253 | for any descriptor the `length` observer has not fired after the will call, and has fired once after the did call exactly when the size may have changed |
| `EnumerableScenarios.LengthNotifiedWithoutParams` | packages/ember-runtime/tests/mixins/enumerable_test.js:211-217 | no arguments: 0 after will, 1 after did |
| `EnumerableScenarios.LengthNotNotifiedForSameLengthItems` | packages/ember-runtime/tests/mixins/enumerable_test.js:220-227 | `(['bar'], ['foo'])`: 0 after will, 0 after did |
| `EnumerableScenarios.LengthNotifiedForDifferentLengthItems` | packages/ember-runtime/tests/mixins/enumerable_test.js:229-236 | `(['bar', 'baz'], ['foo'])`: 0 after will, 1 after did |
| `EnumerableScenarios.LengthNotNotifiedForEqualCounts` | packages/ember-runtime/tests/mixins/enumerable_test.js:239-245 | `(1, 1)`: 0 after will, 0 after did |
| `EnumerableScenarios.LengthNotifiedForCountDelta` | packages/ember-runtime/tests/mixins/enumerable_test.js:247-253 | `(1, 2)`: 0 after will, 1 after did |
| `EnumerableScenarios.ObserverRecords` | packages/ember-runtime/tests/mixins/enumerable_test.js:260-285 | for any descriptor a registered observer has recorded the arguments once after the will call, and once per hook after the did call |
| `EnumerableScenarios.ObserverNotifiedWithoutParams` | packages/ember-runtime/tests/mixins/enumerable_test.js:287-293 | the observer records `(obj, null, null)` on both hooks, one call each |
| `EnumerableScenarios.ObserverNotifiedWithSameLengthItems` | packages/ember-runtime/tests/mixins/enumerable_test.js:296-303 | the observer records `(obj, ['bar'], ['foo'])` on both hooks, one call each |
| `EnumerableScenarios.ObserverNotifiedWithDifferentLengthItems` | packages/ember-runtime/tests/mixins/enumerable_test.js:305-312 | the observer records `(obj, ['bar'], ['foo', 'baz'])` on both hooks, one call each |
| `EnumerableScenarios.ObserverNotifiedWithCounts` | packages/ember-runtime/tests/mixins/enumerable_test.js:314-320 | the observer records `(obj, 1, 2)` on both hooks, one call each |
| `EnumerableScenarios.RemovedObserverNotNotified` | packages/ember-runtime/tests/mixins/enumerable_test.js:322-329 | after removal, a will/did pair leaves the observer's records `null` and uncalled |
| `EnumerableScenarios.RemovedObserverUnaffected` | packages/ember-runtime/tests/mixins/enumerable_test.js:322-329 | on any enumerable, after removing an observer, a will/did pair with any descriptors leaves that observer's record unchanged |
| `EnumerableScenarios.AddObjectAppendsOnce` | packages/ember-runtime/tests/mixins/enumerable_test.js:17-33 | on `[1, 2, 3]`, adding 4 appends it and fires `length` once; adding 4 again changes nothing; an earlier slice keeps `[1, 2, 3]`; `nextObject` gives 4 at index 3 and `undefined` at 4 |

## Left out

- The checks that `map`, `filter`, `invoke`, `toArray`, `without` and `uniq` return arrays (lines 60-98). They test how mixins are composed at run time, and those implementations are not part of this model.
- `any`, `every`, `isAny` and `isEvery` (lines 100-152). These are library algorithms that are not part of this model. The NaN case also relies on floating point.
- The shared suite harness (`require`, `EnumerableTests.extend(...).run()`, `newFixture`, `mutate`, lines 1 and 38-56). It is test plumbing from files that are not part of this model. `AddObjectAppendsOnce` performs the `mutate` step directly.
- Ember's object, computed-property and observer machinery. Property observers are replaced by two counters and enumerable observers by per-observer records. Property invalidation and dependency tracking are not modelled.
- The `Enumerable` mixin's own implementation file is not part of this model. The protocol is modelled as the tests fix it. No idle/pending session state, reentrancy guard or strict will/did pairing is modelled. The tests assert none of these, and `addObject` itself issues a did-change without a will-change (line 20). A design that required a will/did pair before every did would reject that call, so the model follows the code here.
- Records per collection: in JavaScript an observer's `_before` and `_after` live on the observer object. An observer registered on two enumerables is therefore overwritten by both. The model keeps one record per collection and observer, so such an observer gets two separate records. No test shares an observer between enumerables.
- Observer callbacks that fail, and what happens to later observers then, are not modelled. The recording observer never fails.
- The entry points take a `Descriptor`, so a call that mixes shapes (an array with a number) cannot be expressed. `Classify` rejects such a pair rather than guessing what the mixin would do with it.
- `Enumerables.IndexOf`: `Ember.EnumerableUtils.indexOf` is not part of this model. It is modelled as JavaScript's `indexOf`, which returns the first index or -1. The equality of the item type `T` stands for `===`. Two consequences are not modelled:
  - In JavaScript `NaN !== NaN`, so `addObject(NaN)` appends NaN again and announces a did-change on every call. The model has no such value.
  - `===` compares arrays and objects by identity, so two distinct `['a']` arrays would both be appended. With a sequence or datatype as `T`, the model appends only one. Instantiating `T` with a class type gives identity comparison.
- `Enumerables.TestEnumerable.constructor`: `init` stores the caller's array itself (line 14), and `addObject` then pushes into that same array (line 19), so the caller's array grows too. The model copies the array as a value. The aliasing of the passed array and its growth in place are not modelled.
- Negative counts: the counts of a `Descriptor` are `nat` because they are cardinalities. The mixin's handling of negative counts is outside the model, and no test passes any.
- `Enumerables.TestEnumerable.AddObject`: the JavaScript method returns `this` when the item is already present and `undefined` otherwise. This return value is not modelled, because no caller uses it.
- `Enumerables.TestEnumerable.NextObject`: `_content[idx]` is `undefined` for a negative index in JavaScript. The model makes this explicit.
