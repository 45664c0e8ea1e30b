/**
 The tests of the notification protocol, one method per test; the assertions
 of each test are among its method's postconditions. Some methods claim more:
 `NotifiesContentObserver` also states that the will call does not fire `[]`;
 `LengthCounts`, `ObserverRecords` and `RemovedObserverUnaffected` generalize
 tests over every descriptor (and, for the last, every enumerable and
 observer); `AddObjectAppendsOnce` performs the suite's `mutate` step and
 matches no single test. `DummyEnum` is the fake enumerable with no items;
 the recording observer is observer `Watcher`.
 */
module EnumerableScenarios {

  import opened Wrappers
  import opened Descriptors
  import opened Observers
  import opened Enumerables

  /** The identity of the recording observer the observer tests register. */
  const Watcher: ObserverId := 1

  /** An enumerable with no items, as `DummyEnum` is. */
  method NewDummy() returns (obj: TestEnumerable<string>)
    ensures fresh(obj) && obj.Valid()
    ensures obj.content == [] && obj.observers == [] && obj.records == map[]
    ensures obj.lengthChanges == 0 && obj.contentChanges == 0
  {
    obj := new TestEnumerable<string>(None);
  }

  /** A will/did pair without arguments fires the `[]` observer once, and only on did. */
  method NotifiesContentObserver() returns (initially: nat, afterWill: nat, afterDid: nat)
    ensures initially == 0 && afterWill == 0 && afterDid == 1
  {
    var obj := NewDummy();
    initially := obj.contentChanges;
    obj.EnumerableContentWillChange(Unspecified);
    afterWill := obj.contentChanges;
    obj.EnumerableContentDidChange(Unspecified);
    afterDid := obj.contentChanges;
  }

  /** The `length` observer's count after the will call and after the did call for `d`. */
  method LengthCounts(d: Descriptor<string>) returns (afterWill: nat, afterDid: nat)
    ensures afterWill == 0
    ensures afterDid == if LengthMayChange(d) then 1 else 0
  {
    var obj := NewDummy();
    obj.EnumerableContentWillChange(d);
    afterWill := obj.lengthChanges;
    obj.EnumerableContentDidChange(d);
    afterDid := obj.lengthChanges;
  }

  /** No arguments: `length` observers are told on did-change. */
  method LengthNotifiedWithoutParams() returns (afterWill: nat, afterDid: nat)
    ensures afterWill == 0 && afterDid == 1
  {
    afterWill, afterDid := LengthCounts(Unspecified);
  }

  /** Item arrays of the same length: `length` observers are not told. */
  method LengthNotNotifiedForSameLengthItems() returns (afterWill: nat, afterDid: nat)
    ensures afterWill == 0 && afterDid == 0
  {
    afterWill, afterDid := LengthCounts(Items(["bar"], ["foo"]));
  }

  /** Item arrays of different lengths: `length` observers are told. */
  method LengthNotifiedForDifferentLengthItems() returns (afterWill: nat, afterDid: nat)
    ensures afterWill == 0 && afterDid == 1
  {
    afterWill, afterDid := LengthCounts(Items(["bar", "baz"], ["foo"]));
  }

  /** Equal counts: `length` observers are not told. */
  method LengthNotNotifiedForEqualCounts() returns (afterWill: nat, afterDid: nat)
    ensures afterWill == 0 && afterDid == 0
  {
    afterWill, afterDid := LengthCounts(Counts(1, 1));
  }

  /** Counts with a delta: `length` observers are told. */
  method LengthNotifiedForCountDelta() returns (afterWill: nat, afterDid: nat)
    ensures afterWill == 0 && afterDid == 1
  {
    afterWill, afterDid := LengthCounts(Counts(1, 2));
  }

  /**
   The recording observer's state after the will call and after the did call
   for `d`, on a fresh enumerable with the observer registered.
   */
  method ObserverRecords(d: Descriptor<string>)
    returns (obj: TestEnumerable<string>, afterWill: Record<Notice<string>>, afterDid: Record<Notice<string>>)
    ensures afterWill == Record(Some(obj.NoticeOf(d)), None, 1, 0)
    ensures afterDid == Record(Some(obj.NoticeOf(d)), Some(obj.NoticeOf(d)), 1, 1)
  {
    obj := NewDummy();
    obj.AddEnumerableObserver(Watcher);
    obj.EnumerableContentWillChange(d);
    afterWill := Lookup(obj.records, Watcher);
    obj.EnumerableContentDidChange(d);
    afterDid := Lookup(obj.records, Watcher);
  }

  /** No arguments: the observer is called once per hook with `(obj, null, null)`. */
  method ObserverNotifiedWithoutParams()
    returns (obj: TestEnumerable<string>, afterWill: Record<Notice<string>>, afterDid: Record<Notice<string>>)
    ensures afterWill == Record(Some(Notice(obj, Null, Null)), None, 1, 0)
    ensures afterDid == Record(Some(Notice(obj, Null, Null)), Some(Notice(obj, Null, Null)), 1, 1)
  {
    obj, afterWill, afterDid := ObserverRecords(Unspecified);
  }

  /** Same-length items: the observer gets `(obj, removed, added)` as passed. */
  method ObserverNotifiedWithSameLengthItems()
    returns (obj: TestEnumerable<string>, afterWill: Record<Notice<string>>, afterDid: Record<Notice<string>>)
    ensures afterWill.before == Some(Notice(obj, List(["bar"]), List(["foo"]))) && afterWill.willCalls == 1
    ensures afterDid.after == Some(Notice(obj, List(["bar"]), List(["foo"]))) && afterDid.didCalls == 1
  {
    obj, afterWill, afterDid := ObserverRecords(Items(["bar"], ["foo"]));
  }

  /** Items of different lengths: the observer gets `(obj, removed, added)` as passed. */
  method ObserverNotifiedWithDifferentLengthItems()
    returns (obj: TestEnumerable<string>, afterWill: Record<Notice<string>>, afterDid: Record<Notice<string>>)
    ensures afterWill.before == Some(Notice(obj, List(["bar"]), List(["foo", "baz"]))) && afterWill.willCalls == 1
    ensures afterDid.after == Some(Notice(obj, List(["bar"]), List(["foo", "baz"]))) && afterDid.didCalls == 1
  {
    obj, afterWill, afterDid := ObserverRecords(Items(["bar"], ["foo", "baz"]));
  }

  /** Counts: the observer gets the two numbers unchanged. */
  method ObserverNotifiedWithCounts()
    returns (obj: TestEnumerable<string>, afterWill: Record<Notice<string>>, afterDid: Record<Notice<string>>)
    ensures afterWill.before == Some(Notice(obj, Count(1), Count(2))) && afterWill.willCalls == 1
    ensures afterDid.after == Some(Notice(obj, Count(1), Count(2))) && afterDid.didCalls == 1
  {
    obj, afterWill, afterDid := ObserverRecords(Counts(1, 2));
  }

  /** A removed observer records nothing from a later will/did pair. */
  method RemovedObserverNotNotified()
    returns (afterWill: Record<Notice<string>>, afterDid: Record<Notice<string>>)
    ensures afterWill.before == None && afterWill.willCalls == 0
    ensures afterDid.after == None && afterDid.didCalls == 0
  {
    var obj := NewDummy();
    obj.AddEnumerableObserver(Watcher);
    obj.RemoveEnumerableObserver(Watcher);
    obj.EnumerableContentWillChange(Unspecified);
    afterWill := Lookup(obj.records, Watcher);
    obj.EnumerableContentDidChange(Unspecified);
    afterDid := Lookup(obj.records, Watcher);
  }

  /**
   Once `o` has been removed from any enumerable, a will/did pair with any
   descriptors leaves what `o` has recorded unchanged.
   */
  method RemovedObserverUnaffected(obj: TestEnumerable<string>, o: ObserverId,
                                   will: Descriptor<string>, did: Descriptor<string>)
    requires obj.Valid()
    modifies obj
    ensures obj.Valid() && o !in obj.observers
    ensures Lookup(obj.records, o) == old(Lookup(obj.records, o))
  {
    obj.RemoveEnumerableObserver(o);
    obj.EnumerableContentWillChange(will);
    obj.EnumerableContentDidChange(did);
  }

  /**
   `addObject` on `[1, 2, 3]`: adding 4 appends it and tells `length` and `[]`
   observers once; adding 4 again changes nothing; a slice taken before is
   not affected by the later mutation.
   */
  method AddObjectAppendsOnce()
    returns (taken: seq<int>, afterFirst: seq<int>, afterSecond: seq<int>, lengthFired: nat, last: Option<int>, past: Option<int>)
    ensures taken == [1, 2, 3]
    ensures afterFirst == [1, 2, 3, 4] && afterSecond == [1, 2, 3, 4]
    ensures lengthFired == 1
    ensures last == Some(4) && past == None
  {
    var obj := new TestEnumerable<int>(Some([1, 2, 3]));
    taken := obj.Slice();
    obj.AddObject(4);
    afterFirst := obj.Slice();
    obj.AddObject(4);
    afterSecond := obj.Slice();
    lengthFired := obj.lengthChanges;
    last := obj.NextObject(3);
    past := obj.NextObject(4);
  }
}
