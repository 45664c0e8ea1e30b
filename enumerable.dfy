/**
 The fake enumerable of the tests (`TestEnumerable`) together with the
 content-change protocol it gets from the Enumerable mixin: will/did-change
 announcements, the enumerable observers registered on it, and the `length`
 and `[]` property observers, which are stood in for by two counters.
 */
module Enumerables {

  import opened Wrappers
  import opened Sequences
  import opened Descriptors
  import opened Observers

  /**
   The index of the first occurrence of `x` in `s`, or -1 when `x` does not
   occur (JavaScript's `indexOf`, comparing with `===`).
   */
  method IndexOf<T(==)>(s: seq<T>, x: T) returns (i: int)
    ensures -1 <= i < |s|
    ensures i == -1 <==> x !in s
    ensures 0 <= i ==> s[i] == x && x !in s[..i]
  {
    i := 0;
    while i < |s|
      invariant 0 <= i <= |s|
      invariant x !in s[..i]
    {
      if s[i] == x {
        return;
      }
      i := i + 1;
    }
    assert s[..i] == s;
    i := -1;
  }

  /** The argument list `(sender, removing, adding)` an enumerable observer is called with. */
  datatype Notice<T(==)> = Notice(sender: TestEnumerable<T>, removing: Arg<T>, adding: Arg<T>)

  class TestEnumerable<T(==)> {
    /** The items, in insertion order. */
    var content: seq<T>
    /** The registered enumerable observers, in registration order. */
    var observers: seq<ObserverId>
    /** What each observer has recorded so far. */
    var records: map<ObserverId, Record<Notice<T>>>
    /** How often an observer of `length` has fired. */
    var lengthChanges: nat
    /** How often an observer of `[]` has fired. */
    var contentChanges: nat

    /** An observer is registered at most once. */
    ghost predicate Valid()
      reads this
    {
      Distinct(observers)
    }

    /** A new enumerable over `ary`, or over an empty array when none is given. */
    constructor (ary: Option<seq<T>>)
      ensures Valid()
      ensures content == (if ary.Some? then ary.value else [])
      ensures observers == [] && records == map[]
      ensures lengthChanges == 0 && contentChanges == 0
    {
      content := if ary.Some? then ary.value else [];
      observers := [];
      records := map[];
      lengthChanges := 0;
      contentChanges := 0;
    }

    /** The `length` property: the number of items. */
    function Length(): nat
      reads this
    {
      |content|
    }

    /** The item at `idx`, or `undefined` past the end (or before the start). */
    function NextObject(idx: int): (r: Option<T>)
      reads this
      ensures r.Some? <==> 0 <= idx < Length()
      ensures r.Some? ==> r.value == content[idx]
    {
      if idx >= Length() then None
      else if idx < 0 then None
      else Some(content[idx])
    }

    /**
     A copy of the items: as long as `length`, and holding what `nextObject`
     yields at each index.
     */
    function Slice(): (s: seq<T>)
      reads this
      ensures s == content
      ensures |s| == Length()
      ensures forall i :: 0 <= i < |s| ==> NextObject(i) == Some(s[i])
      ensures NextObject(|s|) == None
    {
      content[..]
    }

    /** The arguments observers get for a change described by `d`. */
    function NoticeOf(d: Descriptor<T>): (n: Notice<T>)
      ensures n.sender == this
      ensures Classify(n.removing, n.adding) == Some(d)
    {
      ArgumentsRoundTrip(d);
      Notice(this, Arguments(d).0, Arguments(d).1)
    }

    /** Calls the hook for `phase` once on each registered observer, in order. */
    method Notify(phase: Phase, n: Notice<T>)
      requires Valid()
      modifies this`records
      ensures Valid()
      ensures forall o :: Lookup(records, o) ==
                if o in observers then Lookup(old(records), o).Receive(phase, n)
                else Lookup(old(records), o)
    {
      var i := 0;
      while i < |observers|
        invariant 0 <= i <= |observers|
        invariant records == Deliver(old(records), observers[..i], phase, n)
      {
        var o := observers[i];
        assert observers[..i + 1][..i] == observers[..i];
        records := records[o := Lookup(records, o).Receive(phase, n)];
        i := i + 1;
      }
      assert observers[..i] == observers;
      forall o
        ensures Lookup(records, o) ==
                if o in observers then Lookup(old(records), o).Receive(phase, n)
                else Lookup(old(records), o)
      {
        DeliverReachesEachOnce(old(records), observers, phase, n, o);
      }
    }

    /**
     `enumerableContentWillChange`: each registered observer's will-change hook
     runs once with the arguments as passed; no property observer fires.
     */
    method EnumerableContentWillChange(d: Descriptor<T>)
      requires Valid()
      modifies this
      ensures Valid()
      ensures content == old(content) && observers == old(observers)
      ensures lengthChanges == old(lengthChanges) && contentChanges == old(contentChanges)
      ensures forall o :: Lookup(records, o) ==
                if o in observers then Lookup(old(records), o).Receive(WillChange, NoticeOf(d))
                else Lookup(old(records), o)
    {
      Notify(WillChange, NoticeOf(d));
    }

    /**
     `enumerableContentDidChange`: the `[]` observer fires once, the `length`
     observer fires once exactly when the size may have changed, and each
     registered observer's did-change hook runs once with the arguments as passed.
     */
    method EnumerableContentDidChange(d: Descriptor<T>)
      requires Valid()
      modifies this
      ensures Valid()
      ensures content == old(content) && observers == old(observers)
      ensures contentChanges == old(contentChanges) + 1
      ensures lengthChanges == old(lengthChanges) + (if LengthMayChange(d) then 1 else 0)
      ensures forall o :: Lookup(records, o) ==
                if o in observers then Lookup(old(records), o).Receive(DidChange, NoticeOf(d))
                else Lookup(old(records), o)
    {
      contentChanges := contentChanges + 1;
      if LengthMayChange(d) {
        lengthChanges := lengthChanges + 1;
      }
      Notify(DidChange, NoticeOf(d));
    }

    /** `addEnumerableObserver`: registers `o`; registering it again changes nothing. */
    method AddEnumerableObserver(o: ObserverId)
      requires Valid()
      modifies this
      ensures Valid()
      ensures observers == Insert(old(observers), o)
      ensures content == old(content) && records == old(records)
      ensures lengthChanges == old(lengthChanges) && contentChanges == old(contentChanges)
    {
      observers := Insert(observers, o);
    }

    /**
     `removeEnumerableObserver`: `o` is no longer registered, the others stay
     registered, and removing an observer that is not registered changes nothing.
     */
    method RemoveEnumerableObserver(o: ObserverId)
      requires Valid()
      modifies this
      ensures Valid()
      ensures observers == Remove(old(observers), o)
      ensures o !in observers
      ensures o !in old(observers) ==> observers == old(observers)
      ensures content == old(content) && records == old(records)
      ensures lengthChanges == old(lengthChanges) && contentChanges == old(contentChanges)
    {
      if o !in observers {
        RemoveAbsent(observers, o);
      }
      observers := Remove(observers, o);
    }

    /**
     `addObject`: an item already present leaves everything unchanged;
     otherwise it is appended and a did-change with no arguments (and no
     will-change) is announced.
     */
    method AddObject(x: T)
      requires Valid()
      modifies this
      ensures Valid()
      ensures content == Insert(old(content), x)
      ensures observers == old(observers)
      ensures x in old(content) ==>
                content == old(content) && records == old(records)
                && lengthChanges == old(lengthChanges) && contentChanges == old(contentChanges)
      ensures x !in old(content) ==>
                content == old(content) + [x]
                && lengthChanges == old(lengthChanges) + 1
                && contentChanges == old(contentChanges) + 1
                && forall o :: Lookup(records, o) ==
                     if o in observers then Lookup(old(records), o).Receive(DidChange, NoticeOf(Unspecified))
                     else Lookup(old(records), o)
    {
      var i := IndexOf(content, x);
      if i >= 0 {
        return;
      }
      content := content + [x];
      EnumerableContentDidChange(Unspecified);
    }
  }
}
