/**
 What an enumerable observer keeps: the recording observer of the tests
 stores the arguments of its last `enumerableWillChange` and
 `enumerableDidChange` calls (both start as `null`), and here also counts
 the calls so that "called once per will/did pair" can be stated.
 */
module Observers {

  import opened Wrappers
  import opened Sequences

  /** The identity of an observer object. */
  type ObserverId = nat

  /** The two hooks of an enumerable observer. */
  datatype Phase = WillChange | DidChange

  /** One observer's state: last arguments per hook and how often each hook ran. */
  datatype Record<N> = Record(before: Option<N>, after: Option<N>, willCalls: nat, didCalls: nat)
  {
    /** The observer's state after one call of the hook for `phase` with arguments `n`. */
    function Receive(phase: Phase, n: N): Record<N>
    {
      match phase
      case WillChange => this.(before := Some(n), willCalls := willCalls + 1)
      case DidChange => this.(after := Some(n), didCalls := didCalls + 1)
    }
  }

  /** The state of an observer no notification has reached yet. */
  function Untouched<N>(): Record<N>
  {
    Record(None, None, 0, 0)
  }

  /** The state of observer `o`; one that never received anything is untouched. */
  function Lookup<N>(records: map<ObserverId, Record<N>>, o: ObserverId): Record<N>
  {
    if o in records then records[o] else Untouched()
  }

  /**
   The observers' states after the hook for `phase` has been called once, with
   arguments `n`, on each observer of `observers`, in order.
   */
  function Deliver<N>(records: map<ObserverId, Record<N>>, observers: seq<ObserverId>,
                      phase: Phase, n: N): map<ObserverId, Record<N>>
    decreases |observers|
  {
    if observers == [] then records
    else
      var earlier := Deliver(records, observers[..|observers| - 1], phase, n);
      var o := observers[|observers| - 1];
      earlier[o := Lookup(earlier, o).Receive(phase, n)]
  }

  /**
   A delivery to a duplicate-free list of observers reaches each listed
   observer exactly once and leaves every other observer alone.
   */
  lemma {:induction false} DeliverReachesEachOnce<N>(records: map<ObserverId, Record<N>>,
                                                     observers: seq<ObserverId>,
                                                     phase: Phase, n: N, o: ObserverId)
    requires Distinct(observers)
    ensures Lookup(Deliver(records, observers, phase, n), o) ==
            if o in observers then Lookup(records, o).Receive(phase, n) else Lookup(records, o)
  {
    if observers != [] {
      var init, last := observers[..|observers| - 1], observers[|observers| - 1];
      assert observers == init + [last];
      assert Distinct(init);
      DeliverReachesEachOnce(records, init, phase, n, o);
      if o == last {
        assert o !in init;
      }
    }
  }
}
