/**
 The description of a content change that a caller hands to
 `enumerableContentWillChange` / `enumerableContentDidChange`, and the raw
 argument values an enumerable observer receives for it.
 */
module Descriptors {

  import opened Wrappers

  /** One raw JavaScript argument: `null` (nothing given), an array of items, or a count. */
  datatype Arg<T> = Null | List(items: seq<T>) | Count(n: nat)

  /**
   The three call shapes: no arguments, `(removed, added)` item arrays, or the
   older `(removedCount, addedCount)` numbers.
   */
  datatype Descriptor<T> =
    | Unspecified
    | Items(removed: seq<T>, added: seq<T>)
    | Counts(removedCount: nat, addedCount: nat)

  /** The `(removing, adding)` argument pair an observer is handed for a descriptor. */
  function Arguments<T>(d: Descriptor<T>): (Arg<T>, Arg<T>)
  {
    match d
    case Unspecified => (Null, Null)
    case Items(r, a) => (List(r), List(a))
    case Counts(r, a) => (Count(r), Count(a))
  }

  /**
   Reads a raw argument pair back as a descriptor. Pairs that mix two shapes
   are no call the protocol knows and give `None`.
   */
  function Classify<T>(removing: Arg<T>, adding: Arg<T>): (d: Option<Descriptor<T>>)
    ensures d.Some? ==> Arguments(d.value) == (removing, adding)
    ensures d.None? <==> !(removing.Null? && adding.Null?)
                         && !(removing.List? && adding.List?)
                         && !(removing.Count? && adding.Count?)
  {
    match (removing, adding)
    case (Null, Null) => Some(Unspecified)
    case (List(r), List(a)) => Some(Items(r, a))
    case (Count(r), Count(a)) => Some(Counts(r, a))
    case _ => None
  }

  /** Observers are handed exactly what was passed: the arguments read back as the same descriptor. */
  lemma ArgumentsRoundTrip<T>(d: Descriptor<T>)
    ensures Classify(Arguments(d).0, Arguments(d).1) == Some(d)
  {
  }

  /**
   The change in size a descriptor announces: added minus removed, or
   `None` when the caller said nothing about what changed.
   */
  function SizeDelta<T>(d: Descriptor<T>): Option<int>
  {
    match d
    case Unspecified => None
    case Items(r, a) => Some(|a| - |r|)
    case Counts(r, a) => Some(a - r)
  }

  /**
   Whether a change described by `d` may have changed the size of the
   collection, which decides whether `length` observers are told: exactly
   when the announced change in size is unknown or not zero.
   */
  predicate LengthMayChange<T>(d: Descriptor<T>)
    ensures LengthMayChange(d) <==> SizeDelta(d) != Some(0)
  {
    match d
    case Unspecified => true
    case Items(r, a) => |r| != |a|
    case Counts(r, a) => r != a
  }
}
