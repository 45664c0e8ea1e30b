/**
 Sequences used as ordered sets: the content of the fake enumerable and the
 list of registered enumerable observers are both kept without duplicates by
 inserting only what is absent, and observers are removed by filtering.
 */
module Sequences {

  /** No element occurs twice. */
  predicate Distinct<X(==)>(s: seq<X>)
  {
    forall i, j :: 0 <= i < j < |s| ==> s[i] != s[j]
  }

  /**
   Set-like insertion at the end of a sequence: `s` is kept as it is when it
   already holds `x`, and otherwise `x` is appended.
   */
  function Insert<X(==)>(s: seq<X>, x: X): (r: seq<X>)
    ensures x in r
    ensures forall i :: 0 <= i < |r| ==> r[i] in s || r[i] == x
    ensures |r| == if x in s then |s| else |s| + 1
    ensures r[..|s|] == s
    ensures Distinct(s) ==> Distinct(r)
  {
    if x in s then s else s + [x]
  }

  /** Inserting the same element twice has the effect of inserting it once. */
  lemma InsertIdempotent<X>(s: seq<X>, x: X)
    ensures Insert(Insert(s, x), x) == Insert(s, x)
  {
  }

  /** Every occurrence of `x` is dropped; every other element stays. */
  function Remove<X(==)>(s: seq<X>, x: X): (r: seq<X>)
    ensures x !in r
    ensures forall i :: 0 <= i < |r| ==> r[i] in s
    ensures forall i :: 0 <= i < |s| && s[i] != x ==> s[i] in r
    ensures |r| <= |s|
    ensures Distinct(s) ==> Distinct(r)
  {
    if s == [] then []
    else if s[0] == x then Remove(s[1..], x)
    else [s[0]] + Remove(s[1..], x)
  }

  /** Removing an element that is absent changes nothing. */
  lemma {:induction false} RemoveAbsent<X>(s: seq<X>, x: X)
    requires x !in s
    ensures Remove(s, x) == s
  {
    if s != [] {
      assert s == [s[0]] + s[1..];
      RemoveAbsent(s[1..], x);
    }
  }

  /** Removing the same element twice has the effect of removing it once. */
  lemma RemoveIdempotent<X>(s: seq<X>, x: X)
    ensures Remove(Remove(s, x), x) == Remove(s, x)
  {
    RemoveAbsent(Remove(s, x), x);
  }
}
