/**
 * The `Container` capability: an ordered list of owned children with
 * append and index-based removal. Every container of the scene graph
 * (line arrow, layer, and the older default implementation) guards
 * removal with `index > len`, and then calls `Vec::remove(index)`, which
 * panics when `index >= len`.
 */
module Containers {

  /** Outcome of a removal: the removed child, a rejected index, or a panic of `Vec::remove`. */
  datatype Removal<T> = Removed(child: T) | Rejected | Panicked

  /** No child is held twice: each owned box is in the list once. */
  predicate Distinct<T(==)>(s: seq<T>) {
    forall i, j :: 0 <= i < j < |s| ==> s[i] != s[j]
  }

  /** Putting a new child in front of a list of distinct children keeps them distinct. */
  lemma DistinctCons<T>(x: T, s: seq<T>)
    requires Distinct(s) && x !in s
    ensures Distinct([x] + s)
  {
    var r := [x] + s;
    forall i, j | 0 <= i < j < |r| ensures r[i] != r[j] {
      assert r[j] == s[j - 1];
      if i > 0 { assert r[i] == s[i - 1]; }
    }
  }

  /** The children left after taking out the one at `index`. */
  function Without<T>(s: seq<T>, index: nat): (r: seq<T>)
    requires index < |s|
    ensures |r| == |s| - 1
    ensures forall j :: 0 <= j < index ==> r[j] == s[j]
    ensures forall j :: index <= j < |r| ==> r[j] == s[j + 1]
  {
    s[..index] + s[index + 1..]
  }

  /**
   * Removal as written: the guard `index > len` rejects indices past the
   * end, lets `index == len` through, and `Vec::remove` then panics.
   * Returns the outcome and the children afterwards.
   */
  function RemoveAsWritten<T>(s: seq<T>, index: nat): (r: (Removal<T>, seq<T>))
    ensures index < |s| ==> r == (Removed(s[index]), Without(s, index))
    ensures index > |s| ==> r == (Rejected, s)
    ensures index == |s| ==> r.0 == Panicked && r.1 == s
  {
    if index > |s| then (Rejected, s)
    else if index < |s| then (Removed(s[index]), Without(s, index))
    else (Panicked, s)
  }

  /** The guard lets the one-past-the-end index through, on every list. */
  lemma RemoveAtLengthPanics<T>(s: seq<T>)
    ensures RemoveAsWritten(s, |s|).0 == Panicked
  {
  }

  /** The concrete witness: a one-child container asked to remove index 1. */
  lemma RemoveAtLengthWitness(x: int)
    ensures RemoveAsWritten([x], 1) == (Panicked, [x])
  {
  }

  /** Removal with the evidently intended guard `index >= len`. */
  function RemoveChecked<T>(s: seq<T>, index: nat): (r: (Removal<T>, seq<T>))
    ensures r.0 != Panicked
    ensures r.0.Removed? <==> index < |s|
    ensures r.0.Removed? ==> r.0.child == s[index] && r.1 == Without(s, index)
    ensures r.0.Rejected? ==> r.1 == s
  {
    if index >= |s| then (Rejected, s) else (Removed(s[index]), Without(s, index))
  }

  /** The two versions agree everywhere except at index == len. */
  lemma RemoveVersionsAgree<T>(s: seq<T>, index: nat)
    requires index != |s|
    ensures RemoveAsWritten(s, index) == RemoveChecked(s, index)
  {
  }
}
