/** Sequence helpers: reversal and ascending order. */
module Seqs {

  /** `s` in reverse order, as `Array.prototype.reverse` leaves it. */
  function Reversed<T>(s: seq<T>): (r: seq<T>)
    ensures |r| == |s|
    ensures forall i :: 0 <= i < |s| ==> r[i] == s[|s| - 1 - i]
  {
    if s == [] then [] else [s[|s| - 1]] + Reversed(s[..|s| - 1])
  }

  /** Every element is strictly smaller than every element after it. */
  ghost predicate Ascending(s: seq<int>)
  {
    forall i, j :: 0 <= i < j < |s| ==> s[i] < s[j]
  }

  /** The last element of a non-empty ascending sequence is its largest. */
  lemma LastIsLargest(s: seq<int>, k: int)
    requires Ascending(s) && |s| > 0
    requires k in s
    ensures k <= s[|s| - 1]
  {
    var i :| 0 <= i < |s| && s[i] == k;
  }

  /** Appending an element larger than all the others keeps a sequence ascending. */
  lemma AppendLargerKeepsAscending(s: seq<int>, k: int)
    requires Ascending(s)
    requires forall i :: 0 <= i < |s| ==> s[i] < k
    ensures Ascending(s + [k])
  {
  }
}
