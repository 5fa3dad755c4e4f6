/** Searching a sequence for an element, as `indexOf` and `strings.Index` do. */
module Sequences {
  /** The first position holding `x`, or -1 when there is none. */
  function IndexOf<T(==)>(s: seq<T>, x: T): (k: int)
    ensures -1 <= k < |s|
    ensures k == -1 <==> x !in s
    ensures 0 <= k ==> s[k] == x && forall j :: 0 <= j < k ==> s[j] != x
  {
    if s == [] then -1
    else if s[0] == x then 0
    else
      var k := IndexOf(s[1..], x);
      if k == -1 then -1 else k + 1
  }

  /** A position holding `x` with no earlier one is what `IndexOf` finds. */
  lemma IndexOfFirst<T>(s: seq<T>, x: T, k: nat)
    requires k < |s| && s[k] == x
    requires forall j :: 0 <= j < k ==> s[j] != x
    ensures IndexOf(s, x) == k
  {
  }
}
