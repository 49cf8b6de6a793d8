/** What the waits on a waitable share: where a wait node is, and sums over contexts. */
module Waiters {

  /** The index of a context. */
  type Cid = nat

  /** On the queue, or taken off it by a wake, until its owner's disarm finds out which. */
  datatype Node = Unlinked | Queued | Taken

  function Sum<T>(s: seq<T>, weight: T -> nat): nat {
    if s == [] then 0 else weight(s[0]) + Sum(s[1..], weight)
  }

  lemma {:induction false} SumUpdate<T>(s: seq<T>, i: nat, x: T, weight: T -> nat)
    requires i < |s|
    ensures Sum(s[i := x], weight) == Sum(s, weight) - weight(s[i]) + weight(x)
    ensures weight(s[i]) <= Sum(s, weight)
    decreases i
  {
    if i == 0 {
      assert s[0 := x][1..] == s[1..];
    } else {
      assert s[i := x][1..] == s[1..][i - 1 := x];
      SumUpdate(s[1..], i - 1, x, weight);
    }
  }

  lemma {:induction false} SumZero<T>(s: seq<T>, weight: T -> nat)
    ensures Sum(s, weight) == 0 <==> forall i :: 0 <= i < |s| ==> weight(s[i]) == 0
    decreases |s|
  {
    if s != [] {
      SumZero(s[1..], weight);
      assert forall i :: 0 <= i < |s| - 1 ==> s[1..][i] == s[i + 1];
      assert forall i :: 0 < i < |s| ==> s[i] == s[1..][i - 1];
    }
  }
}
