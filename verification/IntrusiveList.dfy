/**
 Singly linked intrusive lists with a head, a tail and a self-pointer for "not linked":
 the ready queues and the holder list. A thread is its index, and a field of the thread
 control block is a sequence by thread. The walk and the writes are the source's; what
 they amount to is stated on the sequence of threads the list spells.
 */
module IntrusiveList {
  import opened Wrappers
  import opened Threads
  import opened WaitOrder

  type Links = seq<Option<Tid>>

  function At(q: seq<Tid>, i: int): Option<Tid> { if 0 <= i < |q| then Some(q[i]) else None }

  /** The links from head to tail spell q, each thread once. */
  ghost predicate IsList(next: Links, head: Option<Tid>, tail: Option<Tid>, q: seq<Tid>) {
    && Distinct(q) && head == At(q, 0) && tail == At(q, |q| - 1)
    && (forall i :: 0 <= i < |q| ==> q[i] < |next|)
    && forall i: nat :: i < |q| ==> LinkAt(next, q, i)
  }

  /** Position i leads to position i + 1, and the last to nobody. */
  predicate LinkAt(next: Links, q: seq<Tid>, i: nat)
    requires i < |q|
  {
    q[i] < |next| && next[q[i]] == At(q, i + 1)
  }

  predicate Unlinked(next: Links, t: Tid) { t < |next| && next[t] == Some(t) }

  lemma LinkedIsNotSelf(next: Links, head: Option<Tid>, tail: Option<Tid>, q: seq<Tid>, t: Tid)
    requires IsList(next, head, tail, q) && t in q
    ensures !Unlinked(next, t)
  {
    var i: nat :| i < |q| && q[i] == t;
    assert LinkAt(next, q, i) && (i + 1 < |q| ==> Apart(q, i, i + 1));
  }

  /** Links that agree on q spell it too. */
  lemma SameList(next: Links, next': Links, head: Option<Tid>, tail: Option<Tid>, q: seq<Tid>)
    requires IsList(next, head, tail, q)
    requires forall i :: 0 <= i < |q| ==> q[i] < |next'| && next'[q[i]] == next[q[i]]
    ensures IsList(next', head, tail, q)
  {
    forall i: nat | i < |q| ensures LinkAt(next', q, i) { assert LinkAt(next, q, i); }
  }

  /** push_back's writes. */
  lemma PushedBack(next: Links, head: Option<Tid>, tail: Option<Tid>, q: seq<Tid>, t: Tid, next': Links)
    requires IsList(next, head, tail, q) && t !in q && t < |next|
    requires next' == (var n := next[t := None]; if tail.Some? then n[tail.value := Some(t)] else n)
    ensures IsList(next', if tail.Some? then head else Some(t), Some(t), q + [t])
  {
    var r := q + [t];
    DistinctPush(q, t);
    forall i: nat | i < |r| ensures LinkAt(next', r, i) {
      if i < |q| { assert LinkAt(next, q, i) && q[i] != t && (i < |q| - 1 ==> Apart(q, i, |q| - 1)); }
    }
  }

  /** push_front's writes. */
  lemma PushedFront(next: Links, head: Option<Tid>, tail: Option<Tid>, q: seq<Tid>, t: Tid)
    requires IsList(next, head, tail, q) && t !in q && t < |next|
    ensures IsList(next[t := head], Some(t), if tail == None then Some(t) else tail, [t] + q)
  {
    var r, next' := [t] + q, next[t := head];
    DistinctPush(q, t);
    forall i: nat | i < |r| ensures LinkAt(next', r, i) {
      if i > 0 { assert LinkAt(next, q, i - 1) && q[i - 1] != t; }
    }
  }

  lemma Differ(q: seq<Tid>, i: nat, j: nat)
    requires Distinct(q) && i < |q| && j < |q| && i != j
    ensures q[i] != q[j]
  {
    assert if i < j then Apart(q, i, j) else Apart(q, j, i);
  }

  function Cut(q: seq<Tid>, k: nat): (r: seq<Tid>)
    requires k < |q|
    ensures |r| == |q| - 1 && forall i :: 0 <= i < |r| ==> r[i] == if i < k then q[i] else q[i + 1]
  {
    q[..k] + q[k + 1..]
  }

  lemma CutDistinct(q: seq<Tid>, k: nat)
    requires Distinct(q) && k < |q|
    ensures Distinct(Cut(q, k)) && q[k] !in Cut(q, k)
  {
    var r := Cut(q, k);
    forall i: nat, j: nat | i < j < |r| ensures Apart(r, i, j) {
      assert Apart(q, if i < k then i else i + 1, if j < k then j else j + 1);
    }
    forall i: nat | i < |r| ensures r[i] != q[k] { assert if i < k then Apart(q, i, k) else Apart(q, k, i + 1); }
  }

  lemma CutEnds(q: seq<Tid>, k: nat)
    requires Distinct(q) && k < |q|
    ensures At(Cut(q, k), 0) == if k > 0 then At(q, 0) else At(q, 1)
    ensures At(Cut(q, k), |q| - 2) == if At(q, |q| - 1) == Some(q[k]) then At(q, k - 1) else At(q, |q| - 1)
  {
    assert k < |q| - 1 ==> Apart(q, k, |q| - 1);
  }

  lemma CutLink(next: Links, q: seq<Tid>, k: nat, own: Option<Tid>, next': Links, i: nat)
    requires Distinct(q) && k < |q| && i < |q| - 1
    requires forall j: nat :: j < |q| ==> LinkAt(next, q, j)
    requires (forall j :: 0 <= j < |q| ==> q[j] < |next|) &&
             next' == (if k > 0 then next[q[k - 1] := next[q[k]]] else next)[q[k] := own]
    ensures LinkAt(next', Cut(q, k), i)
  {
    var j := if i < k then i else i + 1;
    assert LinkAt(next, q, j) && LinkAt(next, q, k);
    Differ(q, j, k);
    if k > 0 && j != k - 1 { Differ(q, j, k - 1); }
  }

  /**
   The unlinking writes of remove, at position k, and of pop_front, at position 0; own is
   the link left in the thread.
   */
  lemma UnlinkedAt(next: Links, head: Option<Tid>, tail: Option<Tid>, q: seq<Tid>, k: nat, own: Option<Tid>,
                   next': Links)
    requires IsList(next, head, tail, q) && k < |q|
    requires next' == (if k > 0 then next[q[k - 1] := next[q[k]]] else next)[q[k] := own]
    ensures IsList(next', if k > 0 then head else next[q[k]],
                   if tail == Some(q[k]) then At(q, k - 1) else tail, Remove(q, q[k]))
  {
    CutIsList(next, head, tail, q, k, own, next');
    RemoveAt(q, k);
  }

  lemma CutIsList(next: Links, head: Option<Tid>, tail: Option<Tid>, q: seq<Tid>, k: nat, own: Option<Tid>,
                  next': Links)
    requires IsList(next, head, tail, q) && k < |q|
    requires next' == (if k > 0 then next[q[k - 1] := next[q[k]]] else next)[q[k] := own]
    ensures IsList(next', if k > 0 then head else next[q[k]],
                   if tail == Some(q[k]) then At(q, k - 1) else tail, Cut(q, k))
  {
    CutDistinct(q, k);
    CutEnds(q, k);
    CutLinks(next, q, k, own, next');
    assert LinkAt(next, q, k);
  }

  lemma CutLinks(next: Links, q: seq<Tid>, k: nat, own: Option<Tid>, next': Links)
    requires Distinct(q) && k < |q| && (forall j: nat :: j < |q| ==> LinkAt(next, q, j))
    requires (forall j :: 0 <= j < |q| ==> q[j] < |next|) &&
             next' == (if k > 0 then next[q[k - 1] := next[q[k]]] else next)[q[k] := own]
    ensures var r := Cut(q, k);
            (forall i :: 0 <= i < |r| ==> r[i] < |next'|) && forall i: nat :: i < |r| ==> LinkAt(next', r, i)
  {
    var r := Cut(q, k);
    forall i: nat | i < |r| ensures LinkAt(next', r, i) { CutLink(next, q, k, own, next', i); }
  }

  lemma RemoveAt(q: seq<Tid>, k: nat)
    requires Distinct(q) && k < |q|
    ensures Cut(q, k) == Remove(q, q[k])
  {
    forall i: nat | i < k ensures q[i] != q[k] { assert Apart(q, i, k); }
    RemoveFirstAt(q, k);
  }

  lemma {:induction false} RemoveFirstAt(q: seq<Tid>, k: nat)
    requires k < |q| && forall i :: 0 <= i < k ==> q[i] != q[k]
    ensures q[..k] + q[k + 1..] == Remove(q, q[k])
    decreases k
  {
    if k > 0 {
      var t := q[1..];
      RemoveFirstAt(t, k - 1);
      assert q[..k] == [q[0]] + t[..k - 1] && q[k + 1..] == t[k..];
      assert ([q[0]] + t[..k - 1]) + t[k..] == [q[0]] + (t[..k - 1] + t[k..]);
    }
  }

  /** remove's walk: where t is, and what is before it. */
  method Find(next: Links, head: Option<Tid>, ghost tail: Option<Tid>, ghost q: seq<Tid>, t: Tid)
    returns (found: bool, before: Option<Tid>)
    requires IsList(next, head, tail, q)
    ensures found <==> t in q
    ensures found ==> exists k: nat :: k < |q| && q[k] == t && before == At(q, k - 1)
  {
    ghost var k := 0;
    var current := head;
    before := None;
    while current != None && current.value != t
      invariant k <= |q| && current == At(q, k) && before == At(q, k - 1)
      invariant t !in q[..k]
      decreases |q| - k
    {
      assert LinkAt(next, q, k);
      assert q[..k + 1] == q[..k] + [q[k]];
      before := current;
      current := next[current.value];
      k := k + 1;
    }
    found := current != None;
    assert q[..|q|] == q;
  }

  /** remove: walk to t and write it out, its own link back to itself. */
  method Unlink(next: Links, head: Option<Tid>, tail: Option<Tid>, ghost q: seq<Tid>, t: Tid)
    returns (found: bool, next': Links, head': Option<Tid>, tail': Option<Tid>)
    requires IsList(next, head, tail, q)
    ensures found <==> t in q
    ensures IsList(next', head', tail', Remove(q, t)) && |next'| == |next|
    ensures found ==> Unlinked(next', t)
    ensures forall u :: 0 <= u < |next| && u !in q ==> next'[u] == next[u]
  {
    next', head', tail' := next, head, tail;
    var before: Option<Tid>;
    found, before := Find(next, head, tail, q, t);
    RemoveCounts(q, t);
    if !found { return; }
    ghost var k: nat :| k < |q| && q[k] == t && before == At(q, k - 1);
    if before.Some? { next' := next'[before.value := next[t]]; } else { head' := next[t]; }
    if tail == Some(t) { tail' := before; }
    next' := next'[t := Some(t)];
    UnlinkedAt(next, head, tail, q, k, Some(t), next');
  }
}
