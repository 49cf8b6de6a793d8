/**
 The forward direction of the wait-for graph: from a blocked thread to the holder
 of what it is blocked on. Two loops walk it: request_repick, which prompts the
 cores a donation may concern, and blocking_chain_of, the deadlock query.
 */
module BlockedChain {
  import opened Wrappers
  import opened Threads
  import opened WaitGraph

  const MAX_LINKS := 8

  /** One hop: the holder of what t is blocked on, unless that is t itself. */
  function NextHolder(g: Graph, t: Tid): (r: Option<Tid>) {
    if t < |g.threads| && g.threads[t].blockedOn.Some? then
      var m := g.threads[t].blockedOn.value;
      if m < |g.mutexes| && g.mutexes[m].owner != Some(t) then g.mutexes[m].owner else None
    else None
  }

  /** n hops from t, if the chain goes that far. */
  function Hop(g: Graph, t: Tid, n: nat): (r: Option<Tid>) {
    if n == 0 then Some(t)
    else match Hop(g, t, n - 1)
      case None => None
      case Some(u) => NextHolder(g, u)
  }

  /** c is t and the holders after it, as far as it goes. */
  ghost predicate IsChain(g: Graph, t: Tid, c: seq<Tid>) {
    forall i :: 0 <= i < |c| ==> Hop(g, t, i) == Some(c[i])
  }

  lemma HopStops(g: Graph, t: Tid, i: nat, j: nat)
    requires i <= j && Hop(g, t, i) == None
    ensures Hop(g, t, j) == None
  {
  }

  lemma {:induction false} HopAdds(g: Graph, t: Tid, u: Tid, i: nat, j: nat)
    requires Hop(g, t, i) == Some(u)
    ensures Hop(g, t, i + j) == Hop(g, u, j)
  {
    if j > 0 {
      HopAdds(g, t, u, i, j - 1);
      assert i + j - 1 == i + (j - 1);
    }
  }

  /* ------------------------------------------------------- request_repick */

  /**
   Prompt the core of every thread on the first eight places of the chain from t.
   The loop is bounded, so a wait-for cycle ends it too.
   */
  method RequestRepick(g: Graph, t: Tid) returns (prompted: seq<nat>, ghost walked: seq<Tid>)
    requires IsThread(g, t)
    requires forall m: Mid :: m < |g.mutexes| && g.mutexes[m].owner.Some? ==> IsThread(g, g.mutexes[m].owner.value)
    ensures IsChain(g, t, walked) && walked != [] && AllThreads(g, walked)
    ensures |walked| == MAX_DEPTH || Hop(g, t, |walked|) == None
    ensures |walked| <= MAX_DEPTH
    ensures |prompted| == |walked| && forall i :: 0 <= i < |walked| ==> prompted[i] == g.threads[walked[i]].core
  {
    prompted, walked := [], [];
    var target := t;
    var hop := 0;
    while hop < MAX_DEPTH
      invariant hop <= MAX_DEPTH && |prompted| == |walked| == hop
      invariant IsThread(g, target) && Hop(g, t, hop) == Some(target)
      invariant IsChain(g, t, walked) && AllThreads(g, walked)
      invariant forall i :: 0 <= i < hop ==> prompted[i] == g.threads[walked[i]].core
    {
      prompted, walked := prompted + [g.threads[target].core], walked + [target];
      if g.threads[target].blockedOn == None { return; }
      var resource := g.threads[target].blockedOn.value;
      if resource >= |g.mutexes| { return; }
      var next := g.mutexes[resource].owner;
      if next == None || next == Some(target) { return; }
      target := next.value;
      hop := hop + 1;
    }
  }

  /** Queued means blocked on: what lock() publishes while it is armed. */
  ghost predicate Published(g: Graph, w: Tid)
    requires IsThread(g, w)
  {
    forall m: Mid :: m < |g.mutexes| && w in g.mutexes[m].queue && g.mutexes[m].owner != Some(w)
                     ==> g.threads[w].blockedOn == Some(m)
  }

  /** g' is g after w armed on m, and perhaps published it: nothing else moved. */
  ghost predicate WaiterAdded(g: Graph, g': Graph, w: Tid, m: Mid) {
    && IsThread(g, w) && m < |g.mutexes| && w !in g.mutexes[m].queue
    && |g'.threads| == |g.threads| && |g'.mutexes| == |g.mutexes|
    && (forall t: Tid :: IsThread(g, t) ==>
          && g'.threads[t] == g.threads[t].(blockedOn := g'.threads[t].blockedOn)
          && (t != w ==> g'.threads[t].blockedOn == g.threads[t].blockedOn))
    && (forall n: Mid :: n < |g.mutexes| ==>
          && g'.mutexes[n].owner == g.mutexes[n].owner && g'.mutexes[n].ceiling == g.mutexes[n].ceiling
          && (forall x :: x in g'.mutexes[n].queue <==> x in g.mutexes[n].queue || (n == m && x == w)))
  }

  lemma HoldsSame(g: Graph, g': Graph, w: Tid, m: Mid, t: Tid, n: Mid)
    requires WaiterAdded(g, g', w, m) && IsThread(g, t)
    ensures Holds(g, t, n) == Holds(g', t, n)
  {
    forall i: nat ensures FiledAt(g, t, i, n) == FiledAt(g', t, i, n) {}
  }

  lemma WaitsSame(g: Graph, g': Graph, w: Tid, m: Mid, x: Tid, t: Tid)
    requires WaiterAdded(g, g', w, m)
    ensures WaitsOn(g, x, t) ==> WaitsOn(g', x, t)
    ensures WaitsOn(g', x, t) && !WaitsOn(g, x, t) ==> x == w && g.mutexes[m].owner != Some(w) && Holds(g, t, m)
  {
    if IsThread(g, t) && IsThread(g, x) {
      forall n ensures Holds(g, t, n) == Holds(g', t, n) { HoldsSame(g, g', w, m, t, n); }
      if WaitsOn(g, x, t) {
        var n: Mid :| WaitsVia(g, x, t, n);
        assert WaitsVia(g', x, t, n);
      } else if WaitsOn(g', x, t) {
        var n: Mid :| WaitsVia(g', x, t, n);
        assert WaitsVia(g, x, t, n) || (n == m && x == w);
      }
    }
  }

  lemma OffersSame(g: Graph, g': Graph, w: Tid, m: Mid, u: Tid, v: Priority)
    requires WaiterAdded(g, g', w, m)
    ensures Offers(g, u, v) == Offers(g', u, v)
  {
    if IsThread(g, u) {
      forall n ensures OffersCeiling(g, u, n, v) == OffersCeiling(g', u, n, v) { HoldsSame(g, g', w, m, u, n); }
    }
  }

  /** A path that the arming made: it uses the new edge, at its first new step i. */
  lemma NewPathUsesEdge(g: Graph, g': Graph, w: Tid, m: Mid, p: seq<Tid>) returns (i: nat)
    requires WaiterAdded(g, g', w, m) && IsPath(g', p) && !IsPath(g, p)
    ensures i < |p| - 1 && p[i + 1] == w && Holds(g, p[i], m) && IsPath(g, p[..i + 1])
  {
    i := FirstNewStep(g, g', p, 0);
    assert WaitsOn(g', p[i + 1], p[i]);
    WaitsSame(g, g', w, m, p[i + 1], p[i]);
  }

  lemma {:induction false} FirstNewStep(g: Graph, g': Graph, p: seq<Tid>, k: nat) returns (i: nat)
    requires IsPath(g', p) && !IsPath(g, p) && |g.threads| == |g'.threads| && k < |p|
    requires IsPath(g, p[..k + 1])
    ensures i < |p| - 1 && !WaitsOn(g, p[i + 1], p[i]) && IsPath(g, p[..i + 1])
    decreases |p| - k
  {
    assert p[..|p|] == p;
    if !WaitsOn(g, p[k + 1], p[k]) {
      i := k;
    } else {
      var q := p[..k + 2];
      forall j | 0 <= j < |q| - 1 ensures WaitsOn(g, q[j + 1], q[j]) {
        if j < k { assert WaitsOn(g, p[..k + 1][j + 1], p[..k + 1][j]); }
      }
      i := FirstNewStep(g, g', p, k + 1);
    }
  }

  /** Followed backwards, a path of waiters is the blocked-on chain of its last thread, as far as it is published. */
  lemma {:induction false} PathIsChainBack(g: Graph, p: seq<Tid>, i: nat) returns (j: nat)
    requires WellFormed(g) && IsPath(g, p) && i < |p|
    ensures j <= i && Hop(g, p[i], i - j) == Some(p[j])
    ensures j == 0 || !Published(g, p[j])
    decreases i
  {
    if i == 0 || !Published(g, p[i]) {
      j := i;
    } else {
      assert WaitsOn(g, p[(i - 1) + 1], p[i - 1]);
      var m: Mid :| WaitsVia(g, p[i], p[i - 1], m);
      assert NextHolder(g, p[i]) == Some(p[i - 1]);
      j := PathIsChainBack(g, p, i - 1);
      HopAdds(g, p[i], p[i - 1], 1, i - 1 - j);
    }
  }

  /** The walk of RequestRepick: the chain from t, cut at eight. */
  ghost predicate IsWalk(g: Graph, t: Tid, walked: seq<Tid>) {
    IsChain(g, t, walked) && (|walked| == MAX_DEPTH || Hop(g, t, |walked|) == None)
  }

  /** The prompt that starts at t reaches u. */
  ghost predicate Prompted(g: Graph, t: Tid, u: Tid) { forall walked :: IsWalk(g, t, walked) ==> u in walked }

  lemma HopIsPrompted(g: Graph, t: Tid, u: Tid, k: nat)
    requires Hop(g, t, k) == Some(u) && k < MAX_DEPTH
    ensures Prompted(g, t, u)
  {
    forall walked | IsWalk(g, t, walked) ensures u in walked {
      if k >= |walked| { HopStops(g, t, |walked|, k); }
      assert walked[k] == u;
    }
  }

  /**
   Arming w on m can change the effective priority of a thread u only by a boost, and only if
   u is on the blocked-on chain from m's owner, or the chain breaks off at a thread that
   transitively waits on u and has not published its edge. The prompt that follows starts at
   that owner, so it reaches u, or that thread, among the first eight of the chain.
   */
  lemma PromptsReachTheBoosted(g: Graph, g': Graph, w: Tid, m: Mid, holder: Tid, u: Tid, v: Priority, v': Priority)
    returns (k: nat, p: seq<Tid>)
    requires WaiterAdded(g, g', w, m) && WellFormed(g')
    requires g'.mutexes[m].owner == Some(holder) && IsThread(g, u)
    requires IsEffective(g, u, v) && IsEffective(g', u, v') && v != v'
    ensures v' < v
    ensures IsPath(g, p) && p[0] == u && Hop(g', holder, k) == Some(p[|p| - 1])
    ensures |p| == 1 || !Published(g', p[|p| - 1])
    ensures k < MAX_DEPTH ==> Prompted(g', holder, p[|p| - 1])
  {
    StaysBrought(g, g', w, m, u, v);
    var q, i := NewlyBrought(g, g', w, m, holder, u, v');
    k, p := ChainBack(g, g', q, i);
  }

  /** The chain back along q, which is old up to i, and where it breaks off. */
  lemma ChainBack(g: Graph, g': Graph, q: seq<Tid>, i: nat) returns (k: nat, p: seq<Tid>)
    requires WellFormed(g') && IsPath(g', q) && i < |q| && IsPath(g, q[..i + 1])
    ensures IsPath(g, p) && p[0] == q[0] && Hop(g', q[i], k) == Some(p[|p| - 1])
    ensures p[|p| - 1] < |g'.threads| && (|p| == 1 || !Published(g', p[|p| - 1]))
    ensures k < MAX_DEPTH ==> Prompted(g', q[i], p[|p| - 1])
  {
    var j := PathIsChainBack(g', q, i);
    k, p := i - j, q[..j + 1];
    PrefixIsPath(g, q[..i + 1], p);
    if k < MAX_DEPTH { HopIsPrompted(g', q[i], p[|p| - 1], k); }
  }

  /** What the arming brings to u comes over the new edge, through m's owner. */
  lemma NewlyBrought(g: Graph, g': Graph, w: Tid, m: Mid, holder: Tid, u: Tid, v: Priority)
    returns (q: seq<Tid>, i: nat)
    requires WaiterAdded(g, g', w, m) && WellFormed(g') && g'.mutexes[m].owner == Some(holder)
    requires Brings(g', u, v) && !Brings(g, u, v)
    ensures IsPath(g', q) && q[0] == u && i < |q| && q[i] == holder && IsPath(g, q[..i + 1])
  {
    q :| IsPath(g', q) && q[0] == u && Offers(g', q[|q| - 1], v);
    OffersSame(g, g', w, m, q[|q| - 1], v);
    assert IsPath(g, q) ==> Brings(g, u, v);
    i := NewPathUsesEdge(g, g', w, m, q);
    HoldsSame(g, g', w, m, q[i], m);
  }

  lemma PrefixIsPath(g: Graph, q: seq<Tid>, p: seq<Tid>)
    requires IsPath(g, q) && p != [] && p <= q
    ensures IsPath(g, p)
  {
    forall i | 0 <= i < |p| - 1 ensures WaitsOn(g, p[i + 1], p[i]) { assert WaitsOn(g, q[i + 1], q[i]); }
  }

  lemma StaysBrought(g: Graph, g': Graph, w: Tid, m: Mid, u: Tid, v: Priority)
    requires WaiterAdded(g, g', w, m) && Brings(g, u, v)
    ensures Brings(g', u, v)
  {
    var p :| IsPath(g, p) && p[0] == u && Offers(g, p[|p| - 1], v);
    forall i | 0 <= i < |p| - 1 ensures WaitsOn(g', p[i + 1], p[i]) {
      assert WaitsOn(g, p[i + 1], p[i]);
      WaitsSame(g, g', w, m, p[i + 1], p[i]);
    }
    OffersSame(g, g', w, m, p[|p| - 1], v);
    assert IsPath(g', p);
  }

  /* ---------------------------------------------------- blocking_chain_of */

  /** Following the chain, threads i..n-1 close a cycle, every one of them blocked. */
  ghost predicate ClosesCycle(g: Graph, t: Tid, i: nat, n: nat) {
    && i < n
    && (forall j, k :: 0 <= j < k < n ==> Hop(g, t, j) != Hop(g, t, k))
    && Hop(g, t, n).Some? && Hop(g, t, n) == Hop(g, t, i)
    && (forall j :: i <= j < n ==> Hop(g, t, j).Some? && BlockedAt(g, Hop(g, t, j).value))
  }

  predicate BlockedAt(g: Graph, t: Tid) { t < |g.threads| && g.threads[t].blocked }

  /** confirm_cycle: every node blocked, every edge as the candidate said. */
  method ConfirmCycle(g: Graph, nodes: seq<Tid>, first: nat) returns (ok: bool)
    requires first < |nodes|
    ensures ok <==> forall i :: first <= i < |nodes| ==>
              BlockedAt(g, nodes[i]) &&
              NextHolder(g, nodes[i]) == Some(if i + 1 < |nodes| then nodes[i + 1] else nodes[first])
  {
    var i := first;
    while i < |nodes|
      invariant first <= i <= |nodes|
      invariant forall j :: first <= j < i ==>
                  BlockedAt(g, nodes[j]) &&
                  NextHolder(g, nodes[j]) == Some(if j + 1 < |nodes| then nodes[j + 1] else nodes[first])
    {
      if !BlockedAt(g, nodes[i]) { return false; }
      if NextHolder(g, nodes[i]) != Some(if i + 1 < |nodes| then nodes[i + 1] else nodes[first]) { return false; }
      i := i + 1;
    }
    return true;
  }

  /**
   The query: the holders are the chain itself, all distinct, cut at eight links, and
   deadlocked holds exactly when the chain closes a cycle of blocked threads within
   eight distinct threads.
   */
  method BlockingChainOf(g: Graph, t: Tid) returns (holders: seq<Tid>, deadlocked: bool)
    ensures |holders| <= MAX_LINKS && IsChain(g, t, [t] + holders)
    ensures forall j, k :: 0 <= j < k <= |holders| ==> ([t] + holders)[j] != ([t] + holders)[k]
    ensures |holders| == MAX_LINKS || Hop(g, t, |holders| + 1) == None ||
            Hop(g, t, |holders| + 1).value in [t] + holders
    ensures deadlocked <==> exists i: nat, n: nat :: n <= MAX_LINKS && ClosesCycle(g, t, i, n)
  {
    var visited := [t];
    holders, deadlocked := [], false;
    while |holders| < MAX_LINKS
      invariant |holders| <= MAX_LINKS && visited == [t] + holders
      invariant IsChain(g, t, visited)
      invariant forall j, k :: 0 <= j < k < |visited| ==> visited[j] != visited[k]
      decreases MAX_LINKS - |holders|
    {
      var holder := NextHolder(g, visited[|visited| - 1]);
      assert Hop(g, t, |visited|) == holder;
      if holder == None {
        NoCycleWhenChainEnds(g, t, visited);
        return;
      }
      var i := 0;
      while i < |visited|
        invariant i <= |visited| && holder.value !in visited[..i]
      {
        if visited[i] == holder.value {
          deadlocked := ConfirmCycle(g, visited, i);
          CycleIffConfirmed(g, t, visited, i);
          return;
        }
        i := i + 1;
      }
      assert holder.value !in visited;
      holders, visited := holders + [holder.value], visited + [holder.value];
    }
    NoShortCycle(g, t, visited);
  }

  lemma NoCycleWhenChainEnds(g: Graph, t: Tid, c: seq<Tid>)
    requires IsChain(g, t, c) && Hop(g, t, |c|) == None
    requires forall j, k :: 0 <= j < k < |c| ==> c[j] != c[k]
    ensures forall i: nat, n: nat :: !ClosesCycle(g, t, i, n)
  {
    forall i: nat, n: nat ensures !ClosesCycle(g, t, i, n) {
      if n >= |c| { HopStops(g, t, |c|, n); }
    }
  }

  /** Distinct threads so far mean no cycle has closed so far. */
  lemma NoShortCycle(g: Graph, t: Tid, c: seq<Tid>)
    requires IsChain(g, t, c)
    requires forall j, k :: 0 <= j < k < |c| ==> c[j] != c[k]
    ensures forall i: nat, n: nat :: n < |c| ==> !ClosesCycle(g, t, i, n)
  {
  }

  /** Once the chain returns to its place first, that is the only cycle it can close. */
  lemma OnlyCycle(g: Graph, t: Tid, c: seq<Tid>, first: nat, i: nat, n: nat)
    requires IsChain(g, t, c) && first < |c| && Hop(g, t, |c|) == Some(c[first])
    requires forall j, k :: 0 <= j < k < |c| ==> c[j] != c[k]
    requires ClosesCycle(g, t, i, n)
    ensures n == |c| && i == first
  {
    NoShortCycle(g, t, c);
    assert Hop(g, t, first) == Hop(g, t, |c|);
    assert n <= |c|;
    assert Hop(g, t, i) == Some(c[i]);
  }

  lemma CycleIffConfirmed(g: Graph, t: Tid, c: seq<Tid>, first: nat)
    requires IsChain(g, t, c) && first < |c| <= MAX_LINKS && Hop(g, t, |c|) == Some(c[first])
    requires forall j, k :: 0 <= j < k < |c| ==> c[j] != c[k]
    ensures (exists i: nat, n: nat :: n <= MAX_LINKS && ClosesCycle(g, t, i, n)) <==>
            (forall i :: first <= i < |c| ==>
               BlockedAt(g, c[i]) && NextHolder(g, c[i]) == Some(if i + 1 < |c| then c[i + 1] else c[first]))
  {
    forall i | 0 <= i < |c| ensures NextHolder(g, c[i]) == Some(if i + 1 < |c| then c[i + 1] else c[first]) {
      assert Hop(g, t, i + 1) == NextHolder(g, c[i]);
    }
    if forall i :: first <= i < |c| ==> BlockedAt(g, c[i]) {
      assert ClosesCycle(g, t, first, |c|);
    }
    if i: nat, n: nat :| n <= MAX_LINKS && ClosesCycle(g, t, i, n) {
      OnlyCycle(g, t, c, first, i, n);
      forall j | first <= j < |c| ensures BlockedAt(g, c[j]) {
        assert Hop(g, t, j) == Some(c[j]);
      }
    }
  }
}
