/**
 The wait-for graph one urgency fold reads: threads with their held slots,
 mutexes with their queue, cached top and sticky bridge hint.
 The fold (donated_floor, wait_queue::top, urgency_contribution) is a bounded
 recursion. What it approximates, the effective priority, is defined here on its
 own, as a minimum over everything that transitively waits.
 */
module WaitGraph {
  import opened Wrappers
  import opened Threads

  type Mid = nat

  const NO_CEILING: Priority := 0xFF
  const MAX_HELD := 4
  const MAX_SNAPSHOT := 4
  const MAX_DEPTH := 8

  datatype Thread = Thread(
    base: Priority,
    slots: seq<Option<Mid>>,    // held_slots
    mask: set<nat>,             // held_mask, as the set of its set bits
    blockedOn: Option<Mid>,
    core: nat,
    blocked: bool)              // state == blocked
  {
    predicate HoldsNothing() { mask == {} }
  }

  datatype Mutex = Mutex(
    owner: Option<Tid>,
    ceiling: Priority,
    queue: seq<Tid>,            // best waiter first
    top: Priority,              // inheritance_cache::top_priority
    hint: bool)                 // inheritance_cache::may_have_bridges

  datatype Graph = Graph(threads: seq<Thread>, mutexes: seq<Mutex>)

  predicate IsThread(g: Graph, t: Tid) { t < |g.threads| }

  /** Mutex m is filed in a slot of t that a set mask bit reaches. */
  predicate FiledAt(g: Graph, t: Tid, i: nat, m: Mid)
    requires IsThread(g, t)
  {
    i in g.threads[t].mask && i < |g.threads[t].slots| && g.threads[t].slots[i] == Some(m)
  }

  ghost predicate Holds(g: Graph, t: Tid, m: Mid)
    requires IsThread(g, t)
  {
    exists i: nat :: FiledAt(g, t, i, m)
  }

  predicate IsBridge(g: Graph, m: Mid, w: Tid)
    requires m < |g.mutexes| && IsThread(g, w)
  {
    !g.threads[w].HoldsNothing() && g.mutexes[m].owner != Some(w)
  }

  predicate AllThreads(g: Graph, q: seq<Tid>) {
    forall i :: 0 <= i < |q| ==> IsThread(g, q[i])
  }

  predicate Sorted(g: Graph, q: seq<Tid>)
    requires AllThreads(g, q)
  {
    forall i, j :: 0 <= i < j < |q| ==> g.threads[q[i]].base <= g.threads[q[j]].base
  }

  /** Every id names something, so the graph can be followed at all. */
  ghost predicate Closed(g: Graph) {
    && (forall t: Tid, i :: IsThread(g, t) && 0 <= i < |g.threads[t].slots| && g.threads[t].slots[i].Some?
                            ==> g.threads[t].slots[i].value < |g.mutexes|)
    && (forall t: Tid :: IsThread(g, t) ==> |g.threads[t].slots| == MAX_HELD && g.threads[t].base < 0xFF)
    && (forall m: Mid :: m < |g.mutexes| ==> AllThreads(g, g.mutexes[m].queue))
  }

  /** What arm, disarm and every wake keep of a queue and its cache. */
  ghost predicate CacheOk(g: Graph, m: Mid)
    requires Closed(g) && m < |g.mutexes|
  {
    var x := g.mutexes[m];
    && Sorted(g, x.queue)
    && x.top == (if x.queue == [] then NO_WAITER else g.threads[x.queue[0]].base)
    && (forall w :: w in x.queue && IsBridge(g, m, w) ==> x.hint)
  }

  ghost predicate WellFormed(g: Graph) {
    && Closed(g)
    && (forall m: Mid :: m < |g.mutexes| ==> CacheOk(g, m))
    && (forall t: Tid, m: Mid :: IsThread(g, t) && Holds(g, t, m) ==> g.mutexes[m].owner == Some(t))
  }

  function Min(a: Priority, b: Priority): Priority { if a <= b then a else b }

  /* -------------------------------------------------------------- the fold */

  /** The waiters of m the slow path recurses into, in queue order. */
  function Bridges(g: Graph, m: Mid, q: seq<Tid>): (r: seq<Tid>)
    requires m < |g.mutexes|
    requires AllThreads(g, q)
    ensures AllThreads(g, r)
  {
    if q == [] then []
    else (if IsBridge(g, m, q[0]) then [q[0]] else []) + Bridges(g, m, q[1..])
  }

  lemma {:induction false} BridgesMembers(g: Graph, m: Mid, q: seq<Tid>)
    requires m < |g.mutexes| && AllThreads(g, q)
    ensures forall w :: w in Bridges(g, m, q) <==> w in q && IsBridge(g, m, w)
  {
    if q != [] {
      BridgesMembers(g, m, q[1..]);
      assert q == [q[0]] + q[1..];
    }
  }

  function QueueBridges(g: Graph, m: Mid): (r: seq<Tid>)
    requires m < |g.mutexes| && AllThreads(g, g.mutexes[m].queue)
    ensures AllThreads(g, r) && forall w :: w in r <==> w in g.mutexes[m].queue && IsBridge(g, m, w)
  {
    BridgesMembers(g, m, g.mutexes[m].queue);
    Bridges(g, m, g.mutexes[m].queue)
  }

  /** urgency_at: base priority, and every held mutex's contribution. */
  ghost function UrgencyAt(g: Graph, t: Tid, depth: nat): Priority
    requires Closed(g) && IsThread(g, t)
    decreases depth, 3, 0
  {
    Min(g.threads[t].base, HeldFloor(g, t, 0, depth))
  }

  /** donated_floor's fold over the slots from i on. */
  ghost function HeldFloor(g: Graph, t: Tid, i: nat, depth: nat): Priority
    requires Closed(g) && IsThread(g, t) && i <= MAX_HELD
    decreases depth, 2, MAX_HELD - i
  {
    if i == MAX_HELD then 0xFF
    else
      var rest := HeldFloor(g, t, i + 1, depth);
      var slot := g.threads[t].slots[i];
      if i in g.threads[t].mask && slot.Some? then Min(Contribution(g, slot.value, depth), rest) else rest
  }

  /** base_mutex::urgency_contribution. */
  ghost function Contribution(g: Graph, m: Mid, depth: nat): Priority
    requires Closed(g) && m < |g.mutexes|
    decreases depth, 1, 1
  {
    if g.mutexes[m].ceiling != NO_CEILING then Min(g.mutexes[m].ceiling, Top(g, m, depth)) else Top(g, m, depth)
  }

  /** wait_queue::top. */
  ghost function Top(g: Graph, m: Mid, depth: nat): Priority
    requires Closed(g) && m < |g.mutexes|
    decreases depth, 1, 0
  {
    if !g.mutexes[m].hint then g.mutexes[m].top
    else if depth == 0 then 0
    else if |QueueBridges(g, m)| > MAX_SNAPSHOT then 0
    else Min(g.mutexes[m].top, BridgeFloor(g, QueueBridges(g, m), depth - 1))
  }

  ghost function BridgeFloor(g: Graph, bs: seq<Tid>, depth: nat): Priority
    requires Closed(g) && AllThreads(g, bs)
    decreases depth, 4, |bs|
  {
    if bs == [] then 0xFF else Min(UrgencyAt(g, bs[0], depth), BridgeFloor(g, bs[1..], depth))
  }

  /** urgency(): the fold with the kernel's whole budget. */
  ghost function Urgency(g: Graph, t: Tid): Priority
    requires Closed(g) && IsThread(g, t)
  {
    UrgencyAt(g, t, MAX_DEPTH)
  }

  /* ------------------------------------------- the fold, loop by loop */

  /** donated_floor: the mask's bits lowest first, each slot read once. */
  method DonatedFloor(g: Graph, t: Tid, depth: nat) returns (floor: Priority)
    requires Closed(g) && IsThread(g, t)
    ensures floor == UrgencyAt(g, t, depth)
    decreases depth, 3
  {
    if g.threads[t].mask == {} {
      SkipSlots(g, t, 0, MAX_HELD, depth);
      return g.threads[t].base;
    }
    floor := g.threads[t].base;
    var slot := 0;
    while slot < MAX_HELD
      invariant slot <= MAX_HELD
      invariant Min(floor, HeldFloor(g, t, slot, depth)) == UrgencyAt(g, t, depth)
    {
      if slot in g.threads[t].mask {
        var held := g.threads[t].slots[slot];
        if held.Some? {
          var c := UrgencyContribution(g, held.value, depth);
          floor := Min(c, floor);
        }
      }
      slot := slot + 1;
    }
  }

  lemma {:induction false} SkipSlots(g: Graph, t: Tid, i: nat, j: nat, depth: nat)
    requires Closed(g) && IsThread(g, t) && i <= j <= MAX_HELD
    requires forall k :: i <= k < j ==> k !in g.threads[t].mask
    ensures HeldFloor(g, t, i, depth) == HeldFloor(g, t, j, depth)
    decreases j - i
  {
    if i < j { SkipSlots(g, t, i + 1, j, depth); }
  }

  method UrgencyContribution(g: Graph, m: Mid, depth: nat) returns (c: Priority)
    requires Closed(g) && m < |g.mutexes|
    ensures c == Contribution(g, m, depth)
    decreases depth, 2
  {
    var fromQueue := TopOf(g, m, depth);
    if g.mutexes[m].ceiling != NO_CEILING { return Min(g.mutexes[m].ceiling, fromQueue); }
    return fromQueue;
  }

  /** wait_queue::top: a snapshot of at most four bridges, then the recursion. */
  method TopOf(g: Graph, m: Mid, depth: nat) returns (best: Priority)
    requires Closed(g) && m < |g.mutexes|
    ensures best == Top(g, m, depth)
    decreases depth, 1
  {
    if !g.mutexes[m].hint { return g.mutexes[m].top; }
    if depth == 0 { return 0; }
    var bridges, overflow := Snapshot(g, m, g.mutexes[m].queue);
    if overflow { return 0; }
    var floor := BestOf(g, bridges, depth - 1);
    best := Min(g.mutexes[m].top, floor);
  }

  /** The walk under the queue lock. */
  method Snapshot(g: Graph, m: Mid, queue: seq<Tid>) returns (bridges: seq<Tid>, overflow: bool)
    requires m < |g.mutexes| && AllThreads(g, queue)
    ensures overflow <==> |Bridges(g, m, queue)| > MAX_SNAPSHOT
    ensures !overflow ==> bridges == Bridges(g, m, queue)
  {
    bridges, overflow := [], false;
    var n := 0;
    assert queue[0..] == queue;
    while n < |queue|
      invariant n <= |queue| && |bridges| <= MAX_SNAPSHOT
      invariant bridges + Bridges(g, m, queue[n..]) == Bridges(g, m, queue)
    {
      BridgesFrom(g, m, queue, n);
      if IsBridge(g, m, queue[n]) {
        ghost var more := Bridges(g, m, queue[n + 1..]);
        assert bridges + ([queue[n]] + more) == (bridges + [queue[n]]) + more;
        if |bridges| == MAX_SNAPSHOT { return bridges, true; }
        bridges := bridges + [queue[n]];
      }
      n := n + 1;
    }
  }

  lemma BridgesFrom(g: Graph, m: Mid, q: seq<Tid>, n: nat)
    requires m < |g.mutexes| && AllThreads(g, q) && n < |q|
    ensures Bridges(g, m, q[n..]) ==
            (if IsBridge(g, m, q[n]) then [q[n]] + Bridges(g, m, q[n + 1..]) else Bridges(g, m, q[n + 1..]))
  {
    assert q[n..][1..] == q[n + 1..];
  }

  method BestOf(g: Graph, bridges: seq<Tid>, depth: nat) returns (best: Priority)
    requires Closed(g) && AllThreads(g, bridges)
    ensures best == BridgeFloor(g, bridges, depth)
    decreases depth, 4
  {
    best := 0xFF;
    var i := 0;
    while i < |bridges|
      invariant i <= |bridges|
      invariant Min(best, BridgeFloor(g, bridges[i..], depth)) == BridgeFloor(g, bridges, depth)
    {
      var u := DonatedFloor(g, bridges[i], depth);
      best := Min(best, u);
      assert bridges[i..][1..] == bridges[i + 1..];
      i := i + 1;
    }
  }

  /* ------------------------------------------------- what it should be */

  /** w waits, armed, on something t holds. The owner in its own queue does not. */
  ghost predicate WaitsOn(g: Graph, w: Tid, t: Tid) {
    IsThread(g, w) && IsThread(g, t) &&
    exists m: Mid :: WaitsVia(g, w, t, m)
  }

  ghost predicate WaitsVia(g: Graph, w: Tid, t: Tid, m: Mid)
    requires IsThread(g, t)
  {
    m < |g.mutexes| && Holds(g, t, m) && w in g.mutexes[m].queue && g.mutexes[m].owner != Some(w)
  }

  /** p leads from its first thread to one that transitively waits on it. */
  ghost predicate IsPath(g: Graph, p: seq<Tid>) {
    && p != []
    && (forall i :: 0 <= i < |p| ==> IsThread(g, p[i]))
    && (forall i :: 0 <= i < |p| - 1 ==> WaitsOn(g, p[i + 1], p[i]))
  }

  /** A priority u brings of its own: its base, or a ceiling it holds under. */
  ghost predicate Offers(g: Graph, u: Tid, v: Priority) {
    IsThread(g, u) && (v == g.threads[u].base || exists m :: OffersCeiling(g, u, m, v))
  }

  ghost predicate OffersCeiling(g: Graph, u: Tid, m: Mid, v: Priority)
    requires IsThread(g, u)
  {
    m < |g.mutexes| && Holds(g, u, m) && g.mutexes[m].ceiling != NO_CEILING && v == g.mutexes[m].ceiling
  }

  ghost predicate Brings(g: Graph, t: Tid, v: Priority) {
    exists p: seq<Tid> :: IsPath(g, p) && p[0] == t && Offers(g, p[|p| - 1], v)
  }

  /** The effective priority: the best brought by anyone transitively waiting. */
  ghost predicate IsEffective(g: Graph, t: Tid, v: Priority) {
    Brings(g, t, v) && forall x: Priority :: Brings(g, t, x) ==> v <= x
  }

  /* ------------------------------------ where the budget cuts the fold */

  /** The recursion meets its limit below t: a hinted queue at depth 0, or a fifth bridge. */
  ghost predicate Cut(g: Graph, t: Tid, depth: nat)
    requires Closed(g) && IsThread(g, t)
    decreases depth
  {
    exists m: Mid :: m < |g.mutexes| && Holds(g, t, m) && CutAt(g, m, depth)
  }

  ghost predicate CutAt(g: Graph, m: Mid, depth: nat)
    requires Closed(g) && m < |g.mutexes|
    decreases depth, 0
  {
    g.mutexes[m].hint &&
    (depth == 0 || |QueueBridges(g, m)| > MAX_SNAPSHOT ||
     exists b :: b in QueueBridges(g, m) && Cut(g, b, depth - 1))
  }

  /** What the slots from i on bring the fold, as a lower bound of one of them. */
  lemma {:induction false} HeldFloorBelow(g: Graph, t: Tid, i: nat, depth: nat, j: nat, m: Mid)
    requires Closed(g) && IsThread(g, t) && i <= j < MAX_HELD && FiledAt(g, t, j, m)
    ensures HeldFloor(g, t, i, depth) <= Contribution(g, m, depth)
    decreases j - i
  {
    if i < j { HeldFloorBelow(g, t, i + 1, depth, j, m); }
  }

  lemma UrgencyBelow(g: Graph, t: Tid, depth: nat, m: Mid)
    requires Closed(g) && IsThread(g, t) && Holds(g, t, m)
    ensures UrgencyAt(g, t, depth) <= Contribution(g, m, depth)
  {
    var j: nat :| FiledAt(g, t, j, m);
    HeldFloorBelow(g, t, 0, depth, j, m);
  }

  /** The slots' floor comes from one of them. */
  lemma {:induction false} HeldFloorFrom(g: Graph, t: Tid, i: nat, depth: nat) returns (m: Mid)
    requires Closed(g) && IsThread(g, t) && i <= MAX_HELD
    ensures HeldFloor(g, t, i, depth) != 0xFF ==>
              Holds(g, t, m) && HeldFloor(g, t, i, depth) == Contribution(g, m, depth)
    decreases MAX_HELD - i
  {
    m := 0;
    if i < MAX_HELD {
      m := HeldFloorFrom(g, t, i + 1, depth);
      var slot := g.threads[t].slots[i];
      if i in g.threads[t].mask && slot.Some? {
        assert FiledAt(g, t, i, slot.value);
        if HeldFloor(g, t, i, depth) == Contribution(g, slot.value, depth) { m := slot.value; }
      }
    }
  }

  lemma {:induction false} BridgeFloorBelow(g: Graph, bs: seq<Tid>, depth: nat, b: Tid)
    requires Closed(g) && AllThreads(g, bs) && b in bs
    ensures BridgeFloor(g, bs, depth) <= UrgencyAt(g, b, depth)
    decreases |bs|
  {
    if b != bs[0] { BridgeFloorBelow(g, bs[1..], depth, b); }
  }

  lemma {:induction false} BridgeFloorFrom(g: Graph, bs: seq<Tid>, depth: nat) returns (b: Tid)
    requires Closed(g) && AllThreads(g, bs)
    ensures BridgeFloor(g, bs, depth) != 0xFF ==> b in bs && BridgeFloor(g, bs, depth) == UrgencyAt(g, b, depth)
    decreases |bs|
  {
    b := 0;
    if bs != [] {
      b := BridgeFloorFrom(g, bs[1..], depth);
      if BridgeFloor(g, bs, depth) == UrgencyAt(g, bs[0], depth) { b := bs[0]; }
    }
  }

  /** A cut answers 0, the most urgent there is. */
  lemma {:induction false} CutAnswersZero(g: Graph, t: Tid, depth: nat)
    requires Closed(g) && IsThread(g, t) && Cut(g, t, depth)
    ensures UrgencyAt(g, t, depth) == 0
    decreases depth
  {
    var m: Mid :| m < |g.mutexes| && Holds(g, t, m) && CutAt(g, m, depth);
    UrgencyBelow(g, t, depth, m);
    if depth > 0 && |QueueBridges(g, m)| <= MAX_SNAPSHOT {
      var b :| b in QueueBridges(g, m) && Cut(g, b, depth - 1);
      CutAnswersZero(g, b, depth - 1);
      BridgeFloorBelow(g, QueueBridges(g, m), depth - 1, b);
    }
  }

  /** Uncut, the fold is no worse than anything a transitive waiter offers. */
  lemma {:induction false} UncutIsBelow(g: Graph, t: Tid, depth: nat, p: seq<Tid>, v: Priority)
    requires WellFormed(g) && IsThread(g, t) && !Cut(g, t, depth)
    requires IsPath(g, p) && p[0] == t && Offers(g, p[|p| - 1], v)
    ensures UrgencyAt(g, t, depth) <= v
    decreases depth, |p|
  {
    if |p| == 1 {
      if v != g.threads[t].base {
        var m :| OffersCeiling(g, t, m, v);
        UrgencyBelow(g, t, depth, m);
      }
    } else {
      var w := p[1];
      assert WaitsOn(g, p[0 + 1], p[0]);
      var m: Mid :| WaitsVia(g, w, t, m);
      UrgencyBelow(g, t, depth, m);
      TailIsPath(g, p);
      if IsBridge(g, m, w) {
        assert CacheOk(g, m) && !CutAt(g, m, depth);
        assert w in QueueBridges(g, m);
        UncutIsBelow(g, w, depth - 1, p[1..], v);
        BridgeFloorBelow(g, QueueBridges(g, m), depth - 1, w);
      } else {
        HoldsNothingEndsPath(g, p[1..]);
        HoldsNothingOffersBase(g, w, v);
        TopBelowWaiter(g, m, depth, w);
      }
    }
  }

  lemma TailIsPath(g: Graph, p: seq<Tid>)
    requires IsPath(g, p) && |p| > 1
    ensures IsPath(g, p[1..])
  {
    forall i | 0 <= i < |p[1..]| - 1 ensures WaitsOn(g, p[1..][i + 1], p[1..][i]) {
      assert WaitsOn(g, p[(i + 1) + 1], p[i + 1]);
    }
  }

  lemma HoldsNothingEndsPath(g: Graph, p: seq<Tid>)
    requires IsPath(g, p) && g.threads[p[0]].HoldsNothing()
    ensures |p| == 1
  {
    assert |p| > 1 ==> WaitsOn(g, p[0 + 1], p[0]);
  }

  lemma HoldsNothingOffersBase(g: Graph, w: Tid, v: Priority)
    requires IsThread(g, w) && g.threads[w].HoldsNothing() && Offers(g, w, v)
    ensures v == g.threads[w].base
  {
  }

  /** The cached top, and so the whole of top(), is no worse than any waiter's base. */
  lemma TopBelowWaiter(g: Graph, m: Mid, depth: nat, w: Tid)
    requires WellFormed(g) && m < |g.mutexes| && w in g.mutexes[m].queue
    ensures Top(g, m, depth) <= g.threads[w].base
  {
    assert CacheOk(g, m);
    var i :| 0 <= i < |g.mutexes[m].queue| && g.mutexes[m].queue[i] == w;
    assert g.mutexes[m].top <= g.threads[w].base;
  }

  /** Uncut, what the fold answers is brought by someone who really waits. */
  lemma {:induction false} UncutIsBrought(g: Graph, t: Tid, depth: nat)
    requires WellFormed(g) && IsThread(g, t) && !Cut(g, t, depth)
    ensures Brings(g, t, UrgencyAt(g, t, depth))
    decreases depth
  {
    var u := UrgencyAt(g, t, depth);
    if u == g.threads[t].base {
      assert IsPath(g, [t]) && Offers(g, [t][0], u);
    } else {
      var m := HeldFloorFrom(g, t, 0, depth);
      assert u == Contribution(g, m, depth) && CacheOk(g, m) && !CutAt(g, m, depth);
      if g.mutexes[m].ceiling == u && u != NO_CEILING {
        assert OffersCeiling(g, t, m, u);
        assert IsPath(g, [t]) && Offers(g, [t][0], u);
      } else if u == g.mutexes[m].top {
        var h := g.mutexes[m].queue[0];
        assert h != t;
        assert WaitsVia(g, h, t, m);
        assert IsPath(g, [t, h]) && Offers(g, [t, h][1], u);
      } else {
        var b := BridgeFloorFrom(g, QueueBridges(g, m), depth - 1);
        UncutIsBrought(g, b, depth - 1);
        var p :| IsPath(g, p) && p[0] == b && Offers(g, p[|p| - 1], u);
        assert WaitsVia(g, b, t, m);
        PrependPath(g, t, p);
        assert ([t] + p)[|[t] + p| - 1] == p[|p| - 1];
      }
    }
  }

  lemma PrependPath(g: Graph, t: Tid, p: seq<Tid>)
    requires IsPath(g, p) && IsThread(g, t) && WaitsOn(g, p[0], t)
    ensures IsPath(g, [t] + p)
  {
    var q := [t] + p;
    forall i | 0 <= i < |q| - 1 ensures WaitsOn(g, q[i + 1], q[i]) {
      if i > 0 { assert WaitsOn(g, p[(i - 1) + 1], p[i - 1]); }
    }
  }

  /**
   The fold is exactly the effective priority, or 0 where the budget cuts it.
   No graph is excluded: cycles are cut, and answer 0.
   */
  lemma FoldIsEffectiveOrCut(g: Graph, t: Tid, depth: nat)
    requires WellFormed(g) && IsThread(g, t)
    ensures Cut(g, t, depth) ==> UrgencyAt(g, t, depth) == 0
    ensures !Cut(g, t, depth) ==> IsEffective(g, t, UrgencyAt(g, t, depth))
  {
    if Cut(g, t, depth) {
      CutAnswersZero(g, t, depth);
    } else {
      UncutIsBrought(g, t, depth);
      forall x: Priority | Brings(g, t, x) ensures UrgencyAt(g, t, depth) <= x {
        var p :| IsPath(g, p) && p[0] == t && Offers(g, p[|p| - 1], x);
        UncutIsBelow(g, t, depth, p, x);
      }
    }
  }

  /* ------------------------------- the cut, read off the graph alone */

  /** p goes from holder to bridge to bridge: the chain a transitive donation climbs. */
  ghost predicate IsBridgePath(g: Graph, p: seq<Tid>)
    requires Closed(g)
  {
    && p != []
    && (forall i :: 0 <= i < |p| ==> IsThread(g, p[i]))
    && (forall i :: 0 <= i < |p| - 1 ==> BridgeStep(g, p[i], p[i + 1]))
  }

  ghost predicate BridgeStep(g: Graph, t: Tid, b: Tid)
    requires Closed(g) && IsThread(g, t)
  {
    exists m: Mid :: m < |g.mutexes| && Holds(g, t, m) && b in QueueBridges(g, m)
  }

  /** A thread holds a mutex under a raised hint and, if crowded is asked, with more than four bridges. */
  ghost predicate HoldsHinted(g: Graph, t: Tid, crowded: bool)
    requires Closed(g) && IsThread(g, t)
  {
    exists m: Mid :: m < |g.mutexes| && Holds(g, t, m) && g.mutexes[m].hint &&
                     (crowded ==> |QueueBridges(g, m)| > MAX_SNAPSHOT)
  }

  /** Within depth hops of bridges there is a fifth bridge, or depth hops end at a hinted queue. */
  ghost predicate LongOrCrowded(g: Graph, t: Tid, depth: nat)
    requires Closed(g)
  {
    exists p: seq<Tid> :: IsBridgePath(g, p) && p[0] == t && EndsLongOrCrowded(g, p, depth)
  }

  ghost predicate EndsLongOrCrowded(g: Graph, p: seq<Tid>, depth: nat)
    requires Closed(g) && IsBridgePath(g, p)
  {
    || (|p| - 1 == depth && HoldsHinted(g, p[|p| - 1], false))
    || (|p| - 1 < depth && HoldsHinted(g, p[|p| - 1], true))
  }

  lemma {:induction false} CutHasPath(g: Graph, t: Tid, depth: nat) returns (p: seq<Tid>)
    requires Closed(g) && IsThread(g, t) && Cut(g, t, depth)
    ensures IsBridgePath(g, p) && p[0] == t && EndsLongOrCrowded(g, p, depth)
    decreases depth
  {
    var m: Mid :| m < |g.mutexes| && Holds(g, t, m) && CutAt(g, m, depth);
    if depth == 0 || |QueueBridges(g, m)| > MAX_SNAPSHOT {
      p := [t];
    } else {
      var b :| b in QueueBridges(g, m) && Cut(g, b, depth - 1);
      var q := CutHasPath(g, b, depth - 1);
      assert BridgeStep(g, t, b);
      p := PrependBridge(g, t, q);
    }
  }

  lemma {:induction false} PathCuts(g: Graph, p: seq<Tid>, depth: nat)
    requires WellFormed(g) && IsBridgePath(g, p) && EndsLongOrCrowded(g, p, depth)
    ensures Cut(g, p[0], depth)
    decreases |p|
  {
    if |p| > 1 {
      var q := p[1..];
      forall i | 0 <= i < |q| - 1 ensures BridgeStep(g, q[i], q[i + 1]) {
        assert BridgeStep(g, p[i + 1], p[(i + 1) + 1]);
      }
      assert q[|q| - 1] == p[|p| - 1];
      PathCuts(g, q, depth - 1);
      assert BridgeStep(g, p[0], p[0 + 1]);
      var m: Mid :| m < |g.mutexes| && Holds(g, p[0], m) && p[1] in QueueBridges(g, m);
      assert CacheOk(g, m) && CutAt(g, m, depth);
    }
  }

  /** Anyone waiting anywhere brings something, so there is always a best. */
  lemma EffectiveExists(g: Graph, t: Tid) returns (v: Priority)
    requires IsThread(g, t)
    ensures IsEffective(g, t, v)
  {
    assert IsPath(g, [t]) && Offers(g, [t][0], g.threads[t].base);
    v := LeastBrought(g, t, g.threads[t].base);
  }

  lemma {:induction false} LeastBrought(g: Graph, t: Tid, v: Priority) returns (best: Priority)
    requires Brings(g, t, v)
    ensures IsEffective(g, t, best)
    decreases v
  {
    if x: Priority :| Brings(g, t, x) && x < v { best := LeastBrought(g, t, x); } else { best := v; }
  }

  /**
   The kernel's urgency is never less urgent than the effective priority v, and
   it differs from v exactly when v is not already 0 and the graph has, within
   eight bridge hops of t, a queue of five bridges or an eighth hop on a hinted queue.
   */
  lemma UrgencyExactly(g: Graph, t: Tid, v: Priority)
    requires WellFormed(g) && IsThread(g, t) && IsEffective(g, t, v)
    ensures Urgency(g, t) <= v
    ensures Urgency(g, t) == v <==> v == 0 || !LongOrCrowded(g, t, MAX_DEPTH)
  {
    FoldIsEffectiveOrCut(g, t, MAX_DEPTH);
    if Cut(g, t, MAX_DEPTH) {
      var p := CutHasPath(g, t, MAX_DEPTH);
    } else if LongOrCrowded(g, t, MAX_DEPTH) {
      var p :| IsBridgePath(g, p) && p[0] == t && EndsLongOrCrowded(g, p, MAX_DEPTH);
      PathCuts(g, p, MAX_DEPTH);
      assert false;
    }
  }

  /** Chains of at most seven bridge hops and queues of at most four bridges: exact. */
  lemma ShortChainsAreExact(g: Graph, t: Tid, v: Priority)
    requires WellFormed(g) && IsThread(g, t) && IsEffective(g, t, v)
    requires forall p :: IsBridgePath(g, p) && p[0] == t ==> |p| - 1 < MAX_DEPTH
    requires forall m: Mid :: m < |g.mutexes| ==> |QueueBridges(g, m)| <= MAX_SNAPSHOT
    ensures Urgency(g, t) == v
  {
    UrgencyExactly(g, t, v);
    forall p | IsBridgePath(g, p) && p[0] == t ensures !EndsLongOrCrowded(g, p, MAX_DEPTH) {
      assert |p| - 1 < MAX_DEPTH;
    }
  }

  /** A deadlocked thread, on a cycle of bridges of any length, folds to 0. */
  lemma CycleFoldsToZero(g: Graph, cycle: seq<Tid>)
    requires WellFormed(g) && IsBridgePath(g, cycle)
    requires |cycle| > 1 && cycle[0] == cycle[|cycle| - 1]
    ensures Urgency(g, cycle[0]) == 0
  {
    var p := RoundAndRound(g, cycle, 0, MAX_DEPTH);
    PathCuts(g, p, MAX_DEPTH);
    CutAnswersZero(g, p[0], MAX_DEPTH);
  }

  /** From any place on the cycle there is a bridge path of any number of hops. */
  lemma {:induction false} RoundAndRound(g: Graph, cycle: seq<Tid>, at: nat, hops: nat) returns (p: seq<Tid>)
    requires WellFormed(g) && IsBridgePath(g, cycle)
    requires |cycle| > 1 && cycle[0] == cycle[|cycle| - 1] && at < |cycle| - 1
    ensures IsBridgePath(g, p) && p[0] == cycle[at] && |p| - 1 == hops && EndsLongOrCrowded(g, p, hops)
    decreases hops
  {
    assert BridgeStep(g, cycle[at], cycle[at + 1]);
    if hops == 0 {
      p := [cycle[at]];
      var m: Mid :| m < |g.mutexes| && Holds(g, cycle[at], m) && cycle[at + 1] in QueueBridges(g, m);
      assert CacheOk(g, m);
      assert HoldsHinted(g, cycle[at], false);
    } else {
      var q := RoundAndRound(g, cycle, if at + 1 == |cycle| - 1 then 0 else at + 1, hops - 1);
      p := PrependBridge(g, cycle[at], q);
    }
  }

  lemma PrependBridge(g: Graph, t: Tid, q: seq<Tid>) returns (p: seq<Tid>)
    requires Closed(g) && IsThread(g, t) && IsBridgePath(g, q) && BridgeStep(g, t, q[0])
    ensures p == [t] + q && IsBridgePath(g, p) && p[|p| - 1] == q[|q| - 1]
  {
    p := [t] + q;
    forall i | 0 <= i < |p| - 1 ensures BridgeStep(g, p[i], p[i + 1]) {
      if i > 0 { assert BridgeStep(g, q[i - 1], q[(i - 1) + 1]); }
    }
  }
}
