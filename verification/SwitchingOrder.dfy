/**
 In what order a core's threads get their turns: where a departing thread comes back
 among its equals, how ties between the matrix and the holders alternate, and what a wake
 does while the idle thread runs. The runs that break a promise are built here.
 */
module SwitchingOrder {
  import opened Threads
  import opened WaitOrder
  import opened Switching
  import opened SwitchingSafety

  /* ------------------------------------------------------- order in a queue */

  /** a comes before b in q. */
  predicate Before(q: seq<Tid>, a: Tid, b: Tid) {
    q != [] && if q[0] == a then b in q[1..] else Before(q[1..], a, b)
  }

  lemma {:induction false} BeforeAppended(q: seq<Tid>, a: Tid, b: Tid, x: Tid)
    ensures Before(q, a, b) ==> Before(q + [x], a, b)
    ensures a in q ==> Before(q + [x], a, x)
  {
    if q != [] {
      assert (q + [x])[1..] == q[1..] + [x];
      if q[0] != a { BeforeAppended(q[1..], a, b, x); }
    }
  }

  lemma {:induction false} BeforeRemoved(q: seq<Tid>, a: Tid, b: Tid, x: Tid)
    requires Before(q, a, b) && x != a && x != b
    ensures Before(Remove(q, x), a, b)
  {
    if q[0] == a {
      StillIn(q[1..], b, x);
    } else if q[0] != x {
      BeforeRemoved(q[1..], a, b, x);
    }
  }

  lemma {:induction false} StillIn(q: seq<Tid>, b: Tid, x: Tid)
    requires b in q && x != b
    ensures b in Remove(q, x)
  {
    if q[0] != b { StillIn(q[1..], b, x); }
  }

  lemma {:induction false} BeforeIsIn(q: seq<Tid>, a: Tid, b: Tid)
    requires Before(q, a, b)
    ensures a in q && b in q
  {
    if q[0] != a { BeforeIsIn(q[1..], a, b); }
  }

  lemma {:induction false} BeforeOneWay(q: seq<Tid>, a: Tid, b: Tid)
    requires Distinct(q) && Before(q, a, b)
    ensures !Before(q, b, a)
  {
    DistinctTail(q);
    if q[0] == a {
      if q[0] != b && Before(q[1..], b, a) { BeforeIsIn(q[1..], b, a); }
    } else {
      BeforeIsIn(q[1..], a, b);
      BeforeOneWay(q[1..], a, b);
    }
  }

  /** a has its turn before b: it runs, or is ahead of b at level p. */
  predicate Sooner(d: Core, p: nat, a: Tid, b: Tid)
    requires p < |d.levels|
  {
    d.current == a || Before(d.levels[p], a, b)
  }

  lemma SoonerOneWay(d: Core, v: View, p: nat, a: Tid, b: Tid)
    requires Inv(d, v) && p < |d.levels| && a != b && Sooner(d, p, a, b)
    ensures !Sooner(d, p, b, a)
  {
    assert Placed(d, v, d.current);
    if Before(d.levels[p], a, b) {
      BeforeIsIn(d.levels[p], a, b);
      BeforeOneWay(d.levels[p], a, b);
    }
    if Before(d.levels[p], b, a) { BeforeIsIn(d.levels[p], b, a); }
  }

  /** The pick keeps the order of those it leaves, and one it takes has its turn first. */
  lemma PickKeepsOrder(c: Core, v: View, p: nat, a: Tid, b: Tid)
    requires WellFiled(c, v) && p < |c.levels| && Before(c.levels[p], a, b)
    ensures |RunNext(c, v).levels| == |c.levels| && Sooner(RunNext(c, v), p, a, b)
  {
    RunNextTakes(c, v);
  }

  /* -------------------------------------------------- the departing thread */

  /** u was ready beside the running thread, at its level and not owing its place to a late hand-over. */
  ghost predicate Equal(c: Core, v: View, u: Tid)
    requires Shaped(c, v)
  {
    u < |v.base| && u in c.levels[v.base[c.current]] && !v.holds[u]
  }

  /** A drain leaves an equal where it is, and files the running thread behind it if it readies it. */
  lemma {:induction false} DrainKeepsOrder(c: Core, v: View, batch: seq<Tid>, t: Tid, u: Tid)
    requires WellFiled(c, v) && InRange(v, batch) && t == c.current && t != v.idle && !v.holds[t] && t != u
    requires Equal(c, v, u) && v.base[u] == v.base[t]
    requires c.state[t].Running? || (c.state[t].Ready? && Before(c.levels[v.base[t]], u, t))
    ensures var c1 := ReadyAll(c, v, batch);
            && Equal(c1, v, u)
            && (c1.state[t].Running? || (c1.state[t].Ready? && Before(c1.levels[v.base[t]], u, t)))
            && (c1.state[t].Running? <==> c.state[t].Running? && (t !in batch || t in c.exiting))
    decreases |batch|
  {
    if batch != [] {
      var x, c1 := batch[0], MakeReady(c, v, batch[0]).0;
      MakeReadyKeeps(c, v, x);
      MakeReadyShaped(c, v, x);
      OneReadyKeepsOrder(c, v, x, t, u);
      DrainKeepsOrder(c1, v, batch[1..], t, u);
    }
  }

  lemma OneReadyKeepsOrder(c: Core, v: View, x: Tid, t: Tid, u: Tid)
    requires WellFiled(c, v) && x < |v.base| && t == c.current && t != v.idle && !v.holds[t] && t != u
    requires Equal(c, v, u) && v.base[u] == v.base[t]
    requires c.state[t].Running? || (c.state[t].Ready? && Before(c.levels[v.base[t]], u, t))
    ensures var c1 := MakeReady(c, v, x).0;
            && Shaped(c1, v) && c1.current == t && c1.exiting == c.exiting && Equal(c1, v, u)
            && (c1.state[t].Running? || (c1.state[t].Ready? && Before(c1.levels[v.base[t]], u, t)))
            && (c1.state[t].Running? <==> c.state[t].Running? && (t != x || t in c.exiting))
  {
    var p := v.base[t];
    var q := c.levels[p];
    MakeReadyShaped(c, v, x);
    assert Placed(c, v, x) && Placed(c, v, t) && Placed(c, v, u);
    BeforeAppended(q, u, t, x);
    if x != u { StillIn(q, u, x); }
    if c.state[t].Ready? && x != u && x != t { BeforeRemoved(q, u, t, x); }
  }

  /** A preempted thread that holds nothing keeps its turn before its equals, unless a wake of its own is taken in. */
  lemma PreemptedStaysAhead(c: Core, v: View, batch: seq<Tid>, u: Tid)
    requires Inv(c, v) && InRange(v, batch) && c.current != v.idle && !v.holds[c.current] && Equal(c, v, u)
    ensures var d, p, t := Decide(c, v, Preempted, batch), v.base[c.current], c.current;
            && |d.levels| == |c.levels|
            && (Sooner(d, p, t, u) <==> t !in batch || t in c.exiting)
            && (Sooner(d, p, u, t) <==> !(t !in batch || t in c.exiting))
  {
    DepartsInOrder(c, v, Preempted, batch, u);
  }

  /** A thread that yields and holds nothing goes behind its equals, whatever is taken in. */
  lemma YieldedGoesBehind(c: Core, v: View, batch: seq<Tid>, u: Tid)
    requires Inv(c, v) && InRange(v, batch) && c.current != v.idle && !v.holds[c.current] && Equal(c, v, u)
    ensures var d, p, t := Decide(c, v, Yielded, batch), v.base[c.current], c.current;
            |d.levels| == |c.levels| && Sooner(d, p, u, t) && !Sooner(d, p, t, u)
  {
    DepartsInOrder(c, v, Yielded, batch, u);
  }

  lemma DepartsInOrder(c: Core, v: View, reason: Departure, batch: seq<Tid>, u: Tid)
    requires Inv(c, v) && InRange(v, batch) && c.current != v.idle && !v.holds[c.current] && Equal(c, v, u)
    requires reason == Preempted || reason == Yielded
    ensures var d, p, t := Decide(c, v, reason, batch), v.base[c.current], c.current;
            && |d.levels| == |c.levels|
            && (Sooner(d, p, t, u) <==> reason == Preempted && (t !in batch || t in c.exiting))
            && (Sooner(d, p, u, t) <==> !(reason == Preempted && (t !in batch || t in c.exiting)))
  {
    var t, p := c.current, v.base[c.current];
    assert Placed(c, v, t) && Placed(c, v, u);
    DrainKeepsOrder(c, v, batch, t, u);
    ReadyAllKeeps(c, v, batch);
    FilesInOrder(ReadyAll(c, v, batch), v, reason, [], u);
    DecideKeeps(c, v, reason, batch);
  }

  /** From the drain's end to the pick. */
  lemma FilesInOrder(c1: Core, v: View, reason: Departure, joiners: seq<Tid>, u: Tid)
    requires Filed(c1, v) && c1.current != v.idle && !v.holds[c1.current] && Equal(c1, v, u)
    requires u != c1.current && v.base[u] == v.base[c1.current] && InRange(v, joiners)
    requires reason == Preempted || reason == Yielded
    requires c1.state[c1.current].Running? || Before(c1.levels[v.base[c1.current]], u, c1.current)
    ensures var t, p := c1.current, v.base[c1.current];
            var ahead := reason == Preempted && c1.state[t].Running?;
            var c2 := if c1.state[t].Running? then Depart(c1, v, reason, joiners) else c1;
            var d := RunNext(c2, v);
            && |d.levels| == |c1.levels| && (Sooner(d, p, t, u) <==> ahead) && (Sooner(d, p, u, t) <==> !ahead)
  {
    var t, p := c1.current, v.base[c1.current];
    assert Placed(c1, v, t) && Placed(c1, v, u);
    var c2 := if c1.state[t].Running? then Depart(c1, v, reason, joiners) else c1;
    if c1.state[t].Running? { DepartKeeps(c1, v, reason, joiners); }
    RunNextKeeps(c2, v);
    BeforeAppended(c1.levels[p], u, u, t);
    if reason == Preempted && c1.state[t].Running? {
      assert ([t] + c1.levels[p])[1..] == c1.levels[p];
      PickKeepsOrder(c2, v, p, t, u);
      SoonerOneWay(RunNext(c2, v), v, p, t, u);
    } else {
      PickKeepsOrder(c2, v, p, u, t);
      SoonerOneWay(RunNext(c2, v), v, p, u, t);
    }
  }

  /** Once the intake is taken in, the matrix alone has someone more urgent than the running thread. */
  ghost predicate Outranked(c: Core, v: View, batch: seq<Tid>)
    requires Shaped(c, v) && InRange(v, batch)
  {
    var c1 := ReadyAll(c, v, batch);
    c1.holders == [] && exists q :: 0 <= q < v.base[c.current] && c1.levels[q] != []
  }

  /**
   On the handler's road a thread that holds nothing keeps its turn before its equals if and
   only if it is outranked, with no holder ready, and no wake of its own is taken in.
   */
  lemma HandlerPreemptsOrRotates(c: Core, v: View, batch: seq<Tid>, joiners: seq<Tid>, u: Tid)
    requires Inv(c, v) && InRange(v, batch) && InRange(v, joiners) && Equal(c, v, u)
    requires c.current != v.idle && !v.holds[c.current] && c.current !in c.exiting
    ensures var d, p, t := Reschedule(c, v, batch, joiners), v.base[c.current], c.current;
            && |d.levels| == |c.levels|
            && (Sooner(d, p, t, u) <==> t !in batch && Outranked(c, v, batch))
            && (Sooner(d, p, u, t) <==> !(t !in batch && Outranked(c, v, batch)))
  {
    var t, p, c1 := c.current, v.base[c.current], ReadyAll(c, v, batch);
    assert Placed(c, v, t) && Placed(c, v, u);
    DrainKeepsOrder(c, v, batch, t, u);
    ReadyAllKeeps(c, v, batch);
    assert (exists q :: 0 <= q < p && c1.levels[q] != []) <==> BestLevel(c1.levels, 0) < p;
    FilesInOrder(c1, v, DepartureOf(c1, v), joiners, u);
  }

  /* ------------------------------------------------------------------ ties */

  /** The most urgent holder is exactly as urgent as the best level of the matrix. */
  ghost predicate Tie(c: Core, v: View, p: nat)
    requires Shaped(c, v)
  {
    c.holders != [] && p < |c.levels| && p == BestLevel(c.levels, 0) == v.urgency[BestHolder(c.holders, v)]
  }

  /** The core as the event's pick finds it. */
  ghost function AtPick(s: Machine, v: View, e: Event): (r: Core)
    requires Decides(s, v, e)
    ensures Shaped(r, v) && r.rotor == s.core.rotor && After(s, v, e).core == RunNext(r, v)
  {
    match e
    case Switched(reason, batch) => Filing(s.core, v, reason, batch)
    case Handled(batch, joiners) => HandlerFiling(s.core, v, batch, joiners)
    case Readied(t, _, batch) =>
      MakeReadyShaped(s.core, v, t);
      Filing(MakeReady(s.core, v, t).0, v, Preempted, batch)
  }

  /** Event k of the run makes a pick, and finds a tie at level p. */
  ghost predicate TieAt(run: seq<Machine>, views: seq<View>, events: seq<Event>, k: nat, p: nat)
    requires |run| == |views| == |events| + 1 && k < |events|
  {
    Decides(run[k], views[k], events[k]) && Tie(AtPick(run[k], views[k], events[k]), views[k], p)
  }

  /** Its pick is one of the holders. */
  ghost predicate HolderTaken(run: seq<Machine>, views: seq<View>, events: seq<Event>, k: nat)
    requires |run| == |views| == |events| + 1 && k < |events| && Decides(run[k], views[k], events[k])
  {
    run[k + 1].core.current in AtPick(run[k], views[k], events[k]).holders
  }

  /** A tie turns its own level's bit and no other, and nothing else turns any. */
  lemma RotorTurns(c: Core, v: View, p: nat)
    requires Shaped(c, v)
    ensures p in RunNext(c, v).rotor <==> (p in c.rotor) != Tie(c, v, p)
  {
  }

  lemma RotorStep(run: seq<Machine>, views: seq<View>, events: seq<Event>, k: nat, p: nat)
    requires IsRun(run, views, events) && k < |events|
    ensures p in run[k + 1].core.rotor <==> (p in run[k].core.rotor) != TieAt(run, views, events, k, p)
  {
    var s, v, e := run[k], views[k], events[k];
    assert Steps(run, views, events, k);
    if Decides(s, v, e) { RotorTurns(AtPick(s, v, e), v, p); }
  }

  lemma {:induction false} RotorStands(run: seq<Machine>, views: seq<View>, events: seq<Event>, j: nat, k: nat, p: nat)
    requires IsRun(run, views, events) && j <= k < |run|
    requires forall i: nat :: j <= i < k ==> !TieAt(run, views, events, i, p)
    ensures p in run[k].core.rotor <==> p in run[j].core.rotor
    decreases k - j
  {
    if j < k {
      RotorStands(run, views, events, j, k - 1, p);
      RotorStep(run, views, events, k - 1, p);
    }
  }

  /** Of two ties at a level in a run with none between, one goes to the matrix and the other to the holders. */
  lemma TiesTakeTurns(run: seq<Machine>, views: seq<View>, events: seq<Event>, j: nat, k: nat, p: nat)
    requires IsRun(run, views, events) && j < k < |events|
    requires TieAt(run, views, events, j, p) && TieAt(run, views, events, k, p)
    requires forall i: nat :: j < i < k ==> !TieAt(run, views, events, i, p)
    ensures HolderTaken(run, views, events, j) <==> !HolderTaken(run, views, events, k)
  {
    BitTurnedOnce(run, views, events, j, k, p);
    TieGoesByTheRotor(run, views, events, j, p);
    TieGoesByTheRotor(run, views, events, k, p);
  }

  lemma BitTurnedOnce(run: seq<Machine>, views: seq<View>, events: seq<Event>, j: nat, k: nat, p: nat)
    requires IsRun(run, views, events) && j < k < |events| && TieAt(run, views, events, j, p)
    requires forall i: nat :: j < i < k ==> !TieAt(run, views, events, i, p)
    ensures p in run[k].core.rotor <==> p !in run[j].core.rotor
  {
    RotorStep(run, views, events, j, p);
    RotorStands(run, views, events, j + 1, k, p);
  }

  lemma TieGoesByTheRotor(run: seq<Machine>, views: seq<View>, events: seq<Event>, k: nat, p: nat)
    requires IsRun(run, views, events) && k < |events| && TieAt(run, views, events, k, p)
    ensures HolderTaken(run, views, events, k) <==> p !in run[k].core.rotor
  {
    var s, v, e := run[k], views[k], events[k];
    assert Steps(run, views, events, k);
    OnePlaceInEveryRun(run, views, events, k);
    FiledAtPick(s, v, e);
    HeadIsPlaced(AtPick(s, v, e), v, p);
  }

  /** Every thread is in one place as the pick looks. */
  lemma FiledAtPick(s: Machine, v: View, e: Event)
    requires Filed(s.core, v) && v.idle !in s.core.exiting && Decides(s, v, e)
    ensures WellFiled(AtPick(s, v, e), v)
  {
    var c, batch := s.core, e.batch;
    match e
    case Switched(reason, _) =>
      ReadyAllKeeps(c, v, batch);
      if ReadyAll(c, v, batch).state[c.current].Running? { DepartKeeps(ReadyAll(c, v, batch), v, reason, []); }
    case Handled(_, joiners) =>
      ReadyAllKeeps(c, v, batch);
      var c1 := ReadyAll(c, v, batch);
      if c1.state[c.current].Running? { DepartKeeps(c1, v, DepartureOf(c1, v), joiners); }
    case Readied(t, _, _) =>
      MakeReadyKeeps(c, v, t);
      MakeReadyShaped(c, v, t);
      var c0 := MakeReady(c, v, t).0;
      ReadyAllKeeps(c0, v, batch);
      if ReadyAll(c0, v, batch).state[c.current].Running? { DepartKeeps(ReadyAll(c0, v, batch), v, Preempted, []); }
  }

  /* ----------------------------------------------------------- the idle thread */

  /**
   A wake made while the idle thread runs: idle gives way if and only if the thread woken is
   more urgent than the lowest priority a thread may have. Otherwise that thread is ready and
   filed, and idle runs on.
   */
  lemma IdleGivesWayIff(c: Core, v: View, t: Tid, batch: seq<Tid>)
    requires Inv(c, v) && InRange(v, batch) && c.current == v.idle && t < |v.base| && t != v.idle
    requires c.state[t].Blocked? && t !in c.exiting
    ensures var d := Wake(c, v, t, true, batch);
            && (d.current != v.idle <==> v.urgency[t] < MAX_PRIORITIES - 1)
            && (d.current == v.idle ==> d == MakeReady(c, v, t).0 && Inv(d, v) && d.state[t].Ready?)
            && (d.current != v.idle ==> Inv(d, v) && d.state[t] in {Ready, Running})
  {
    assert Placed(c, v, t);
    SetReadyKeeps(c, v, t, true, batch);
    if v.urgency[t] < MAX_PRIORITIES - 1 {
      var c0 := MakeReady(c, v, t).0;
      MakeReadyKeeps(c, v, t);
      MakeReadyShaped(c, v, t);
      TakesTheCore(c0, v, t, batch);
    }
  }

  /** A decision with somebody ready never leaves idle running. */
  lemma TakesTheCore(c0: Core, v: View, t: Tid, batch: seq<Tid>)
    requires Filed(c0, v) && InRange(v, batch) && t < |v.base| && t != v.idle && c0.state[t].Ready? && t != c0.current
    ensures var d := Decide(c0, v, Preempted, batch);
            d.current != v.idle && |d.state| == |v.base| && d.state[t] in {Ready, Running}
  {
    ReadyAllKeeps(c0, v, batch);
    var c1 := ReadyAll(c0, v, batch);
    if c1.state[c1.current].Running? { DepartKeeps(c1, v, Preempted, []); }
    var c2 := Filing(c0, v, Preempted, batch);
    PickIsMostUrgent(c2, v, t);
    PickInRange(c2, v);
  }

  /* ------------------------------------------------------------- the runs */

  /** Threads that hold nothing, the first of them idle. */
  function ViewFor(base: seq<nat>): (v: View)
    ensures v.base == v.urgency == base && v.idle == 0
    ensures |v.holds| == |base| && forall t :: 0 <= t < |base| ==> !v.holds[t]
  {
    View(base, seq(|base|, t => false), base, 0)
  }

  /** Nobody ready but those filed at one level. */
  function LevelsWith(p: nat, q: seq<Tid>): (r: seq<seq<Tid>>)
    requires p < MAX_PRIORITIES
    ensures |r| == MAX_PRIORITIES && forall i :: 0 <= i < |r| ==> r[i] == if i == p then q else []
  {
    seq(MAX_PRIORITIES, i => if i == p then q else [])
  }

  /** A thread at the lowest priority stays behind idle, with the core otherwise empty. */
  lemma AThreadCanWaitBehindIdle() returns (c: Core, v: View)
    ensures Inv(c, v) && |v.base| == 2 && c.current == v.idle == 0 && c.state[1].Blocked?
    ensures var d := Wake(c, v, 1, true, []);
            && d.current == 0 && |d.state| == 2 && d.state[1].Ready?
            && |d.levels| == MAX_PRIORITIES && d.levels[MAX_PRIORITIES - 1] == [1]
  {
    v := ViewFor([MAX_PRIORITIES - 1, MAX_PRIORITIES - 1]);
    c := Core(LevelsWith(0, []), [], [Running, Blocked], 0, {}, {});
    assert forall t: Tid :: t < 2 ==> Placed(c, v, t);
    assert [] + [1] == [1];
  }

  /** make_ready files the running thread at the back of its level, and nobody is running. */
  lemma ReadyWhileRunning(d: Core, v: View, t: Tid, decides: bool)
    requires Inv(d, v) && d.current == t && t != v.idle && !v.holds[t] && t !in d.exiting
    ensures var e := SetReady(d, v, t, decides, []);
            !Seated(e) && e.current == t && e.levels == d.levels[v.base[t] := d.levels[v.base[t]] + [t]]
  {
    assert Placed(d, v, t);
    SetReadyKeeps(d, v, t, decides, []);
  }

  /** The wake of the most urgent thread there is takes the core. */
  lemma WakeTakesTheCore(c: Core, v: View, t: Tid)
    requires Inv(c, v) && c.holders == [] && t < |v.base| && t != v.idle && !v.holds[t] && !v.holds[c.current]
    requires c.state[t].Blocked? && t !in c.exiting && v.base[t] < v.base[c.current]
    requires v.base[t] < BestLevel(c.levels, 0)
    ensures var d := SetReady(c, v, t, true, []);
            Inv(d, v) && d.current == t && d.levels[v.base[t]] == []
  {
    SetReadyKeeps(c, v, t, true, []);
    ReadiedTakesTheCore(c, v, t);
  }

  lemma ReadiedTakesTheCore(c: Core, v: View, t: Tid)
    requires Inv(c, v) && c.holders == [] && t < |v.base| && t != v.idle && !v.holds[t] && !v.holds[c.current]
    requires c.state[t].Blocked? && t !in c.exiting && v.base[t] < v.base[c.current]
    requires v.base[t] < BestLevel(c.levels, 0)
    ensures var d := SetReady(c, v, t, true, []);
            d.current == t && |d.levels| == |c.levels| && d.levels[v.base[t]] == []
  {
    var p := v.base[t];
    assert Placed(c, v, t) && Placed(c, v, c.current);
    MakeReadyKeeps(c, v, t);
    MakeReadyShaped(c, v, t);
    var c0 := MakeReady(c, v, t).0;
    assert c0.levels[p] == [t];
    var c1 := Filing(c0, v, Preempted, []);
    assert c1.levels[p] == [t] && (forall j :: 0 <= j < p ==> c1.levels[j] == []);
    assert c1.holders == [] && BestLevel(c1.levels, 0) == p;
  }

  /** One thread blocked, and the idle thread running. */
  lemma OneBlocked(base: nat) returns (c: Core, v: View)
    requires base < MAX_PRIORITIES
    ensures Inv(c, v) && v.base == [MAX_PRIORITIES - 1, base] && v.idle == 0 && !v.holds[0] && !v.holds[1]
    ensures c == Core(LevelsWith(0, []), [], [Running, Blocked], 0, {}, {})
  {
    v := ViewFor([MAX_PRIORITIES - 1, base]);
    c := Core(LevelsWith(0, []), [], [Running, Blocked], 0, {}, {});
    assert Placed(c, v, 0) && Placed(c, v, 1);
  }

  /** Two handlers wake one thread, the second nested between the first one's look and its mask. */
  lemma ANestedWakeUnseats() returns (run: seq<Machine>, views: seq<View>, events: seq<Event>)
    ensures IsRun(run, views, events) && events == [Looked(1), Looked(1), Readied(1, true, []), Readied(1, true, [])]
    ensures var c := run[|events|].core;
            c.current == 1 && !Seated(c) && |c.levels| == MAX_PRIORITIES && c.levels[5] == [1]
  {
    var c, v := OneBlocked(5);
    assert BestLevel(c.levels, 0) == MAX_PRIORITIES;
    run, views, events := [Machine(c, [0, 0])], [v], [];
    run, views, events := Looks(run, views, events, v, 1);
    run, views, events := Looks(run, views, events, v, 1);
    run, views, events := WakeLands(run, views, events, v, 1);
    run, views, events := WakeUnseats(run, views, events, v, 1);
  }

  /** One more event at the end of a run, under the same view. */
  lemma Grow(run: seq<Machine>, views: seq<View>, events: seq<Event>, v: View, e: Event)
    returns (run': seq<Machine>, views': seq<View>, events': seq<Event>)
    requires IsRun(run, views, events) && views[|events|] == v && CanHappen(run[|events|], v, e)
    ensures run' == run + [After(run[|events|], v, e)] && views' == views + [v] && events' == events + [e]
    ensures IsRun(run', views', events')
  {
    run', views', events' := run + [After(run[|events|], v, e)], views + [v], events + [e];
    forall k | 0 <= k < |views'| ensures SameThreads(views'[0], views'[k]) {
      assert SameThreads(views[0], views[if k < |views| then k else |events|]);
    }
    forall k: nat | k < |events'| ensures Steps(run', views', events', k) {
      if k < |events| { assert Steps(run, views, events, k); }
    }
  }

  /** One more wake has looked at t. */
  lemma Looks(run: seq<Machine>, views: seq<View>, events: seq<Event>, v: View, t: Tid)
    returns (run': seq<Machine>, views': seq<View>, events': seq<Event>)
    requires IsRun(run, views, events) && views[|events|] == v && t < |v.base|
    requires var s := run[|events|]; Shaped(s.core, v) && |s.looked| == |v.base| && !s.core.state[t].Running?
    ensures IsRun(run', views', events') && events' == events + [Looked(t)] && views'[|events'|] == v
    ensures var s := run[|events|]; run'[|events'|] == Machine(s.core, s.looked[t := s.looked[t] + 1])
  {
    run', views', events' := Grow(run, views, events, v, Looked(t));
  }

  /** A wake that looked at t readies it, and it takes the core. */
  lemma WakeLands(run: seq<Machine>, views: seq<View>, events: seq<Event>, v: View, t: Tid)
    returns (run': seq<Machine>, views': seq<View>, events': seq<Event>)
    requires IsRun(run, views, events) && views[|events|] == v && t < |v.base| && t != v.idle
    requires var s := run[|events|];
             && |s.looked| == |v.base| && s.looked[t] > 0 && Inv(s.core, v) && s.core.holders == []
             && !v.holds[t] && !v.holds[s.core.current] && s.core.state[t].Blocked? && t !in s.core.exiting
             && v.base[t] < v.base[s.core.current] && v.base[t] < BestLevel(s.core.levels, 0)
    ensures IsRun(run', views', events') && events' == events + [Readied(t, true, [])] && views'[|events'|] == v
    ensures var s, s' := run[|events|], run'[|events'|];
            && s'.looked == s.looked[t := s.looked[t] - 1] && s'.core.exiting == s.core.exiting
            && Inv(s'.core, v) && s'.core.current == t && s'.core.levels[v.base[t]] == []
  {
    WakeTakesTheCore(run[|events|].core, v, t);
    run', views', events' := Grow(run, views, events, v, Readied(t, true, []));
  }

  /** And one that looked before that readies it while it runs. */
  lemma WakeUnseats(run: seq<Machine>, views: seq<View>, events: seq<Event>, v: View, t: Tid)
    returns (run': seq<Machine>, views': seq<View>, events': seq<Event>)
    requires IsRun(run, views, events) && views[|events|] == v && t < |v.base| && t != v.idle && !v.holds[t]
    requires var s := run[|events|];
             && |s.looked| == |v.base| && s.looked[t] > 0 && Inv(s.core, v) && s.core.current == t
             && t !in s.core.exiting && s.core.levels[v.base[t]] == []
    ensures IsRun(run', views', events') && events' == events + [Readied(t, true, [])]
    ensures var c := run'[|events'|].core;
            !Seated(c) && c.current == t && |c.levels| == MAX_PRIORITIES && c.levels[v.base[t]] == [t]
  {
    ReadyWhileRunning(run[|events|].core, v, t, true);
    run', views', events' := Grow(run, views, events, v, Readied(t, true, []));
    assert [] + [t] == [t];
  }

  /** A late remote wake of the running thread is taken in as it is preempted, and it goes behind its equal. */
  lemma ALateWakeCostsTheTurn() returns (c: Core, v: View)
    ensures Inv(c, v) && |v.base| == 4 && c.current == 1 && v.base[1] == v.base[2] == 5 && v.base[3] == 1
    ensures |c.levels| == MAX_PRIORITIES && c.levels[5] == [2]
    ensures var d := Decide(c, v, Preempted, [1]);
            d.current == 3 && |d.levels| == MAX_PRIORITIES && d.levels[5] == [2, 1]
    ensures var d := Decide(c, v, Preempted, []);
            d.current == 3 && |d.levels| == MAX_PRIORITIES && d.levels[5] == [1, 2]
  {
    c, v := TwoEqual();
    TurnKept(c, v);
    TurnLost(c, v);
  }

  lemma TwoEqual() returns (c: Core, v: View)
    ensures Inv(c, v) && v.base == [MAX_PRIORITIES - 1, 5, 5, 1] && v.idle == 0 && !v.holds[1]
    ensures c == Core(LevelsWith(5, [2])[1 := [3]], [], [Ready, Running, Ready, Ready], 1, {}, {})
  {
    v := ViewFor([MAX_PRIORITIES - 1, 5, 5, 1]);
    c := Core(LevelsWith(5, [2])[1 := [3]], [], [Ready, Running, Ready, Ready], 1, {}, {});
    TwoEqualPlaces(c, v);
    assert Placed(c, v, 0) && Placed(c, v, 1);
  }

  lemma TwoEqualPlaces(c: Core, v: View)
    requires v == ViewFor([MAX_PRIORITIES - 1, 5, 5, 1])
    requires c == Core(LevelsWith(5, [2])[1 := [3]], [], [Ready, Running, Ready, Ready], 1, {}, {})
    ensures Shaped(c, v) && Placed(c, v, 2) && Placed(c, v, 3)
  {
    assert c.levels[5] == [2] && c.levels[1] == [3];
  }

  lemma TurnKept(c: Core, v: View)
    requires Inv(c, v) && v.base == [MAX_PRIORITIES - 1, 5, 5, 1] && c.current == 1 && !v.holds[1] &&
             c.holders == [] && v.idle == 0
    requires c.levels == LevelsWith(5, [2])[1 := [3]]
    ensures var d := Decide(c, v, Preempted, []);
            d.current == 3 && |d.levels| == MAX_PRIORITIES && d.levels[5] == [1, 2]
  {
    var c1 := Filing(c, v, Preempted, []);
    assert c1.levels[5] == [1, 2] && c1.levels[1] == [3] && c1.levels[0] == [];
    assert BestLevel(c1.levels, 0) == 1;
  }

  lemma TurnLost(c: Core, v: View)
    requires Inv(c, v) && v.base == [MAX_PRIORITIES - 1, 5, 5, 1] && c.current == 1 && !v.holds[1] &&
             c.holders == [] && v.idle == 0
    requires c.levels == LevelsWith(5, [2])[1 := [3]] && c.exiting == {}
    ensures var d := Decide(c, v, Preempted, [1]);
            d.current == 3 && |d.levels| == MAX_PRIORITIES && d.levels[5] == [2, 1]
  {
    var c1 := MakeReady(c, v, 1).0;
    MakeReadyShaped(c, v, 1);
    assert [1][1..] == [] && ReadyAll(c, v, [1]) == ReadyAll(c1, v, []);
    assert c1.levels[5] == [2, 1] && c1.levels[1] == [3] && c1.levels[0] == [];
    assert BestLevel(c1.levels, 0) == 1;
  }

  /* ------------------------------------------------------------- exiting */

  /** The pick changes the state of the thread it takes, and of no other. */
  lemma PickedWasReady(c: Core, v: View, u: Tid)
    requires WellFiled(c, v) && u < |v.base| && u != v.idle && !c.state[u].Ready?
    ensures |RunNext(c, v).state| == |c.state| && RunNext(c, v).state[u] == c.state[u]
  {
    if c.holders != [] { HolderIsPlaced(c, v, BestHolder(c.holders, v)); }
    if BestLevel(c.levels, 0) < |c.levels| { HeadIsPlaced(c, v, BestLevel(c.levels, 0)); }
  }

  /** A wake of an exiting or a terminated thread changes nothing. */
  lemma {:induction false} WakesRefused(c: Core, v: View, batch: seq<Tid>, t: Tid)
    requires Shaped(c, v) && InRange(v, batch) && t < |v.base| && (t in c.exiting || c.state[t].Terminated?)
    ensures ReadyAll(c, v, batch).state[t] == c.state[t]
    decreases |batch|
  {
    if batch != [] {
      MakeReadyShaped(c, v, batch[0]);
      WakesRefused(MakeReady(c, v, batch[0]).0, v, batch[1..], t);
    }
  }

  /**
   A thread that has asked to exit is retired by the handler's road, which it yields to, and
   by no other: a decision made in an interrupt files it as ready, to run on once picked.
   */
  lemma RetiredByTheHandlerOnly(c: Core, v: View, batch: seq<Tid>, joiners: seq<Tid>)
    requires Inv(c, v) && c.current in c.exiting && c.current != v.idle && InRange(v, batch) && InRange(v, joiners)
    ensures |Reschedule(c, v, batch, joiners).state| == |Decide(c, v, Preempted, batch).state| == |c.state|
    ensures Reschedule(c, v, batch, joiners).state[c.current].Terminated?
    ensures var d := Decide(c, v, Preempted, batch); d.state[c.current].Ready? || d.state[c.current].Running?
  {
    var t, c1 := c.current, ReadyAll(c, v, batch);
    WakesRefused(c, v, batch, t);
    ReadyAllKeeps(c, v, batch);
    HandlerRetires(c1, v, joiners);
    DepartKeeps(c1, v, Preempted, []);
    PickInRange(Depart(c1, v, Preempted, []), v);
  }

  lemma HandlerRetires(c1: Core, v: View, joiners: seq<Tid>)
    requires Inv(c1, v) && c1.current in c1.exiting && c1.current != v.idle && InRange(v, joiners)
    ensures var d := RunNext(Depart(c1, v, Exited, joiners), v);
            |d.state| == |c1.state| && d.state[c1.current].Terminated?
  {
    var t := c1.current;
    DepartKeeps(c1, v, Exited, joiners);
    WakesRefused(SetState(c1, t, Terminated), v, joiners, t);
    PickedWasReady(Depart(c1, v, Exited, joiners), v, t);
  }

  /** A thread that asked to exit is preempted before its yield is served, and is running again. */
  lemma AnExitCanRunOn() returns (run: seq<Machine>, views: seq<View>, events: seq<Event>)
    ensures IsRun(run, views, events) && events == [Exiting, Looked(2), Readied(2, true, []), Switched(Parked, [])]
    ensures var c := run[|events|].core; c.current == 1 && Seated(c) && 1 in c.exiting
  {
    var c, v := OneRunning();
    assert c.exiting + {1} == {1};
    run, views, events := [Machine(c, [0, 0, 0])], [v], [];
    run, views, events := Grow(run, views, events, v, Exiting);
    run, views, events := Looks(run, views, events, v, 2);
    run, views, events := PreemptedThenPicked(run, views, events, v);
  }

  lemma PreemptedThenPicked(run: seq<Machine>, views: seq<View>, events: seq<Event>, v: View)
    returns (run': seq<Machine>, views': seq<View>, events': seq<Event>)
    requires IsRun(run, views, events) && views[|events|] == v && |run[|events|].looked| == 3 &&
             run[|events|].looked[2] > 0
    requires Inv(run[|events|].core, v) && v.base == [MAX_PRIORITIES - 1, 5, 1] && v.idle == 0 && !v.holds[1] &&
             !v.holds[2]
    requires run[|events|].core == Core(LevelsWith(0, []), [], [Ready, Running, Blocked], 1, {}, {1})
    ensures IsRun(run', views', events') && events' == events + [Readied(2, true, []), Switched(Parked, [])]
    ensures var c := run'[|events'|].core; c.current == 1 && Seated(c) && 1 in c.exiting
  {
    ExitingIsNext(run[|events|].core, v);
    run', views', events' := Grow(run, views, events, v, Readied(2, true, []));
    run', views', events' := Grow(run', views', events', v, Switched(Parked, []));
  }

  lemma OneRunning() returns (c: Core, v: View)
    ensures Inv(c, v) && v.base == [MAX_PRIORITIES - 1, 5, 1] && v.idle == 0 && !v.holds[1] && !v.holds[2]
    ensures c == Core(LevelsWith(0, []), [], [Ready, Running, Blocked], 1, {}, {}) && Inv(c.(exiting := {1}), v)
  {
    v := ViewFor([MAX_PRIORITIES - 1, 5, 1]);
    c := Core(LevelsWith(0, []), [], [Ready, Running, Blocked], 1, {}, {});
    var c1 := c.(exiting := {1});
    assert Placed(c, v, 0) && Placed(c, v, 1) && Placed(c, v, 2);
    assert Placed(c1, v, 0) && Placed(c1, v, 1) && Placed(c1, v, 2);
  }

  lemma ExitingIsNext(c: Core, v: View)
    requires Inv(c, v) && v.base == [MAX_PRIORITIES - 1, 5, 1] && v.idle == 0 && !v.holds[1] && !v.holds[2]
    requires c == Core(LevelsWith(0, []), [], [Ready, Running, Blocked], 1, {}, {1})
    ensures var d := SetReady(c, v, 2, true, []);
            && Inv(d, v) && d.current == 2 && d.exiting == {1}
            && Inv(Decide(d, v, Parked, []), v) && Decide(d, v, Parked, []).current == 1
  {
    var c0 := MakeReady(c, v, 2).0;
    MakeReadyShaped(c, v, 2);
    assert c0.levels[1] == [2];
    var c1 := Filing(c0, v, Preempted, []);
    assert c1.levels[1] == [2] && c1.levels[5] == [1] && c1.levels[0] == [] && BestLevel(c1.levels, 0) == 1;
    SetReadyKeeps(c, v, 2, true, []);
    var d := SetReady(c, v, 2, true, []);
    assert d == Decide(c0, v, Preempted, []) && d.levels[1] == [] && d.levels[5] == [1];
    var d1 := Filing(d, v, Parked, []);
    assert d1.levels == d.levels && BestLevel(d1.levels, 0) == 5;
    DecideKeeps(d, v, Parked, []);
  }
}
