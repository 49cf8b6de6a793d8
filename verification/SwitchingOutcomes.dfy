/**
 What a wake, a switch and an exit leave every thread of the core as, and when a wake takes
 the core: exactly when the thread woken is more urgent than the one running, so that nobody
 more urgent waits.
 */
module SwitchingOutcomes {
  import opened Threads
  import opened WaitOrder
  import opened Switching
  import opened SwitchingSafety

  /** A wake of t is not refused. */
  predicate Wakeable(c: Core, t: Tid)
    requires t < |c.state|
  {
    t !in c.exiting && !c.state[t].Terminated?
  }

  lemma MakeReadyLeaves(c: Core, v: View, t: Tid, u: Tid)
    requires WellFiled(c, v) && t < |v.base| && u < |v.base|
    ensures var d := MakeReady(c, v, t).0;
            |d.state| == |c.state| && d.state[u] == if u == t && Wakeable(c, t) then Ready else c.state[u]
  {
    assert Placed(c, v, t);
  }

  /** A batch readies those in it whose wake is not refused, and nobody else. */
  lemma {:induction false} BatchLeaves(c: Core, v: View, batch: seq<Tid>, u: Tid)
    requires WellFiled(c, v) && InRange(v, batch) && u < |v.base|
    ensures ReadyAll(c, v, batch).state[u] == if u in batch && Wakeable(c, u) then Ready else c.state[u]
    decreases |batch|
  {
    if batch != [] {
      var d := MakeReady(c, v, batch[0]).0;
      MakeReadyKeeps(c, v, batch[0]);
      MakeReadyShaped(c, v, batch[0]);
      MakeReadyLeaves(c, v, batch[0], u);
      BatchLeaves(d, v, batch[1..], u);
      assert batch == [batch[0]] + batch[1..];
    }
  }

  lemma PickLeaves(c: Core, v: View, u: Tid)
    requires Shaped(c, v) && u < |v.base|
    ensures var d := RunNext(c, v);
            |d.state| == |c.state| && d.state[u] == if u == d.current then Running else c.state[u]
  {}

  /** The pick is of a ready thread, or of the idle thread. */
  lemma PickTakesReady(c: Core, v: View)
    requires WellFiled(c, v)
    ensures var r := RunNext(c, v).current; r == v.idle || (r < |v.base| && c.state[r].Ready?)
  {
    var p := BestLevel(c.levels, 0);
    if c.holders != [] { HolderIsPlaced(c, v, BestHolder(c.holders, v)); }
    if p < |c.levels| { HeadIsPlaced(c, v, p); }
  }

  /** What the running thread is filed as when it departs. */
  function FiledAs(reason: Departure): RunState {
    match reason
    case Yielded => Ready
    case Preempted => Ready
    case Parked => Blocked
    case Exited => Terminated
  }

  lemma DepartLeaves(c: Core, v: View, reason: Departure, joiners: seq<Tid>, u: Tid)
    requires Inv(c, v) && InRange(v, joiners) && CanDepart(c, v, reason) && u < |v.base|
    ensures Depart(c, v, reason, joiners).state[u] ==
            if u == c.current then FiledAs(reason)
            else if reason == Exited && u in joiners && Wakeable(c, u) then Ready else c.state[u]
  {
    if reason == Exited {
      assert Placed(c, v, c.current);
      Refiled(c, v, SetState(c, c.current, Terminated), c.current);
      BatchLeaves(SetState(c, c.current, Terminated), v, joiners, u);
    }
  }

  /**
   A decision leaves the thread it picks running, those whose wakes it takes in ready, the one
   that was running as its departure says, and everyone else as they were.
   */
  lemma DecisionLeaves(c: Core, v: View, reason: Departure, batch: seq<Tid>, u: Tid)
    requires Inv(c, v) && InRange(v, batch) && CanDepart(c, v, reason) && reason != Exited && u < |v.base|
    ensures var d := Decide(c, v, reason, batch);
            && |d.state| == |c.state|
            && d.state[u] == if u == d.current then Running
                             else if u in batch && Wakeable(c, u) then Ready
                             else if u == c.current then FiledAs(reason) else c.state[u]
  {
    var c1 := ReadyAll(c, v, batch);
    ReadyAllKeeps(c, v, batch);
    BatchLeaves(c, v, batch, u);
    BatchLeaves(c, v, batch, c.current);
    if c1.state[c1.current].Running? { DepartLeaves(c1, v, reason, [], u); }
    PickLeaves(Filing(c, v, reason, batch), v, u);
  }

  /** A thread that parks is blocked, unless a wake of it is taken in first, and then it is ready or runs on. */
  lemma ParkBlocksIff(c: Core, v: View, batch: seq<Tid>)
    requires Inv(c, v) && InRange(v, batch) && c.current != v.idle
    ensures var d, t := Decide(c, v, Parked, batch), c.current;
            && |d.state| == |c.state|
            && (d.state[t].Blocked? <==> t !in batch || t in c.exiting)
            && (!d.state[t].Blocked? ==> d.state[t].Ready? || d.state[t].Running?)
  {
    var t, c1 := c.current, ReadyAll(c, v, batch);
    DecisionLeaves(c, v, Parked, batch, t);
    ReadyAllKeeps(c, v, batch);
    BatchLeaves(c, v, batch, t);
    if c1.state[t].Running? {
      DepartKeeps(c1, v, Parked, []);
      PickTakesReady(Filing(c, v, Parked, batch), v);
    }
  }

  /** A wake of a blocked thread that is not exiting leaves it ready or running, whoever runs. */
  lemma WakeReadies(c: Core, v: View, t: Tid, decides: bool, batch: seq<Tid>)
    requires Filed(c, v) && InRange(v, batch) && t < |v.base| && c.state[t].Blocked? && t !in c.exiting
    ensures var d := Wake(c, v, t, decides, batch); |d.state| == |c.state| && d.state[t] in {Ready, Running}
  {
    MakeReadyKeeps(c, v, t);
    MakeReadyShaped(c, v, t);
    MakeReadyLeaves(c, v, t, t);
    if WakeDecides(c, v, t, decides) { StaysReady(MakeReady(c, v, t).0, v, t, batch); }
  }

  lemma StaysReady(c: Core, v: View, t: Tid, batch: seq<Tid>)
    requires Filed(c, v) && InRange(v, batch) && t < |v.base| && c.state[t].Ready? && t != c.current
    ensures var d := Decide(c, v, Preempted, batch); |d.state| == |c.state| && d.state[t] in {Ready, Running}
  {
    var c1 := ReadyAll(c, v, batch);
    ReadyAllKeeps(c, v, batch);
    BatchLeaves(c, v, batch, t);
    if c1.state[c1.current].Running? { DepartLeaves(c1, v, Preempted, [], t); }
    PickLeaves(Filing(c, v, Preempted, batch), v, t);
  }

  /**
   The handler's road leaves its pick running, those whose wakes it takes in ready, the thread
   that was running terminated if it is exiting, its joiners then ready, and ready otherwise,
   and everyone else as they were.
   */
  lemma HandlerLeaves(c: Core, v: View, batch: seq<Tid>, joiners: seq<Tid>, u: Tid)
    requires Inv(c, v) && InRange(v, batch) && InRange(v, joiners) && v.idle !in c.exiting && u < |v.base|
    ensures var d, exits := Reschedule(c, v, batch, joiners), c.current in c.exiting;
            && |d.state| == |c.state|
            && d.state[u] == if u == d.current then Running
                             else if u == c.current then (if exits then Terminated else Ready)
                             else if (u in batch || (exits && u in joiners)) && Wakeable(c, u) then Ready
                             else c.state[u]
  {
    var c1 := ReadyAll(c, v, batch);
    ReadyAllKeeps(c, v, batch);
    BatchLeaves(c, v, batch, u);
    BatchLeaves(c, v, batch, c.current);
    if c1.state[c1.current].Running? { DepartLeaves(c1, v, DepartureOf(c1, v), joiners, u); }
    PickLeaves(HandlerFiling(c, v, batch, joiners), v, u);
  }

  /** A holder found in the matrix is moved to the end of the holder list. */
  lemma HolderIsMoved(c: Core, v: View, t: Tid)
    requires WellFiled(c, v) && t < |v.base| && Enqueued(c, v, t) && v.holds[t] && Wakeable(c, t)
    ensures var d := MakeReady(c, v, t).0;
            && Shaped(d, v) && d.holders == c.holders + [t] && !Enqueued(d, v, t) && d.state == c.state
            && forall p :: 0 <= p < |c.levels| && p != v.base[t] ==> d.levels[p] == c.levels[p]
  {
    assert Placed(c, v, t);
    MakeReadyShaped(c, v, t);
    RemoveMembers(c.levels[v.base[t]], t);
  }

  /** A holder that becomes ready, or departs still ready, goes to the end of that list. */
  lemma HoldersQueueUp(c: Core, v: View, t: Tid, reason: Departure)
    requires Inv(c, v) && t < |v.base| && v.holds[t] && Wakeable(c, t)
    ensures c.state[t].Blocked? ==> MakeReady(c, v, t).0.holders == c.holders + [t]
    ensures t == c.current && (reason == Yielded || reason == Preempted) ==>
              Depart(c, v, reason, []).holders == c.holders + [t]
  {
    assert Placed(c, v, t);
  }

  /* ----------------------------------------------------- when a wake decides */

  /** What a blocked thread is picked by, once readied, is how urgent it is. */
  lemma ReadiedByItsUrgency(c: Core, v: View, t: Tid)
    requires WellFiled(c, v) && t < |v.base| && t != v.idle && c.state[t].Blocked? && t !in c.exiting
    ensures var (d, beats) := MakeReady(c, v, t);
            && Shaped(d, v) && FiledUrgency(d, v, t) == v.urgency[t] && (beats <==> v.urgency[t] < v.urgency[c.current])
  {
    assert Placed(c, v, t);
    MakeReadyShaped(c, v, t);
  }

  /** A wake that may decide takes the core from whoever runs if and only if the thread woken is more urgent. */
  lemma WakePreemptsIff(c: Core, v: View, t: Tid, batch: seq<Tid>)
    requires Inv(c, v) && InRange(v, batch) && t < |v.base| && c.state[t].Blocked? && t !in c.exiting
    ensures var d := Wake(c, v, t, true, batch);
            && (d.current != c.current <==> v.urgency[t] < v.urgency[c.current])
            && (d.current == c.current ==> Seated(d))
  {
    var (c1, beats) := MakeReady(c, v, t);
    MakeReadyKeeps(c, v, t);
    MakeReadyLeaves(c, v, t, t);
    MakeReadyLeaves(c, v, t, c.current);
    ReadiedByItsUrgency(c, v, t);
    if beats { MoreUrgentTakesIt(c1, v, t, batch); }
  }

  /** What a thread is picked by is no more urgent than it is. */
  lemma FiledNoMoreUrgent(c: Core, v: View, u: Tid)
    requires Shaped(c, v) && u < |v.base|
    ensures v.urgency[u] <= FiledUrgency(c, v, u)
  {}

  lemma MoreUrgentTakesIt(c: Core, v: View, t: Tid, batch: seq<Tid>)
    requires Inv(c, v) && InRange(v, batch) && t < |v.base| && t != v.idle && t != c.current && c.state[t].Ready?
    requires FiledUrgency(c, v, t) == v.urgency[t] < v.urgency[c.current]
    ensures Decide(c, v, Preempted, batch).current != c.current
  {
    var c1, c2 := ReadyAll(c, v, batch), Filing(c, v, Preempted, batch);
    ReadyAllKeeps(c, v, batch);
    BatchLeaves(c, v, batch, t);
    DrainKeepsUrgency(c, v, batch, t);
    if c1.state[c1.current].Running? {
      DepartKeeps(c1, v, Preempted, []);
      DepartLeaves(c1, v, Preempted, [], t);
      assert FiledUrgency(c2, v, t) == FiledUrgency(c1, v, t);
    }
    PickIsMostUrgent(c2, v, t);
    FiledNoMoreUrgent(c2, v, c.current);
  }

  /** A ready thread picked by its own urgency stays so as others' wakes, and its own, are taken in. */
  lemma {:induction false} DrainKeepsUrgency(c: Core, v: View, batch: seq<Tid>, t: Tid)
    requires WellFiled(c, v) && InRange(v, batch) && t < |v.base| && t != v.idle && c.state[t].Ready?
    requires FiledUrgency(c, v, t) == v.urgency[t]
    ensures FiledUrgency(ReadyAll(c, v, batch), v, t) == v.urgency[t]
    decreases |batch|
  {
    if batch != [] {
      var d := MakeReady(c, v, batch[0]).0;
      assert Placed(c, v, t);
      MakeReadyKeeps(c, v, batch[0]);
      MakeReadyShaped(c, v, batch[0]);
      MakeReadyLeaves(c, v, batch[0], t);
      DrainKeepsUrgency(d, v, batch[1..], t);
    }
  }

  /* ------------------------------------------------- nobody more urgent waits */

  /** No ready thread is picked by an urgency above that of the current one. */
  ghost predicate NobodyMoreUrgent(c: Core, v: View) {
    Shaped(c, v) && forall u: Tid :: u < |v.base| && u != v.idle && u != c.current && c.state[u].Ready? ==>
      v.urgency[c.current] <= FiledUrgency(c, v, u)
  }

  lemma PickLeavesNobodyMoreUrgent(c: Core, v: View)
    requires WellFiled(c, v) && NoneRunning(c)
    ensures NobodyMoreUrgent(RunNext(c, v), v)
  {
    var d := RunNext(c, v);
    RunNextKeeps(c, v);
    forall u: Tid | u < |v.base| && u != v.idle && u != d.current && d.state[u].Ready?
      ensures v.urgency[d.current] <= FiledUrgency(d, v, u)
    {
      PickLeaves(c, v, u);
      PickIsMostUrgent(c, v, u);
      FiledNoMoreUrgent(c, v, d.current);
      PickKeepsFiling(c, v, u);
    }
  }

  /** The pick takes nobody else off the holder list. */
  lemma PickKeepsFiling(c: Core, v: View, u: Tid)
    requires WellFiled(c, v) && u < |v.base| && u != RunNext(c, v).current
    ensures u in RunNext(c, v).holders <==> u in c.holders
  {
    if c.holders != [] { RemoveMembers(c.holders, BestHolder(c.holders, v)); }
  }

  lemma WakeLeavesNobodyMoreUrgent(c: Core, v: View, t: Tid, batch: seq<Tid>)
    requires Filed(c, v) && InRange(v, batch) && t < |v.base| && NobodyMoreUrgent(c, v)
    ensures NobodyMoreUrgent(SetReady(c, v, t, true, batch), v)
  {
    var (d, beats) := MakeReady(c, v, t);
    MakeReadyKeeps(c, v, t);
    MakeReadyShaped(c, v, t);
    if beats {
      DecideLeavesNobodyMoreUrgent(d, v, Preempted, batch);
    } else {
      forall u: Tid | u < |v.base| && u != v.idle && u != d.current && d.state[u].Ready?
        ensures v.urgency[d.current] <= FiledUrgency(d, v, u)
      {
        UnwarrantedLeaves(c, v, t, u);
      }
    }
  }

  lemma UnwarrantedLeaves(c: Core, v: View, t: Tid, u: Tid)
    requires Filed(c, v) && t < |v.base| && NobodyMoreUrgent(c, v) && !MakeReady(c, v, t).1
    requires u < |v.base| && u != v.idle && u != c.current
    ensures var d := MakeReady(c, v, t).0;
            Shaped(d, v) && (d.state[u].Ready? ==> v.urgency[c.current] <= FiledUrgency(d, v, u))
  {
    var d := MakeReady(c, v, t).0;
    MakeReadyShaped(c, v, t);
    MakeReadyLeaves(c, v, t, u);
    FiledNoMoreUrgent(d, v, u);
    assert Placed(c, v, t);
    if u != t { assert FiledUrgency(d, v, u) == FiledUrgency(c, v, u); }
  }

  lemma DecideLeavesNobodyMoreUrgent(c: Core, v: View, reason: Departure, batch: seq<Tid>)
    requires Filed(c, v) && InRange(v, batch) && CanDepart(c, v, reason)
    ensures NobodyMoreUrgent(Decide(c, v, reason, batch), v)
  {
    var c1 := ReadyAll(c, v, batch);
    ReadyAllKeeps(c, v, batch);
    if c1.state[c1.current].Running? { DepartKeeps(c1, v, reason, []); }
    PickLeavesNobodyMoreUrgent(Filing(c, v, reason, batch), v);
  }

  lemma HandlerLeavesNobodyMoreUrgent(c: Core, v: View, batch: seq<Tid>, joiners: seq<Tid>)
    requires Filed(c, v) && InRange(v, batch) && InRange(v, joiners) && v.idle !in c.exiting
    ensures NobodyMoreUrgent(Reschedule(c, v, batch, joiners), v)
  {
    var c1 := ReadyAll(c, v, batch);
    ReadyAllKeeps(c, v, batch);
    if c1.state[c1.current].Running? { DepartKeeps(c1, v, DepartureOf(c1, v), joiners); }
    PickLeavesNobodyMoreUrgent(HandlerFiling(c, v, batch, joiners), v);
  }

  /** The view stands from event j to state k, and every wake between may decide. */
  ghost predicate Undeferred(views: seq<View>, events: seq<Event>, j: nat, k: nat)
    requires |views| == |events| + 1 && j < k < |views|
  {
    && (forall i :: j < i <= k ==> views[i] == views[j])
    && forall i :: j < i < k ==> (events[i].Readied? ==> events[i].decides)
  }

  /**
   From any pick on, for as long as urgencies stand and every wake may decide, no ready thread
   is more urgent than the current one.
   */
  lemma {:induction false} NobodyMoreUrgentWaits(run: seq<Machine>, views: seq<View>, events: seq<Event>,
                                                 j: nat, k: nat)
    requires IsRun(run, views, events) && j < k < |run| && Decides(run[j], views[j], events[j])
    requires Undeferred(views, events, j, k)
    ensures NobodyMoreUrgent(run[k].core, views[k])
    decreases k
  {
    if k > j + 1 { NobodyMoreUrgentWaits(run, views, events, j, k - 1); }
    NextLeavesNobodyMoreUrgent(run, views, events, k - 1);
    assert views[k - 1] == views[k];
  }

  lemma NextLeavesNobodyMoreUrgent(run: seq<Machine>, views: seq<View>, events: seq<Event>, i: nat)
    requires IsRun(run, views, events) && i < |events|
    requires || Decides(run[i], views[i], events[i])
             || (NobodyMoreUrgent(run[i].core, views[i]) && (events[i].Readied? ==> events[i].decides))
    ensures NobodyMoreUrgent(run[i + 1].core, views[i])
  {
    OnePlaceInEveryRun(run, views, events, i);
    assert Steps(run, views, events, i);
    EventLeavesNobodyMoreUrgent(run[i], views[i], events[i]);
  }

  lemma EventLeavesNobodyMoreUrgent(s: Machine, v: View, e: Event)
    requires Filed(s.core, v) && v.idle !in s.core.exiting && CanHappen(s, v, e)
    requires Decides(s, v, e) || (NobodyMoreUrgent(s.core, v) && (e.Readied? ==> e.decides))
    ensures NobodyMoreUrgent(After(s, v, e).core, v)
  {
    var c := s.core;
    match e
    case Looked(_) =>
    case Exiting =>
      var d := After(s, v, e).core;
      assert forall u: Tid :: u < |v.base| ==> FiledUrgency(d, v, u) == FiledUrgency(c, v, u);
    case Readied(t, decides, batch) =>
      if WakeDecides(c, v, t, decides) {
        MakeReadyKeeps(c, v, t);
        MakeReadyShaped(c, v, t);
        DecideLeavesNobodyMoreUrgent(MakeReady(c, v, t).0, v, Preempted, batch);
      } else {
        WakeLeavesNobodyMoreUrgent(c, v, t, batch);
      }
    case Switched(reason, batch) => DecideLeavesNobodyMoreUrgent(c, v, reason, batch);
    case Handled(batch, joiners) => HandlerLeavesNobodyMoreUrgent(c, v, batch, joiners);
  }
}
