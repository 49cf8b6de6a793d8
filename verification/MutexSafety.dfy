/**
 What base_mutex promises, over every run: mutual exclusion, no waiter beside a free
 mutex, no overtaking, hand-over to the best waiter, and filing that is complete by
 the time lock() returns. And, in every reachable state, the graph the urgency fold
 reads is one on which the fold is sound.
 */
module MutexSafety {
  import opened Wrappers
  import opened Threads
  import opened WaitGraph
  import opened MutexProtocol
  import opened MutexSteps

  lemma StepKeeps(s: State, a: Action)
    requires Inv(s) && Enabled(s, a)
    ensures Inv(Step(s, a))
  {
    match a
    case CallLock(t, m) => CallLockKeeps(s, t, m, true);
    case CallTryLock(t, m) => CallLockKeeps(s, t, m, false);
    case CallUnlock(t, m) => CallUnlockKeeps(s, t, m);
    case Advance(t) => AdvanceKeeps(s, t);
  }

  lemma AdvanceKeeps(s: State, t: Tid)
    requires Inv(s) && Enabled(s, Advance(t))
    ensures Inv(StepOf(s, t))
  {
    match s.pc[t]
    case TakeCas(_, _) => CasKeeps(s, t);
    case Poll(_) => CasKeeps(s, t);
    case File(_, _, _) => FileKeeps(s, t);
    case Arm(_) => ArmKeeps(s, t);
    case Publish(_) => WaitStepKeeps(s, t);
    case WonClear(_) => ClearKeeps(s, t);
    case Commit(_) => WaitStepKeeps(s, t);
    case WokenClear(_) => ClearKeeps(s, t);
    case WonDisarm(_) => DisarmKeeps(s, t);
    case WokenDisarm(_) => DisarmKeeps(s, t);
    case Recheck(_) => RecheckKeeps(s, t);
    case Retire(_, _) => RetireKeeps(s, t);
    case HandOver(m) => if s.g.mutexes[m].queue == [] { FreeKeeps(s, t); } else { HandOverKeeps(s, t); }
    case HandFile(_, _, _) => HandFileKeeps(s, t);
  }

  lemma InitKeeps(s: State)
    requires Init(s)
    ensures Inv(s)
  {
    forall t: Tid | IsThread(s.g, t) ensures ThreadOk(s, t) {}
    forall t: Tid, i: nat | IsThread(s.g, t) && i < MAX_HELD ensures SlotOk(s, t, i) {}
  }

  lemma {:induction false} RunKeeps(run: seq<State>, acts: seq<Action>, k: nat)
    requires IsRun(run, acts) && k < |run|
    ensures Inv(run[k])
    decreases k
  {
    if k == 0 {
      InitKeeps(run[0]);
    } else {
      RunKeeps(run, acts, k - 1);
      assert Steps(run, acts, k - 1);
      StepKeeps(run[k - 1], acts[k - 1]);
    }
  }

  /** No two callers have the same mutex locked. */
  lemma MutualExclusion(run: seq<State>, acts: seq<Action>, k: nat, t: Tid, u: Tid, m: Mid)
    requires IsRun(run, acts) && k < |run|
    requires t < |run[k].has| && u < |run[k].has| && m in run[k].has[t] && m in run[k].has[u]
    ensures t == u
  {
    RunKeeps(run, acts, k);
    assert ThreadOk(run[k], t) && ThreadOk(run[k], u);
    assert HasOk(run[k], t, m) && HasOk(run[k], u, m);
  }

  /** A waiter polled in vain on m: it is parked, or on its way to or from it. */
  predicate PolledInVain(s: State, t: Tid, m: Mid) {
    t < |s.pc| && (s.pc[t] == Commit(m) || s.pc[t] == WokenDisarm(m))
  }

  /** Nobody parks on a free mutex, and a parked waiter the queue has lost is the owner. */
  lemma NobodyParksOnFree(run: seq<State>, acts: seq<Action>, k: nat, t: Tid, m: Mid)
    requires IsRun(run, acts) && k < |run| && PolledInVain(run[k], t, m)
    ensures m < |run[k].g.mutexes| && run[k].g.mutexes[m].owner != None
    ensures t in run[k].g.mutexes[m].queue || run[k].g.mutexes[m].owner == Some(t)
  {
    RunKeeps(run, acts, k);
    assert ThreadOk(run[k], t);
  }

  /**
   The owner word changes in three ways only. A release hands it to the head of the
   queue, which is ahead of everyone else there; a release with nobody queued clears it;
   and a CAS takes it, from free, while nobody has polled in vain. So neither a newcomer
   nor a try_lock ever gets in before a waiter that parked.
   */
  lemma OwnerChanges(run: seq<State>, acts: seq<Action>, k: nat, m: Mid)
    requires IsRun(run, acts) && k < |acts|
    requires m < |run[k].g.mutexes| == |run[k + 1].g.mutexes|
    requires run[k + 1].g.mutexes[m].owner != run[k].g.mutexes[m].owner
    ensures acts[k].Advance? && acts[k].t < |run[k].pc|
    ensures var s, t := run[k], acts[k].t;
            var q := s.g.mutexes[m].queue;
            match (s.g.mutexes[m].owner, run[k + 1].g.mutexes[m].owner)
            case (Some(was), Some(now)) =>
              && was == t && s.pc[t] == HandOver(m) && q != [] && now == q[0]
              && forall x :: x in q && x != now ==> IsAhead(s, now, x)
            case (Some(was), None) => was == t && s.pc[t] == HandOver(m) && q == []
            case (None, Some(now)) =>
              && now == t && (s.pc[t].TakeCas? || s.pc[t].Poll?)
              && forall w: Tid :: !PolledInVain(s, w, m)
            case (None, None) => false
  {
    var s, a, q := run[k], acts[k], run[k].g.mutexes[m].queue;
    assert Steps(run, acts, k);
    RunKeeps(run, acts, k);
    OwnerSteps(s, a, m);
    assert MutexOk(s, m) && InOrder(s, q);
    forall w: Tid | PolledInVain(s, w, m) ensures s.g.mutexes[m].owner != None { assert ThreadOk(s, w); }
    forall x | x in q && x != q[0] ensures IsAhead(s, q[0], x) {
      var j :| 0 <= j < |q| && q[j] == x;
      assert IsAhead(s, q[0], q[j]);
    }
  }

  lemma OwnerSteps(s: State, a: Action, m: Mid)
    requires Inv(s) && Enabled(s, a) && m < |s.g.mutexes|
    requires m < |Step(s, a).g.mutexes| && Step(s, a).g.mutexes[m].owner != s.g.mutexes[m].owner
    ensures a.Advance?
    ensures var was, now, q := s.g.mutexes[m].owner, Step(s, a).g.mutexes[m].owner, s.g.mutexes[m].queue;
            if s.pc[a.t] == HandOver(m) then was == Some(a.t) && now == (if q == [] then None else Some(q[0]))
            else was == None && now == Some(a.t) && (s.pc[a.t].TakeCas? || s.pc[a.t].Poll?)
  {
    if a.Advance? {
      assert ThreadOk(s, a.t);
      if !TouchesOwner(s.pc[a.t]) { OwnerStays(s, a.t, m); }
    }
  }

  predicate TouchesOwner(pc: Pc) { pc.TakeCas? || pc.Poll? || pc.HandOver? }

  lemma OwnerStays(s: State, t: Tid, m: Mid)
    requires Enabled(s, Advance(t)) && !TouchesOwner(s.pc[t]) && m < |s.g.mutexes|
    ensures m < |StepOf(s, t).g.mutexes| && StepOf(s, t).g.mutexes[m].owner == s.g.mutexes[m].owner
  {
    match s.pc[t] case File(_, _, _) => case HandFile(_, _, _) => case Arm(_) => case Retire(_, _) => case _ =>
  }

  /** m is filed in slot i of its owner t and nowhere else, index, slot and bit agreeing. */
  ghost predicate FiledOnce(s: State, t: Tid, m: Mid) {
    && Shaped(s) && IsThread(s.g, t) && m < |s.g.mutexes| && s.g.mutexes[m].owner == Some(t)
    && s.index[m].Some? && FiledAt(s.g, t, s.index[m].value, m)
    && forall u: Tid, j: nat :: u < |s.pc| && j < MAX_HELD && s.g.threads[u].slots[j] == Some(m) ==>
         u == t && s.index[m] == Some(j)
  }

  ghost predicate FiledNowhere(s: State, m: Mid) {
    && Shaped(s) && m < |s.g.mutexes| && s.index[m] == None
    && forall u: Tid :: u < |s.pc| ==> Some(m) !in s.g.threads[u].slots
  }

  lemma FiledWhenOwned(s: State, t: Tid, m: Mid)
    requires Inv(s) && IsThread(s.g, t) && m < |s.g.mutexes| && s.g.mutexes[m].owner == Some(t)
    requires FilingOf(s, m) == Filed
    ensures FiledOnce(s, t, m)
  {
    assert MutexOk(s, m) && FilingOk(s, m, t);
    var i := s.index[m].value;
    forall u: Tid, j: nat | u < |s.pc| && j < MAX_HELD && s.g.threads[u].slots[j] == Some(m) ensures u == t && j == i {
      assert SlotOk(s, u, j);
    }
    assert FiledAt(s.g, t, i, m);
  }

  /** What a caller has locked is filed, whether a CAS or a hand-over gave it. */
  lemma LockedIsFiled(run: seq<State>, acts: seq<Action>, k: nat, t: Tid, m: Mid)
    requires IsRun(run, acts) && k < |run| && t < |run[k].has| && m in run[k].has[t]
    ensures FiledOnce(run[k], t, m)
  {
    var s := run[k];
    RunKeeps(run, acts, k);
    assert ThreadOk(s, t) && HasOk(s, t, m) && MutexOk(s, m);
    assert s.lockedBy[m].Some? ==> ThreadOk(s, s.lockedBy[m].value);
    FiledWhenOwned(s, t, m);
  }

  /** With no call on m in progress, a free mutex is filed nowhere and an owned one exactly once. */
  lemma AtRestFilingAgrees(run: seq<State>, acts: seq<Action>, k: nat, m: Mid)
    requires IsRun(run, acts) && k < |run| && m < |run[k].g.mutexes|
    requires forall t: Tid :: t < |run[k].pc| ==> run[k].pc[t] == Idle || run[k].pc[t].m != m
    ensures var s := run[k];
            match s.g.mutexes[m].owner
            case Some(t) => FiledOnce(s, t, m)
            case None => FiledNowhere(s, m)
  {
    var s := run[k];
    RunKeeps(run, acts, k);
    assert MutexOk(s, m);
    match s.g.mutexes[m].owner
    case Some(t) => FiledWhenOwned(s, t, m);
    case None =>
      forall u: Tid | u < |s.pc| ensures Some(m) !in s.g.threads[u].slots {
        forall j: nat | j < MAX_HELD ensures s.g.threads[u].slots[j] != Some(m) { assert SlotOk(s, u, j); }
      }
  }

  /** At every step, a slot a set mask bit leads to names a mutex its thread owns. */
  lemma MaskBitsLeadToOwned(run: seq<State>, acts: seq<Action>, k: nat, t: Tid, i: nat)
    requires IsRun(run, acts) && k < |run| && t < |run[k].g.threads| && i in run[k].g.threads[t].mask
    ensures var g := run[k].g;
            && i < |g.threads[t].slots| && g.threads[t].slots[i].Some?
            && g.threads[t].slots[i].value < |g.mutexes| && g.mutexes[g.threads[t].slots[i].value].owner == Some(t)
  {
    RunKeeps(run, acts, k);
    assert ThreadOk(run[k], t) && SlotOk(run[k], t, i);
  }

  /** The claim of a slot, by the owner or for it, always finds one. */
  lemma ClaimFindsASlot(run: seq<State>, acts: seq<Action>, k: nat, t: Tid)
    requires IsRun(run, acts) && k < |run| && t < |run[k].pc|
    requires (run[k].pc[t].File? || run[k].pc[t].HandFile?) && run[k].pc[t].file.Scan?
    ensures run[k].pc[t].file.i < MAX_HELD
  {
    var s := run[k];
    RunKeeps(run, acts, k);
    var m := s.pc[t].m;
    assert ThreadOk(s, t) && MutexOk(s, m);
    var to := if s.pc[t].File? then t else s.pc[t].to;
    assert ThreadOk(s, to);
    forall j: nat | j < MAX_HELD ensures s.g.threads[to].slots[j] != Some(m) { assert SlotOk(s, to, j); }
  }

  /** In every reachable state the fold is no less urgent than the effective priority. */
  lemma FoldSoundInEveryState(run: seq<State>, acts: seq<Action>, k: nat, t: Tid, v: Priority)
    requires IsRun(run, acts) && k < |run| && IsThread(run[k].g, t) && IsEffective(run[k].g, t, v)
    ensures WellFormed(run[k].g)
    ensures Urgency(run[k].g, t) <= v
    ensures Urgency(run[k].g, t) == v <==> v == 0 || !LongOrCrowded(run[k].g, t, MAX_DEPTH)
  {
    RunKeeps(run, acts, k);
    GraphIsWellFormed(run[k]);
    UrgencyExactly(run[k].g, t, v);
  }

  lemma GraphIsWellFormed(s: State)
    requires Inv(s)
    ensures WellFormed(s.g)
  {
    var g := s.g;
    forall t: Tid, i | IsThread(g, t) && 0 <= i < |g.threads[t].slots| && g.threads[t].slots[i].Some?
      ensures g.threads[t].slots[i].value < |g.mutexes|
    {
      assert SlotOk(s, t, i);
    }
    forall m: Mid | m < |g.mutexes| ensures AllThreads(g, g.mutexes[m].queue) { assert MutexOk(s, m); }
    forall m: Mid | m < |g.mutexes| ensures CacheOk(g, m) {
      assert MutexOk(s, m);
      var q := g.mutexes[m].queue;
      forall i, j | 0 <= i < j < |q| ensures g.threads[q[i]].base <= g.threads[q[j]].base {
        assert IsAhead(s, q[i], q[j]);
      }
      forall w | w in q && IsBridge(g, m, w) ensures g.mutexes[m].hint { assert WaiterOk(s, m, w); }
    }
    forall t: Tid, m: Mid | IsThread(g, t) && Holds(g, t, m) ensures g.mutexes[m].owner == Some(t) {
      var i: nat :| FiledAt(g, t, i, m);
      assert SlotOk(s, t, i);
    }
  }
}
