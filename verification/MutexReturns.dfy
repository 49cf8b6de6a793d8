/**
 What a call on a base_mutex leaves its caller with when it returns, in every run: lock()
 the mutex, try_lock() the mutex exactly when it was free, unlock() nothing of it.
 */
module MutexReturns {
  import opened Wrappers
  import opened Threads
  import opened WaitGraph
  import opened MutexProtocol
  import MutexSafety

  /** State k is the first after step j in which t is in no call. */
  ghost predicate ReturnsAt(run: seq<State>, acts: seq<Action>, t: Tid, j: nat, k: nat) {
    && j < k < |run| == |acts| + 1
    && (forall i :: j <= i <= k ==> t < |run[i].pc| && t < |run[i].has|)
    && run[k].pc[t] == Idle && forall i :: j < i < k ==> run[i].pc[t] != Idle
  }

  /** A step of another thread leaves t where it is in its call, and one of its own, in a call, advances it. */
  lemma OnlyItsOwnSteps(s: State, a: Action, t: Tid)
    requires Enabled(s, a) && t < |s.pc| && s.pc[t] != Idle
    ensures a.t == t ==> a == Advance(t)
    ensures a.t != t ==>
              var s' := Step(s, a);
              |s'.pc| == |s.pc| == |s'.has| && s'.pc[t] == s.pc[t] && s'.has[t] == s.has[t]
  {
    if a.t != t && a.Advance? { OthersAdvance(s, a.t, t); }
  }

  lemma OthersAdvance(s: State, u: Tid, t: Tid)
    requires Enabled(s, Advance(u)) && t < |s.pc| && u != t
    ensures |StepOf(s, u).pc| == |s.pc| == |StepOf(s, u).has|
    ensures StepOf(s, u).pc[t] == s.pc[t] && StepOf(s, u).has[t] == s.has[t]
  {
    match s.pc[u] case File(_, _, _) => case HandFile(_, _, _) => case Retire(_, _) => case HandOver(_) => case _ =>
  }

  /** In lock(), or in try_lock() past a won CAS. */
  predicate InLock(pc: Pc, m: Mid) { Locking(pc) && pc.m == m && (pc.TakeCas? ==> pc.blocking) }

  lemma LockStep(s: State, a: Action, t: Tid, m: Mid)
    requires Enabled(s, a) && t < |s.pc| && InLock(s.pc[t], m)
    ensures var s' := Step(s, a);
            && t < |s'.pc| && t < |s'.has|
            && if s'.pc[t] == Idle then s'.has[t] == s.has[t] + {m}
               else InLock(s'.pc[t], m) && s'.has[t] == s.has[t]
  {
    OnlyItsOwnSteps(s, a, t);
    if a.t == t { LockAdvances(s, t, m); }
  }

  lemma LockAdvances(s: State, t: Tid, m: Mid)
    requires Enabled(s, Advance(t)) && InLock(s.pc[t], m)
    ensures var s' := StepOf(s, t);
            && t < |s'.pc| && t < |s'.has|
            && if s'.pc[t] == Idle then s'.has[t] == s.has[t] + {m}
               else InLock(s'.pc[t], m) && s'.has[t] == s.has[t]
  {
    match s.pc[t] case TakeCas(_, _) => case File(_, _, _) => case Poll(_) => case Recheck(_) => case _ =>
  }

  lemma {:induction false} InLockUntilItReturns(run: seq<State>, acts: seq<Action>, t: Tid, m: Mid, j: nat, k: nat)
    requires IsRun(run, acts) && j < k < |run| && t < |run[j].pc| && t < |run[j].has| && InLock(run[j].pc[t], m)
    requires forall i :: j < i < k ==> t < |run[i].pc| && run[i].pc[t] != Idle
    ensures t < |run[k].pc| && t < |run[k].has|
    ensures if run[k].pc[t] == Idle then run[k].has[t] == run[j].has[t] + {m}
            else InLock(run[k].pc[t], m) && run[k].has[t] == run[j].has[t]
    decreases k
  {
    assert Steps(run, acts, k - 1);
    if k > j + 1 { InLockUntilItReturns(run, acts, t, m, j, k - 1); }
    LockStep(run[k - 1], acts[k - 1], t, m);
  }

  lemma HasOwns(run: seq<State>, acts: seq<Action>, k: nat, t: Tid, m: Mid)
    requires IsRun(run, acts) && k < |run| && t < |run[k].has| && m in run[k].has[t]
    ensures m < |run[k].g.mutexes| && run[k].g.mutexes[m].owner == Some(t)
  {
    MutexSafety.RunKeeps(run, acts, k);
    assert ThreadOk(run[k], t) && HasOk(run[k], t, m);
  }

  /** A lock() that returns has the mutex, and its caller's other locks are as they were. */
  lemma LockReturnsOwning(run: seq<State>, acts: seq<Action>, t: Tid, m: Mid, j: nat, k: nat)
    requires IsRun(run, acts) && ReturnsAt(run, acts, t, j, k) && acts[j] == CallLock(t, m)
    ensures run[k].has[t] == run[j].has[t] + {m}
    ensures m < |run[k].g.mutexes| && run[k].g.mutexes[m].owner == Some(t)
  {
    assert Steps(run, acts, j);
    InLockUntilItReturns(run, acts, t, m, j + 1, k);
    HasOwns(run, acts, k, t, m);
  }

  /** Up to the CAS of a try_lock, and at what step that is. */
  lemma {:induction false} CasOf(run: seq<State>, acts: seq<Action>, t: Tid, m: Mid, j: nat, k: nat) returns (c: nat)
    requires IsRun(run, acts) && j < k < |run| && t < |run[j].pc| && t < |run[j].has|
    requires run[j].pc[t] == TakeCas(m, false)
    requires t < |run[k].pc| && run[k].pc[t] != TakeCas(m, false)
    ensures j <= c < k && acts[c] == Advance(t) && t < |run[c].pc| && t < |run[c].has|
    ensures run[c].pc[t] == TakeCas(m, false) && run[c].has[t] == run[j].has[t]
    decreases k - j
  {
    assert Steps(run, acts, j);
    OnlyItsOwnSteps(run[j], acts[j], t);
    if acts[j] == Advance(t) {
      c := j;
    } else {
      c := CasOf(run, acts, t, m, j + 1, k);
    }
  }

  /** A try_lock() returns with the mutex if and only if the owner word was free at its CAS. */
  lemma TryLockReturnsOwningIff(run: seq<State>, acts: seq<Action>, t: Tid, m: Mid, j: nat, k: nat) returns (c: nat)
    requires IsRun(run, acts) && ReturnsAt(run, acts, t, j, k) && acts[j] == CallTryLock(t, m)
    ensures j < c < k && acts[c] == Advance(t) && run[c].pc[t] == TakeCas(m, false) && m < |run[c].g.mutexes|
    ensures run[k].has[t] == run[j].has[t] + if run[c].g.mutexes[m].owner == None then {m} else {}
    ensures run[c].g.mutexes[m].owner == None ==>
              m < |run[k].g.mutexes| && run[k].g.mutexes[m].owner == Some(t) && m !in run[j].has[t]
  {
    assert Steps(run, acts, j);
    c := CasOf(run, acts, t, m, j + 1, k);
    assert Steps(run, acts, c);
    if run[c].g.mutexes[m].owner == None {
      InLockUntilItReturns(run, acts, t, m, c + 1, k);
      HasOwns(run, acts, k, t, m);
      if m in run[j].has[t] { HasOwns(run, acts, c, t, m); }
    }
  }

  predicate InUnlock(pc: Pc, m: Mid) { (pc.Retire? || pc.HandOver? || pc.HandFile?) && pc.m == m }

  /** The unlock goes on, or is over with the mutex another's or free. */
  predicate UnlockGoesOn(s: State, t: Tid, m: Mid, has: set<Mid>) {
    && t < |s.pc| && t < |s.has| && s.has[t] == has
    && if s.pc[t] == Idle then m < |s.g.mutexes| && s.g.mutexes[m].owner != Some(t) else InUnlock(s.pc[t], m)
  }

  lemma UnlockStep(s: State, a: Action, t: Tid, m: Mid)
    requires Inv(s) && Enabled(s, a) && t < |s.pc| && InUnlock(s.pc[t], m)
    ensures UnlockGoesOn(Step(s, a), t, m, s.has[t])
  {
    OnlyItsOwnSteps(s, a, t);
    if a.t == t { UnlockAdvances(s, t, m); }
  }

  lemma UnlockAdvances(s: State, t: Tid, m: Mid)
    requires Inv(s) && Enabled(s, Advance(t)) && InUnlock(s.pc[t], m)
    ensures UnlockGoesOn(StepOf(s, t), t, m, s.has[t])
  {
    assert ThreadOk(s, t);
    match s.pc[t] case Retire(_, _) => case HandOver(_) => case _ =>
  }

  lemma {:induction false} InUnlockUntilItReturns(run: seq<State>, acts: seq<Action>, t: Tid, m: Mid, j: nat, k: nat)
    requires IsRun(run, acts) && j < k < |run| && t < |run[j].pc| && t < |run[j].has| && InUnlock(run[j].pc[t], m)
    requires forall i :: j < i < k ==> t < |run[i].pc| && run[i].pc[t] != Idle
    ensures UnlockGoesOn(run[k], t, m, run[j].has[t])
    decreases k
  {
    if k > j + 1 { InUnlockUntilItReturns(run, acts, t, m, j, k - 1); }
    UnlockRunStep(run, acts, t, m, k - 1);
  }

  lemma UnlockRunStep(run: seq<State>, acts: seq<Action>, t: Tid, m: Mid, i: nat)
    requires IsRun(run, acts) && i < |acts| && t < |run[i].pc| && t < |run[i].has| && InUnlock(run[i].pc[t], m)
    ensures UnlockGoesOn(run[i + 1], t, m, run[i].has[t])
  {
    assert Steps(run, acts, i);
    MutexSafety.RunKeeps(run, acts, i);
    UnlockStep(run[i], acts[i], t, m);
  }

  /** An unlock() that returns has given the mutex up, and nothing else. */
  lemma UnlockReturnsWithout(run: seq<State>, acts: seq<Action>, t: Tid, m: Mid, j: nat, k: nat)
    requires IsRun(run, acts) && ReturnsAt(run, acts, t, j, k) && acts[j] == CallUnlock(t, m)
    ensures run[k].has[t] == run[j].has[t] - {m}
    ensures m < |run[k].g.mutexes| && run[k].g.mutexes[m].owner != Some(t)
  {
    assert Steps(run, acts, j);
    InUnlockUntilItReturns(run, acts, t, m, j + 1, k);
  }
}
