/**
 The donation lock() makes, in every run of the mutex protocol: whom the arming of a waiter
 boosts, and whom the prompt that follows reaches.
 */
module DonationPrompts {
  import opened Wrappers
  import opened Threads
  import opened WaitGraph
  import opened WaitOrder
  import opened MutexProtocol
  import MutexSafety
  import opened BlockedChain

  /** In every state of a run a waiter's edge is up, unless it is between its arming and its publishing. */
  lemma PublishedUnlessArming(run: seq<State>, acts: seq<Action>, k: nat, w: Tid)
    requires IsRun(run, acts) && k < |run| && IsThread(run[k].g, w)
    ensures w < |run[k].pc| && (Published(run[k].g, w) || run[k].pc[w].Publish?)
  {
    var s := run[k];
    MutexSafety.RunKeeps(run, acts, k);
    assert ThreadOk(s, w);
    if !s.pc[w].Publish? {
      forall m: Mid | m < |s.g.mutexes| && w in s.g.mutexes[m].queue && s.g.mutexes[m].owner != Some(w)
        ensures s.g.threads[w].blockedOn == Some(m)
      {
        assert MutexOk(s, m) && WaiterOk(s, m, w);
      }
    }
  }

  lemma ArmingAddsAWaiter(s: State, w: Tid, m: Mid)
    requires Inv(s) && Enabled(s, Advance(w)) && s.pc[w] == Arm(m)
    ensures WaiterAdded(s.g, StepOf(s, w).g, w, m)
  {
    var g, g' := s.g, StepOf(s, w).g;
    assert MutexOk(s, m);
    assert w in g.mutexes[m].queue ==> WaiterOk(s, m, w);
    InsertMembers(g.mutexes[m].queue, w, Base(g));
  }

  /** A thread that is about to arm waits on nobody. */
  lemma ArmingWaitsOnNobody(s: State, w: Tid, t: Tid)
    requires Inv(s) && IsThread(s.g, w) && s.pc[w].Arm?
    ensures !WaitsOn(s.g, w, t)
  {
    forall m: Mid | m < |s.g.mutexes| ensures w !in s.g.mutexes[m].queue {
      assert MutexOk(s, m) && (w in s.g.mutexes[m].queue ==> WaiterOk(s, m, w));
    }
  }

  /**
   In every run, w's arming on m changes the effective priority of a thread u only by a boost.
   The chain the prompt walks, from m's owner, reaches u, or breaks off at a thread that
   transitively waits on u and is itself between its arming and its publishing, its own
   prompt still to come.
   */
  lemma ArmingPromptsTheBoosted(run: seq<State>, acts: seq<Action>, k: nat, w: Tid, m: Mid, holder: Tid,
                                u: Tid, v: Priority, v': Priority) returns (n: nat, p: seq<Tid>)
    requires IsRun(run, acts) && k < |acts| && acts[k] == Advance(w) && w < |run[k].pc| && run[k].pc[w] == Arm(m)
    requires m < |run[k].g.mutexes| && run[k].g.mutexes[m].owner == Some(holder) && IsThread(run[k].g, u)
    requires IsEffective(run[k].g, u, v) && IsEffective(run[k + 1].g, u, v') && v != v'
    ensures v' < v
    ensures IsPath(run[k].g, p) && p[0] == u && Hop(run[k + 1].g, holder, n) == Some(p[|p| - 1])
    ensures |p| == 1 || (p[|p| - 1] < |run[k].pc| && p[|p| - 1] != w && run[k].pc[p[|p| - 1]].Publish?)
    ensures n < MAX_DEPTH ==> Prompted(run[k + 1].g, holder, p[|p| - 1])
  {
    var s, s' := run[k], run[k + 1];
    MutexSafety.RunKeeps(run, acts, k);
    MutexSafety.RunKeeps(run, acts, k + 1);
    MutexSafety.GraphIsWellFormed(s');
    assert Steps(run, acts, k);
    ArmingAddsAWaiter(s, w, m);
    n, p := PromptsReachTheBoosted(s.g, s'.g, w, m, holder, u, v, v');
    if |p| > 1 {
      var x := p[|p| - 1];
      assert WaitsOn(s.g, p[(|p| - 2) + 1], p[|p| - 2]);
      if x == w { ArmingWaitsOnNobody(s, w, p[|p| - 2]); }
      PublishedUnlessArming(run, acts, k + 1, x);
    }
  }
}
