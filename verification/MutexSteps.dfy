/** Every step of the mutex protocol keeps its invariant. */
module MutexSteps {
  import opened Wrappers
  import opened Threads
  import opened WaitGraph
  import opened WaitOrder
  import opened MutexProtocol

  /** A step of thread t on mutex m, which wrote the slots, mask or edge of u at most. */
  ghost predicate Near(s: State, s': State, t: Tid, u: Tid, m: Mid) {
    && Shaped(s) && Shaped(s')
    && |s'.pc| == |s.pc| && |s'.g.mutexes| == |s.g.mutexes|
    && t < |s.pc| && u < |s.pc| && m < |s.g.mutexes|
    && s.clock <= s'.clock
    && (forall x: Tid :: x < |s.pc| && x != t ==>
          s'.pc[x] == s.pc[x] && s'.ticket[x] == s.ticket[x] && s'.has[x] == s.has[x])
    && (forall x: Tid :: x < |s.pc| && x != u ==> s'.g.threads[x] == s.g.threads[x])
    && s'.g.threads[u].base == s.g.threads[u].base
    && SameElsewhere(s.g.threads[u], s'.g.threads[u], m)
    && (forall x: Mid :: x < |s.g.mutexes| && x != m ==>
          s'.g.mutexes[x] == s.g.mutexes[x] && s'.index[x] == s.index[x] && s'.lockedBy[x] == s.lockedBy[x])
    && (s.pc[t] == Idle || s.pc[t].m == m) && (s'.pc[t] == Idle || s'.pc[t].m == m)
    && (u != t ==> s.pc[u] != Idle && s.pc[u].m == m && s'.g.threads[u].blockedOn == s.g.threads[u].blockedOn)
  }

  /** Slots of other mutexes are as they were. */
  ghost predicate SameElsewhere(a: Thread, b: Thread, m: Mid) {
    |a.slots| == |b.slots| && (forall i: nat :: i < |a.slots| ==> SameSlot(a, b, m, i))
  }

  predicate SameSlot(a: Thread, b: Thread, m: Mid, i: nat)
    requires |a.slots| == |b.slots| && i < |a.slots|
  {
    && (a.slots[i].Some? && a.slots[i] != Some(m) ==> b.slots[i] == a.slots[i] && (i in b.mask <==> i in a.mask))
    && (b.slots[i].Some? && b.slots[i] != Some(m) ==> a.slots[i] == b.slots[i])
  }

  lemma FilingSame(s: State, s': State, t: Tid, u: Tid, m: Mid, x: Mid)
    requires Near(s, s', t, u, m) && x < |s.g.mutexes| && x != m
    ensures FilingOf(s', x) == FilingOf(s, x)
  {
  }

  lemma FilingFrame(s: State, s': State, t: Tid, u: Tid, m: Mid, x: Mid)
    requires Inv(s) && Near(s, s', t, u, m) && x < |s.g.mutexes| && x != m && s.g.mutexes[x].owner == Some(u)
    ensures FilingOk(s', x, u)
  {
    FilingSame(s, s', t, u, m, x);
    assert MutexOk(s, x) && FilingOk(s, x, u);
    var i := match FilingOf(s, x) case Slotted(j) => j case Indexed(j) => j case Filed => s.index[x].value case _ => 0;
    assert SameSlot(s.g.threads[u], s'.g.threads[u], m, i);
  }

  lemma MutexFrame(s: State, s': State, t: Tid, u: Tid, m: Mid, x: Mid)
    requires Inv(s) && Near(s, s', t, u, m) && x < |s.g.mutexes| && x != m
    ensures MutexOk(s', x)
  {
    FilingSame(s, s', t, u, m, x);
    assert MutexOk(s, x);
    var q := s.g.mutexes[x].queue;
    forall w | w in q ensures w != t && (w != u || u == t) && WaiterOk(s', x, w) {
      assert WaiterOk(s, x, w);
    }
    forall i, j | 0 <= i < j < |q| ensures IsAhead(s', q[i], q[j]) {
      assert IsAhead(s, q[i], q[j]) && q[i] in q && q[j] in q;
    }
    if s.g.mutexes[x].owner == Some(u) { FilingFrame(s, s', t, u, m, x); }
  }

  lemma ThreadFrame(s: State, s': State, t: Tid, u: Tid, m: Mid, x: Tid)
    requires Inv(s) && Near(s, s', t, u, m) && x < |s.pc| && x != t
    requires s.pc[x] != Idle && s.pc[x].m == m ==> PcOk(s', x, m)
    requires m in s.has[x] ==> s'.g.mutexes[m].owner == Some(x)
    requires forall i :: i in s'.g.threads[u].mask ==> i < MAX_HELD && s'.g.threads[u].slots[i].Some?
    ensures ThreadOk(s', x)
  {
    assert ThreadOk(s, x);
    if s.pc[x] != Idle && s.pc[x].m != m {
      assert x != u;
    }
    forall n | n in s.has[x] ensures HasOk(s', x, n) { assert HasOk(s, x, n); }
  }

  lemma SlotFrame(s: State, s': State, t: Tid, u: Tid, m: Mid, w: Tid, i: nat)
    requires Inv(s) && Near(s, s', t, u, m) && w < |s.pc| && i < MAX_HELD
    requires s'.g.threads[w].slots[i] != Some(m)
    ensures SlotOk(s', w, i)
  {
    assert SlotOk(s, w, i);
    assert SameSlot(s.g.threads[u], s'.g.threads[u], m, i);
    var x := s'.g.threads[w].slots[i];
    if x.Some? { FilingSame(s, s', t, u, m, x.value); }
  }

  /** What a step has to show is only what touches its thread and its mutex. */
  lemma Finish(s: State, s': State, t: Tid, u: Tid, m: Mid)
    requires Inv(s) && Near(s, s', t, u, m)
    requires ThreadOk(s', t)
    requires forall x: Tid :: x < |s.pc| && x != t && s.pc[x] != Idle && s.pc[x].m == m ==> PcOk(s', x, m)
    requires forall x: Tid :: x < |s.pc| && x != t && m in s.has[x] ==> s'.g.mutexes[m].owner == Some(x)
    requires forall i :: i in s'.g.threads[u].mask ==> i < MAX_HELD && s'.g.threads[u].slots[i].Some?
    requires MutexOk(s', m)
    requires forall w: Tid, i: nat :: w < |s.pc| && i < MAX_HELD && s'.g.threads[w].slots[i] == Some(m) ==>
             SlotOk(s', w, i)
    ensures Inv(s')
  {
    forall x: Tid | x < |s.pc| ensures ThreadOk(s', x) { if x != t { ThreadFrame(s, s', t, u, m, x); } }
    forall x: Mid | x < |s.g.mutexes| ensures MutexOk(s', x) { if x != m { MutexFrame(s, s', t, u, m, x); } }
    forall w: Tid, i: nat | w < |s.pc| && i < MAX_HELD ensures SlotOk(s', w, i) {
      if s'.g.threads[w].slots[i] != Some(m) { SlotFrame(s, s', t, u, m, w, i); }
    }
  }

  /* ------------------------------------------ steps that move only t's place */

  /** The place of t, its edge or its caller's view moved, and nothing shared did. */
  ghost predicate QuietStep(s: State, s': State, t: Tid, m: Mid) {
    && Near(s, s', t, t, m)
    && s'.g.mutexes == s.g.mutexes && s'.index == s.index && s'.lockedBy == s.lockedBy
    && s'.g.threads[t] == s.g.threads[t].(blockedOn := s'.g.threads[t].blockedOn)
    && s'.ticket == s.ticket && !s.pc[t].HandFile? && !s'.pc[t].HandFile?
    && Works(s.pc[t], m) == Works(s'.pc[t], m)
    && (Works(s.pc[t], m) ==> FilingBy(s'.pc[t]) == FilingBy(s.pc[t]))
  }

  /** t is still a proper member of the queue, and of a hand-over made to it. */
  predicate KeepsPlace(s: State, t: Tid, m: Mid, pc: Pc)
    requires Shaped(s) && m < |s.g.mutexes|
  {
    && (t in s.g.mutexes[m].queue ==> ArmedOn(pc, m) && (s.g.mutexes[m].owner == Some(t) ==> Winning(pc, m)))
    && (s.lockedBy[m].Some? && s.g.mutexes[m].owner == Some(t) ==> ArmedOn(pc, m) && !pc.File?)
  }

  lemma QuietMutex(s: State, s': State, t: Tid, m: Mid)
    requires Inv(s) && QuietStep(s, s', t, m) && KeepsPlace(s, t, m, s'.pc[t])
    ensures MutexOk(s', m) && FilingOf(s', m) == FilingOf(s, m)
  {
    assert MutexOk(s, m);
    var q := s.g.mutexes[m].queue;
    forall w | w in q ensures WaiterOk(s', m, w) { assert WaiterOk(s, m, w); }
    forall i, j | 0 <= i < j < |q| ensures IsAhead(s', q[i], q[j]) { assert IsAhead(s, q[i], q[j]); }
  }

  lemma QuietOther(s: State, s': State, t: Tid, m: Mid, x: Tid)
    requires Inv(s) && QuietStep(s, s', t, m) && KeepsPlace(s, t, m, s'.pc[t])
    requires x < |s.pc| && x != t
    ensures s.pc[x] != Idle && s.pc[x].m == m ==> PcOk(s', x, m)
    ensures m in s.has[x] ==> s.g.mutexes[m].owner == Some(x)
  {
    assert ThreadOk(s, x);
    if m in s.has[x] { assert HasOk(s, x, m); }
  }

  lemma Quiet(s: State, s': State, t: Tid, m: Mid)
    requires Inv(s) && QuietStep(s, s', t, m) && KeepsPlace(s, t, m, s'.pc[t]) && ThreadOk(s', t)
    ensures Inv(s')
  {
    QuietMutex(s, s', t, m);
    forall x: Tid | x < |s.pc| && x != t && s.pc[x] != Idle && s.pc[x].m == m ensures PcOk(s', x, m) {
      QuietOther(s, s', t, m, x);
    }
    forall x: Tid | x < |s.pc| && x != t && m in s.has[x] ensures s'.g.mutexes[m].owner == Some(x) {
      QuietOther(s, s', t, m, x);
    }
    forall w: Tid, i: nat | w < |s.pc| && i < MAX_HELD && s'.g.threads[w].slots[i] == Some(m) ensures SlotOk(s', w, i) {
      assert SlotOk(s, w, i);
    }
    assert ThreadOk(s, t);
    Finish(s, s', t, t, m);
  }

  /** Whoever a hand-over is filing for is armed and waits. */
  lemma NotHanded(s: State, t: Tid, m: Mid)
    requires Inv(s) && IsThread(s.g, t) && m < |s.g.mutexes|
    ensures KeepsPlace(s, t, m, s.pc[t])
  {
    assert MutexOk(s, m);
    if t in s.g.mutexes[m].queue { assert WaiterOk(s, m, t); }
    if s.lockedBy[m].Some? { assert ThreadOk(s, s.lockedBy[m].value); }
  }

  /** t at pc, its edge and its caller's view as given. */
  function Moved(s: State, t: Tid, pc: Pc, edge: Option<Mid>, has: set<Mid>): State
    requires Shaped(s) && IsThread(s.g, t)
  {
    PutThread(Goto(s, t, pc), t, s.g.threads[t].(blockedOn := edge)).(has := s.has[t := has])
  }

  lemma MovedIs(s: State, t: Tid, pc: Pc)
    requires Shaped(s) && IsThread(s.g, t)
    ensures Moved(s, t, pc, s.g.threads[t].blockedOn, s.has[t]) == Goto(s, t, pc)
    ensures forall edge ::
              Moved(s, t, pc, edge, s.has[t]) ==
              Goto(PutThread(s, t, s.g.threads[t].(blockedOn := edge)), t, pc)
    ensures forall m ::
              Moved(s, t, pc, s.g.threads[t].blockedOn, s.has[t] + {m}) ==
              Goto(s, t, pc).(has := s.has[t := s.has[t] + {m}])
    ensures forall m ::
              Moved(s, t, pc, s.g.threads[t].blockedOn, s.has[t] - {m}) ==
              Goto(s, t, pc).(has := s.has[t := s.has[t] - {m}])
  {
    assert s.g.threads[t := s.g.threads[t]] == s.g.threads;
    assert s.has[t := s.has[t]] == s.has;
  }

  lemma MoveKeeps(s: State, t: Tid, m: Mid, pc: Pc, edge: Option<Mid>, has: set<Mid>)
    requires Inv(s) && IsThread(s.g, t) && m < |s.g.mutexes|
    requires (s.pc[t] == Idle || s.pc[t].m == m) && (pc == Idle || pc.m == m)
    requires !s.pc[t].HandFile? && !pc.HandFile?
    requires Works(s.pc[t], m) == Works(pc, m) && (Works(pc, m) ==> FilingBy(pc) == FilingBy(s.pc[t]))
    requires KeepsPlace(s, t, m, pc)
    requires edge == if EdgeUp(pc) then Some(m) else None
    requires has <= s.has[t] + {m}
    requires m in has ==> s.g.mutexes[m].owner == Some(t) && !ByOwner(pc, m) && !ArmedOn(pc, m)
    requires pc != Idle ==> PcOk(Moved(s, t, pc, edge, has), t, m)
    ensures Inv(Moved(s, t, pc, edge, has))
  {
    var s' := Moved(s, t, pc, edge, has);
    assert ThreadOk(s, t);
    forall n | n in has ensures HasOk(s', t, n) {
      if n != m { assert HasOk(s, t, n); }
    }
    Quiet(s, s', t, m);
  }

  lemma CallLockKeeps(s: State, t: Tid, m: Mid, blocking: bool)
    requires Inv(s) && Call(s, t, m) && FreeSlot(s.g, t) && (blocking ==> s.g.mutexes[m].owner != Some(t))
    ensures Inv(Goto(s, t, TakeCas(m, blocking)))
  {
    assert ThreadOk(s, t);
    NotHanded(s, t, m);
    MovedIs(s, t, TakeCas(m, blocking));
    MoveKeeps(s, t, m, TakeCas(m, blocking), None, s.has[t]);
  }

  lemma CallUnlockKeeps(s: State, t: Tid, m: Mid)
    requires Inv(s) && Call(s, t, m) && s.g.mutexes[m].owner == Some(t)
    ensures Inv(Step(s, CallUnlock(t, m)))
  {
    assert ThreadOk(s, t) && MutexOk(s, m);
    NotHanded(s, t, m);
    MovedIs(s, t, Retire(m, UnMask));
    var s' := Moved(s, t, Retire(m, UnMask), None, s.has[t] - {m});
    forall n | n in s'.has[t] ensures HasOk(s', t, n) { assert HasOk(s, t, n); }
    QuietUnlock(s, s', t, m);
  }

  /** Taking the release in hand leaves the filing where it was. */
  lemma QuietUnlock(s: State, s': State, t: Tid, m: Mid)
    requires Inv(s) && Call(s, t, m) && s.g.mutexes[m].owner == Some(t)
    requires s' == Moved(s, t, Retire(m, UnMask), None, s.has[t] - {m}) && ThreadOk(s', t)
    ensures Inv(s')
  {
    assert MutexOk(s, m);
    NotHanded(s, t, m);
    UnlockMutex(s, s', t, m);
    forall x: Tid | x < |s.pc| && x != t ensures ThreadOk(s, x) && (m in s.has[x] ==> HasOk(s, x, m)) {}
    forall w: Tid, i: nat | w < |s.pc| && i < MAX_HELD && s'.g.threads[w].slots[i] == Some(m) ensures SlotOk(s', w, i) {
      assert SlotOk(s, w, i);
    }
    assert ThreadOk(s, t);
    Finish(s, s', t, t, m);
  }

  lemma UnlockMutex(s: State, s': State, t: Tid, m: Mid)
    requires Inv(s) && Call(s, t, m) && s.g.mutexes[m].owner == Some(t) && s.lockedBy[m] == None
    requires s' == Moved(s, t, Retire(m, UnMask), None, s.has[t] - {m})
    ensures Shaped(s') && MutexOk(s', m) && FilingOf(s', m) == FilingOf(s, m) == Filed
  {
    assert MutexOk(s, m);
    var q := s.g.mutexes[m].queue;
    forall w | w in q ensures WaiterOk(s', m, w) { assert WaiterOk(s, m, w); }
    forall i, j | 0 <= i < j < |q| ensures IsAhead(s', q[i], q[j]) { assert IsAhead(s, q[i], q[j]); }
  }

  /** The steps of lock() that only move on, or raise or lower the edge. */
  lemma WaitStepKeeps(s: State, t: Tid)
    requires Inv(s) && Enabled(s, Advance(t)) && (s.pc[t].Publish? || s.pc[t].Commit?)
    ensures Inv(StepOf(s, t))
  {
    var m := s.pc[t].m;
    var pc := if s.pc[t].Publish? then Poll(m) else WokenDisarm(m);
    assert ThreadOk(s, t);
    NotHanded(s, t, m);
    MovedIs(s, t, pc);
    MoveKeeps(s, t, m, pc, Some(m), s.has[t]);
  }

  lemma ClearKeeps(s: State, t: Tid)
    requires Inv(s) && Enabled(s, Advance(t)) && (s.pc[t].WonClear? || s.pc[t].WokenClear?)
    ensures Inv(StepOf(s, t))
  {
    var m := s.pc[t].m;
    if s.pc[t].WonClear? { ClearTo(s, t, m, WonDisarm(m)); } else { ClearTo(s, t, m, Recheck(m)); }
  }

  lemma ClearTo(s: State, t: Tid, m: Mid, pc: Pc)
    requires Inv(s) && IsThread(s.g, t) && m < |s.g.mutexes|
    requires (s.pc[t] == WonClear(m) && pc == WonDisarm(m)) || (s.pc[t] == WokenClear(m) && pc == Recheck(m))
    ensures Inv(Goto(PutThread(s, t, s.g.threads[t].(blockedOn := None)), t, pc))
  {
    assert ThreadOk(s, t);
    NotHanded(s, t, m);
    MovedIs(s, t, pc);
    MoveKeeps(s, t, m, pc, None, s.has[t]);
  }

  lemma RecheckKeeps(s: State, t: Tid)
    requires Inv(s) && Enabled(s, Advance(t)) && s.pc[t].Recheck?
    ensures Inv(StepOf(s, t))
  {
    var m := s.pc[t].m;
    assert ThreadOk(s, t);
    NotHanded(s, t, m);
    if s.g.mutexes[m].owner == Some(t) {
      MovedIs(s, t, Idle);
      MoveKeeps(s, t, m, Idle, None, s.has[t] + {m});
    } else {
      MovedIs(s, t, Arm(m));
      MoveKeeps(s, t, m, Arm(m), None, s.has[t]);
    }
  }

  /* ------------------------------------------------------ the CAS on the owner */

  lemma WonCasKeeps(s: State, t: Tid, m: Mid, armed: bool)
    requires Inv(s) && IsThread(s.g, t) && m < |s.g.mutexes| && s.g.mutexes[m].owner == None
    requires if armed then s.pc[t] == Poll(m) else s.pc[t].TakeCas? && s.pc[t].m == m
    ensures Inv(Goto(PutMutex(s, m, s.g.mutexes[m].(owner := Some(t))), t, File(m, Enter, armed)))
  {
    var s' := Goto(PutMutex(s, m, s.g.mutexes[m].(owner := Some(t))), t, File(m, Enter, armed));
    assert ThreadOk(s, t);
    WonCasMutex(s, s', t, m, armed);
    forall x: Tid | x < |s.pc| && x != t
      ensures m !in s.has[x] && (s.pc[x] != Idle && s.pc[x].m == m ==> PcOk(s', x, m))
    {
      assert ThreadOk(s, x);
      assert m in s.has[x] ==> HasOk(s, x, m);
    }
    forall n | n in s.has[t] ensures HasOk(s', t, n) { assert HasOk(s, t, n); }
    forall w: Tid, i: nat | w < |s.pc| && i < MAX_HELD ensures s.g.threads[w].slots[i] != Some(m) {
      assert SlotOk(s, w, i);
    }
    Finish(s, s', t, t, m);
  }

  lemma WonCasMutex(s: State, s': State, t: Tid, m: Mid, armed: bool)
    requires Inv(s) && IsThread(s.g, t) && m < |s.g.mutexes| && s.g.mutexes[m].owner == None
    requires if armed then s.pc[t] == Poll(m) else s.pc[t].TakeCas? && s.pc[t].m == m
    requires s' == Goto(PutMutex(s, m, s.g.mutexes[m].(owner := Some(t))), t, File(m, Enter, armed))
    ensures MutexOk(s', m)
  {
    assert MutexOk(s, m);
    var q := s.g.mutexes[m].queue;
    forall w | w in q ensures WaiterOk(s', m, w) { assert WaiterOk(s, m, w); }
    forall i, j | 0 <= i < j < |q| ensures IsAhead(s', q[i], q[j]) { assert IsAhead(s, q[i], q[j]); }
    assert s.lockedBy[m].Some? ==> ThreadOk(s, s.lockedBy[m].value);
  }

  lemma CasKeeps(s: State, t: Tid)
    requires Inv(s) && Enabled(s, Advance(t)) && (s.pc[t].TakeCas? || s.pc[t].Poll?)
    ensures Inv(StepOf(s, t))
  {
    var m := s.pc[t].m;
    assert ThreadOk(s, t);
    if s.g.mutexes[m].owner == None {
      WonCasKeeps(s, t, m, s.pc[t].Poll?);
    } else {
      var pc := if s.pc[t].Poll? then (if s.g.mutexes[m].owner == Some(t) then WonClear(m) else Commit(m))
                else if s.pc[t].blocking then Arm(m) else Idle;
      NotHanded(s, t, m);
      MovedIs(s, t, pc);
      MoveKeeps(s, t, m, pc, if EdgeUp(pc) then Some(m) else None, s.has[t]);
    }
  }

  /* -------------------------------------------------------- filing, write by write */

  function FilingAfter(s: State, to: Tid, m: Mid, file: FileStep): Filing
    requires Shaped(s) && IsThread(s.g, to) && m < |s.g.mutexes| && (file.Scan? ==> file.i < MAX_HELD)
  {
    var next := FileNext(s, to, m, file);
    if next.Some? then FilingAt(next.value) else Filed
  }

  /** s1 is s after a write of m's filing for its owner to, now at stage f. */
  ghost predicate Written(s: State, s1: State, to: Tid, m: Mid, f: Filing) {
    && Shaped(s) && Shaped(s1) && to < |s.pc| == |s1.pc| && m < |s.g.mutexes| == |s1.g.mutexes|
    && SameElsewhere(s.g.threads[to], s1.g.threads[to], m)
    && FilingAs(s1, m, to, f)
    && (forall w: Tid, i: nat :: w < |s.pc| && i < MAX_HELD ==> OnlyHere(s1, w, i, to, m, f))
    && (forall i :: i in s1.g.threads[to].mask ==> i < MAX_HELD && s1.g.threads[to].slots[i].Some?)
  }

  predicate OnlyHere(s: State, w: Tid, i: nat, to: Tid, m: Mid, f: Filing)
    requires Shaped(s) && IsThread(s.g, w) && i < MAX_HELD && m < |s.g.mutexes|
  {
    s.g.threads[w].slots[i] == Some(m) ==> w == to && FiledIn(s, m, i, f)
  }

  /** One write of claim_slot takes the filing exactly one stage on. */
  lemma FileWritten(s: State, to: Tid, m: Mid, file: FileStep)
    requires Inv(s) && IsThread(s.g, to) && m < |s.g.mutexes| && (file.Scan? ==> file.i < MAX_HELD)
    requires s.g.mutexes[m].owner == Some(to) && FilingOf(s, m) == FilingAt(file)
    ensures Written(s, FileWrite(s, to, m, file), to, m, FilingAfter(s, to, m, file))
  {
    var s1, f := FileWrite(s, to, m, file), FilingAfter(s, to, m, file);
    var a, b := s.g.threads[to], s1.g.threads[to];
    assert MutexOk(s, m) && FilingOk(s, m, to) && ThreadOk(s, to);
    forall i: nat | i < |a.slots| ensures SameSlot(a, b, m, i) {}
    forall w: Tid, i: nat | w < |s.pc| && i < MAX_HELD ensures OnlyHere(s1, w, i, to, m, f) {
      assert SlotOk(s, w, i);
    }
  }

  lemma ScanGoesOn(s: State, to: Tid, m: Mid, file: FileStep)
    requires Shaped(s) && IsThread(s.g, to) && m < |s.g.mutexes| && (file.Scan? ==> file.i < MAX_HELD)
    requires ScanOk(s.g.threads[to], file)
    ensures var next := FileNext(s, to, m, file);
            next.Some? ==> ScanOk(FileWrite(s, to, m, file).g.threads[to], next.value)
  {
  }

  /** The queue of m does not notice what is written for m's owner. */
  lemma QueueBlind(s: State, s': State, t: Tid, to: Tid, m: Mid)
    requires Inv(s) && Near(s, s', t, to, m) && s'.g.mutexes == s.g.mutexes && s'.ticket == s.ticket
    requires s.g.mutexes[m].owner == Some(to)
    requires t in s.g.mutexes[m].queue ==> t == to && Winning(s'.pc[t], m)
    ensures QueueOk(s', m)
  {
    assert MutexOk(s, m);
    var q := s.g.mutexes[m].queue;
    forall w | w in q ensures WaiterOk(s', m, w) { assert WaiterOk(s, m, w); }
    forall i, j | 0 <= i < j < |q| ensures IsAhead(s', q[i], q[j]) { assert IsAhead(s, q[i], q[j]); }
  }

  lemma FileKeeps(s: State, t: Tid)
    requires Inv(s) && Enabled(s, Advance(t)) && s.pc[t].File?
    ensures Inv(StepOf(s, t))
  {
    var s', m, file, armed := StepOf(s, t), s.pc[t].m, s.pc[t].file, s.pc[t].armed;
    assert ThreadOk(s, t) && MutexOk(s, m);
    NotHanded(s, t, m);
    assert FilingOf(s, m) == FilingAt(file);
    var next := FileNext(s, t, m, file);
    var pc := if next.Some? then File(m, next.value, armed) else if armed then WonClear(m) else Idle;
    var has := if next.Some? || armed then s.has[t] else s.has[t] + {m};
    assert s.has[t := s.has[t]] == s.has;
    assert s' == Goto(FileWrite(s, t, m, file), t, pc).(has := s.has[t := has]);
    FileKeepsAt(s, t, m, file, armed, pc, has);
  }

  /** A write of m's filing for its owner keeps the invariant, given its writer and the other callers on m. */
  lemma WriteKeeps(s: State, s1: State, s': State, t: Tid, to: Tid, m: Mid, f: Filing)
    requires Inv(s) && Written(s, s1, to, m, f) && Near(s, s', t, to, m)
    requires s'.g == s1.g && s'.index == s1.index && s'.g.mutexes == s.g.mutexes && s'.ticket == s.ticket
    requires s.g.mutexes[m].owner == Some(to) && FilingOf(s', m) == f
    requires t in s.g.mutexes[m].queue ==> t == to && Winning(s'.pc[t], m)
    requires s'.lockedBy[m].Some? ==> s'.lockedBy[m] == Some(t) && s'.pc[t].HandFile?
    requires ThreadOk(s', t)
    requires forall x: Tid :: x < |s.pc| && x != t && s.pc[x] != Idle && s.pc[x].m == m ==> PcOk(s', x, m)
    ensures Inv(s')
  {
    QueueBlind(s, s', t, to, m);
    forall w: Tid, i: nat | w < |s.pc| && i < MAX_HELD && s'.g.threads[w].slots[i] == Some(m) ensures SlotOk(s', w, i) {
      assert OnlyHere(s1, w, i, to, m, f);
    }
    forall x: Tid | x < |s.pc| && x != t && m in s.has[x] ensures s'.g.mutexes[m].owner == Some(x) {
      assert ThreadOk(s, x) && HasOk(s, x, m);
    }
    Finish(s, s', t, to, m);
  }

  lemma FileKeepsAt(s: State, t: Tid, m: Mid, file: FileStep, armed: bool, pc: Pc, has: set<Mid>)
    requires Inv(s) && IsThread(s.g, t) && m < |s.g.mutexes| && s.pc[t] == File(m, file, armed)
    requires (file.Scan? ==> file.i < MAX_HELD) && s.lockedBy[m] == None
    requires var next := FileNext(s, t, m, file);
             && pc == (if next.Some? then File(m, next.value, armed) else if armed then WonClear(m) else Idle)
             && has == (if next.Some? || armed then s.has[t] else s.has[t] + {m})
    ensures Inv(Goto(FileWrite(s, t, m, file), t, pc).(has := s.has[t := has]))
  {
    var s1 := FileWrite(s, t, m, file);
    var s' := Goto(s1, t, pc).(has := s.has[t := has]);
    assert ThreadOk(s, t);
    assert FilingOf(s, m) == FilingAt(file);
    FileWritten(s, t, m, file);
    NotHanded(s, t, m);
    FileThread(s, s', t, m, file, armed, pc, has);
    FileOthers(s, s', t, m);
    WriteKeeps(s, s1, s', t, t, m, FilingAfter(s, t, m, file));
  }

  lemma FileThread(s: State, s': State, t: Tid, m: Mid, file: FileStep, armed: bool, pc: Pc, has: set<Mid>)
    requires Inv(s) && IsThread(s.g, t) && m < |s.g.mutexes| && s.pc[t] == File(m, file, armed)
    requires (file.Scan? ==> file.i < MAX_HELD) && s.lockedBy[m] == None
    requires Written(s, FileWrite(s, t, m, file), t, m, FilingAfter(s, t, m, file))
    requires var next := FileNext(s, t, m, file);
             && pc == (if next.Some? then File(m, next.value, armed) else if armed then WonClear(m) else Idle)
             && has == (if next.Some? || armed then s.has[t] else s.has[t] + {m})
    requires s' == Goto(FileWrite(s, t, m, file), t, pc).(has := s.has[t := has])
    ensures ThreadOk(s', t)
  {
    assert ThreadOk(s, t);
    ScanGoesOn(s, t, m, file);
    FileRoom(s, t, m, file, armed);
    forall n | n in has ensures HasOk(s', t, n) { assert n in s.has[t] ==> HasOk(s, t, n); }
  }

  lemma FileRoom(s: State, t: Tid, m: Mid, file: FileStep, armed: bool)
    requires Inv(s) && IsThread(s.g, t) && m < |s.g.mutexes| && s.pc[t] == File(m, file, armed)
    requires file.Scan? ==> file.i < MAX_HELD
    ensures var s1 := FileWrite(s, t, m, file); Some(m) !in s1.g.threads[t].slots ==> FreeSlot(s1.g, t)
  {
    assert ThreadOk(s, t);
    var th, s1 := s.g.threads[t], FileWrite(s, t, m, file);
    if file.Scan? && th.slots[file.i] == None { assert s1.g.threads[t].slots[file.i] == Some(m); }
    else { assert s1.g.threads[t].slots == th.slots; }
  }

  /** Threads elsewhere in calls on m see the same owner, queue and lock. */
  lemma FileOthers(s: State, s': State, t: Tid, m: Mid)
    requires Inv(s) && Near(s, s', t, t, m) && s'.g.mutexes == s.g.mutexes && s'.lockedBy == s.lockedBy
    requires s.lockedBy[m] == None
    ensures forall x: Tid :: x < |s.pc| && x != t && s.pc[x] != Idle && s.pc[x].m == m ==> PcOk(s', x, m)
  {
    forall x: Tid | x < |s.pc| && x != t && s.pc[x] != Idle && s.pc[x].m == m ensures PcOk(s', x, m) {
      assert ThreadOk(s, x);
    }
  }

  /* ----------------------------------------- filing for the new owner, lock held */

  lemma HandFileKeeps(s: State, t: Tid)
    requires Inv(s) && Enabled(s, Advance(t)) && s.pc[t].HandFile?
    ensures Inv(StepOf(s, t))
  {
    var s', m, to, file := StepOf(s, t), s.pc[t].m, s.pc[t].to, s.pc[t].file;
    HandStage(s, s', t, to, m, file);
    FileWritten(s, to, m, file);
    HandNear(s, s', t, to, m, file);
    HandLock(s, s', t, to, m, file);
    HandThread(s, s', t, to, m, file);
    HandOthers(s, s', t, to, m, file);
    WriteKeeps(s, FileWrite(s, to, m, file), s', t, to, m, FilingAfter(s, to, m, file));
  }

  /** What the write for the new owner leaves alone. */
  lemma HandNear(s: State, s': State, t: Tid, to: Tid, m: Mid, file: FileStep)
    requires Enabled(s, Advance(t)) && s.pc[t] == HandFile(m, to, file) && s' == StepOf(s, t) && to != t
    requires s.pc[to] != Idle && s.pc[to].m == m
    requires Written(s, FileWrite(s, to, m, file), to, m, FilingAfter(s, to, m, file))
    ensures Near(s, s', t, to, m) && s'.g.mutexes == s.g.mutexes && s'.ticket == s.ticket
    ensures s'.g == FileWrite(s, to, m, file).g && s'.index == FileWrite(s, to, m, file).index
  {
    match file case Enter => case Scan(_) => case Index(_) => case Mask(_) =>
  }

  lemma HandLock(s: State, s': State, t: Tid, to: Tid, m: Mid, file: FileStep)
    requires Inv(s) && Enabled(s, Advance(t)) && s.pc[t] == HandFile(m, to, file) && s' == StepOf(s, t)
    ensures t !in s.g.mutexes[m].queue
    ensures s'.lockedBy[m].Some? ==> s'.lockedBy[m] == Some(t) && s'.pc[t].HandFile?
  {
    assert ThreadOk(s, t) && MutexOk(s, m);
    assert t in s.g.mutexes[m].queue ==> WaiterOk(s, m, t);
  }

  lemma HandStage(s: State, s': State, t: Tid, to: Tid, m: Mid, file: FileStep)
    requires Inv(s) && Enabled(s, Advance(t)) && s.pc[t] == HandFile(m, to, file) && s' == StepOf(s, t)
    ensures to != t && s.g.mutexes[m].owner == Some(to) && FilingOf(s, m) == FilingAt(file)
    ensures Shaped(s') && FilingOf(s', m) == FilingAfter(s, to, m, file)
    ensures s.pc[to] != Idle && s.pc[to].m == m
  {
    assert ThreadOk(s, t) && ThreadOk(s, to) && MutexOk(s, m);
  }

  lemma HandThread(s: State, s': State, t: Tid, to: Tid, m: Mid, file: FileStep)
    requires Inv(s) && Enabled(s, Advance(t)) && s.pc[t] == HandFile(m, to, file) && s' == StepOf(s, t)
    ensures ThreadOk(s', t)
  {
    assert ThreadOk(s, t);
    ScanGoesOn(s, to, m, file);
    forall n | n in s.has[t] ensures HasOk(s', t, n) { assert HasOk(s, t, n); }
  }

  lemma HandOthers(s: State, s': State, t: Tid, to: Tid, m: Mid, file: FileStep)
    requires Inv(s) && Enabled(s, Advance(t)) && s.pc[t] == HandFile(m, to, file) && s' == StepOf(s, t)
    ensures forall x: Tid :: x < |s.pc| && x != t && s.pc[x] != Idle && s.pc[x].m == m ==> PcOk(s', x, m)
  {
    assert ThreadOk(s, t);
    var th, th' := s.g.threads[to], s'.g.threads[to];
    forall x: Tid | x < |s.pc| && x != t && s.pc[x] != Idle && s.pc[x].m == m ensures PcOk(s', x, m) {
      assert ThreadOk(s, x) && PcOk(s, x, m);
      if x == to {
        if file.Scan? && th.slots[file.i] == None { assert th'.slots[file.i] == Some(m); }
        else { assert th'.slots == th.slots; }
      }
    }
  }

  /* -------------------------------------------------------------- retire_held */

  lemma RetireWritten(s: State, t: Tid, m: Mid, retire: RetireStep)
    requires Inv(s) && Enabled(s, Advance(t)) && s.pc[t] == Retire(m, retire)
    ensures s.lockedBy[m] == None && s.g.mutexes[m].owner == Some(t) && t !in s.g.mutexes[m].queue
    ensures Written(s, RetireWrite(s, t, m, retire), t, m, FilingOf(StepOf(s, t), m))
  {
    var s', s1 := StepOf(s, t), RetireWrite(s, t, m, retire);
    assert ThreadOk(s, t) && MutexOk(s, m) && FilingOk(s, m, t);
    NotHanded(s, t, m);
    var a, b, f := s.g.threads[t], s1.g.threads[t], FilingOf(s', m);
    forall i: nat | i < |a.slots| ensures SameSlot(a, b, m, i) {}
    forall w: Tid, i: nat | w < |s.pc| && i < MAX_HELD ensures OnlyHere(s1, w, i, t, m, f) {
      assert SlotOk(s, w, i);
    }
    forall i | i in b.mask ensures i < MAX_HELD && b.slots[i].Some? { assert i in a.mask; }
  }

  lemma RetireKeeps(s: State, t: Tid)
    requires Inv(s) && Enabled(s, Advance(t)) && s.pc[t].Retire?
    ensures Inv(StepOf(s, t))
  {
    var s', m, retire := StepOf(s, t), s.pc[t].m, s.pc[t].retire;
    assert ThreadOk(s, t);
    RetireWritten(s, t, m, retire);
    forall n | n in s.has[t] ensures HasOk(s', t, n) { assert HasOk(s, t, n); }
    FileOthers(s, s', t, m);
    WriteKeeps(s, RetireWrite(s, t, m, retire), s', t, t, m, FilingOf(s', m));
  }

  /* ------------------------------------------------------------ arm and disarm */

  lemma OrderedIff(s: State, q: seq<Tid>)
    requires Shaped(s) && AllThreads(s.g, q)
    ensures InOrder(s, q) <==> Ordered(q, Base(s.g), Arrival(s))
  {
    assert forall i, j :: 0 <= i < j < |q| ==> (IsAhead(s, q[i], q[j]) <==> Ahead(q[i], q[j], Base(s.g), Arrival(s)));
  }

  lemma ArmOrder(s: State, t: Tid, m: Mid)
    requires Inv(s) && Enabled(s, Advance(t)) && s.pc[t] == Arm(m)
    ensures var s' := StepOf(s, t); InOrder(s', s'.g.mutexes[m].queue)
    ensures forall w :: w in StepOf(s, t).g.mutexes[m].queue <==> w == t || w in s.g.mutexes[m].queue
  {
    var s', q := StepOf(s, t), s.g.mutexes[m].queue;
    var q' := s'.g.mutexes[m].queue;
    assert MutexOk(s, m);
    InsertMembers(q, t, Base(s.g));
    forall w | w in q ensures w != t && WaiterOk(s, m, w) {}
    forall i, j | 0 <= i < j < |q| ensures IsAhead(s', q[i], q[j]) {
      assert IsAhead(s, q[i], q[j]) && q[i] in q && q[j] in q;
    }
    OrderedIff(s', q);
    InsertKeepsOrder(q, t, Base(s'.g), Arrival(s'));
    OrderedIff(s', q');
  }

  lemma ArmQueue(s: State, t: Tid, m: Mid)
    requires Inv(s) && Enabled(s, Advance(t)) && s.pc[t] == Arm(m)
    ensures QueueOk(StepOf(s, t), m)
    ensures forall w :: w in StepOf(s, t).g.mutexes[m].queue <==> w == t || w in s.g.mutexes[m].queue
  {
    var s', q := StepOf(s, t), s.g.mutexes[m].queue;
    var q' := s'.g.mutexes[m].queue;
    assert MutexOk(s, m);
    ArmOrder(s, t, m);
    forall i | 0 <= i < |q'| ensures IsThread(s'.g, q'[i]) { assert q'[i] in q'; }
    forall w | w in q' ensures WaiterOk(s', m, w) {
      if w != t { assert WaiterOk(s, m, w); }
    }
  }

  lemma ArmKeeps(s: State, t: Tid)
    requires Inv(s) && Enabled(s, Advance(t)) && s.pc[t].Arm?
    ensures Inv(StepOf(s, t))
  {
    var s', m := StepOf(s, t), s.pc[t].m;
    assert ThreadOk(s, t) && MutexOk(s, m);
    ArmQueue(s, t, m);
    assert FilingOf(s', m) == FilingOf(s, m);
    QueueStepKeeps(s, s', t, m);
  }

  /** What arm and disarm leave to show: the queue. */
  lemma QueueStepKeeps(s: State, s': State, t: Tid, m: Mid)
    requires Inv(s) && Near(s, s', t, t, m) && s.lockedBy[m] == None
    requires s'.g.mutexes == s.g.mutexes[m := s'.g.mutexes[m]] && s'.g.mutexes[m].owner == s.g.mutexes[m].owner
    requires s'.g.threads == s.g.threads && s'.index == s.index && s'.lockedBy == s.lockedBy
    requires forall w: Tid :: w != t ==> (w in s'.g.mutexes[m].queue <==> w in s.g.mutexes[m].queue)
    requires QueueOk(s', m) && FilingOf(s', m) == FilingOf(s, m)
    requires s'.pc[t] != Idle ==> PcOk(s', t, m)
    requires EdgeUp(s'.pc[t]) == EdgeUp(s.pc[t])
    requires forall n :: n in s'.has[t] ==> n in s.has[t] || n == m
    requires m in s'.has[t] ==> s.g.mutexes[m].owner == Some(t) && !ByOwner(s'.pc[t], m) && !ArmedOn(s'.pc[t], m)
    ensures Inv(s')
  {
    assert MutexOk(s, m) && ThreadOk(s, t);
    forall n | n in s'.has[t] ensures HasOk(s', t, n) { assert n != m ==> HasOk(s, t, n); }
    forall x: Tid | x < |s.pc| && x != t && s.pc[x] != Idle && s.pc[x].m == m ensures PcOk(s', x, m) {
      assert ThreadOk(s, x) && PcOk(s, x, m);
    }
    forall x: Tid | x < |s.pc| && x != t && m in s.has[x] ensures s'.g.mutexes[m].owner == Some(x) {
      assert ThreadOk(s, x) && HasOk(s, x, m);
    }
    forall w: Tid, i: nat | w < |s.pc| && i < MAX_HELD && s'.g.threads[w].slots[i] == Some(m) ensures SlotOk(s', w, i) {
      assert SlotOk(s, w, i);
    }
    Finish(s, s', t, t, m);
  }

  /** Without t, the queue of m is as it was. */
  lemma QueueWithout(s: State, t: Tid, m: Mid)
    requires Inv(s) && IsThread(s.g, t) && m < |s.g.mutexes|
    ensures var q := Remove(s.g.mutexes[m].queue, t);
            AllThreads(s.g, q) && InOrder(s, q) && (forall w :: w in q <==> w != t && w in s.g.mutexes[m].queue)
  {
    var q := s.g.mutexes[m].queue;
    var q' := Remove(q, t);
    assert MutexOk(s, m);
    OrderedIff(s, q);
    OrderedIsDistinct(q, Base(s.g), Arrival(s));
    RemoveMembers(q, t);
    RemoveKeepsOrder(q, t, Base(s.g), Arrival(s));
    forall i | 0 <= i < |q'| ensures IsThread(s.g, q'[i]) { assert q'[i] in q'; }
    OrderedIff(s, q');
  }

  /** The queue of m, refreshed with fewer of its waiters and the rest untouched, is in order. */
  lemma FewerWaiters(s: State, s': State, t: Tid, m: Mid, q: seq<Tid>)
    requires Inv(s) && Near(s, s', t, t, m) && s'.g.threads == s.g.threads && s'.ticket == s.ticket &&
             s'.clock == s.clock
    requires AllThreads(s.g, q) && InOrder(s, q) && forall w :: w in q ==> w != t && w in s.g.mutexes[m].queue
    requires s'.g.mutexes[m] == Refreshed(s.g, s.g.mutexes[m], q)
    ensures QueueOk(s', m)
  {
    assert MutexOk(s, m);
    forall i, j | 0 <= i < j < |q| ensures IsAhead(s', q[i], q[j]) { assert IsAhead(s, q[i], q[j]); }
    forall w | w in q ensures WaiterOk(s', m, w) { assert WaiterOk(s, m, w); }
  }

  lemma DisarmQueue(s: State, s': State, t: Tid, m: Mid)
    requires Inv(s) && Near(s, s', t, t, m) && s'.g == Disarmed(s, t, m).g && s'.ticket == s.ticket &&
             s'.clock == s.clock
    ensures QueueOk(s', m)
    ensures forall w :: w in s'.g.mutexes[m].queue <==> w != t && w in s.g.mutexes[m].queue
  {
    assert MutexOk(s, m);
    QueueWithout(s, t, m);
    var q := s.g.mutexes[m].queue;
    if t in q {
      FewerWaiters(s, s', t, m, Remove(q, t));
    } else {
      forall w | w in q ensures WaiterOk(s', m, w) { assert WaiterOk(s, m, w); }
      forall i, j | 0 <= i < j < |q| ensures IsAhead(s', q[i], q[j]) { assert IsAhead(s, q[i], q[j]); }
    }
  }

  lemma DisarmKeeps(s: State, t: Tid)
    requires Inv(s) && Enabled(s, Advance(t)) && (s.pc[t].WonDisarm? || s.pc[t].WokenDisarm?)
    ensures Inv(StepOf(s, t))
  {
    var m := s.pc[t].m;
    if s.pc[t].WonDisarm? { DisarmTo(s, t, m, Idle, s.has[t] + {m}); }
    else { DisarmTo(s, t, m, WokenClear(m), s.has[t]); assert s.has[t := s.has[t]] == s.has; }
  }

  lemma DisarmTo(s: State, t: Tid, m: Mid, pc: Pc, has: set<Mid>)
    requires Inv(s) && Enabled(s, Advance(t)) && ArmedOn(s.pc[t], m) && s.lockedBy[m] == None
    requires if s.pc[t].WonDisarm? then pc == Idle && has == s.has[t] + {m}
             else s.pc[t].WokenDisarm? && pc == WokenClear(m) && has == s.has[t]
    ensures Inv(Goto(Disarmed(s, t, m), t, pc).(has := s.has[t := has]))
  {
    var s' := Goto(Disarmed(s, t, m), t, pc).(has := s.has[t := has]);
    assert ThreadOk(s, t);
    assert s.g.mutexes[m := s.g.mutexes[m]] == s.g.mutexes;
    DisarmQueue(s, s', t, m);
    DisarmFiling(s, s', t, m, pc);
    if pc != Idle { DisarmPc(s, s', t, m); }
    QueueStepKeeps(s, s', t, m);
  }

  lemma DisarmPc(s: State, s': State, t: Tid, m: Mid)
    requires Inv(s) && IsThread(s.g, t) && s.pc[t] == WokenDisarm(m) && m < |s.g.mutexes|
    requires s'.g == Disarmed(s, t, m).g && s'.pc == s.pc[t := WokenClear(m)] && s'.lockedBy == s.lockedBy && Shaped(s')
    ensures PcOk(s', t, m)
  {
    assert ThreadOk(s, t);
  }

  lemma DisarmFiling(s: State, s': State, t: Tid, m: Mid, pc: Pc)
    requires Shaped(s) && Shaped(s') && m < |s.g.mutexes| == |s'.g.mutexes| && t < |s.pc|
    requires s'.pc == s.pc[t := pc] && s'.lockedBy == s.lockedBy && s'.g.mutexes[m].owner == s.g.mutexes[m].owner
    requires !Works(s.pc[t], m) && !Works(pc, m)
    ensures FilingOf(s', m) == FilingOf(s, m)
  {}

  /* ---------------------------------------------------------------- hand_over */

  lemma FreeKeeps(s: State, t: Tid)
    requires Inv(s) && Enabled(s, Advance(t)) && s.pc[t].HandOver? && s.g.mutexes[s.pc[t].m].queue == []
    ensures Inv(StepOf(s, t))
  {
    var s', m := StepOf(s, t), s.pc[t].m;
    assert ThreadOk(s, t) && MutexOk(s, m);
    forall n | n in s.has[t] ensures HasOk(s', t, n) { assert HasOk(s, t, n); }
    forall x: Tid | x < |s.pc| && x != t
      ensures m !in s.has[x] && (s.pc[x] != Idle && s.pc[x].m == m ==> PcOk(s', x, m))
    {
      assert ThreadOk(s, x);
      assert m in s.has[x] ==> HasOk(s, x, m);
    }
    forall w: Tid, i: nat | w < |s.pc| && i < MAX_HELD ensures s.g.threads[w].slots[i] != Some(m) {
      assert SlotOk(s, w, i);
    }
    Finish(s, s', t, t, m);
  }

  lemma HandOverKeeps(s: State, t: Tid)
    requires Inv(s) && Enabled(s, Advance(t)) && s.pc[t].HandOver? && s.g.mutexes[s.pc[t].m].queue != []
    ensures Inv(StepOf(s, t))
  {
    var s', m := StepOf(s, t), s.pc[t].m;
    HandOverQueue(s, s', t, m);
    HandOverThread(s, s', t, m);
    forall x: Tid | x < |s.pc| && x != t
      ensures m !in s.has[x] && (s.pc[x] != Idle && s.pc[x].m == m ==> PcOk(s', x, m))
    {
      HandOverOther(s, s', t, m, x);
    }
    assert MutexOk(s, m);
    forall w: Tid, i: nat | w < |s.pc| && i < MAX_HELD ensures s.g.threads[w].slots[i] != Some(m) {
      assert SlotOk(s, w, i);
    }
    Finish(s, s', t, t, m);
  }

  lemma HandOverThread(s: State, s': State, t: Tid, m: Mid)
    requires Inv(s) && Enabled(s, Advance(t)) && s.pc[t] == HandOver(m) && s.g.mutexes[m].queue != [] &&
             s' == StepOf(s, t)
    requires QueueOk(s', m)
    ensures ThreadOk(s', t) && MutexOk(s', m) && s.g.mutexes[m].owner == Some(t) && FilingOf(s, m) == Unfiled
  {
    var chosen := s.g.mutexes[m].queue[0];
    assert ThreadOk(s, t) && MutexOk(s, m);
    assert chosen in s.g.mutexes[m].queue && WaiterOk(s, m, chosen) && ThreadOk(s, chosen);
    HandOverHas(s, s', t, m);
  }

  lemma HandOverHas(s: State, s': State, t: Tid, m: Mid)
    requires Inv(s) && Enabled(s, Advance(t)) && s.pc[t] == HandOver(m) && s.g.mutexes[m].queue != [] &&
             s' == StepOf(s, t)
    ensures Shaped(s') && forall n | n in s.has[t] :: HasOk(s', t, n)
  {
    assert ThreadOk(s, t);
    forall n | n in s.has[t] ensures HasOk(s', t, n) { assert HasOk(s, t, n); }
  }

  lemma HandOverOther(s: State, s': State, t: Tid, m: Mid, x: Tid)
    requires Inv(s) && Enabled(s, Advance(t)) && s.pc[t] == HandOver(m) && s.g.mutexes[m].queue != [] &&
             s' == StepOf(s, t)
    requires x < |s.pc| && x != t
    ensures m !in s.has[x] && (s.pc[x] != Idle && s.pc[x].m == m ==> PcOk(s', x, m))
  {
    var q := s.g.mutexes[m].queue;
    assert ThreadOk(s, t) && ThreadOk(s, x) && MutexOk(s, m);
    assert m in s.has[x] ==> HasOk(s, x, m);
    assert q[0] in q && WaiterOk(s, m, q[0]);
    assert x in q && x != q[0] ==> x in q[1..];
  }

  lemma HandOverQueue(s: State, s': State, t: Tid, m: Mid)
    requires Inv(s) && Enabled(s, Advance(t)) && s.pc[t] == HandOver(m) && s.g.mutexes[m].queue != [] &&
             s' == StepOf(s, t)
    ensures QueueOk(s', m)
    ensures s'.g.mutexes[m].queue == s.g.mutexes[m].queue[1..] && s.g.mutexes[m].queue[0] !in s'.g.mutexes[m].queue
  {
    var q := s.g.mutexes[m].queue;
    var q' := q[1..];
    assert ThreadOk(s, t) && MutexOk(s, m);
    forall i, j | 0 <= i < j < |q'| ensures IsAhead(s', q'[i], q'[j]) { assert IsAhead(s, q[i + 1], q[j + 1]); }
    forall i | 0 <= i < |q'| ensures q'[i] != q[0] { assert IsAhead(s, q[0], q[i + 1]); }
    forall w | w in q' ensures WaiterOk(s', m, w) { assert w in q && WaiterOk(s, m, w); }
  }
}
