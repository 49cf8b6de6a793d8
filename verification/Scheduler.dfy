/**
 The scheduler of one core as the source keeps it: ready queues linked through the thread
 control blocks, a bitmap of the levels in use, and a list of ready holders. Every
 operation is proved against its counterpart on values in module Switching, whose
 invariants and theorems therefore hold of it. A bitmap is the set of its set bits.
 */
module Scheduler {
  import opened Wrappers
  import opened Threads
  import opened WaitOrder
  import opened IntrusiveList
  import opened Switching
  import opened SwitchingSafety

  /** Every level is a list of threads of its own priority, and everyone else's link names itself. */
  ghost predicate MatrixOk(base: seq<nat>, next: Links, head: Links, tail: Links, levels: seq<seq<Tid>>) {
    && |next| == |base| && |head| == |tail| == |levels| && (forall t :: 0 <= t < |base| ==> base[t] < |levels|)
    && (forall p: nat :: p < |levels| ==> LevelOk(base, next, head[p], tail[p], levels[p], p))
    && forall t: Tid :: t < |base| ==> LinkOk(base, next, levels, t)
  }

  ghost predicate LevelOk(base: seq<nat>, next: Links, head: Option<Tid>, tail: Option<Tid>, q: seq<Tid>, p: nat) {
    IsList(next, head, tail, q) && forall t :: t in q ==> t < |base| && base[t] == p
  }

  ghost predicate LinkOk(base: seq<nat>, next: Links, levels: seq<seq<Tid>>, t: Tid)
    requires t < |base|
  {
    base[t] < |levels| ==> t in levels[base[t]] || Unlinked(next, t)
  }

  /** Level p becomes q, with links written only in threads of its priority. */
  lemma LevelChanges(base: seq<nat>, next: Links, head: Links, tail: Links, levels: seq<seq<Tid>>,
                     p: nat, next': Links, h: Option<Tid>, l: Option<Tid>, q: seq<Tid>)
    requires MatrixOk(base, next, head, tail, levels) && p < |levels| && |next'| == |next|
    requires LevelOk(base, next', h, l, q, p)
    requires forall t: Tid :: t < |base| && base[t] != p ==> next'[t] == next[t]
    requires forall t: Tid :: t < |base| && base[t] == p && t !in q ==>
             Unlinked(next', t) || (t !in levels[p] && next'[t] == next[t])
    ensures MatrixOk(base, next', head[p := h], tail[p := l], levels[p := q])
  {
    var head', tail', levels' := head[p := h], tail[p := l], levels[p := q];
    forall r: nat | r < |levels| ensures LevelOk(base, next', head'[r], tail'[r], levels'[r], r) {
      assert LevelOk(base, next, head[r], tail[r], levels[r], r);
      if r != p { SameList(next, next', head[r], tail[r], levels[r]); }
    }
    forall t: Tid | t < |base| ensures LinkOk(base, next', levels', t) { assert LinkOk(base, next, levels, t); }
  }

  ghost predicate HoldersOk(next: Links, head: Option<Tid>, tail: Option<Tid>, holders: seq<Tid>) {
    IsList(next, head, tail, holders) && forall t: Tid :: t < |next| && t !in holders ==> Unlinked(next, t)
  }

  /** The levels with a thread in them. */
  function InUse(levels: seq<seq<Tid>>): set<nat> { set p: nat | p < |levels| && levels[p] != [] }

  /** A level changed: its bit goes with its last thread. */
  lemma LevelInUse(levels: seq<seq<Tid>>, p: nat, q: seq<Tid>)
    requires p < |levels| && levels[p] != []
    ensures InUse(levels[p := q]) == if q == [] then InUse(levels) - {p} else InUse(levels)
  {}

  class CoreScheduler {
    const base: seq<nat>
    var next: Links                // thread_control_block::next, by thread
    var head: Links                // matrix[p].head and .tail, by level
    var tail: Links
    var bitmap: set<nat>
    var holderNext: Links          // thread_control_block::holder_next, by thread
    var holdersHead: Option<Tid>
    var holdersTail: Option<Tid>
    var state: seq<RunState>
    var current: Tid
    var rotor: set<nat>
    var exiting: set<Tid>
    ghost var levels: seq<seq<Tid>>
    ghost var holders: seq<Tid>

    ghost function Abs(): Core
      reads this
    {
      Core(levels, holders, state, current, rotor, exiting)
    }

    /** The links spell the levels and the holders, and the bitmap marks the levels in use. */
    ghost predicate Linked()
      reads this
    {
      && MatrixOk(base, next, head, tail, levels)
      && |levels| == MAX_PRIORITIES && bitmap == InUse(levels)
      && |holderNext| == |base| && HoldersOk(holderNext, holdersHead, holdersTail, holders)
    }

    ghost predicate Valid(v: View)
      reads this
    {
      Linked() && Shaped(Abs(), v) && v.base == base
    }

    constructor (base: seq<nat>, idle: Tid)
      requires idle < |base| && base[idle] == MAX_PRIORITIES - 1
      requires forall t :: 0 <= t < |base| ==> base[t] < MAX_PRIORITIES
      ensures this.base == base && Linked()
      ensures Abs() == Core(seq(MAX_PRIORITIES, p => []), [],
                            seq(|base|, t => if t == idle then Running else Blocked), idle, {}, {})
      ensures forall v: View :: ViewOk(v) && v.base == base && v.idle == idle ==> Inv(Abs(), v)
    {
      this.base := base;
      next := seq(|base|, t => Some(t));
      holderNext := seq(|base|, t => Some(t));
      head, tail := seq(MAX_PRIORITIES, p => None), seq(MAX_PRIORITIES, p => None);
      bitmap, holdersHead, holdersTail, rotor, exiting := {}, None, None, {}, {};
      state := seq(|base|, t => if t == idle then Running else Blocked);
      current := idle;
      levels, holders := seq(MAX_PRIORITIES, p => []), [];
    }

    ghost predicate Matrix()
      reads this
    {
      MatrixOk(base, next, head, tail, levels)
    }

    /** is_enqueued and is_listed_holder: the link does not name the thread itself. */
    lemma SelfPointers(t: Tid)
      requires Matrix() && HoldersOk(holderNext, holdersHead, holdersTail, holders) && |holderNext| == |base| &&
               t < |base|
      ensures t in levels[base[t]] <==> !Unlinked(next, t)
      ensures t in holders <==> !Unlinked(holderNext, t)
    {
      var p := base[t];
      assert LinkOk(base, next, levels, t) && LevelOk(base, next, head[p], tail[p], levels[p], p);
      if t in levels[p] { LinkedIsNotSelf(next, head[p], tail[p], levels[p], t); }
      if t in holders { LinkedIsNotSelf(holderNext, holdersHead, holdersTail, holders, t); }
    }

    /* ------------------------------------------------------ the ready matrix */

    method PushBack(t: Tid)
      requires Matrix() && t < |base| && t !in levels[base[t]]
      modifies `next, `head, `tail, `levels
      ensures Matrix() && levels == old(levels)[base[t] := old(levels)[base[t]] + [t]]
    {
      var p := base[t];
      assert LevelOk(base, next, head[p], tail[p], levels[p], p);
      ghost var q := levels[p] + [t];
      var links := next[t := None];
      var last, first := tail[p], head[p];
      if last.Some? { links := links[last.value := Some(t)]; } else { first := Some(t); }
      PushedBack(next, head[p], tail[p], levels[p], t, links);
      assert last.Some? ==> last.value in levels[p];
      LevelChanges(base, next, head, tail, levels, p, links, first, Some(t), q);
      next, head, tail, levels := links, head[p := first], tail[p := Some(t)], levels[p := q];
    }

    method PushFront(t: Tid)
      requires Matrix() && t < |base| && t !in levels[base[t]]
      modifies `next, `head, `tail, `levels
      ensures Matrix() && levels == old(levels)[base[t] := [t] + old(levels)[base[t]]]
    {
      var p := base[t];
      assert LevelOk(base, next, head[p], tail[p], levels[p], p);
      ghost var q := [t] + levels[p];
      var links := next[t := head[p]];
      var last := if tail[p] == None then Some(t) else tail[p];
      PushedFront(next, head[p], tail[p], levels[p], t);
      LevelChanges(base, next, head, tail, levels, p, links, Some(t), last, q);
      next, head, tail, levels := links, head[p := Some(t)], tail[p := last], levels[p := q];
    }

    method PopFront(p: nat) returns (t: Option<Tid>)
      requires Matrix() && p < |levels|
      modifies `next, `head, `tail, `levels
      ensures Matrix() && t == At(old(levels)[p], 0)
      ensures levels == if t == None then old(levels) else old(levels)[p := old(levels)[p][1..]]
    {
      assert LevelOk(base, next, head[p], tail[p], levels[p], p);
      t := head[p];
      if t == None { return; }
      var after := next[t.value];
      var links := next[t.value := t];
      ghost var q := levels[p];
      assert LinkAt(next, q, 0);
      UnlinkedAt(next, head[p], tail[p], q, 0, t, links);
      var last := if after == None then None else tail[p];
      DistinctTail(q);
      assert |q| > 1 ==> Apart(q, 0, |q| - 1);
      LevelChanges(base, next, head, tail, levels, p, links, after, last, q[1..]);
      next, head, tail, levels := links, head[p := after], tail[p := last], levels[p := q[1..]];
    }

    method RemoveFrom(t: Tid) returns (removed: bool)
      requires Matrix() && t < |base|
      modifies `next, `head, `tail, `levels
      ensures Matrix() && (removed <==> t in old(levels)[base[t]])
      ensures levels == old(levels)[base[t] := Remove(old(levels)[base[t]], t)]
    {
      var p := base[t];
      ghost var q := levels[p];
      assert LevelOk(base, next, head[p], tail[p], q, p);
      var links, first, last;
      removed, links, first, last := Unlink(next, head[p], tail[p], q, t);
      RemoveMembers(q, t);
      LevelChanges(base, next, head, tail, levels, p, links, first, last, Remove(q, t));
      next, head, tail, levels := links, head[p := first], tail[p := last], levels[p := Remove(q, t)];
    }

    /** enqueue_thread, or enqueue_thread_front. */
    method Enqueue(t: Tid, front: bool)
      requires Linked() && t < |base| && t !in levels[base[t]]
      modifies `next, `head, `tail, `levels, `bitmap
      ensures Linked()
      ensures levels == old(levels)[base[t] := if front then [t] + old(levels)[base[t]] else old(levels)[base[t]] + [t]]
    {
      if front { PushFront(t); } else { PushBack(t); }
      bitmap := bitmap + {base[t]};
    }

    /** best_priority: the lowest bit set, if any. */
    method BestPriority() returns (p: Option<nat>)
      requires Linked()
      ensures var best := BestLevel(levels, 0); p == if best < |levels| then Some(best) else None
    {
      ghost var best := BestLevel(levels, 0);
      assert best < |levels| <==> best in bitmap;
      if bitmap == {} { return None; }
      assert best in bitmap by { var q :| q in bitmap; assert levels[q] != []; }
      var b: nat :| b in bitmap && forall q :: q in bitmap ==> b <= q;
      p := Some(b);
    }

    /** pop_best_thread: the level is the lowest bit set. */
    method PopBestThread() returns (t: Option<Tid>)
      requires Linked()
      modifies `next, `head, `tail, `levels, `bitmap
      ensures Linked() && Abs() == PopBest(old(Abs())).0 && t == PopBest(old(Abs())).1
    {
      var best := BestPriority();
      if best == None { return None; }
      var p := best.value;
      t := PopFront(p);
      assert LevelOk(base, next, head[p], tail[p], levels[p], p);
      LevelInUse(old(levels), p, levels[p]);
      if head[p] == None { bitmap := bitmap - {p}; }
    }

    method RemoveThread(t: Tid)
      requires Linked() && t < |base| && t in levels[base[t]]
      modifies `next, `head, `tail, `levels, `bitmap
      ensures Linked() && levels == old(levels)[base[t] := Remove(old(levels)[base[t]], t)]
    {
      var p := base[t];
      var removed := RemoveFrom(t);
      assert removed;
      if head[p] == None { bitmap := bitmap - {p}; }
      assert LevelOk(base, next, head[p], tail[p], levels[p], p);
    }

    /* ------------------------------------------------------ the holder list */

    method LinkHolder(t: Tid)
      requires Linked() && t < |base|
      modifies `holderNext, `holdersHead, `holdersTail, `holders
      ensures Linked() && holders == if t in old(holders) then old(holders) else old(holders) + [t]
    {
      SelfPointers(t);
      if holderNext[t] != Some(t) { return; }
      var links := holderNext[t := None];
      if holdersTail.Some? { links := links[holdersTail.value := Some(t)]; }
      PushedBack(holderNext, holdersHead, holdersTail, holders, t, links);
      assert holdersTail.Some? ==> holdersTail.value in holders;
      if holdersTail == None { holdersHead := Some(t); }
      holderNext, holdersTail, holders := links, Some(t), holders + [t];
    }

    method UnlinkHolder(t: Tid)
      requires Linked() && t < |base|
      modifies `holderNext, `holdersHead, `holdersTail, `holders
      ensures Linked() && holders == Remove(old(holders), t)
    {
      SelfPointers(t);
      RemoveCounts(holders, t);
      if holderNext[t] == Some(t) { return; }
      ghost var q := holders;
      RemoveMembers(q, t);
      var found;
      found, holderNext, holdersHead, holdersTail := Unlink(holderNext, holdersHead, holdersTail, q, t);
      holders := Remove(q, t);
    }

    /* -------------------------------------------------------- the scheduler */

    method AdmitThread(t: Tid, v: View, front: bool)
      requires Valid(v) && t < |base| && t !in levels[base[t]]
      modifies this
      ensures Valid(v) && Abs() == Admit(old(Abs()), v, t, front)
    {
      AdmitShaped(Abs(), v, t, front);
      state := state[t := Ready];
      if t == v.idle { return; }
      if v.holds[t] { LinkHolder(t); } else { Enqueue(t, front); }
    }

    method Reroute(t: Tid)
      requires Linked() && t < |base| && t in levels[base[t]]
      modifies `next, `head, `tail, `levels, `bitmap, `holderNext, `holdersHead, `holdersTail, `holders
      ensures Linked() && levels == old(levels)[base[t] := Remove(old(levels)[base[t]], t)]
      ensures holders == if t in old(holders) then old(holders) else old(holders) + [t]
    {
      RemoveThread(t);
      LinkHolder(t);
    }

    /** make_ready: idempotent, and re-routes a thread that became a holder in the matrix. */
    method MakeThreadReady(t: Tid, v: View) returns (warranted: bool)
      requires Valid(v) && t < |base|
      modifies this
      ensures Valid(v) && Abs() == MakeReady(old(Abs()), v, t).0 && warranted == MakeReady(old(Abs()), v, t).1
    {
      MakeReadyShaped(Abs(), v, t);
      SelfPointers(t);
      if state[t].Terminated? || t in exiting { return false; }
      if next[t] != Some(t) || holderNext[t] != Some(t) {
        if next[t] != Some(t) && v.holds[t] {
          Reroute(t);
          return v.urgency[t] < v.urgency[current];
        }
        return false;
      }
      AdmitThread(t, v, false);
      return v.urgency[t] < v.urgency[current];
    }

    /** pick_with_holders' fold over the holder list. */
    method MostUrgentHolder(v: View) returns (best: Tid)
      requires Valid(v) && holders != []
      ensures best == BestHolder(holders, v)
    {
      ghost var k := 1;
      assert InRange(v, holders) && LinkAt(holderNext, holders, 0);
      best := holdersHead.value;
      var h := holderNext[best];
      assert holders[..1] == [best];
      while h.Some?
        invariant 1 <= k <= |holders| && h == At(holders, k)
        invariant InRange(v, holders[..k]) && best == BestHolder(holders[..k], v)
        decreases |holders| - k
      {
        assert LinkAt(holderNext, holders, k);
        assert holders[..k + 1][..k] == holders[..k];
        if v.urgency[h.value] < v.urgency[best] { best := h.value; }
        h := holderNext[h.value];
        k := k + 1;
      }
      assert holders[..|holders|] == holders;
    }

    method PickNext(v: View) returns (t: Option<Tid>)
      requires Valid(v)
      modifies this
      ensures Linked() && (Abs(), t) == Pick(old(Abs()), v)
    {
      if holdersHead == None {
        t := PopBestThread();
        return;
      }
      ghost var c := Abs();
      var h := MostUrgentHolder(v);
      var wins := SettleTie(h, v);
      ghost var c1 := Abs();
      assert c1 == c.(rotor := rotor);
      if wins {
        UnlinkHolder(h);
        t := Some(h);
      } else {
        t := PopBestThread();
      }
    }

    /** Whether the holder goes first, and the tie_rotor after. */
    method SettleTie(h: Tid, v: View) returns (wins: bool)
      requires Valid(v) && holders != [] && h == BestHolder(holders, v)
      modifies `rotor
      ensures (wins, rotor) == HolderWins(old(Abs()), v)
    {
      var best := BestPriority();
      if best == None || best.value > v.urgency[h] { return true; }
      var p := best.value;
      if p < v.urgency[h] { return false; }
      rotor := if p in rotor then rotor - {p} else rotor + {p};
      return p in rotor;
    }

    method RunNextThread(v: View)
      requires Valid(v)
      modifies this
      ensures Linked() && Abs() == RunNext(old(Abs()), v)
    {
      PickInRange(Abs(), v);
      var picked := PickNext(v);
      var n := if picked.Some? then picked.value else v.idle;
      state, current := state[n := Running], n;
    }

    /** Every request of a batch serviced in turn. */
    method ReadyBatch(batch: seq<Tid>, v: View)
      requires Valid(v) && InRange(v, batch)
      modifies this
      ensures Valid(v) && Abs() == ReadyAll(old(Abs()), v, batch)
    {
      ghost var c := Abs();
      var i := 0;
      assert batch[0..] == batch;
      while i < |batch|
        invariant 0 <= i <= |batch| && Valid(v)
        invariant ReadyAll(c, v, batch) == ReadyAll(Abs(), v, batch[i..])
      {
        assert batch[i..][0] == batch[i] && batch[i..][1..] == batch[i + 1..];
        var warranted := MakeThreadReady(batch[i], v);
        i := i + 1;
      }
    }

    method DepartThread(reason: Departure, v: View, joiners: seq<Tid>)
      requires Valid(v) && Inv(Abs(), v) && InRange(v, joiners)
      modifies this
      ensures Valid(v) && Abs() == Depart(old(Abs()), v, reason, joiners)
    {
      assert Placed(Abs(), v, current);
      match reason
      case Yielded => AdmitThread(current, v, false);
      case Preempted => AdmitThread(current, v, true);
      case Parked => state := state[current := Blocked];
      case Exited =>
        state := state[current := Terminated];
        ReadyBatch(joiners, v);
    }

    /** The thread's road and an interrupt's wake. batch is the intake taken in, in its order. */
    method DecideSwitch(reason: Departure, v: View, batch: seq<Tid>)
      requires Valid(v) && Filed(Abs(), v) && InRange(v, batch) && CanDepart(Abs(), v, reason)
      modifies this
      ensures Valid(v) && Inv(Abs(), v) && Abs() == Decide(old(Abs()), v, reason, batch)
    {
      DecideKeeps(Abs(), v, reason, batch);
      ReadyAllKeeps(Abs(), v, batch);
      ReadyBatch(batch, v);
      if state[current].Running? { DepartThread(reason, v, []); }
      RunNextThread(v);
    }

    /** The handler's road. */
    method HandlerSwitch(v: View, batch: seq<Tid>, joiners: seq<Tid>)
      requires Valid(v) && Filed(Abs(), v) && InRange(v, batch) && InRange(v, joiners) && v.idle !in exiting
      modifies this
      ensures Valid(v) && Inv(Abs(), v) && Abs() == Reschedule(old(Abs()), v, batch, joiners)
    {
      RescheduleKeeps(Abs(), v, batch, joiners);
      ReadyAllKeeps(Abs(), v, batch);
      ReadyBatch(batch, v);
      if state[current].Running? {
        ghost var best := BestLevel(levels, 0);
        // has_more_urgent_than, read from the bitmap before the thread is filed
        var moreUrgent := exists p: nat :: p in bitmap && p < base[current];
        assert moreUrgent <==> best < base[current] by {
          if best < base[current] { assert best in bitmap; }
          if p: nat :| p in bitmap && p < base[current] { assert levels[p] != []; }
        }
        var reason := if current in exiting then Exited
                      else if moreUrgent && holdersHead == None && !v.holds[current] then Preempted
                      else Yielded;
        DepartThread(reason, v, joiners);
      }
      RunNextThread(v);
    }

    /** set_thread_ready, whose caller looked at the thread's state before the mask was taken. */
    method SetThreadReady(t: Tid, v: View, decides: bool, batch: seq<Tid>)
      requires Valid(v) && Filed(Abs(), v) && t < |base| && InRange(v, batch)
      modifies this
      ensures Valid(v) && Filed(Abs(), v) && Abs() == SetReady(old(Abs()), v, t, decides, batch)
      ensures Seated(Abs()) <==>
                WakeDecides(old(Abs()), v, t, decides) || (Seated(old(Abs())) && !Unseats(old(Abs()), t))
    {
      SetReadyKeeps(Abs(), v, t, decides, batch);
      MakeReadyKeeps(Abs(), v, t);
      var warranted := MakeThreadReady(t, v);
      if warranted && decides { DecideSwitch(Preempted, v, batch); }
    }
  }
}
