/**
 What a core's scheduler does, on values: where a thread is filed when it becomes ready
 or departs, which one the pick takes, and the three routes into a switch. The class in
 module Scheduler does the same on linked lists, a bitmap and self-pointers.
 */
module Switching {
  import opened Wrappers
  import opened Threads
  import opened WaitOrder

  const MAX_PRIORITIES := 31

  datatype RunState = Ready | Running | Blocked | Terminated

  /** One core. rotor is the set of levels whose bit is set in tie_rotor. */
  datatype Core = Core(
    levels: seq<seq<Tid>>, holders: seq<Tid>, state: seq<RunState>, current: Tid, rotor: set<nat>, exiting: set<Tid>)

  /** What a core reads and does not change: priorities, who holds a mutex, and folded urgencies. */
  datatype View = View(base: seq<nat>, holds: seq<bool>, urgency: seq<nat>, idle: Tid)

  datatype Departure = Yielded | Preempted | Parked | Exited

  /** A thread that holds nothing is as urgent as its base priority, and one that does is no less so. */
  ghost predicate ViewOk(v: View) {
    && |v.base| == |v.holds| == |v.urgency| && v.idle < |v.base|
    && (forall t: Tid :: t < |v.base| ==>
          v.urgency[t] <= v.base[t] < MAX_PRIORITIES && (!v.holds[t] ==> v.urgency[t] == v.base[t]))
    && v.base[v.idle] == MAX_PRIORITIES - 1 && !v.holds[v.idle]
  }

  predicate InRange(v: View, q: seq<Tid>) { forall i :: 0 <= i < |q| ==> q[i] < |v.base| }

  ghost predicate Shaped(c: Core, v: View) {
    && ViewOk(v) && |c.state| == |v.base| && |c.levels| == MAX_PRIORITIES && c.current < |v.base|
    && (forall p :: 0 <= p < |c.levels| ==> InRange(v, c.levels[p])) && InRange(v, c.holders)
  }

  /* ---------------------------------------------------------- operations */

  function SetState(c: Core, t: Tid, s: RunState): Core
    requires t < |c.state|
  {
    c.(state := c.state[t := s])
  }

  function PutLevel(c: Core, p: nat, q: seq<Tid>): Core
    requires p < |c.levels|
  {
    c.(levels := c.levels[p := q])
  }

  ghost function Admit(c: Core, v: View, t: Tid, front: bool): Core
    requires Shaped(c, v) && t < |v.base|
  {
    var c1, p := SetState(c, t, Ready), v.base[t];
    if t == v.idle then c1
    else if v.holds[t] then c1.(holders := if t in c.holders then c.holders else c.holders + [t])
    else PutLevel(c1, p, if front then [t] + c.levels[p] else c.levels[p] + [t])
  }

  ghost predicate Enqueued(c: Core, v: View, t: Tid)
    requires Shaped(c, v) && t < |v.base|
  {
    t in c.levels[v.base[t]]
  }

  /** make_ready, and whether a reschedule is warranted. */
  ghost function MakeReady(c: Core, v: View, t: Tid): (Core, bool)
    requires Shaped(c, v) && t < |v.base|
  {
    var p, beats := v.base[t], v.urgency[t] < v.urgency[c.current];
    if c.state[t].Terminated? || t in c.exiting then (c, false)
    else if Enqueued(c, v, t) && v.holds[t] then
      var c1 := PutLevel(c, p, Remove(c.levels[p], t));
      (c1.(holders := if t in c.holders then c.holders else c.holders + [t]), beats)
    else if Enqueued(c, v, t) || t in c.holders then (c, false)
    else (Admit(c, v, t, false), beats)
  }

  /** The most urgent level, from p on, with a thread in it. */
  function BestLevel(levels: seq<seq<Tid>>, p: nat): (r: nat)
    requires p <= |levels|
    ensures p <= r <= |levels| && (r < |levels| ==> levels[r] != [])
    ensures forall j :: p <= j < r ==> levels[j] == []
    decreases |levels| - p
  {
    if p == |levels| || levels[p] != [] then p else BestLevel(levels, p + 1)
  }

  function PopBest(c: Core): (Core, Option<Tid>) {
    var p := BestLevel(c.levels, 0);
    if p == |c.levels| then (c, None) else (PutLevel(c, p, c.levels[p][1..]), Some(c.levels[p][0]))
  }

  /** The first of the most urgent holders. */
  ghost function BestHolder(h: seq<Tid>, v: View): (r: Tid)
    requires h != [] && ViewOk(v) && InRange(v, h)
    ensures r in h && forall i :: 0 <= i < |h| ==> v.urgency[r] <= v.urgency[h[i]]
  {
    if |h| == 1 then h[0]
    else
      var best, last := BestHolder(h[..|h| - 1], v), h[|h| - 1];
      if v.urgency[last] < v.urgency[best] then last else best
  }

  /** Whether the most urgent holder is picked over the matrix, and the rotor after. */
  ghost function HolderWins(c: Core, v: View): (bool, set<nat>)
    requires Shaped(c, v) && c.holders != []
  {
    var u, p := v.urgency[BestHolder(c.holders, v)], BestLevel(c.levels, 0);
    if p == |c.levels| || p > u then (true, c.rotor)
    else if p < u then (false, c.rotor)
    else
      // A tie between the two structures: the sides take turns, level by level.
      var rotor := if p in c.rotor then c.rotor - {p} else c.rotor + {p};
      (p in rotor, rotor)
  }

  ghost function Pick(c: Core, v: View): (Core, Option<Tid>)
    requires Shaped(c, v)
  {
    if c.holders == [] then PopBest(c)
    else
      var h, (wins, rotor) := BestHolder(c.holders, v), HolderWins(c, v);
      var c1 := c.(rotor := rotor);
      if wins then (c1.(holders := Remove(c.holders, h)), Some(h)) else PopBest(c1)
  }

  ghost function RunNext(c: Core, v: View): (r: Core)
    requires Shaped(c, v)
    ensures r.exiting == c.exiting
  {
    PickInRange(c, v);
    var (c1, picked) := Pick(c, v);
    var n := if picked.Some? then picked.value else v.idle;
    SetState(c1, n, Running).(current := n)
  }

  lemma PickInRange(c: Core, v: View)
    requires Shaped(c, v)
    ensures Pick(c, v).1.Some? ==> Pick(c, v).1.value < |v.base|
    ensures Pick(c, v).0.state == c.state && Pick(c, v).0.exiting == c.exiting
  {
    if c.holders != [] { var h := BestHolder(c.holders, v); }
  }

  /** Every thread of a batch readied, without switching: a drained intake, or a thread's joiners. */
  ghost function ReadyAll(c: Core, v: View, batch: seq<Tid>): (r: Core)
    requires Shaped(c, v) && InRange(v, batch)
    ensures Shaped(r, v) && r.current == c.current && r.exiting == c.exiting && r.rotor == c.rotor
    decreases |batch|
  {
    if batch == [] then c
    else
      MakeReadyShaped(c, v, batch[0]);
      ReadyAll(MakeReady(c, v, batch[0]).0, v, batch[1..])
  }

  lemma RemoveInRange(v: View, q: seq<Tid>, t: Tid)
    requires InRange(v, q)
    ensures InRange(v, Remove(q, t))
  {
    var r := Remove(q, t);
    forall i: nat | i < |r| ensures r[i] < |v.base| { RemoveSubset(q, t, i); }
  }

  lemma RefiledShaped(c: Core, v: View, c': Core)
    requires Shaped(c, v) && |c'.state| == |c.state| && c'.current == c.current && InRange(v, c'.holders)
    requires |c'.levels| == |c.levels| && forall p :: 0 <= p < |c.levels| && c'.levels[p] != c.levels[p] ==>
             InRange(v, c'.levels[p])
    ensures Shaped(c', v)
  {}

  lemma AdmitShaped(c: Core, v: View, t: Tid, front: bool)
    requires Shaped(c, v) && t < |v.base|
    ensures Shaped(Admit(c, v, t, front), v)
  {
    var q := c.levels[v.base[t]];
    assert InRange(v, [t] + q) && InRange(v, q + [t]) && InRange(v, c.holders + [t]);
    RefiledShaped(c, v, Admit(c, v, t, front));
  }

  lemma MakeReadyShaped(c: Core, v: View, t: Tid)
    requires Shaped(c, v) && t < |v.base|
    ensures Shaped(MakeReady(c, v, t).0, v) && MakeReady(c, v, t).0.current == c.current
  {
    var p := v.base[t];
    var q := Remove(c.levels[p], t);
    RemoveInRange(v, c.levels[p], t);
    RefiledShaped(c, v, PutLevel(c, p, q));
    assert InRange(v, c.holders + [t]);
    AdmitShaped(c, v, t, false);
  }

  ghost function Depart(c: Core, v: View, reason: Departure, joiners: seq<Tid>): (r: Core)
    requires Shaped(c, v) && InRange(v, joiners)
    ensures Shaped(r, v) && r.exiting == c.exiting && r.rotor == c.rotor
  {
    match reason
    case Yielded => AdmitShaped(c, v, c.current, false); Admit(c, v, c.current, false)
    case Preempted => AdmitShaped(c, v, c.current, true); Admit(c, v, c.current, true)
    case Parked => SetState(c, c.current, Blocked)
    case Exited => ReadyAll(SetState(c, c.current, Terminated), v, joiners)
  }

  /** The core as decide's pick finds it: other cores' wakes taken in, and the running thread filed. */
  ghost function Filing(c: Core, v: View, reason: Departure, batch: seq<Tid>): (r: Core)
    requires Shaped(c, v) && InRange(v, batch)
    ensures Shaped(r, v) && r.exiting == c.exiting && r.rotor == c.rotor
  {
    var c1 := ReadyAll(c, v, batch);
    if c1.state[c1.current].Running? then Depart(c1, v, reason, []) else c1
  }

  /** decide: and the pick made running. */
  ghost function Decide(c: Core, v: View, reason: Departure, batch: seq<Tid>): (r: Core)
    requires Shaped(c, v) && InRange(v, batch)
    ensures r.exiting == c.exiting
  {
    RunNext(Filing(c, v, reason, batch), v)
  }

  /** departure_of: why the running thread departs, worked out from what it was left as. */
  ghost function DepartureOf(c: Core, v: View): Departure
    requires Shaped(c, v)
  {
    if c.current in c.exiting then Exited
    else if BestLevel(c.levels, 0) < v.base[c.current] && c.holders == [] && !v.holds[c.current] then Preempted
    else Yielded
  }

  /** The core as the handler's pick finds it. */
  ghost function HandlerFiling(c: Core, v: View, batch: seq<Tid>, joiners: seq<Tid>): (r: Core)
    requires Shaped(c, v) && InRange(v, batch) && InRange(v, joiners)
    ensures Shaped(r, v) && r.exiting == c.exiting && r.rotor == c.rotor
  {
    var c1 := ReadyAll(c, v, batch);
    if c1.state[c1.current].Running? then Depart(c1, v, DepartureOf(c1, v), joiners) else c1
  }

  /** reschedule, the handler's road. */
  ghost function Reschedule(c: Core, v: View, batch: seq<Tid>, joiners: seq<Tid>): (r: Core)
    requires Shaped(c, v) && InRange(v, batch) && InRange(v, joiners)
    ensures r.exiting == c.exiting
  {
    RunNext(HandlerFiling(c, v, batch, joiners), v)
  }

  /** set_thread_ready, under the mask: a warranted wake, made where it may, decides at once. */
  ghost function SetReady(c: Core, v: View, t: Tid, decides: bool, batch: seq<Tid>): (r: Core)
    requires Shaped(c, v) && t < |v.base| && InRange(v, batch)
    ensures r.exiting == c.exiting
  {
    MakeReadyShaped(c, v, t);
    var (c1, warranted) := MakeReady(c, v, t);
    if warranted && decides then Decide(c1, v, Preempted, batch) else c1
  }

  /** global_ready_thread on t's own core, with nothing between its look at the state and the mask. */
  ghost function Wake(c: Core, v: View, t: Tid, decides: bool, batch: seq<Tid>): (r: Core)
    requires Shaped(c, v) && t < |v.base| && InRange(v, batch)
    ensures r.exiting == c.exiting
  {
    if c.state[t].Running? then c else SetReady(c, v, t, decides, batch)
  }

  /* ------------------------------------------------------- the invariant */

  /** A thread is where its state says, and nowhere else. */
  ghost predicate Placed(c: Core, v: View, t: Tid)
    requires Shaped(c, v) && t < |v.base|
  {
    && (forall p :: 0 <= p < |c.levels| && p != v.base[t] ==> t !in c.levels[p])
    && if c.state[t].Ready? && t != v.idle then Enqueued(c, v, t) <==> t !in c.holders
       else !Enqueued(c, v, t) && t !in c.holders
  }

  ghost predicate WellFiled(c: Core, v: View) {
    && Shaped(c, v)
    && (forall p :: 0 <= p < |c.levels| ==> Distinct(c.levels[p])) && Distinct(c.holders)
    && (forall t: Tid :: t < |v.base| ==> Placed(c, v, t))
    && !c.state[v.idle].Blocked? && !c.state[v.idle].Terminated?
  }

  ghost predicate NoneRunning(c: Core) { forall t :: 0 <= t < |c.state| ==> !c.state[t].Running? }

  /** Each thread of the core in one place, nobody running but the current one, which is running or ready. */
  ghost predicate Filed(c: Core, v: View) {
    && WellFiled(c, v) && !c.state[c.current].Blocked? && !c.state[c.current].Terminated?
    && forall t: Tid :: t < |c.state| && c.state[t].Running? ==> t == c.current
  }

  predicate Seated(c: Core) { c.current < |c.state| && c.state[c.current].Running? }

  /** Each thread of the core in one place, and exactly one running. */
  ghost predicate Inv(c: Core, v: View) { Filed(c, v) && Seated(c) }
}
