/**
 What every route into a switch keeps: each thread of the core in exactly one place and
 exactly one running; what the pick is; and where a departing thread comes back.
 */
module SwitchingSafety {
  import opened Threads
  import opened WaitOrder
  import opened Switching
  import Graphs = WaitGraph

  /** u is filed in c' as in c. */
  ghost predicate SameFor(c: Core, c': Core, u: Tid) {
    && |c.levels| == |c'.levels| && |c.state| == |c'.state| && u < |c.state| && c.state[u] == c'.state[u]
    && (u in c.holders <==> u in c'.holders)
    && forall p :: 0 <= p < |c.levels| ==> (u in c'.levels[p] <==> u in c.levels[p])
  }

  /** One thread is filed anew, and the rest stand. */
  lemma Refiled(c: Core, v: View, c': Core, t: Tid)
    requires WellFiled(c, v) && Shaped(c', v) && t < |v.base| && Placed(c', v, t)
    requires forall u: Tid :: u < |v.base| && u != t ==> SameFor(c, c', u)
    requires (forall p :: 0 <= p < |c'.levels| ==> Distinct(c'.levels[p])) && Distinct(c'.holders)
    requires t == v.idle ==> !c'.state[t].Blocked? && !c'.state[t].Terminated?
    ensures WellFiled(c', v)
  {
    forall u: Tid | u < |v.base| ensures Placed(c', v, u) {
      if u != t { assert Placed(c, v, u) && SameFor(c, c', u); }
    }
    assert t != v.idle ==> SameFor(c, c', v.idle);
  }

  lemma AdmitKeeps(c: Core, v: View, t: Tid, front: bool)
    requires WellFiled(c, v) && t < |v.base| && (!c.state[t].Ready? || t == v.idle)
    ensures WellFiled(Admit(c, v, t, front), v)
  {
    var c', p := Admit(c, v, t, front), v.base[t];
    assert Placed(c, v, t);
    AdmitShaped(c, v, t, front);
    DistinctPush(c.levels[p], t);
    DistinctPush(c.holders, t);
    Refiled(c, v, c', t);
  }

  lemma RouteKeeps(c: Core, v: View, t: Tid)
    requires WellFiled(c, v) && t < |v.base| && Enqueued(c, v, t) && v.holds[t] && t !in c.exiting &&
             !c.state[t].Terminated?
    ensures WellFiled(MakeReady(c, v, t).0, v)
  {
    var c', p := MakeReady(c, v, t).0, v.base[t];
    assert Placed(c, v, t);
    MakeReadyShaped(c, v, t);
    RemoveMembers(c.levels[p], t);
    DistinctPush(c.holders, t);
    Refiled(c, v, c', t);
  }

  /** make_ready keeps the filing, and leaves the state of every other thread. */
  lemma MakeReadyKeeps(c: Core, v: View, t: Tid)
    requires WellFiled(c, v) && t < |v.base|
    ensures WellFiled(MakeReady(c, v, t).0, v)
    ensures var c' := MakeReady(c, v, t).0;
            forall u: Tid :: u < |v.base| ==> c'.state[u] == c.state[u] || (u == t && c'.state[u].Ready?)
  {
    assert Placed(c, v, t);
    if c.state[t].Terminated? || t in c.exiting {
    } else if Enqueued(c, v, t) && v.holds[t] {
      RouteKeeps(c, v, t);
    } else if !Enqueued(c, v, t) && t !in c.holders {
      AdmitKeeps(c, v, t, false);
    }
  }

  lemma {:induction false} ReadyAllKeeps(c: Core, v: View, batch: seq<Tid>)
    requires WellFiled(c, v) && InRange(v, batch)
    ensures WellFiled(ReadyAll(c, v, batch), v)
    ensures var c' := ReadyAll(c, v, batch);
            forall u: Tid :: u < |v.base| ==> c'.state[u] == c.state[u] || c'.state[u].Ready?
    decreases |batch|
  {
    if batch != [] {
      MakeReadyKeeps(c, v, batch[0]);
      ReadyAllKeeps(MakeReady(c, v, batch[0]).0, v, batch[1..]);
    }
  }

  lemma PopKeeps(c: Core, v: View, p: nat)
    requires WellFiled(c, v) && NoneRunning(c) && p < |c.levels| && c.levels[p] != []
    ensures var t := c.levels[p][0];
            t < |v.base| && Inv(SetState(PutLevel(c, p, c.levels[p][1..]), t, Running).(current := t), v)
  {
    var q := c.levels[p];
    var t := q[0];
    assert InRange(v, q) && Distinct(q) && t in q;
    assert Placed(c, v, t);
    var c' := SetState(PutLevel(c, p, q[1..]), t, Running).(current := t);
    assert q == [t] + q[1..];
    DistinctTail(q);
    assert Shaped(c', v);
    forall u: Tid | u < |v.base| && u != t ensures SameFor(c, c', u) {}
    Refiled(c, v, c', t);
  }

  lemma TakeHolderKeeps(c: Core, v: View, t: Tid)
    requires WellFiled(c, v) && NoneRunning(c) && t in c.holders
    ensures t < |v.base| && Inv(SetState(c.(holders := Remove(c.holders, t)), t, Running).(current := t), v)
  {
    assert InRange(v, c.holders);
    assert Placed(c, v, t);
    var c' := SetState(c.(holders := Remove(c.holders, t)), t, Running).(current := t);
    RemoveMembers(c.holders, t);
    RemoveInRange(v, c.holders, t);
    Refiled(c, v, c', t);
  }

  lemma RotorKeeps(c: Core, v: View, rotor: set<nat>)
    requires WellFiled(c, v)
    ensures WellFiled(c.(rotor := rotor), v)
  {
    forall u: Tid | u < |v.base| ensures Placed(c.(rotor := rotor), v, u) { assert Placed(c, v, u); }
  }

  /** The pick of a core with nobody running leaves exactly one. */
  lemma RunNextKeeps(c: Core, v: View)
    requires WellFiled(c, v) && NoneRunning(c)
    ensures Inv(RunNext(c, v), v)
  {
    var p, r := BestLevel(c.levels, 0), RunNext(c, v).rotor;
    RotorKeeps(c, v, r);
    var d := c.(rotor := r);
    if c.holders != [] { TakeHolderKeeps(d, v, BestHolder(c.holders, v)); }
    if p < |c.levels| { PopKeeps(d, v, p); }
    if p == |c.levels| && c.holders == [] {
      assert Placed(c, v, v.idle);
      Refiled(c, v, RunNext(c, v), v.idle);
    }
  }

  ghost predicate CanDepart(c: Core, v: View, reason: Departure)
    requires Shaped(c, v)
  {
    reason == Parked || reason == Exited ==> c.current != v.idle
  }

  lemma DepartKeeps(c: Core, v: View, reason: Departure, joiners: seq<Tid>)
    requires Inv(c, v) && InRange(v, joiners) && CanDepart(c, v, reason)
    ensures WellFiled(Depart(c, v, reason, joiners), v) && NoneRunning(Depart(c, v, reason, joiners))
  {
    var t := c.current;
    assert Placed(c, v, t);
    match reason
    case Yielded => AdmitKeeps(c, v, t, false);
    case Preempted => AdmitKeeps(c, v, t, true);
    case Parked => Refiled(c, v, SetState(c, t, Blocked), t);
    case Exited =>
      Refiled(c, v, SetState(c, t, Terminated), t);
      ReadyAllKeeps(SetState(c, t, Terminated), v, joiners);
  }

  /** The thread's road and an interrupt's wake leave each thread in one place and exactly one running. */
  lemma DecideKeeps(c: Core, v: View, reason: Departure, batch: seq<Tid>)
    requires Filed(c, v) && InRange(v, batch) && CanDepart(c, v, reason)
    ensures Inv(Decide(c, v, reason, batch), v)
  {
    ReadyAllKeeps(c, v, batch);
    var c1 := ReadyAll(c, v, batch);
    if c1.state[c1.current].Running? { DepartKeeps(c1, v, reason, []); }
    RunNextKeeps(Filing(c, v, reason, batch), v);
  }

  /** So does the handler's road. */
  lemma RescheduleKeeps(c: Core, v: View, batch: seq<Tid>, joiners: seq<Tid>)
    requires Filed(c, v) && InRange(v, batch) && InRange(v, joiners) && v.idle !in c.exiting
    ensures Inv(Reschedule(c, v, batch, joiners), v)
  {
    ReadyAllKeeps(c, v, batch);
    var c1 := ReadyAll(c, v, batch);
    if c1.state[c1.current].Running? { DepartKeeps(c1, v, DepartureOf(c1, v), joiners); }
    RunNextKeeps(HandlerFiling(c, v, batch, joiners), v);
  }

  /** The wake of t decides: it is warranted, and made where it may be. */
  ghost predicate WakeDecides(c: Core, v: View, t: Tid, decides: bool)
    requires Shaped(c, v) && t < |v.base|
  {
    decides && MakeReady(c, v, t).1
  }

  /** make_ready, which does not ask, is about to file the running thread as ready. */
  ghost predicate Unseats(c: Core, t: Tid) { Seated(c) && t == c.current && t !in c.exiting }

  /**
   set_thread_ready keeps each thread in one place. It leaves exactly one running if it
   decides, and otherwise if and only if one was and it is not the one being readied.
   */
  lemma SetReadyKeeps(c: Core, v: View, t: Tid, decides: bool, batch: seq<Tid>)
    requires Filed(c, v) && t < |v.base| && InRange(v, batch)
    ensures Filed(SetReady(c, v, t, decides, batch), v)
    ensures Seated(SetReady(c, v, t, decides, batch)) <==>
              WakeDecides(c, v, t, decides) || (Seated(c) && !Unseats(c, t))
  {
    assert Placed(c, v, t);
    MakeReadyKeeps(c, v, t);
    MakeReadyShaped(c, v, t);
    if WakeDecides(c, v, t, decides) { DecideKeeps(MakeReady(c, v, t).0, v, Preempted, batch); }
  }

  lemma WakeKeeps(c: Core, v: View, t: Tid, decides: bool, batch: seq<Tid>)
    requires Inv(c, v) && t < |v.base| && InRange(v, batch)
    ensures Inv(Wake(c, v, t, decides, batch), v)
  {
    if !c.state[t].Running? { SetReadyKeeps(c, v, t, decides, batch); }
  }

  /** A mutex taken, filed or released, and any change of urgency, leaves the filing as it is. */
  lemma ViewChanges(c: Core, v: View, w: View)
    requires Filed(c, v) && ViewOk(w) && w.base == v.base && w.idle == v.idle
    ensures Filed(c, w)
  {
    forall p | 0 <= p < |c.levels| ensures InRange(w, c.levels[p]) { assert InRange(v, c.levels[p]); }
    assert InRange(v, c.holders) && InRange(w, c.holders);
    forall t: Tid | t < |w.base| ensures Placed(c, w, t) { assert Placed(c, v, t); }
  }

  /* ------------------------------------------------------------------ runs */

  /** A core, and by thread the wakes that have looked at its state and not yet taken the mask. */
  datatype Machine = Machine(core: Core, looked: seq<nat>)

  /**
   What happens to a core: the unmasked look of a wake, its masked half, a switch on the
   thread's road, a pass of the handler, a wish to exit. Between the look and the masked
   half of one wake anything may happen, as handlers nest.
   */
  datatype Event =
    | Looked(t: Tid)
    | Readied(t: Tid, decides: bool, batch: seq<Tid>)
    | Switched(reason: Departure, batch: seq<Tid>)
    | Handled(batch: seq<Tid>, joiners: seq<Tid>)
    | Exiting

  ghost predicate CanHappen(s: Machine, v: View, e: Event) {
    Shaped(s.core, v) && |s.looked| == |v.base| &&
    match e
    case Looked(t) => t < |v.base|
    case Readied(t, _, batch) => t < |v.base| && InRange(v, batch) && s.looked[t] > 0
    case Switched(reason, batch) => InRange(v, batch) && reason != Exited && CanDepart(s.core, v, reason)
    case Handled(batch, joiners) => InRange(v, batch) && InRange(v, joiners)
    case Exiting => s.core.current != v.idle
  }

  ghost function After(s: Machine, v: View, e: Event): Machine
    requires CanHappen(s, v, e)
  {
    var c := s.core;
    match e
    case Looked(t) => if c.state[t].Running? then s else s.(looked := s.looked[t := s.looked[t] + 1])
    case Readied(t, decides, batch) =>
      Machine(SetReady(c, v, t, decides, batch), s.looked[t := s.looked[t] - 1])
    case Switched(reason, batch) => s.(core := Decide(c, v, reason, batch))
    case Handled(batch, joiners) => s.(core := Reschedule(c, v, batch, joiners))
    case Exiting => s.(core := c.(exiting := c.exiting + {c.current}))
  }

  /** The event makes a pick. */
  ghost predicate Decides(s: Machine, v: View, e: Event) {
    CanHappen(s, v, e) && (e.Switched? || e.Handled? || (e.Readied? && WakeDecides(s.core, v, e.t, e.decides)))
  }

  /** Event k meets the core under view k: priorities are fixed, what is held and how urgent it makes one is not. */
  ghost predicate IsRun(run: seq<Machine>, views: seq<View>, events: seq<Event>) {
    && |run| == |views| == |events| + 1
    && Inv(run[0].core, views[0]) && views[0].idle !in run[0].core.exiting
    && (forall i :: 0 <= i < |run[0].looked| ==> run[0].looked[i] == 0)
    && (forall k :: 0 <= k < |views| ==> SameThreads(views[0], views[k]))
    && forall k: nat :: k < |events| ==> Steps(run, views, events, k)
  }

  ghost predicate Steps(run: seq<Machine>, views: seq<View>, events: seq<Event>, k: nat)
    requires |run| == |views| == |events| + 1 && k < |events|
  {
    CanHappen(run[k], views[k], events[k]) && run[k + 1] == After(run[k], views[k], events[k])
  }

  ghost predicate SameThreads(v: View, w: View) { ViewOk(w) && w.base == v.base && w.idle == v.idle }

  /** In every run, each thread of the core is in exactly one place, and nobody runs but the current one. */
  lemma {:induction false} OnePlaceInEveryRun(run: seq<Machine>, views: seq<View>, events: seq<Event>, k: nat)
    requires IsRun(run, views, events) && k < |run|
    ensures Filed(run[k].core, views[k]) && views[k].idle !in run[k].core.exiting
    decreases k
  {
    assert SameThreads(views[0], views[k]);
    if k > 0 {
      OnePlaceInEveryRun(run, views, events, k - 1);
      assert Steps(run, views, events, k - 1) && SameThreads(views[0], views[k - 1]);
      StepKeeps(run[k - 1], views[k - 1], events[k - 1], views[k]);
    }
  }

  lemma StepKeeps(s: Machine, v: View, e: Event, w: View)
    requires Filed(s.core, v) && CanHappen(s, v, e) && v.idle !in s.core.exiting && SameThreads(v, w)
    ensures Filed(After(s, v, e).core, w) && w.idle !in After(s, v, e).core.exiting
  {
    EventKeeps(s, v, e);
    ViewChanges(After(s, v, e).core, v, w);
  }

  lemma EventKeeps(s: Machine, v: View, e: Event)
    requires Filed(s.core, v) && CanHappen(s, v, e) && v.idle !in s.core.exiting
    ensures Filed(After(s, v, e).core, v) && v.idle !in After(s, v, e).core.exiting
    ensures Seated(After(s, v, e).core) <==>
              Decides(s, v, e) || (Seated(s.core) && !(e.Readied? && Unseats(s.core, e.t)))
  {
    var c := s.core;
    match e
    case Looked(_) =>
    case Readied(t, decides, batch) => SetReadyKeeps(c, v, t, decides, batch);
    case Switched(reason, batch) => DecideKeeps(c, v, reason, batch);
    case Handled(batch, joiners) => RescheduleKeeps(c, v, batch, joiners);
    case Exiting =>
      var d := After(s, v, e).core;
      forall t: Tid | t < |v.base| ensures Placed(d, v, t) { assert Placed(c, v, t); }
  }

  /** Event j readies the running thread, and no pick is made after it and before k. */
  ghost predicate UnseatedSince(run: seq<Machine>, views: seq<View>, events: seq<Event>, j: nat, k: nat)
    requires |run| == |views| == |events| + 1 && j < k < |run|
  {
    && events[j].Readied? && Unseats(run[j].core, events[j].t)
    && forall i :: j < i < k ==> !Decides(run[i], views[i], events[i])
  }

  ghost predicate Unseated(run: seq<Machine>, views: seq<View>, events: seq<Event>, k: nat)
    requires |run| == |views| == |events| + 1 && k < |run|
  {
    exists j: nat :: j < k && UnseatedSince(run, views, events, j, k)
  }

  lemma UnseatedGoesOn(run: seq<Machine>, views: seq<View>, events: seq<Event>, k: nat)
    requires |run| == |views| == |events| + 1 && k < |events|
    ensures Unseated(run, views, events, k + 1) <==>
              || (events[k].Readied? && Unseats(run[k].core, events[k].t))
              || (Unseated(run, views, events, k) && !Decides(run[k], views[k], events[k]))
  {
    assert UnseatedSince(run, views, events, k, k + 1) <==> events[k].Readied? && Unseats(run[k].core, events[k].t);
    if Unseated(run, views, events, k + 1) {
      var j: nat :| j < k + 1 && UnseatedSince(run, views, events, j, k + 1);
      if j < k { assert UnseatedSince(run, views, events, j, k) && !Decides(run[k], views[k], events[k]); }
    }
    if Unseated(run, views, events, k) && !Decides(run[k], views[k], events[k]) {
      var j: nat :| j < k && UnseatedSince(run, views, events, j, k);
      assert UnseatedSince(run, views, events, j, k + 1);
    }
  }

  /**
   Exactly one thread is running, the current one, if and only if no wake has readied the
   running thread since the last pick. A wake that looked before that thread was picked
   can: make_ready does not ask again.
   */
  lemma OneRunningIff(run: seq<Machine>, views: seq<View>, events: seq<Event>, k: nat)
    requires IsRun(run, views, events) && k < |run|
    ensures Inv(run[k].core, views[k]) <==> !Unseated(run, views, events, k)
  {
    OnePlaceInEveryRun(run, views, events, k);
    SeatedIff(run, views, events, k);
  }

  lemma {:induction false} SeatedIff(run: seq<Machine>, views: seq<View>, events: seq<Event>, k: nat)
    requires IsRun(run, views, events) && k < |run|
    ensures Seated(run[k].core) <==> !Unseated(run, views, events, k)
    decreases k
  {
    if k > 0 {
      SeatedIff(run, views, events, k - 1);
      OnePlaceInEveryRun(run, views, events, k - 1);
      SeatedStep(run, views, events, k - 1);
      UnseatedGoesOn(run, views, events, k - 1);
    }
  }

  lemma SeatedStep(run: seq<Machine>, views: seq<View>, events: seq<Event>, k: nat)
    requires IsRun(run, views, events) && k < |events|
    requires Filed(run[k].core, views[k]) && views[k].idle !in run[k].core.exiting
    ensures Seated(run[k + 1].core) <==>
              || Decides(run[k], views[k], events[k])
              || (Seated(run[k].core) && !(events[k].Readied? && Unseats(run[k].core, events[k].t)))
    ensures events[k].Readied? && Unseats(run[k].core, events[k].t) ==> !Decides(run[k], views[k], events[k])
  {
    assert Steps(run, views, events, k);
    EventKeeps(run[k], views[k], events[k]);
  }

  /* ------------------------------------------------------------ the pick */

  /** What a ready thread is picked by: its base in the matrix, its urgency on the holder list. */
  ghost function FiledUrgency(c: Core, v: View, t: Tid): nat
    requires Shaped(c, v) && t < |v.base|
  {
    if t in c.holders then v.urgency[t] else v.base[t]
  }

  /** Ownership that has not reached the filing: a holder in the matrix (module WakeDelivery). */
  ghost predicate Late(c: Core, v: View, t: Tid)
    requires Shaped(c, v) && t < |v.base|
  {
    Enqueued(c, v, t) && v.holds[t]
  }

  /**
   The pick is a ready thread no less urgent than any other, or the idle thread when
   nothing else is ready. With nobody's ownership late, urgency is the folded one.
   */
  lemma PickIsMostUrgent(c: Core, v: View, u: Tid)
    requires WellFiled(c, v) && NoneRunning(c)
    requires u < |v.base| && c.state[u].Ready? && u != v.idle
    ensures var r := RunNext(c, v).current;
            && r < |v.base| && r != v.idle && c.state[r].Ready?
            && FiledUrgency(c, v, r) <= FiledUrgency(c, v, u)
            && (!Late(c, v, r) && !Late(c, v, u) ==> v.urgency[r] <= v.urgency[u])
  {
    var r, p := RunNext(c, v).current, BestLevel(c.levels, 0);
    assert Placed(c, v, u);
    assert u !in c.holders ==> c.levels[v.base[u]] != [];
    if c.holders != [] { HolderIsPlaced(c, v, BestHolder(c.holders, v)); }
    if p < |c.levels| { HeadIsPlaced(c, v, p); }
  }

  lemma HolderIsPlaced(c: Core, v: View, t: Tid)
    requires WellFiled(c, v) && t in c.holders
    ensures t < |v.base| && t != v.idle && c.state[t].Ready? && !Enqueued(c, v, t)
  {
    assert InRange(v, c.holders);
    assert Placed(c, v, t);
  }

  lemma HeadIsPlaced(c: Core, v: View, p: nat)
    requires WellFiled(c, v) && p < |c.levels| && c.levels[p] != []
    ensures var t := c.levels[p][0];
            t < |v.base| && t != v.idle && c.state[t].Ready? && v.base[t] == p && t !in c.holders
  {
    assert InRange(v, c.levels[p]);
    assert c.levels[p][0] in c.levels[p];
    assert Placed(c, v, c.levels[p][0]);
  }

  /** What a core reads of the wait-for graph. */
  ghost function ViewOf(g: Graphs.Graph, idle: Tid): (v: View)
    requires Graphs.Closed(g)
    ensures |v.base| == |v.holds| == |v.urgency| == |g.threads| && v.idle == idle
    ensures forall t: Tid :: t < |v.base| ==>
              v.base[t] == g.threads[t].base && v.holds[t] == !g.threads[t].HoldsNothing() &&
              v.urgency[t] == Graphs.Urgency(g, t)
  {
    var n := |g.threads|;
    View(seq(n, t requires 0 <= t < n => g.threads[t].base),
         seq(n, t requires 0 <= t < n => !g.threads[t].HoldsNothing()),
         seq(n, t requires 0 <= t < n => Graphs.Urgency(g, t)), idle)
  }

  /**
   On any wait-for graph the fold is such a view, so with nobody's ownership late the pick
   is a thread whose folded urgency is the least of all that are ready.
   */
  lemma PickFollowsTheFold(g: Graphs.Graph, c: Core, idle: Tid, u: Tid)
    requires Graphs.Closed(g) && idle < |g.threads| &&
             (forall t: Tid :: t < |g.threads| ==> g.threads[t].base < MAX_PRIORITIES)
    requires g.threads[idle].base == MAX_PRIORITIES - 1 && g.threads[idle].HoldsNothing()
    ensures ViewOk(ViewOf(g, idle))
    ensures var v := ViewOf(g, idle);
            WellFiled(c, v) && NoneRunning(c) && u < |v.base| && c.state[u].Ready? && u != idle ==>
              var r := RunNext(c, v).current;
              && r < |v.base| && r != idle && c.state[r].Ready?
              && (!Late(c, v, r) && !Late(c, v, u) ==> Graphs.Urgency(g, r) <= Graphs.Urgency(g, u))
  {
    var v := ViewOf(g, idle);
    forall t: Tid | t < |v.base| && !v.holds[t] ensures v.urgency[t] == v.base[t] {
      Graphs.SkipSlots(g, t, 0, Graphs.MAX_HELD, Graphs.MAX_DEPTH);
    }
    if WellFiled(c, v) && NoneRunning(c) && u < |v.base| && c.state[u].Ready? && u != idle {
      PickIsMostUrgent(c, v, u);
    }
  }

  /** Among holders the pick is the first of the most urgent: everyone listed before it is less urgent. */
  lemma {:induction false} FirstOfTheBest(h: seq<Tid>, v: View) returns (k: nat)
    requires h != [] && ViewOk(v) && InRange(v, h)
    ensures k < |h| && h[k] == BestHolder(h, v)
    ensures forall i :: 0 <= i < k ==> v.urgency[h[i]] > v.urgency[h[k]]
    ensures forall i :: k < i < |h| ==> v.urgency[h[i]] >= v.urgency[h[k]]
    decreases |h|
  {
    if |h| == 1 {
      k := 0;
    } else {
      var init := h[..|h| - 1];
      k := FirstOfTheBest(init, v);
      assert forall i :: 0 <= i < |init| ==> h[i] == init[i];
      if v.urgency[h[|h| - 1]] < v.urgency[init[k]] { k := |h| - 1; }
    }
  }

  /** The pick takes the head of the best level, or leaves the matrix alone. */
  lemma RunNextTakes(c: Core, v: View)
    requires WellFiled(c, v)
    ensures var d, b := RunNext(c, v), BestLevel(c.levels, 0);
            || (b < |c.levels| && d.current == c.levels[b][0] && d.levels == c.levels[b := c.levels[b][1..]])
            || (d.levels == c.levels && (d.current in c.holders || (c.holders == [] && b == |c.levels|)))
  {}
}
