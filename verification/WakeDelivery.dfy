/**
 The two-phase block against every wake, local or from another core: wait_on with and
 without a cancel, a mutex's lock, and suspend. Any number of threads, and any number
 of wakes under way for each. A wake is made by whoever took the thread's node or
 raised its token; on the thread's own core it clears the disposition, looks at the
 state and readies, and from another core it posts to the intake, whose requests are
 each serviced after they are posted (module Intake). A thread may also be handed a
 mutex by another core while it is ready, so where a ready thread is filed is part of
 the protocol.
 */
module WakeDelivery {
  import opened Threads
  import opened Waiters

  datatype Run = Running | Matrix | Holders | Blocked

  /** A wait on a waitable, with or without a cancel signal, or a suspend. */
  datatype What = Wait(cancel: bool) | Suspend

  /** Where the thread is in it. */
  datatype Pc =
    | Outside
    | Arm(what: What)
    | ArmCancel(what: What)
    | Poll(what: What)         // for a suspend: the look at the token
    | Settle(what: What)       // the poll ended the pass
    | Clear(what: What)        // about to give up the intent to block
    | Commit(what: What)
    | Park(what: What)         // under the mask, its core deciding the switch
    | Disarm(what: What)       // run again after the commit, or settled
    | DisarmCancel(what: What)
    | Again(what: What)        // about to return, or to make another pass

  /** Servicing of the thread's intake request by its core: the claim taken, then the disposition cleared. */
  datatype Serving = NotServing | Claimed | Cleared

  /** One thread, with the wakes under way for it counted by how far they have come. */
  datatype Thread = Thread(
    run: Run,
    aside: bool,         // filed as ready while it executes: a wake readied it as it ran
    prepared: bool, pc: Pc,
    node: Node, cancelNode: Node, token: bool,
    held: nat,           // mutexes filed in its slots
    filing: nat,         // hand-overs that took its node and have yet to file the mutex
    start: nat,          // wakes about to call global_ready_thread
    cleared: nat,        // local wakes past the clear, about to look at the state
    readying: nat,       // local wakes about to ready it
    pending: bool,       // a request for it is on its core's intake, or on the way
    serving: Serving)

  type System = seq<Thread>

  datatype Action =
    // the thread itself
    | Begin(t: Tid, what: What)
    | Advance(t: Tid, met: bool)   // met: what a poll answers, or whether another pass is not needed
    | Acquire(t: Tid)              // it takes a mutex
    | Release(t: Tid)
    // its core
    | Preempt(t: Tid)
    | Pick(t: Tid)
    // wakes
    | TakeNode(t: Tid)
    | TakeCancelNode(t: Tid)
    | HandOver(t: Tid)             // takes the node, to file a mutex and wake
    | FileMutex(t: Tid)
    | Resume(t: Tid)
    | LocalClear(t: Tid)
    | LocalLook(t: Tid)
    | LocalReady(t: Tid)
    | Post(t: Tid)
    | Claim(t: Tid)
    | ServiceClear(t: Tid)
    | ServiceReady(t: Tid)

  /** Its core is inside a park or a drain that concerns it, so nothing else runs there. */
  predicate CoreBusy(x: Thread) { x.pc.Park? || x.serving != NotServing }

  predicate Enabled(s: System, a: Action) { a.t < |s| && CanStep(s[a.t], a) }

  predicate Executing(x: Thread) { x.run.Running? || x.aside }

  predicate CanStep(x: Thread, a: Action) {
    match a
    case Begin(_, _) => Executing(x) && x.pc.Outside? && !CoreBusy(x)
    case Advance(_, _) => !x.pc.Outside? && x.serving == NotServing && (Executing(x) || x.pc.Park?)
    case Acquire(_) => Executing(x) && !CoreBusy(x)
    case Release(_) => Executing(x) && !CoreBusy(x) && x.held > 0
    case Preempt(_) => Executing(x) && !CoreBusy(x)
    case Pick(_) => (x.run.Matrix? || x.run.Holders?) && !CoreBusy(x)
    case TakeNode(_) => x.node.Queued?
    case TakeCancelNode(_) => x.cancelNode.Queued?
    case HandOver(_) => x.node.Queued?
    case FileMutex(_) => x.filing > 0
    case Resume(_) => true
    // Local wakes run on the thread's core, so not inside its park.
    case LocalClear(_) => x.start > 0 && !x.pc.Park?
    case LocalLook(_) => x.cleared > 0 && !x.pc.Park?
    case LocalReady(_) => x.readying > 0 && !x.pc.Park?
    case Post(_) => x.start > 0
    case Claim(_) => x.pending && x.serving == NotServing
    case ServiceClear(_) => x.serving == Claimed
    case ServiceReady(_) => x.serving == Cleared
  }

  /** admit: the holder list for a holder, the matrix for everyone else. */
  function Admitted(x: Thread): Thread { x.(run := if x.held == 0 then Matrix else Holders) }

  /** make_ready, which re-routes a thread that became a holder while in the matrix. */
  function MadeReady(x: Thread): Thread {
    if x.run.Matrix? then (if x.held > 0 then x.(run := Holders) else x)
    else if x.run.Holders? then x
    else Admitted(x)
  }

  function Step(s: System, a: Action): System
    requires Enabled(s, a)
  {
    s[a.t := StepOf(s[a.t], a)]
  }

  function StepOf(x: Thread, a: Action): Thread
    requires CanStep(x, a)
  {
    match a
    case Begin(_, what) => x.(prepared := true, pc := if what.Suspend? then Poll(what) else Arm(what))
    case Advance(_, met) => Advanced(x, met)
    case Acquire(_) => x.(held := x.held + 1)
    case Release(_) => x.(held := x.held - 1)
    // A decision leaves it behind: filed already, it stays where it is.
    case Preempt(_) => if x.aside then x.(aside := false) else Admitted(x)
    case Pick(_) => x.(run := Running, aside := false)
    case TakeNode(_) => x.(node := Taken, start := x.start + 1)
    case TakeCancelNode(_) => x.(cancelNode := Taken, start := x.start + 1)
    case HandOver(_) => x.(node := Taken, filing := x.filing + 1)
    case FileMutex(_) => x.(held := x.held + 1, filing := x.filing - 1, start := x.start + 1)
    case Resume(_) => x.(token := true, start := x.start + 1)
    case LocalClear(_) => x.(prepared := false, start := x.start - 1, cleared := x.cleared + 1)
    case LocalLook(_) =>
      x.(cleared := x.cleared - 1, readying := if x.run.Running? then x.readying else x.readying + 1)
    // make_ready does not ask whether the thread runs.
    case LocalReady(_) => MadeReady(x.(readying := x.readying - 1, aside := Executing(x)))
    case Post(_) => x.(start := x.start - 1, pending := true)
    case Claim(_) => x.(pending := false, serving := Serving.Claimed)
    case ServiceClear(_) => x.(prepared := false, serving := Cleared)
    case ServiceReady(_) => MadeReady(x.(serving := NotServing))
  }

  function Advanced(x: Thread, met: bool): Thread
    requires !x.pc.Outside?
  {
    match x.pc
    case Arm(what) => x.(node := Queued, pc := if what == Wait(true) then ArmCancel(what) else Poll(what))
    case ArmCancel(what) => x.(cancelNode := Queued, pc := Poll(what))
    case Poll(what) =>
      if what.Suspend? then x.(pc := if x.token then Settle(what) else Commit(what))
      else x.(pc := if met then Clear(what) else Commit(what))
    case Settle(what) => x.(token := false, pc := Clear(what))
    case Clear(what) => x.(prepared := false, pc := if what.Suspend? then Outside else Disarm(what))
    case Commit(what) => x.(pc := if x.prepared then Park(what) else Disarm(what))
    // The switch of a park, after the core took in its intake: blocked, unless that readied it.
    case Park(what) =>
      if x.run.Running? then x.(prepared := false, run := Blocked, pc := Disarm(what))
      else x.(aside := false, pc := Disarm(what))
    case Disarm(what) =>
      if what.Suspend? then x.(prepared := true, pc := Poll(what))
      else x.(node := Unlinked, pc := if what.cancel then DisarmCancel(what) else Again(what))
    case DisarmCancel(what) => x.(cancelNode := Unlinked, pc := Again(what))
    case Again(what) => if met then x.(pc := Outside) else x.(prepared := true, pc := Arm(what))
  }

  ghost predicate Init(s: System) {
    forall t :: 0 <= t < |s| ==> Fresh(s[t])
  }

  /** Running or ready, with nothing held, awaited or on its way. */
  predicate Fresh(x: Thread) {
    && x == Thread(x.run, false, false, Outside, Unlinked, Unlinked, false, 0, 0, 0, 0, 0, false, NotServing)
    && (x.run.Running? || x.run.Matrix?)
  }

  ghost predicate IsRun(run: seq<System>, acts: seq<Action>) {
    |run| == |acts| + 1 && Init(run[0]) && forall k: nat :: k < |acts| ==> Steps(run, acts, k)
  }

  predicate Steps(run: seq<System>, acts: seq<Action>, k: nat)
    requires |run| == |acts| + 1 && k < |acts|
  {
    Enabled(run[k], acts[k]) && run[k + 1] == Step(run[k], acts[k])
  }

  /* ------------------------------------------------------- the invariant */

  /** A delivery that will still clear the disposition. */
  predicate Early(x: Thread) { x.filing > 0 || x.start > 0 || x.pending || x.serving == Claimed }

  /** A delivery of any kind is on its way to the thread. */
  predicate InFlight(x: Thread) { Early(x) || x.serving == Cleared || x.cleared > 0 || x.readying > 0 }

  /** Something this pass waits for has happened and taken a wake with it. */
  predicate Woken(x: Thread) {
    match x.pc
    case Outside => false
    case pc =>
      if pc.what.Suspend? then (pc.Commit? || pc.Park? || pc.Disarm?) && x.token
      else x.node.Taken? || x.cancelNode.Taken?
  }

  /** Between the prepare and the park. */
  predicate MayPark(pc: Pc) { pc.Arm? || pc.ArmCancel? || pc.Poll? || pc.Commit? || pc.Park? }

  predicate Inv(x: Thread) { Promise(x) && Shape(x) }

  predicate Promise(x: Thread) {
    && (x.run.Blocked? ==> x.pc.Disarm? && (Woken(x) ==> InFlight(x)))
    && (MayPark(x.pc) && x.prepared && Woken(x) ==> Early(x))
    && (x.pc.Park? && x.run.Running? ==> x.prepared || x.serving == Cleared)
    && (x.aside ==> x.run.Matrix? || x.run.Holders?)
  }

  predicate Shape(x: Thread) {
    && (x.pc.Arm? || x.pc.Again? ==> x.pc.what.Wait?)
    && (x.pc.ArmCancel? || x.pc.DisarmCancel? ==> x.pc.what == Wait(true))
    // The nodes are off their queues outside a pass.
    && (!x.node.Unlinked? ==>
          x.pc.ArmCancel? || x.pc.Poll? || x.pc.Clear? || x.pc.Commit? || x.pc.Park? || x.pc.Disarm?)
    && (!x.cancelNode.Unlinked? ==>
          x.pc.Poll? || x.pc.Clear? || x.pc.Commit? || x.pc.Park? || x.pc.Disarm? || x.pc.DisarmCancel?)
    && (!x.pc.Outside? && x.pc.what != Wait(true) ==> x.cancelNode.Unlinked?)
    && (!x.pc.Outside? && x.pc.what.Suspend? ==> x.node.Unlinked?)
  }

  predicate Deciding(pc: Pc) { pc.Commit? || pc.Park? || pc.Disarm? }

  predicate Arming(pc: Pc) { pc.Arm? || pc.ArmCancel? || pc.Poll? }

  lemma ArmingShape(x: Thread, a: Action)
    requires Inv(x) && CanStep(x, a) && a.Advance? && Arming(x.pc)
    ensures Shape(StepOf(x, a))
  {
    match x.pc case Arm(_) => case ArmCancel(_) => case _ =>
  }

  lemma AdvanceShape(x: Thread, a: Action)
    requires Inv(x) && CanStep(x, a) && a.Advance?
    ensures Shape(StepOf(x, a))
  {
    if Arming(x.pc) { ArmingShape(x, a); }
    else { match x.pc case Disarm(_) => case DisarmCancel(_) => case _ => }
  }

  lemma DecidingKeeps(x: Thread, a: Action)
    requires Inv(x) && CanStep(x, a) && a.Advance? && Deciding(x.pc)
    ensures Promise(StepOf(x, a))
  {
    match x.pc case Park(_) => case Disarm(_) => case _ =>
  }

  lemma ArmingKeeps(x: Thread, a: Action)
    requires Inv(x) && CanStep(x, a) && a.Advance? && Arming(x.pc)
    ensures Promise(StepOf(x, a))
  {
    match x.pc case Arm(_) => case ArmCancel(_) => case _ =>
  }

  lemma EndingKeeps(x: Thread, a: Action)
    requires Inv(x) && CanStep(x, a) && a.Advance? && !Arming(x.pc) && !Deciding(x.pc)
    ensures Promise(StepOf(x, a))
  {
    match x.pc case Settle(_) => case Clear(_) => case _ =>
  }

  lemma AdvanceKeeps(x: Thread, a: Action)
    requires Inv(x) && CanStep(x, a) && a.Advance?
    ensures Inv(StepOf(x, a))
  {
    AdvanceShape(x, a);
    if Arming(x.pc) { ArmingKeeps(x, a); }
    else if Deciding(x.pc) { DecidingKeeps(x, a); }
    else { EndingKeeps(x, a); }
  }

  lemma OwnKeeps(x: Thread, a: Action)
    requires Inv(x) && CanStep(x, a) && (a.Begin? || a.Acquire? || a.Release? || a.Preempt? || a.Pick?)
    ensures Inv(StepOf(x, a))
  {
    match a case Begin(_, _) => case Acquire(_) => case Release(_) => case Preempt(_) => case _ =>
  }

  lemma WakeKeeps(x: Thread, a: Action)
    requires Inv(x) && CanStep(x, a)
    requires a.TakeNode? || a.TakeCancelNode? || a.HandOver? || a.FileMutex? || a.Resume?
    ensures Inv(StepOf(x, a))
  {
    match a case TakeNode(_) => case TakeCancelNode(_) => case HandOver(_) => case FileMutex(_) => case _ =>
  }

  predicate Delivers(a: Action) {
    a.LocalClear? || a.LocalLook? || a.LocalReady? || a.Post? || a.Claim? || a.ServiceClear? || a.ServiceReady?
  }

  lemma DeliveryKeeps(x: Thread, a: Action)
    requires Inv(x) && CanStep(x, a) && Delivers(a)
    ensures Inv(StepOf(x, a))
  {
    match a case LocalClear(_) => case LocalLook(_) => case LocalReady(_) => case Post(_) => case Claim(_) => case _ =>
  }

  lemma StepKeeps(x: Thread, a: Action)
    requires Inv(x) && CanStep(x, a)
    ensures Inv(StepOf(x, a))
  {
    if a.Advance? { AdvanceKeeps(x, a); }
    else if Delivers(a) { DeliveryKeeps(x, a); }
    else if a.Begin? || a.Acquire? || a.Release? || a.Preempt? || a.Pick? { OwnKeeps(x, a); }
    else { WakeKeeps(x, a); }
  }

  lemma {:induction false} RunKeeps(run: seq<System>, acts: seq<Action>, k: nat, t: Tid)
    requires IsRun(run, acts) && k < |run| && t < |run[k]|
    ensures Inv(run[k][t])
    decreases k
  {
    if k > 0 {
      assert Steps(run, acts, k - 1);
      RunKeeps(run, acts, k - 1, t);
      SystemKeeps(run[k - 1], acts[k - 1], t);
    } else {
      FreshKeeps(run[0][t]);
    }
  }

  lemma FreshKeeps(x: Thread)
    requires Fresh(x)
    ensures Inv(x)
  {}

  lemma SystemKeeps(s: System, a: Action, t: Tid)
    requires Enabled(s, a) && t < |s| && Inv(s[t])
    ensures Inv(Step(s, a)[t])
  {
    if a.t == t { StepKeeps(s[t], a); }
  }

  /* -------------------------------------------------------- the theorems */

  predicate InSuspend(x: Thread) { !x.pc.Outside? && x.pc.what.Suspend? }

  /** A blocked thread whose node a wake took, or whose token is up in suspend, has a delivery in flight. */
  lemma NoWakeIsDropped(run: seq<System>, acts: seq<Action>, k: nat, t: Tid)
    requires IsRun(run, acts) && k < |run| && t < |run[k]| && run[k][t].run.Blocked?
    requires run[k][t].node.Taken? || run[k][t].cancelNode.Taken? || (InSuspend(run[k][t]) && run[k][t].token)
    ensures InFlight(run[k][t])
  {
    RunKeeps(run, acts, k, t);
  }

  /** A thread about to block still intends to: what the park asserts of its disposition. */
  lemma ParksOnlyPrepared(run: seq<System>, acts: seq<Action>, k: nat, t: Tid)
    requires IsRun(run, acts) && k < |acts| && t < |run[k]| && acts[k].Advance? && acts[k].t == t
    requires run[k][t].pc.Park? && run[k][t].run.Running?
    ensures run[k][t].prepared && t < |run[k + 1]| && run[k + 1][t].run.Blocked?
  {
    RunKeeps(run, acts, k, t);
    assert Steps(run, acts, k);
  }

  /** A ready thread that holds a mutex is on the holder list, or a delivery that moves it there is in flight. */
  predicate Routed(x: Thread) { (x.run.Matrix? && x.held > 0 ==> InFlight(x)) && (x.run.Holders? ==> x.held > 0) }

  /**
   The thread takes its first mutex, or gives back its last, while it executes though a wake
   has filed it as ready, and no delivery is on the way that would file it again.
   */
  predicate Strays(x: Thread, a: Action) {
    x.aside && ((a.Acquire? && x.run.Matrix? && !InFlight(x)) || (a.Release? && x.run.Holders? && x.held == 1))
  }

  /** That step, and no other, takes a thread from where it should be. */
  lemma MisfiledIffStrays(x: Thread, a: Action)
    requires Inv(x) && CanStep(x, a) && Routed(x)
    ensures Routed(StepOf(x, a)) <==> !Strays(x, a)
  {
    if a.Advance? { AdvanceStaysRouted(x, a); }
    else if Delivers(a) { DeliveryStaysRouted(x, a); }
  }

  lemma AdvanceStaysRouted(x: Thread, a: Action)
    requires Inv(x) && CanStep(x, a) && Routed(x) && a.Advance?
    ensures Routed(StepOf(x, a))
  {
    match x.pc case Park(_) => case _ => StaysPut(x, a);
  }

  /** A thread's own step, but for its park, leaves it where it is filed, holding what it holds. */
  lemma StaysPut(x: Thread, a: Action)
    requires CanStep(x, a) && a.Advance? && !x.pc.Park?
    ensures var y := StepOf(x, a); y.run == x.run && y.held == x.held && InFlight(y) == InFlight(x)
  {
    match x.pc case Poll(_) => case Disarm(_) => case Again(_) => case _ =>
  }

  lemma DeliveryStaysRouted(x: Thread, a: Action)
    requires Inv(x) && CanStep(x, a) && Routed(x) && Delivers(a)
    ensures Routed(StepOf(x, a))
  {
    match a case LocalReady(_) => case ServiceReady(_) => case _ =>
  }

  ghost predicate Strayed(run: seq<System>, acts: seq<Action>, k: nat, t: Tid)
    requires IsRun(run, acts) && k < |run|
  {
    exists j: nat :: j < k && t < |run[j]| && acts[j].t == t && Strays(run[j][t], acts[j])
  }

  /** Late ownership is always re-routed, unless the thread has strayed. */
  lemma {:induction false} LateOwnershipIsRerouted(run: seq<System>, acts: seq<Action>, k: nat, t: Tid)
    requires IsRun(run, acts) && k < |run| && t < |run[k]|
    ensures Routed(run[k][t]) || Strayed(run, acts, k, t)
    decreases k
  {
    if k > 0 {
      var s, a := run[k - 1], acts[k - 1];
      assert Steps(run, acts, k - 1);
      LateOwnershipIsRerouted(run, acts, k - 1, t);
      RunKeeps(run, acts, k - 1, t);
      if a.t == t && Routed(s[t]) { MisfiledIffStrays(s[t], a); }
    } else {
      assert Fresh(run[0][t]);
    }
  }

  /** A thread readied as it runs takes a mutex, and is left in the matrix with it. */
  lemma AHolderCanBeLeftInTheMatrix() returns (run: seq<System>, acts: seq<Action>)
    ensures IsRun(run, acts) && |run[|acts|]| == 1
    ensures var x := run[|acts|][0]; x.run.Matrix? && x.held == 1 && !InFlight(x) && !Executing(x)
  {
    var x0, x1 := Plain(Matrix, false, false, 0, 0, 0), Plain(Matrix, false, true, 1, 0, 0);
    var x2, x3 := Plain(Matrix, false, true, 0, 1, 0), Plain(Matrix, false, true, 0, 0, 1);
    var x4, x5 := Plain(Running, false, true, 0, 0, 1), Plain(Matrix, true, true, 0, 0, 0);
    WakeSteps();
    run, acts := [[x0]], [];
    run, acts := Grow(run, acts, Resume(0), x0, x1);
    run, acts := Grow(run, acts, LocalClear(0), x1, x2);
    run, acts := Grow(run, acts, LocalLook(0), x2, x3);
    run, acts := Grow(run, acts, Pick(0), x3, x4);
    run, acts := Grow(run, acts, LocalReady(0), x4, x5);
    AsideSteps();
    run, acts := Grow(run, acts, Acquire(0), x5, x5.(held := 1));
    run, acts := Grow(run, acts, Preempt(0), x5.(held := 1), x5.(held := 1, aside := false));
  }

  lemma AsideSteps()
    ensures var x := Plain(Matrix, true, true, 0, 0, 0);
            && LeadsTo(x, Acquire(0), x.(held := 1))
            && LeadsTo(x.(held := 1), Preempt(0), x.(held := 1, aside := false))
  {}

  /** A thread outside any wait, but for what a wake of it changes. */
  function Plain(run: Run, aside: bool, token: bool, start: nat, cleared: nat, readying: nat): Thread {
    Thread(run, aside, false, Outside, Unlinked, Unlinked, token, 0, 0, start, cleared, readying, false, NotServing)
  }

  predicate LeadsTo(x: Thread, a: Action, y: Thread) { CanStep(x, a) && StepOf(x, a) == y }

  lemma WakeSteps()
    ensures LeadsTo(Plain(Matrix, false, false, 0, 0, 0), Resume(0), Plain(Matrix, false, true, 1, 0, 0))
    ensures LeadsTo(Plain(Matrix, false, true, 1, 0, 0), LocalClear(0), Plain(Matrix, false, true, 0, 1, 0))
    ensures LeadsTo(Plain(Matrix, false, true, 0, 1, 0), LocalLook(0), Plain(Matrix, false, true, 0, 0, 1))
    ensures LeadsTo(Plain(Matrix, false, true, 0, 0, 1), Pick(0), Plain(Running, false, true, 0, 0, 1))
    ensures LeadsTo(Plain(Running, false, true, 0, 0, 1), LocalReady(0), Plain(Matrix, true, true, 0, 0, 0))
  {}

  /** One more step of a system of one thread. */
  lemma Grow(run: seq<System>, acts: seq<Action>, a: Action, x: Thread, y: Thread)
    returns (run': seq<System>, acts': seq<Action>)
    requires IsRun(run, acts) && run[|acts|] == [x] && a.t == 0 && LeadsTo(x, a, y)
    ensures IsRun(run', acts') && |acts'| == |acts| + 1 && run'[|acts'|] == [y]
  {
    run', acts' := run + [[y]], acts + [a];
    assert [x][0 := y] == [y];
    forall k: nat | k < |acts'| ensures Steps(run', acts', k) { if k < |acts| { assert Steps(run, acts, k); } }
  }

  /**
   With nothing in flight no blocked thread has been woken, and one that has not strayed is
   filed by what it holds.
   */
  lemma AtRestDelivered(run: seq<System>, acts: seq<Action>, k: nat, t: Tid)
    requires IsRun(run, acts) && k < |run| && t < |run[k]| && !InFlight(run[k][t])
    ensures var x := run[k][t];
            && (x.run.Blocked? ==> !x.node.Taken? && !x.cancelNode.Taken? && (InSuspend(x) ==> !x.token))
            && (Strayed(run, acts, k, t) || ((x.run.Matrix? ==> x.held == 0) && (x.run.Holders? ==> x.held > 0)))
  {
    RunKeeps(run, acts, k, t);
    LateOwnershipIsRerouted(run, acts, k, t);
  }

  /* ------------------------------------------------------------ progress */

  /** How many delivery steps are left, at most. */
  function Left(x: Thread): nat {
    6 * x.filing + 5 * x.start + 2 * x.cleared + x.readying + (if x.pending then 4 else 0) +
    match x.serving case NotServing => 0 case Claimed => 3 case Cleared => 2
  }

  /** t's step settles its suspend: the token is up. */
  predicate Settles(s: System, a: Action, t: Tid) {
    t < |s| && a.Advance? && a.t == t && s[t].pc.Settle? && s[t].token
  }

  /** A suspend of t has settled, and lowered the token, after step k and before state n. */
  ghost predicate SettledSince(run: seq<System>, acts: seq<Action>, t: Tid, k: nat, n: nat)
    requires n <= |acts| && n < |run|
  {
    exists j: nat :: k < j < n && SettledAt(run, acts, t, j)
  }

  predicate SettledAt(run: seq<System>, acts: seq<Action>, t: Tid, j: nat)
    requires j < |acts| && j + 1 < |run|
  {
    Settles(run[j], acts[j], t) && t < |run[j + 1]| && !run[j + 1][t].token
  }

  /** A resume is remembered until a suspend of the thread settles on it. */
  lemma {:induction false} ResumesAreRemembered(run: seq<System>, acts: seq<Action>, t: Tid, k: nat, n: nat)
    requires IsRun(run, acts) && k < n < |run| && acts[k] == Resume(t)
    ensures t < |run[n]| && (run[n][t].token || SettledSince(run, acts, t, k, n))
    decreases n
  {
    assert Steps(run, acts, n - 1);
    if n > k + 1 {
      ResumesAreRemembered(run, acts, t, k, n - 1);
      if SettledSince(run, acts, t, k, n - 1) {
        var j: nat :| k < j < n - 1 && SettledAt(run, acts, t, j);
        assert k < j < n && SettledAt(run, acts, t, j);
      } else {
        TokenStands(run[n - 1][t], acts[n - 1]);
        if Settles(run[n - 1], acts[n - 1], t) { assert k < n - 1 < n && SettledAt(run, acts, t, n - 1); }
      }
    }
  }

  lemma TokenStands(x: Thread, a: Action)
    ensures CanStep(x, a) && x.token && !StepOf(x, a).token ==> a.Advance? && x.pc.Settle?
  {
    if CanStep(x, a) && a.Advance? { match x.pc case Settle(_) => case _ => }
  }

  /** How far a suspend has come: past its settling, with the token lowered, or not. */
  ghost predicate SuspendAt(run: seq<System>, acts: seq<Action>, t: Tid, j: nat, k: nat)
    requires k <= |acts| && k < |run|
  {
    && t < |run[k]|
    && var pc := run[k][t].pc;
       && (pc.Outside? || pc.Clear? ==> SettledSince(run, acts, t, j, k))
       && (!pc.Outside? ==> pc.what.Suspend? && !pc.Arm? && !pc.Again? && !pc.DisarmCancel? && !pc.ArmCancel?)
       && (pc.Settle? ==> run[k][t].token)
  }

  lemma SuspendSteps(x: Thread, a: Action)
    requires CanStep(x, a) && InSuspend(x) && (x.pc.Settle? ==> x.token)
    requires !x.pc.Arm? && !x.pc.Again? && !x.pc.DisarmCancel? && !x.pc.ArmCancel?
    ensures var y := StepOf(x, a);
            && (y.pc.Outside? ==> x.pc.Clear?)
            && (y.pc.Clear? ==> x.pc.Clear? || (x.pc.Settle? && a.Advance? && !y.token))
            && (y.pc.Settle? ==> y.token)
            && (!y.pc.Outside? ==> y.pc.what.Suspend? && !y.pc.Arm? && !y.pc.Again? && !y.pc.DisarmCancel? &&
                                   !y.pc.ArmCancel?)
  {
    if a.Advance? { match x.pc case Poll(_) => case Settle(_) => case Clear(_) => case Disarm(_) => case _ => }
  }

  /** A suspend that returns has settled on a token it found up, and has lowered it. */
  lemma {:induction false} SuspendReturnsOnAToken(run: seq<System>, acts: seq<Action>, t: Tid, j: nat, k: nat)
    requires IsRun(run, acts) && j < k < |run| && acts[j] == Begin(t, Suspend)
    requires forall i :: j < i < k ==> t < |run[i]| && !run[i][t].pc.Outside?
    ensures SuspendAt(run, acts, t, j, k)
    decreases k
  {
    assert Steps(run, acts, k - 1);
    if k > j + 1 {
      SuspendReturnsOnAToken(run, acts, t, j, k - 1);
      if acts[k - 1].t == t { SuspendSteps(run[k - 1][t], acts[k - 1]); }
      SettledGoesOn(run, acts, t, j, k - 1);
    }
  }

  lemma SettledGoesOn(run: seq<System>, acts: seq<Action>, t: Tid, j: nat, k: nat)
    requires |run| == |acts| + 1 && j < k < |acts|
    ensures SettledSince(run, acts, t, j, k) || SettledAt(run, acts, t, k) ==> SettledSince(run, acts, t, j, k + 1)
  {
    if SettledSince(run, acts, t, j, k) {
      var i: nat :| j < i < k && SettledAt(run, acts, t, i);
      assert j < i < k + 1 && SettledAt(run, acts, t, i);
    }
    if SettledAt(run, acts, t, k) { assert j < k < k + 1 && SettledAt(run, acts, t, k); }
  }

  /** A wait that returns has found what it waits for after its disarm, and is on no queue. */
  lemma WaitReturnsWhenMet(run: seq<System>, acts: seq<Action>, t: Tid, k: nat)
    requires IsRun(run, acts) && k < |acts| && t < |run[k]| && t < |run[k + 1]|
    requires !run[k][t].pc.Outside? && run[k][t].pc.what.Wait? && run[k + 1][t].pc.Outside?
    ensures acts[k] == Advance(t, true) && run[k][t].pc.Again?
    ensures run[k + 1][t].node.Unlinked? && run[k + 1][t].cancelNode.Unlinked?
  {
    assert Steps(run, acts, k);
    RunKeeps(run, acts, k, t);
    WaitReturnStep(run[k][t], acts[k]);
  }

  lemma WaitReturnStep(x: Thread, a: Action)
    requires Shape(x) && CanStep(x, a) && !x.pc.Outside? && x.pc.what.Wait? && StepOf(x, a).pc.Outside?
    ensures a == Advance(a.t, true) && x.pc.Again? && StepOf(x, a).node.Unlinked? && StepOf(x, a).cancelNode.Unlinked?
  {
    if a.Advance? { match x.pc case Again(_) => case Clear(_) => case Poll(_) => case _ => }
  }

  /** While a blocked thread has a delivery in flight, a step of one is possible. */
  lemma DeliveryCanStep(run: seq<System>, acts: seq<Action>, k: nat, t: Tid)
    requires IsRun(run, acts) && k < |run| && t < |run[k]| && run[k][t].run.Blocked? && InFlight(run[k][t])
    ensures exists a: Action :: (Delivers(a) || a.FileMutex?) && a.t == t && Enabled(run[k], a)
  {
    RunKeeps(run, acts, k, t);
    var x := run[k][t];
    assert x.filing > 0 ==> Enabled(run[k], FileMutex(t));
    assert x.start > 0 ==> Enabled(run[k], Post(t));
    assert x.cleared > 0 ==> Enabled(run[k], LocalLook(t));
    assert x.readying > 0 ==> Enabled(run[k], LocalReady(t));
    assert x.serving == Claimed ==> Enabled(run[k], ServiceClear(t));
    assert x.serving == Cleared ==> Enabled(run[k], ServiceReady(t));
    assert x.pending && x.serving == NotServing ==> Enabled(run[k], Claim(t));
  }

  /**
   And every such step readies it, or leaves it blocked with fewer left and a delivery
   still in flight: so the deliveries in flight end with the thread ready.
   */
  lemma DeliveriesReady(x: Thread, a: Action)
    requires Inv(x) && CanStep(x, a) && x.run.Blocked? && (Delivers(a) || a.FileMutex?)
    ensures var y := StepOf(x, a);
            y.run.Matrix? || y.run.Holders? || (y.run.Blocked? && InFlight(y) && Left(y) < Left(x))
  {
    match a
    case LocalClear(_) => case LocalLook(_) => case LocalReady(_) => case Post(_) => case Claim(_) =>
    case ServiceClear(_) => case ServiceReady(_) => case _ =>
  }
}
