/**
 The condition variable on the wait engine. Its first poll, made armed, releases the
 mutex, and every later poll answers whether a notify took the wait's node. Any number of
 waiters and notifiers, waits with and without a deadline.

 A pass that polled in vain ends by a delivery: of the wake that took its node, of its
 deadline, or of one that is not its own, a resume or the late wake of an earlier wait. A
 delivery may be as late as it likes, so one still on its way when its pass is over is
 foreign to whatever the thread waits for next. That covers a deadline's wake too, though a
 timer interrupt on the waiter's own core delivers it at once.
 */
module ConditionVariable {
  import opened Wrappers
  import opened Waiters

  datatype Pc =
    | Idle
    | NotifyingAll
    | Prepare(cancel: bool) // about to set the intent to block
    | Arm(cancel: bool)
    | Poll(cancel: bool)
    | Met                   // an armed poll found the record chosen
    | Vain(cancel: bool)    // polled in vain: parked, or about to be
    | Quit(cancel: bool)    // polled in vain with the deadline passed: does not park
    | Repoll(cancel: bool)  // disarmed
    | Relock(result: bool)  // the wait is over: notified, or cancelled

  /**
   released and chosen are the wait's record. hit and strayed are history: a notify took the
   wait's node, and a foreign delivery reached one of its passes, from its prepare on.
   */
  datatype Context = Context(
    pc: Pc, node: Node, released: bool, chosen: bool,
    raised: bool,     // the wait's deadline has passed
    own: nat,         // deliveries on their way, of this pass
    foreign: nat,     // and any others
    woken: bool,      // a delivery reached it in this pass
    hit: bool, strayed: bool)

  datatype State = State(ctx: seq<Context>, takes: nat, notified: nat, timedOut: nat)

  datatype Action =
    | Wait(c: Cid, cancel: bool)
    | NotifyOne(c: Cid, to: Option<Cid>)
    | NotifyAll(c: Cid)
    | Advance(c: Cid, to: Option<Cid>)
    | Raise(c: Cid)                   // the deadline of its wait passes
    | Resume(c: Cid)                  // thread::resume, or a wake of some other wait
    | Deliver(c: Cid, foreign: bool)

  predicate NobodyQueued(s: State) { forall i :: 0 <= i < |s.ctx| ==> !s.ctx[i].node.Queued? }

  /** A notify takes a queued node, and none only when none is queued. */
  predicate CanTake(s: State, to: Option<Cid>) {
    match to
    case Some(w) => w < |s.ctx| && s.ctx[w].node.Queued?
    case None => NobodyQueued(s)
  }

  predicate Waiting(x: Context) { !x.pc.Idle? && !x.pc.NotifyingAll? }

  predicate ArmedAt(pc: Pc) { pc.Poll? || pc.Met? || pc.Vain? || pc.Quit? }

  /** From the prepare to the disarm, where a delivery has an effect. */
  predicate InPass(pc: Pc) { pc.Arm? || ArmedAt(pc) }

  predicate Enabled(s: State, a: Action) {
    a.c < |s.ctx| &&
    var x := s.ctx[a.c];
    match a
    case Wait(_, _) => x.pc.Idle?
    case NotifyOne(_, to) => x.pc.Idle? && CanTake(s, to)
    case NotifyAll(_) => x.pc.Idle?
    case Advance(_, to) => !x.pc.Idle? && (x.pc.NotifyingAll? ==> CanTake(s, to)) && (x.pc.Vain? ==> x.woken)
    case Raise(_) => Waiting(x) && !x.pc.Met? && !x.pc.Relock? && x.pc.cancel && !x.raised
    case Resume(_) => true
    case Deliver(_, foreign) => if foreign then x.foreign > 0 else x.own > 0
  }

  function Put(s: State, c: Cid, x: Context): State
    requires c < |s.ctx|
  {
    s.(ctx := s.ctx[c := x])
  }

  function Goto(s: State, c: Cid, pc: Pc): State
    requires c < |s.ctx|
  {
    Put(s, c, s.ctx[c].(pc := pc))
  }

  /** A notify's take, and the wake that follows it. */
  function TakeNode(s: State, to: Option<Cid>): State
    requires CanTake(s, to)
  {
    if to == None then s
    else
      var x := s.ctx[to.value];
      Put(s, to.value, x.(node := Taken, hit := true, own := x.own + 1)).(takes := s.takes + 1)
  }

  function Disarmed(x: Context, pc: Pc): Context {
    x.(pc := pc, node := Unlinked, chosen := x.chosen || x.node.Taken?)
  }

  /** A delivery clears the intent to block, or readies the thread. One that finds it in no pass does neither. */
  function Delivered(x: Context, foreign: bool): Context
    requires if foreign then x.foreign > 0 else x.own > 0
  {
    var y := if foreign then x.(foreign := x.foreign - 1) else x.(own := x.own - 1);
    if InPass(x.pc) then y.(woken := true, strayed := x.strayed || foreign) else y
  }

  function Step(s: State, a: Action): State
    requires Enabled(s, a)
  {
    var c := a.c;
    var x := s.ctx[c];
    match a
    case Wait(_, cancel) =>
      Put(s, c, Context(Prepare(cancel), Unlinked, false, false, false, x.own, x.foreign, false, false, false))
    case NotifyOne(_, to) => TakeNode(s, to)
    case NotifyAll(_) => Goto(s, c, NotifyingAll)
    case Raise(_) => Put(s, c, x.(raised := true, own := if ArmedAt(x.pc) then x.own + 1 else x.own))
    case Resume(_) => Put(s, c, x.(foreign := x.foreign + 1))
    case Deliver(_, foreign) => Put(s, c, Delivered(x, foreign))
    case Advance(_, to) =>
      match x.pc
      case NotifyingAll => if to == None then Goto(s, c, Idle) else TakeNode(s, to)
      case Prepare(cancel) => Put(s, c, x.(pc := Arm(cancel), own := 0, foreign := x.foreign + x.own, woken := false))
      case Arm(cancel) => Put(s, c, x.(pc := Poll(cancel), node := Queued))
      case Poll(cancel) =>
        var pc := if x.chosen then Met else if cancel && x.raised then Quit(cancel) else Vain(cancel);
        Put(s, c, x.(pc := pc, released := true))
      case Met => Put(s, c, Disarmed(x, Relock(true)))
      case Vain(cancel) => Put(s, c, Disarmed(x, Repoll(cancel)))
      case Quit(cancel) => Put(s, c, Disarmed(x, Repoll(cancel)))
      case Repoll(cancel) =>
        Goto(s, c, if x.chosen then Relock(true) else if cancel && x.raised then Relock(false) else Prepare(cancel))
      case Relock(result) =>
        var s1 := Put(s, c, Context(Idle, Unlinked, false, false, false, 0, x.foreign + x.own, false, false, false));
        if result then s1.(notified := s.notified + 1) else s1.(timedOut := s.timedOut + 1)
  }

  const IDLE := Context(Idle, Unlinked, false, false, false, 0, 0, false, false, false)

  predicate Fresh(x: Context) { x == IDLE }

  ghost predicate Init(s: State) {
    s.takes == s.notified == s.timedOut == 0 && forall i :: 0 <= i < |s.ctx| ==> Fresh(s.ctx[i])
  }

  ghost predicate IsRun(run: seq<State>, acts: seq<Action>) {
    |run| == |acts| + 1 && Init(run[0]) && forall k: nat :: k < |acts| ==> Steps(run, acts, k)
  }

  predicate Steps(run: seq<State>, acts: seq<Action>, k: nat)
    requires |run| == |acts| + 1 && k < |acts|
  {
    Enabled(run[k], acts[k]) && run[k + 1] == Step(run[k], acts[k])
  }

  /* ------------------------------------------------------- the invariant */

  /** The deadline of the wait has passed. */
  predicate TimedOut(x: Context) {
    (x.pc.Prepare? || x.pc.Arm? || x.pc.Poll? || x.pc.Vain? || x.pc.Quit? || x.pc.Repoll?) && x.pc.cancel && x.raised
  }

  predicate ContextOk(x: Context) {
    && (x.node.Unlinked? <==> !ArmedAt(x.pc))
    && (x.chosen ==> x.pc.Repoll? || (x.pc.Relock? && x.pc.result))
    && (x.hit <==> x.chosen || x.node.Taken?)
    && (x.pc.Relock? && x.pc.result ==> x.chosen)
    && !x.pc.Met?
    && (x.pc.Vain? || x.pc.Quit? || x.pc.Repoll? || x.pc.Relock? ==> x.released)
    && PassOk(x)
  }

  /** What has reached a pass, or is on its way to it as its own, is a take, its deadline, or foreign. */
  predicate PassOk(x: Context) {
    && (x.own > 0 && (ArmedAt(x.pc) || x.pc.Repoll?) ==> x.hit || TimedOut(x))
    && (x.own > 0 ==> ArmedAt(x.pc) || x.pc.Repoll? || x.pc.Relock?)
    && (x.woken && InPass(x.pc) ==> x.hit || TimedOut(x) || x.strayed)
    && (x.pc.Quit? ==> TimedOut(x))
    && (x.pc.Repoll? ==> x.hit || TimedOut(x) || x.strayed)
    && ((x.pc.Prepare? || x.pc.Arm?) && x.released ==> x.strayed)
  }

  /** A notify received by a wait that has not returned. */
  function Unreturned(x: Context): nat { if x.hit then 1 else 0 }

  ghost predicate Inv(s: State) {
    && s.takes == s.notified + Sum(s.ctx, Unreturned)
    && forall i :: 0 <= i < |s.ctx| ==> ContextOk(s.ctx[i])
  }

  lemma TakeKeeps(s: State, to: Option<Cid>)
    requires Inv(s) && CanTake(s, to)
    ensures Inv(TakeNode(s, to))
  {
    if to.Some? {
      assert ContextOk(s.ctx[to.value]);
      SumUpdate(s.ctx, to.value, TakeNode(s, to).ctx[to.value], Unreturned);
    }
  }

  lemma Finish(s: State, s': State, c: Cid, y: Context)
    requires Inv(s) && c < |s.ctx| && s'.ctx == s.ctx[c := y] && ContextOk(y)
    requires s'.takes == s.takes && s.notified + Unreturned(s.ctx[c]) == s'.notified + Unreturned(y)
    ensures Inv(s')
  {
    SumUpdate(s.ctx, c, y, Unreturned);
  }

  predicate Notifies(s: State, a: Action)
    requires a.c < |s.ctx|
  {
    a.NotifyOne? || (a.Advance? && s.ctx[a.c].pc.NotifyingAll? && a.to.Some?)
  }

  /** Only the context's own record changes, to one that is in order, and what it is owed goes with it. */
  ghost predicate OnlyOwn(s: State, a: Action)
    requires Enabled(s, a)
  {
    var s' := Step(s, a);
    && |s'.ctx| == |s.ctx| && s'.ctx == s.ctx[a.c := s'.ctx[a.c]] && s'.takes == s.takes && ContextOk(s'.ctx[a.c])
    && s.notified + Unreturned(s.ctx[a.c]) == s'.notified + Unreturned(s'.ctx[a.c])
  }

  lemma PassKeeps(s: State, a: Action)
    requires Inv(s) && Enabled(s, a) && a.Advance? && ArmedAt(s.ctx[a.c].pc)
    ensures OnlyOwn(s, a)
  {
    assert ContextOk(s.ctx[a.c]);
  }

  lemma BetweenKeeps(s: State, a: Action)
    requires Inv(s) && Enabled(s, a) && a.Advance? && !ArmedAt(s.ctx[a.c].pc) && !Notifies(s, a)
    ensures OnlyOwn(s, a)
  {
    assert ContextOk(s.ctx[a.c]);
  }

  lemma DeliveryKeeps(s: State, a: Action)
    requires Inv(s) && Enabled(s, a) && !a.Advance? && !Notifies(s, a)
    ensures OnlyOwn(s, a)
  {
    assert ContextOk(s.ctx[a.c]);
  }

  lemma StepKeeps(s: State, a: Action)
    requires Inv(s) && Enabled(s, a)
    ensures Inv(Step(s, a))
  {
    if Notifies(s, a) {
      TakeKeeps(s, a.to);
    } else {
      if !a.Advance? {
        DeliveryKeeps(s, a);
      } else if ArmedAt(s.ctx[a.c].pc) {
        PassKeeps(s, a);
      } else {
        BetweenKeeps(s, a);
      }
      Finish(s, Step(s, a), a.c, Step(s, a).ctx[a.c]);
    }
  }

  lemma {:induction false} RunKeeps(run: seq<State>, acts: seq<Action>, k: nat)
    requires IsRun(run, acts) && k < |run|
    ensures Inv(run[k])
    decreases k
  {
    if k > 0 {
      RunKeeps(run, acts, k - 1);
      assert Steps(run, acts, k - 1);
      StepKeeps(run[k - 1], acts[k - 1]);
    } else {
      SumZero(run[0].ctx, Unreturned);
    }
  }

  /* -------------------------------------------------------- the theorems */

  /** A wait ends as notified exactly when a notify took its node. */
  lemma NotifiedIffTaken(run: seq<State>, acts: seq<Action>, k: nat, c: Cid)
    requires IsRun(run, acts) && k < |run| && c < |run[k].ctx| && run[k].ctx[c].pc.Relock?
    ensures run[k].ctx[c].pc.result <==> run[k].ctx[c].hit
  {
    RunKeeps(run, acts, k);
    assert ContextOk(run[k].ctx[c]);
  }

  /** In a wait with or without a deadline, the deadline not passed in the latter. */
  predicate InWait(x: Context, cancel: bool) {
    (x.pc.Prepare? || x.pc.Arm? || x.pc.Poll? || x.pc.Vain? || x.pc.Quit? || x.pc.Repoll?) && x.pc.cancel == cancel
  }

  lemma WaitStep(s: State, a: Action, c: Cid, cancel: bool)
    requires Inv(s) && Enabled(s, a) && c < |s.ctx| && InWait(s.ctx[c], cancel)
    ensures var s' := Step(s, a);
            && c < |s'.ctx|
            && (InWait(s'.ctx[c], cancel) ||
                (s'.ctx[c].pc.Relock? && (!s'.ctx[c].pc.result ==> cancel && s'.ctx[c].raised && s.ctx[c].raised)))
  {
    assert ContextOk(s.ctx[c]);
    if a.c != c { assert Step(s, a).ctx[c].pc == s.ctx[c].pc; }
  }

  /** A wait ends as timed out only if it has a deadline and that has passed: one without is notified. */
  lemma {:induction false} TimesOutOnlyPastItsDeadline(run: seq<State>, acts: seq<Action>, c: Cid, cancel: bool,
                                                       j: nat, k: nat)
    requires IsRun(run, acts) && j < k < |run| && acts[j] == Wait(c, cancel)
    requires forall i :: j < i < k ==> c < |run[i].ctx| && !run[i].ctx[c].pc.Relock?
    ensures c < |run[k].ctx|
    ensures || InWait(run[k].ctx[c], cancel)
            || (run[k].ctx[c].pc.Relock? && (!run[k].ctx[c].pc.result ==> cancel && run[k].ctx[c].raised))
    decreases k
  {
    assert Steps(run, acts, k - 1);
    if k > j + 1 {
      TimesOutOnlyPastItsDeadline(run, acts, c, cancel, j, k - 1);
      RunKeeps(run, acts, k - 1);
      WaitStep(run[k - 1], acts[k - 1], c, cancel);
    }
  }

  /** After a pass, a wait ends as notified if a notify took it, as timed out if its deadline has passed, or goes on. */
  lemma PassEndsTheWaitIff(run: seq<State>, acts: seq<Action>, k: nat, c: Cid)
    requires IsRun(run, acts) && k < |acts| && acts[k] == Advance(c, None) && c < |run[k].ctx|
    requires run[k].ctx[c].pc.Repoll?
    ensures c < |run[k + 1].ctx|
    ensures var x, y := run[k].ctx[c], run[k + 1].ctx[c].pc;
            if x.hit then y == Relock(true) else if TimedOut(x) then y == Relock(false) else y == Prepare(x.pc.cancel)
  {
    RunKeeps(run, acts, k);
    assert Steps(run, acts, k) && ContextOk(run[k].ctx[c]);
  }

  /** A notify_all that returns has left nobody queued. */
  lemma {:induction false} NotifyAllLeavesNobody(run: seq<State>, acts: seq<Action>, n: Cid, j: nat, k: nat)
    requires IsRun(run, acts) && j < k < |run| && acts[j] == NotifyAll(n)
    requires forall i :: j < i < k ==> n < |run[i].ctx| && !run[i].ctx[n].pc.Idle?
    ensures n < |run[k].ctx|
    ensures run[k].ctx[n].pc.NotifyingAll? || (run[k].ctx[n].pc.Idle? && NobodyQueued(run[k]))
    decreases k
  {
    assert Steps(run, acts, k - 1);
    if k > j + 1 {
      NotifyAllLeavesNobody(run, acts, n, j, k - 1);
      NotifyAllStep(run[k - 1], acts[k - 1], n);
    }
  }

  lemma NotifyAllStep(s: State, a: Action, n: Cid)
    requires Enabled(s, a) && n < |s.ctx| && s.ctx[n].pc.NotifyingAll?
    ensures var s' := Step(s, a);
            n < |s'.ctx| && (s'.ctx[n].pc.NotifyingAll? || (s'.ctx[n].pc.Idle? && NobodyQueued(s')))
  {
    if a.c != n { assert Step(s, a).ctx[n].pc == s.ctx[n].pc; }
  }

  /** Each node a notify took is one notified return, made or still to come. */
  lemma NotifiesAreConserved(run: seq<State>, acts: seq<Action>, k: nat)
    requires IsRun(run, acts) && k < |run|
    ensures run[k].takes == run[k].notified + Sum(run[k].ctx, Unreturned)
    ensures (forall i :: 0 <= i < |run[k].ctx| ==> !Waiting(run[k].ctx[i])) ==> run[k].takes == run[k].notified
  {
    var s := run[k];
    RunKeeps(run, acts, k);
    if forall i :: 0 <= i < |s.ctx| ==> !Waiting(s.ctx[i]) {
      forall i | 0 <= i < |s.ctx| ensures Unreturned(s.ctx[i]) == 0 { assert ContextOk(s.ctx[i]); }
      SumZero(s.ctx, Unreturned);
    }
  }

  /** It has released its mutex, no notify has taken it, and its wait is not over. */
  predicate AwaitsNotify(x: Context) { Waiting(x) && !x.pc.Relock? && x.released && !x.hit }

  /**
   No notify, of one or of all, can take a waiter that has released its mutex only if the
   wait's deadline has passed, or a foreign delivery has reached one of its passes.
   */
  lemma MissedOnlyAfterAForeignDelivery(run: seq<State>, acts: seq<Action>, k: nat, c: Cid)
    requires IsRun(run, acts) && k < |run| && c < |run[k].ctx|
    requires AwaitsNotify(run[k].ctx[c]) && !CanTake(run[k], Some(c))
    ensures run[k].ctx[c].strayed || TimedOut(run[k].ctx[c])
  {
    RunKeeps(run, acts, k);
    assert ContextOk(run[k].ctx[c]);
  }

  /** The step prepares a pass of c's. */
  predicate Prepares(s: State, a: Action, c: Cid) {
    c < |s.ctx| && a.Advance? && a.c == c && s.ctx[c].pc.Prepare?
  }

  /** Step j is a foreign delivery to the pass c is in at state k. */
  ghost predicate ReachedAt(run: seq<State>, acts: seq<Action>, j: nat, k: nat, c: Cid)
    requires |run| == |acts| + 1 && j < k < |run|
  {
    && c < |run[j].ctx| && acts[j] == Deliver(c, true) && InPass(run[j].ctx[c].pc)
    && forall i :: j < i < k ==> !Prepares(run[i], acts[i], c)
  }

  ghost predicate Reached(run: seq<State>, acts: seq<Action>, k: nat, c: Cid)
    requires |run| == |acts| + 1 && k < |run|
  {
    exists j: nat :: j < k && ReachedAt(run, acts, j, k, c)
  }

  lemma ReachedGoesOn(run: seq<State>, acts: seq<Action>, k: nat, c: Cid)
    requires |run| == |acts| + 1 && k < |acts| && c < |run[k].ctx|
    ensures Reached(run, acts, k + 1, c) <==>
              || (acts[k] == Deliver(c, true) && InPass(run[k].ctx[c].pc))
              || (Reached(run, acts, k, c) && !Prepares(run[k], acts[k], c))
  {
    assert ReachedAt(run, acts, k, k + 1, c) <==> acts[k] == Deliver(c, true) && InPass(run[k].ctx[c].pc);
    if Reached(run, acts, k + 1, c) {
      var j: nat :| j < k + 1 && ReachedAt(run, acts, j, k + 1, c);
      if j < k { assert ReachedAt(run, acts, j, k, c) && !Prepares(run[k], acts[k], c); }
    }
    if Reached(run, acts, k, c) && !Prepares(run[k], acts[k], c) {
      var j: nat :| j < k && ReachedAt(run, acts, j, k, c);
      assert ReachedAt(run, acts, j, k + 1, c);
    }
  }

  /** In a pass of a wait that no notify has taken and whose deadline has not passed. */
  predicate Undisturbed(x: Context) { InPass(x.pc) && !x.hit && !TimedOut(x) }

  lemma WokenStep(s: State, a: Action, c: Cid)
    requires Inv(s) && Enabled(s, a) && c < |s.ctx| && c < |Step(s, a).ctx| && Undisturbed(Step(s, a).ctx[c])
    ensures var x, y := s.ctx[c], Step(s, a).ctx[c];
            if Prepares(s, a, c) then !y.woken
            else Undisturbed(x) && (y.woken <==> x.woken || a == Deliver(c, true))
  {
    assert ContextOk(s.ctx[c]);
  }

  lemma {:induction false} WokenIffReached(run: seq<State>, acts: seq<Action>, k: nat, c: Cid)
    requires IsRun(run, acts) && k < |run| && c < |run[k].ctx| && Undisturbed(run[k].ctx[c])
    ensures run[k].ctx[c].woken <==> Reached(run, acts, k, c)
    decreases k
  {
    if k == 0 {
      assert Fresh(run[0].ctx[c]);
    } else {
      var s, a := run[k - 1], acts[k - 1];
      assert Steps(run, acts, k - 1);
      RunKeeps(run, acts, k - 1);
      WokenStep(s, a, c);
      ReachedGoesOn(run, acts, k - 1, c);
      if !Prepares(s, a, c) { WokenIffReached(run, acts, k - 1, c); }
    }
  }

  /**
   A waiter that polled in vain, taken by no notify and before its deadline, leaves the queue,
   where every notify would find it, if and only if a foreign delivery has reached this pass.
   */
  lemma LeavesTheQueueIff(run: seq<State>, acts: seq<Action>, k: nat, c: Cid)
    requires IsRun(run, acts) && k < |run| && c < |run[k].ctx|
    requires run[k].ctx[c].pc.Vain? && AwaitsNotify(run[k].ctx[c]) && !TimedOut(run[k].ctx[c])
    ensures CanTake(run[k], Some(c))
    ensures Enabled(run[k], Advance(c, None)) <==> Reached(run, acts, k, c)
    ensures Enabled(run[k], Advance(c, None)) ==>
              var s := Step(run[k], Advance(c, None)); !CanTake(s, Some(c)) && AwaitsNotify(s.ctx[c])
  {
    RunKeeps(run, acts, k);
    assert ContextOk(run[k].ctx[c]);
    WokenIffReached(run, acts, k, c);
  }

  /** Only c's context differs. */
  predicate SameBut(s: State, s': State, c: Cid) {
    |s'.ctx| == |s.ctx| && forall i :: 0 <= i < |s.ctx| && i != c ==> s'.ctx[i] == s.ctx[i]
  }

  /**
   Any foreign delivery on its way to a wait that no notify has taken, before its deadline, can
   bring that about. The wait's own steps and the delivery lead to a state in which it has
   released its mutex and no notify can take it, and one made with nobody else queued finds nobody.
   */
  lemma AForeignDeliveryOpensTheWindow(run: seq<State>, acts: seq<Action>, c: Cid)
    returns (run': seq<State>, acts': seq<Action>)
    requires IsRun(run, acts) && c < |run[|acts|].ctx|
    requires var x := run[|acts|].ctx[c]; Waiting(x) && !x.pc.Relock? && !x.hit && !TimedOut(x) && x.foreign > 0
    ensures IsRun(run', acts') && acts <= acts'
    ensures forall k :: |acts| <= k < |acts'| ==> acts'[k] == Advance(c, None) || acts'[k] == Deliver(c, true)
    ensures var s, s' := run[|acts|], run'[|acts'|];
            && SameBut(s, s', c) && AwaitsNotify(s'.ctx[c]) && !TimedOut(s'.ctx[c]) && !CanTake(s', Some(c))
            && ((forall i :: 0 <= i < |s.ctx| && i != c ==> !s.ctx[i].node.Queued?) ==> CanTake(s', None))
    decreases Ahead(run[|acts|].ctx[c])
  {
    var s := run[|acts|];
    var x := s.ctx[c];
    RunKeeps(run, acts, |acts|);
    assert ContextOk(x);
    if x.pc.Repoll? || (x.released && !InPass(x.pc)) || (x.released && x.pc.Arm?) {
      run', acts' := run, acts;
      assert !x.node.Queued?;
    } else if x.pc.Vain? {
      run', acts' := Extend(run, acts, Deliver(c, true));
      run', acts' := Extend(run', acts', Advance(c, None));
    } else {
      run', acts' := Extend(run, acts, Advance(c, None));
      run', acts' := AForeignDeliveryOpensTheWindow(run', acts', c);
    }
  }

  /** The steps from the start of a pass to its poll. */
  function Ahead(x: Context): nat {
    match x.pc
    case Prepare(_) => 3
    case Arm(_) => 2
    case Poll(_) => 1
    case _ => 0
  }

  lemma Extend(run: seq<State>, acts: seq<Action>, a: Action) returns (run': seq<State>, acts': seq<Action>)
    requires IsRun(run, acts) && Enabled(run[|acts|], a)
    ensures IsRun(run', acts') && acts' == acts + [a] && run' == run + [Step(run[|acts|], a)]
  {
    run', acts' := run + [Step(run[|acts|], a)], acts + [a];
    forall k: nat | k < |acts'| ensures Steps(run', acts', k) { if k < |acts| { assert Steps(run, acts, k); } }
  }

  /* ------------------------------------------------------ a notify missed */

  /**
   A notify made on another core takes a waiter's node, and its wake is still on its way when
   the waiter, woken by its deadline, returns as notified and waits again. It ends a pass of
   that wait, which nobody has notified and which has no deadline, and a notify finds nobody.
   */
  lemma ANotifyCanBeMissed() returns (run: seq<State>, acts: seq<Action>)
    ensures IsRun(run, acts) && |acts| > 0 && acts[|acts| - 1] == NotifyOne(1, None)
    ensures var s := run[|acts| - 1]; |s.ctx| == 2 && AwaitsNotify(s.ctx[0]) && !TimedOut(s.ctx[0])
    ensures forall k :: 0 <= k < |acts| ==> !acts[k].Resume?
  {
    run, acts := AWakeOutlivesItsWait();
    var go, prepared := Advance(0, None), IDLE.(pc := Arm(false), foreign := 1);
    run, acts := Grow(run, acts, Wait(0, false), With(prepared.(pc := Prepare(false)), 1, 1));
    run, acts := Grow(run, acts, go, With(prepared, 1, 1));
    run, acts := Grow(run, acts, go, With(prepared.(pc := Poll(false), node := Queued), 1, 1));
    var vain := prepared.(pc := Vain(false), node := Queued, released := true);
    run, acts := Grow(run, acts, go, With(vain, 1, 1));
    var again := vain.(foreign := 0, woken := true, strayed := true);
    run, acts := Grow(run, acts, Deliver(0, true), With(again, 1, 1));
    run, acts := Grow(run, acts, go, With(again.(pc := Repoll(false), node := Unlinked), 1, 1));
    run, acts := Grow(run, acts, NotifyOne(1, None), With(again.(pc := Repoll(false), node := Unlinked), 1, 1));
  }

  /** So does a resume between the prepare and the arming: the pass polls, releases its mutex and does not park. */
  lemma AResumeBeforeTheArmingWillDo() returns (run: seq<State>, acts: seq<Action>)
    ensures IsRun(run, acts) && |acts| == 8 && acts[7] == NotifyOne(1, None)
    ensures acts[3] == Deliver(0, true) && |run[3].ctx| == 2 && run[3].ctx[0].pc.Arm?
    ensures var s := run[7]; |s.ctx| == 2 && AwaitsNotify(s.ctx[0]) && !TimedOut(s.ctx[0])
  {
    var go := Advance(0, None);
    run, acts := Extend([With(IDLE, 0, 0)], [], Resume(0));
    run, acts := Extend(run, acts, Wait(0, false));
    run, acts := Extend(run, acts, go);
    run, acts := Extend(run, acts, Deliver(0, true));
    var x := IDLE.(pc := Arm(false), woken := true, strayed := true);
    assert run[4] == With(x, 0, 0);
    run, acts := Extend(run, acts, go);
    run, acts := Extend(run, acts, go);
    assert run[6] == With(x.(pc := Vain(false), node := Queued, released := true), 0, 0);
    run, acts := Extend(run, acts, go);
    run, acts := Extend(run, acts, NotifyOne(1, None));
  }

  /** The earlier wait: a notify takes its node, its deadline wakes it, and the notify's wake outlives it. */
  lemma AWakeOutlivesItsWait() returns (run: seq<State>, acts: seq<Action>)
    ensures IsRun(run, acts) && forall k :: 0 <= k < |acts| ==> !acts[k].Resume?
    ensures run[|acts|] == With(IDLE.(foreign := 1), 1, 1)
  {
    run, acts := AWaitIsTaken();
    var go, taken := Advance(0, None), TAKEN;
    run, acts := Grow(run, acts, Raise(0), With(taken.(raised := true, own := 2), 1, 0));
    var ended := taken.(raised := true, woken := true);
    run, acts := Grow(run, acts, Deliver(0, false), With(ended, 1, 0));
    ended := ended.(pc := Repoll(true), node := Unlinked, chosen := true);
    run, acts := Grow(run, acts, go, With(ended, 1, 0));
    run, acts := Grow(run, acts, go, With(ended.(pc := Relock(true)), 1, 0));
    run, acts := Grow(run, acts, go, With(IDLE.(foreign := 1), 1, 1));
  }

  /** A wait with a deadline whose node a notify has taken, the notify's wake on its way. */
  const TAKEN := Context(Vain(true), Taken, true, false, false, 1, 0, false, true, false)

  lemma AWaitIsTaken() returns (run: seq<State>, acts: seq<Action>)
    ensures IsRun(run, acts) && forall k :: 0 <= k < |acts| ==> !acts[k].Resume?
    ensures run[|acts|] == With(TAKEN, 1, 0)
  {
    var go := Advance(0, None);
    run, acts := [With(IDLE, 0, 0)], [];
    run, acts := Grow(run, acts, Wait(0, true), With(IDLE.(pc := Prepare(true)), 0, 0));
    run, acts := Grow(run, acts, go, With(IDLE.(pc := Arm(true)), 0, 0));
    run, acts := Grow(run, acts, go, With(IDLE.(pc := Poll(true), node := Queued), 0, 0));
    run, acts := Grow(run, acts, go, With(IDLE.(pc := Vain(true), node := Queued, released := true), 0, 0));
    run, acts := Grow(run, acts, NotifyOne(1, Some(0)), With(TAKEN, 1, 0));
  }

  /** A waiter, and a context that only notifies; nothing has timed out. */
  function With(x: Context, takes: nat, notified: nat): State { State([x, IDLE], takes, notified, 0) }

  /** One more step, which is not a resume. */
  lemma Grow(run: seq<State>, acts: seq<Action>, a: Action, s: State) returns (run': seq<State>, acts': seq<Action>)
    requires IsRun(run, acts) && Enabled(run[|acts|], a) && Step(run[|acts|], a) == s
    requires !a.Resume? && forall k :: 0 <= k < |acts| ==> !acts[k].Resume?
    ensures IsRun(run', acts') && acts' == acts + [a] && run' == run + [s]
    ensures forall k :: 0 <= k < |acts'| ==> !acts'[k].Resume?
  {
    run', acts' := Extend(run, acts, a);
  }
}
