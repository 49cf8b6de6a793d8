/**
 The counting semaphore on the wait engine, with any number of contexts releasing,
 barging, waiting and being cancelled. A wake takes any queued node, so what is proved
 holds for every queue order. A waiter past its failed poll may run again at any time,
 woken or not.
 */
module Semaphore {
  import opened Wrappers
  import opened Waiters
  import opened WrappingCounters

  datatype Pc =
    | Idle
    | Test(n: nat)                         // release: n tokens added, about to look for waiters
    | Wakes(n: nat)                        // release: n wakes to make
    | Arm(cancel: bool)
    | Poll(cancel: bool)                   // armed
    | Met                                  // the armed poll took a token
    | Vain(cancel: bool)                   // the armed poll failed: parked, or about to be
    | Repoll(cancel: bool, chosen: bool)   // disarmed, about to poll again
    | PassOn                               // a wake chose it after its poll took a token

  datatype Context = Context(pc: Pc, node: Node)

  /** wraps: how often the counter has passed its word. */
  datatype State = State(counter: Word, ctx: seq<Context>, initial: Word, released: nat, acquired: nat, wraps: nat)

  datatype Action =
    | Release(c: Cid, n: Word)
    | TryAcquire(c: Cid)
    | Wait(c: Cid, cancel: bool)
    // chosen: whom a wake takes; cancelled: whether the cancel signal is raised
    | Advance(c: Cid, chosen: Option<Cid>, cancelled: bool)

  predicate NobodyQueued(s: State) { forall i :: 0 <= i < |s.ctx| ==> !s.ctx[i].node.Queued? }

  /** A wake takes a queued node, and none only when none is queued. */
  predicate CanTake(s: State, chosen: Option<Cid>) {
    match chosen
    case Some(w) => w < |s.ctx| && s.ctx[w].node.Queued?
    case None => NobodyQueued(s)
  }

  predicate Enabled(s: State, a: Action) {
    a.c < |s.ctx| &&
    var x := s.ctx[a.c];
    match a
    case Release(_, _) => x.pc.Idle?
    case TryAcquire(_) => x.pc.Idle?
    case Wait(_, _) => x.pc.Idle?
    case Advance(_, chosen, _) => !x.pc.Idle? && ((x.pc.Wakes? && x.pc.n > 0) || x.pc.PassOn? ==> CanTake(s, chosen))
  }

  function Put(s: State, c: Cid, x: Context): State
    requires c < |s.ctx|
  {
    s.(ctx := s.ctx[c := x])
  }

  function Goto(s: State, c: Cid, pc: Pc): State
    requires c < |s.ctx|
  {
    Put(s, c, s.ctx[c].(pc := pc))
  }

  /** try_acquire, whose loop ends on a successful exchange or on a counter seen at zero. */
  function Taking(s: State, c: Cid, won: Pc, lost: Pc): State
    requires c < |s.ctx|
  {
    if s.counter > 0 then Goto(s, c, won).(counter := s.counter - 1, acquired := s.acquired + 1)
    else Goto(s, c, lost)
  }

  function Counted(s: State, n: nat): State {
    s.(counter := (s.counter + n) % WORD, wraps := s.wraps + (s.counter + n) / WORD)
  }

  function TakeNode(s: State, chosen: Option<Cid>): State
    requires CanTake(s, chosen)
  {
    if chosen.Some? then Put(s, chosen.value, s.ctx[chosen.value].(node := Taken)) else s
  }

  function Step(s: State, a: Action): State
    requires Enabled(s, a)
  {
    var c := a.c;
    match a
    case Release(_, n) => Goto(Counted(s, n), c, Test(n)).(released := s.released + n)
    case TryAcquire(_) => Taking(s, c, Idle, Idle)
    case Wait(_, cancel) => Goto(s, c, Arm(cancel))
    case Advance(_, chosen, cancelled) =>
      match s.ctx[c].pc
      case Test(n) => Goto(s, c, if NobodyQueued(s) then Idle else Wakes(n))
      case Wakes(n) => if n == 0 then Goto(s, c, Idle) else Goto(TakeNode(s, chosen), c, Wakes(n - 1))
      case Arm(cancel) => Put(s, c, Context(Poll(cancel), Queued))
      case Poll(cancel) => Taking(s, c, Met, Vain(cancel))
      case Met => Put(s, c, Context(if s.ctx[c].node.Taken? then PassOn else Idle, Unlinked))
      case Vain(cancel) => Put(s, c, Context(Repoll(cancel, s.ctx[c].node.Taken?), Unlinked))
      case Repoll(cancel, _) => Taking(s, c, Idle, if cancel && cancelled then Idle else Arm(cancel))
      case PassOn => Goto(TakeNode(s, chosen), c, Idle)
  }

  ghost predicate Init(s: State) {
    && s.counter == s.initial && s.released == s.acquired == s.wraps == 0
    && forall i :: 0 <= i < |s.ctx| ==> s.ctx[i] == Context(Idle, Unlinked)
  }

  ghost predicate IsRun(run: seq<State>, acts: seq<Action>) {
    |run| == |acts| + 1 && Init(run[0]) && forall k: nat :: k < |acts| ==> Steps(run, acts, k)
  }

  predicate Steps(run: seq<State>, acts: seq<Action>, k: nat)
    requires |run| == |acts| + 1 && k < |acts|
  {
    Enabled(run[k], acts[k]) && run[k + 1] == Step(run[k], acts[k])
  }

  /* ------------------------------------------------------- the invariant */

  /** The wakes x still owes: to make, to use, or to pass on. */
  function Owes(x: Context): nat {
    (match x.pc
     case Test(n) => n
     case Wakes(n) => n
     case Repoll(_, chosen) => if chosen then 1 else 0
     case PassOn => 1
     case _ => 0) +
    if x.node.Taken? then 1 else 0
  }

  function Owed(s: State): nat { Sum(s.ctx, Owes) }

  /** Queued, and its armed poll has failed. */
  predicate Stuck(x: Context) { x.pc.Vain? && x.node.Queued? }

  predicate AnyStuck(s: State) { exists i :: 0 <= i < |s.ctx| && Stuck(s.ctx[i]) }

  predicate ContextOk(x: Context) { x.node.Unlinked? <==> !(x.pc.Poll? || x.pc.Met? || x.pc.Vain?) }

  ghost predicate Inv(s: State) {
    && (AnyStuck(s) ==> s.counter <= Owed(s))
    && s.initial + s.released == s.counter + s.acquired + s.wraps * WORD
    && forall i :: 0 <= i < |s.ctx| ==> ContextOk(s.ctx[i])
  }

  lemma PutStuck(s: State, c: Cid, x: Context)
    requires c < |s.ctx| && !Stuck(x)
    ensures AnyStuck(Put(s, c, x)) ==> AnyStuck(s)
  {
    var s' := Put(s, c, x);
    if AnyStuck(s') {
      var i :| 0 <= i < |s'.ctx| && Stuck(s'.ctx[i]);
      assert Stuck(s.ctx[i]);
    }
  }

  /**
   One context changes: the tokens balance, and either none is free, or nobody is queued,
   or the free tokens rise by no more than the wakes the context owes.
   */
  lemma Finish(s: State, s': State, c: Cid, y: Context)
    requires Inv(s) && c < |s.ctx| && s'.ctx == s.ctx[c := y] && ContextOk(y) && s'.initial == s.initial
    requires s.counter + s.wraps * WORD + s.acquired + s'.released ==
             s'.counter + s'.wraps * WORD + s'.acquired + s.released
    requires
      || s'.counter == 0
      || (!Stuck(y) && NobodyQueued(s))
      || (!Stuck(y) && s'.counter + Owes(s.ctx[c]) <= s.counter + Owes(y))
    ensures Inv(s')
  {
    SumUpdate(s.ctx, c, y, Owes);
    if !Stuck(y) { PutStuck(s, c, y); }
  }

  /** A wake that takes a node moves what is owed to its waiter. */
  lemma WakeKeeps(s: State, a: Action)
    requires Inv(s) && Enabled(s, a) && a.Advance? && a.chosen.Some?
    requires (s.ctx[a.c].pc.Wakes? && s.ctx[a.c].pc.n > 0) || s.ctx[a.c].pc.PassOn?
    ensures Inv(Step(s, a))
  {
    var s', w := Step(s, a), a.chosen.value;
    var z := s.ctx[w].(node := Taken);
    assert ContextOk(s.ctx[a.c]) && ContextOk(s.ctx[w]);
    var s1 := Put(s, w, z);
    Finish(s, s1, w, z);
    OneMoreOwed(s, w);
    TakenKeeps(s, s1, s', a.c);
  }

  lemma OneMoreOwed(s: State, w: Cid)
    requires w < |s.ctx| && s.ctx[w].node.Queued?
    ensures Owed(Put(s, w, s.ctx[w].(node := Taken))) == Owed(s) + 1
  {
    SumUpdate(s.ctx, w, s.ctx[w].(node := Taken), Owes);
  }

  lemma TakenKeeps(s: State, s1: State, s': State, c: Cid)
    requires Inv(s) && Inv(s1) && c < |s1.ctx| == |s'.ctx| && s'.ctx == s1.ctx[c := s'.ctx[c]] &&
             s' == s1.(ctx := s'.ctx)
    requires (AnyStuck(s1) ==> AnyStuck(s)) && s1.counter == s.counter && Owed(s1) == Owed(s) + 1
    requires ContextOk(s'.ctx[c]) && !Stuck(s'.ctx[c]) && Owes(s'.ctx[c]) + 1 == Owes(s1.ctx[c])
    ensures Inv(s')
  {
    SumUpdate(s1.ctx, c, s'.ctx[c], Owes);
    PutStuck(s1, c, s'.ctx[c]);
  }

  lemma StepKeeps(s: State, a: Action)
    requires Inv(s) && Enabled(s, a)
    ensures Inv(Step(s, a))
  {
    var s', pc := Step(s, a), s.ctx[a.c].pc;
    assert ContextOk(s.ctx[a.c]);
    if a.Advance? && a.chosen.Some? && ((pc.Wakes? && pc.n > 0) || pc.PassOn?) {
      WakeKeeps(s, a);
    } else {
      assert s'.ctx == s.ctx[a.c := s'.ctx[a.c]];
      Finish(s, s', a.c, s'.ctx[a.c]);
    }
  }

  lemma {:induction false} RunKeeps(run: seq<State>, acts: seq<Action>, k: nat)
    requires IsRun(run, acts) && k < |run|
    ensures Inv(run[k])
    decreases k
  {
    if k > 0 {
      RunKeeps(run, acts, k - 1);
      assert Steps(run, acts, k - 1);
      StepKeeps(run[k - 1], acts[k - 1]);
    }
  }

  /* -------------------------------------------------------- the theorems */

  /** While a thread whose armed poll failed is queued, every free token has a wake owed for it. */
  lemma FreeTokensAreOwedWakes(run: seq<State>, acts: seq<Action>, k: nat)
    requires IsRun(run, acts) && k < |run| && AnyStuck(run[k])
    ensures run[k].counter <= Owed(run[k])
  {
    RunKeeps(run, acts, k);
  }

  /** With no release, no wake in use and no pass-on under way, nobody is parked beside a free token. */
  lemma NobodyParkedBesideAToken(run: seq<State>, acts: seq<Action>, k: nat)
    requires IsRun(run, acts) && k < |run| && AnyStuck(run[k])
    requires forall i :: 0 <= i < |run[k].ctx| ==> run[k].ctx[i].pc.Idle? || Stuck(run[k].ctx[i])
    ensures run[k].counter == 0
  {
    RunKeeps(run, acts, k);
    forall i | 0 <= i < |run[k].ctx| ensures Owes(run[k].ctx[i]) == 0 { assert ContextOk(run[k].ctx[i]); }
    SumZero(run[k].ctx, Owes);
  }

  /** The tokens released by the first k actions. */
  function Released(acts: seq<Action>, k: nat): nat
    requires k <= |acts|
  {
    if k == 0 then 0 else Released(acts, k - 1) + if acts[k - 1].Release? then acts[k - 1].n else 0
  }

  lemma {:induction false} ReleasesCount(run: seq<State>, acts: seq<Action>, k: nat)
    requires IsRun(run, acts) && k < |run|
    ensures run[k].released == Released(acts, k)
    decreases k
  {
    if k > 0 {
      ReleasesCount(run, acts, k - 1);
      assert Steps(run, acts, k - 1);
    }
  }

  /** No token is lost or invented, but for a word of them each time the counter passes it. */
  lemma TokensAreConserved(run: seq<State>, acts: seq<Action>, k: nat)
    requires IsRun(run, acts) && k < |run|
    ensures run[k].initial == run[0].initial
    ensures run[0].initial + Released(acts, k) == run[k].counter + run[k].acquired + run[k].wraps * WORD
  {
    RunKeeps(run, acts, k);
    ReleasesCount(run, acts, k);
    SameInitial(run, acts, k);
  }

  lemma {:induction false} SameInitial(run: seq<State>, acts: seq<Action>, k: nat)
    requires IsRun(run, acts) && k < |run|
    ensures run[k].initial == run[0].initial
    decreases k
  {
    if k > 0 {
      SameInitial(run, acts, k - 1);
      assert Steps(run, acts, k - 1);
    }
  }

  /* ---------------------------------------------------- what a call returns */

  /** The tokens c's own steps take, from state j to state k. */
  function TakenBy(run: seq<State>, acts: seq<Action>, c: Cid, j: nat, k: nat): int
    requires j <= k < |run| == |acts| + 1
    decreases k
  {
    if k == j then 0
    else TakenBy(run, acts, c, j, k - 1) + if acts[k - 1].c == c then run[k].acquired - run[k - 1].acquired else 0
  }

  /** In a wait, with so many tokens taken. */
  predicate InWait(pc: Pc, cancel: bool, taken: int) {
    match pc
    case Arm(x) => x == cancel && taken == 0
    case Poll(x) => x == cancel && taken == 0
    case Vain(x) => x == cancel && taken == 0
    case Repoll(x, _) => x == cancel && taken == 0
    case Met => taken == 1
    case PassOn => taken == 1
    case _ => false
  }

  lemma WaitStep(s: State, a: Action, c: Cid, cancel: bool, taken: int)
    requires Enabled(s, a) && c < |s.ctx| && InWait(s.ctx[c].pc, cancel, taken)
    ensures var s' := Step(s, a);
            var t := taken + if a.c == c then s'.acquired - s.acquired else 0;
            && c < |s'.ctx|
            && (InWait(s'.ctx[c].pc, cancel, t) ||
                (s'.ctx[c].pc.Idle? && a.Advance? && a.c == c && (t == 1 || (t == 0 && GaveUp(s, a, c, cancel)))))
            && (GaveUp(s, a, c, cancel) ==> s'.ctx[c].pc.Idle?)
  {}

  /** The last, unarmed poll of a cancellable wait found no token, and the cancel raised. */
  predicate GaveUp(s: State, a: Action, c: Cid, cancel: bool) {
    c < |s.ctx| && s.ctx[c].pc.Repoll? && s.counter == 0 && cancel && a.Advance? && a.c == c && a.cancelled
  }

  lemma {:induction false} InWaitUntilItReturns(run: seq<State>, acts: seq<Action>, c: Cid, cancel: bool,
                                                j: nat, k: nat)
    requires IsRun(run, acts) && j < k < |run| && acts[j] == Wait(c, cancel)
    requires forall i :: j < i < k ==> c < |run[i].ctx| && !run[i].ctx[c].pc.Idle?
    ensures c < |run[k].ctx|
    ensures var t := TakenBy(run, acts, c, j, k);
            || InWait(run[k].ctx[c].pc, cancel, t)
            || (run[k].ctx[c].pc.Idle? && (t == 1 || (t == 0 && GaveUp(run[k - 1], acts[k - 1], c, cancel))))
    ensures k > j + 1 && GaveUp(run[k - 1], acts[k - 1], c, cancel) ==> run[k].ctx[c].pc.Idle?
    decreases k
  {
    assert Steps(run, acts, k - 1);
    if k > j + 1 {
      InWaitUntilItReturns(run, acts, c, cancel, j, k - 1);
      WaitStep(run[k - 1], acts[k - 1], c, cancel, TakenBy(run, acts, c, j, k - 1));
    }
  }

  /**
   A wait that returns has taken exactly one token, or none if its last poll gave up; and one
   that is cancellable gives up, and returns, when that poll finds no token and the cancel raised.
   */
  lemma WaitReturnsATokenOrGaveUp(run: seq<State>, acts: seq<Action>, c: Cid, cancel: bool, j: nat, k: nat)
    requires IsRun(run, acts) && j + 1 < k < |run| && acts[j] == Wait(c, cancel)
    requires forall i :: j < i < k ==> c < |run[i].ctx| && !run[i].ctx[c].pc.Idle?
    ensures c < |run[k].ctx|
    ensures run[k].ctx[c].pc.Idle? ==>
              TakenBy(run, acts, c, j, k) == if GaveUp(run[k - 1], acts[k - 1], c, cancel) then 0 else 1
    ensures GaveUp(run[k - 1], acts[k - 1], c, cancel) ==> run[k].ctx[c].pc.Idle?
  {
    InWaitUntilItReturns(run, acts, c, cancel, j, k);
    assert Steps(run, acts, k - 1);
    if k > j + 1 && GaveUp(run[k - 1], acts[k - 1], c, cancel) {
      InWaitUntilItReturns(run, acts, c, cancel, j, k - 1);
    }
  }

  /** try_acquire takes a token exactly when there is one. */
  lemma TryAcquireTakesIff(run: seq<State>, acts: seq<Action>, k: nat, c: Cid)
    requires IsRun(run, acts) && k < |acts| && acts[k] == TryAcquire(c)
    ensures run[k + 1].acquired == run[k].acquired + if run[k].counter > 0 then 1 else 0
    ensures run[k + 1].ctx == run[k].ctx && run[k + 1].released == run[k].released
  {
    assert Steps(run, acts, k);
    assert c < |run[k].ctx| && run[k].ctx[c := run[k].ctx[c]] == run[k].ctx;
  }
}
