/**
 The handoff semaphore on the wait engine. A release with waiters hands each token over
 under the queue lock; with none it counts the tokens, looks again, and takes back what
 is still counted to hand it over properly. A waiter handed a token after its poll took a
 counted one gives one back. Any number of contexts, any queue order, waits that may be
 cancelled and waiters that may run again at any time.
 */
module HandoffSemaphore {
  import opened Wrappers
  import opened Waiters
  import opened WrappingCounters

  datatype Pc =
    | Idle
    | Test(n: nat)          // release: about to look for waiters
    | Add(n: nat)           // nobody waiting: about to count the tokens
    | Retest(n: nat)        // counted: about to look again
    | HandEach(n: nat)      // n tokens to hand over
    | Reclaim(n: nat)       // up to n tokens to take back
    | ReclaimHand(n: nat)   // one taken back, to hand over, and n more to take back
    | Arm(cancel: bool)
    | Poll(cancel: bool)
    | Met                   // the armed poll took a counted token
    | Vain(cancel: bool)    // the armed poll failed
    | Repoll(cancel: bool)
    | Settle(result: bool)

  /** took and chosen are the wait's record: a counted token taken, and a hand-over received. */
  datatype Context = Context(pc: Pc, node: Node, took: bool, chosen: bool)

  /** wraps: how often the counter has passed its word. */
  datatype State = State(counter: Word, ctx: seq<Context>, initial: Word, released: nat, acquired: nat, wraps: nat)

  datatype Action =
    | Release(c: Cid, n: Word)
    | TryAcquire(c: Cid)
    | Wait(c: Cid, cancel: bool)
    | Advance(c: Cid, to: Option<Cid>, cancelled: bool)  // to: whom a hand-over takes

  predicate NobodyQueued(s: State) { forall i :: 0 <= i < |s.ctx| ==> !s.ctx[i].node.Queued? }

  predicate CanTake(s: State, to: Option<Cid>) {
    match to
    case Some(w) => w < |s.ctx| && s.ctx[w].node.Queued?
    case None => NobodyQueued(s)
  }

  predicate HandsOver(pc: Pc) { (pc.HandEach? && pc.n > 0) || pc.ReclaimHand? }

  predicate Enabled(s: State, a: Action) {
    a.c < |s.ctx| &&
    var x := s.ctx[a.c];
    if a.Advance? then !x.pc.Idle? && (HandsOver(x.pc) ==> CanTake(s, a.to)) else x.pc.Idle?
  }

  function Put(s: State, c: Cid, x: Context): State
    requires c < |s.ctx|
  {
    s.(ctx := s.ctx[c := x])
  }

  function Goto(s: State, c: Cid, pc: Pc): State
    requires c < |s.ctx|
  {
    Put(s, c, s.ctx[c].(pc := pc))
  }

  /** try_acquire, whose loop ends on a successful exchange or on a counter seen at zero. */
  function Taking(s: State, c: Cid, won: Context, lost: Context): State
    requires c < |s.ctx|
  {
    if s.counter > 0 then Put(s, c, won).(counter := s.counter - 1) else Put(s, c, lost)
  }

  function Counted(s: State, n: nat): State {
    s.(counter := (s.counter + n) % WORD, wraps := s.wraps + (s.counter + n) / WORD)
  }

  /** hand_over: the token is the chosen waiter's, or is counted when there is none. */
  function HandedOver(s: State, to: Option<Cid>): State
    requires CanTake(s, to)
  {
    if to.Some? then Put(s, to.value, s.ctx[to.value].(node := Taken)) else Counted(s, 1)
  }

  function Step(s: State, a: Action): State
    requires Enabled(s, a)
  {
    var c := a.c;
    match a
    case Release(_, n) => Goto(s, c, Test(n)).(released := s.released + n)
    case TryAcquire(_) =>
      if s.counter > 0 then s.(counter := s.counter - 1, acquired := s.acquired + 1) else s
    case Wait(_, cancel) => Put(s, c, Context(Arm(cancel), Unlinked, false, false))
    case Advance(_, to, cancelled) => Advanced(s, c, to, cancelled)
  }

  function Advanced(s: State, c: Cid, to: Option<Cid>, cancelled: bool): State
    requires Enabled(s, Advance(c, to, cancelled))
  {
    var x := s.ctx[c];
    match x.pc
    case Test(n) => Goto(s, c, if NobodyQueued(s) then Add(n) else HandEach(n))
    case Add(n) => Goto(Counted(s, n), c, Retest(n))
    case Retest(n) => Goto(s, c, if NobodyQueued(s) then Idle else Reclaim(n))
    case HandEach(n) => if n == 0 then Goto(s, c, Idle) else Goto(HandedOver(s, to), c, HandEach(n - 1))
    case Reclaim(n) => if n == 0 then Goto(s, c, Idle) else Taking(s, c, x.(pc := ReclaimHand(n - 1)), x.(pc := Idle))
    case ReclaimHand(n) => Goto(HandedOver(s, to), c, Reclaim(n))
    case Arm(cancel) => Put(s, c, x.(pc := Poll(cancel), node := Queued))
    case Poll(cancel) =>
      if x.chosen then Goto(s, c, Met) else Taking(s, c, x.(pc := Met, took := true), x.(pc := Vain(cancel)))
    case Met => Put(s, c, x.(pc := Settle(true), node := Unlinked, chosen := x.chosen || x.node.Taken?))
    case Vain(cancel) => Put(s, c, x.(pc := Repoll(cancel), node := Unlinked, chosen := x.chosen || x.node.Taken?))
    case Repoll(cancel) =>
      if x.chosen then Goto(s, c, Settle(true))
      else Taking(s, c, x.(pc := Settle(true), took := true),
                  x.(pc := if cancel && cancelled then Settle(false) else Arm(cancel)))
    case Settle(result) =>
      // Holding two, it gives one back: settle's release(1).
      var s1 := s.(acquired := if result then s.acquired + 1 else s.acquired);
      Put(s1, c, Context(if x.took && x.chosen then Test(1) else Idle, Unlinked, false, false))
  }

  ghost predicate Init(s: State) {
    && s.counter == s.initial && s.released == s.acquired == s.wraps == 0
    && forall i :: 0 <= i < |s.ctx| ==> s.ctx[i] == Context(Idle, Unlinked, false, false)
  }

  ghost predicate IsRun(run: seq<State>, acts: seq<Action>) {
    |run| == |acts| + 1 && Init(run[0]) && forall k: nat :: k < |acts| ==> Steps(run, acts, k)
  }

  predicate Steps(run: seq<State>, acts: seq<Action>, k: nat)
    requires |run| == |acts| + 1 && k < |acts|
  {
    Enabled(run[k], acts[k]) && run[k + 1] == Step(run[k], acts[k])
  }

  /* ------------------------------------------------------- the invariant */

  /** Tokens x has in hand: a release's still to place, a waiter's taken or handed to it. */
  function InHand(x: Context): nat {
    (match x.pc
     case Test(n) => n
     case Add(n) => n
     case HandEach(n) => n
     case ReclaimHand(_) => 1
     case _ => 0) +
    (if x.took then 1 else 0) + (if x.chosen || x.node.Taken? then 1 else 0)
  }

  /** Counted tokens x's release will still take back. */
  function Covers(x: Context): nat {
    match x.pc
    case Retest(n) => n
    case Reclaim(n) => n
    case ReclaimHand(n) => n
    case _ => 0
  }

  /** Queued, and its armed poll has failed: committed to waiting. */
  predicate Stuck(x: Context) { x.pc.Vain? && x.node.Queued? }

  predicate AnyStuck(s: State) { exists i :: 0 <= i < |s.ctx| && Stuck(s.ctx[i]) }

  predicate ContextOk(x: Context) {
    && (x.node.Unlinked? <==> !(x.pc.Poll? || x.pc.Met? || x.pc.Vain?))
    && (x.took ==> x.pc.Met? || x.pc.Settle?)
    && (x.chosen ==> x.pc.Repoll? || x.pc.Settle?)
    && (x.pc.Met? ==> x.took)
    && (x.pc.Settle? ==> (x.pc.result <==> x.took || x.chosen))
  }

  ghost predicate Inv(s: State) {
    && s.initial + s.released == s.counter + s.wraps * WORD + s.acquired + Sum(s.ctx, InHand)
    && (AnyStuck(s) ==> s.counter <= Sum(s.ctx, Covers))
    && forall i :: 0 <= i < |s.ctx| ==> ContextOk(s.ctx[i])
  }

  lemma PutStuck(s: State, c: Cid, x: Context)
    requires c < |s.ctx| && !Stuck(x)
    ensures AnyStuck(Put(s, c, x)) ==> AnyStuck(s)
  {
    var s' := Put(s, c, x);
    if AnyStuck(s') {
      var i :| 0 <= i < |s'.ctx| && Stuck(s'.ctx[i]);
      assert Stuck(s.ctx[i]);
    }
  }

  /**
   One context changes: the tokens balance, and either none is counted, or nobody is
   queued, or the counter rises by no more than what the context covers.
   */
  lemma Finish(s: State, s': State, c: Cid, y: Context)
    requires Inv(s) && c < |s.ctx| && s'.ctx == s.ctx[c := y] && ContextOk(y) && s'.initial == s.initial
    requires s.counter + s.wraps * WORD + s.acquired + InHand(s.ctx[c]) + s'.released ==
             s'.counter + s'.wraps * WORD + s'.acquired + InHand(y) + s.released
    requires
      || s'.counter == 0
      || (!Stuck(y) && NobodyQueued(s))
      || (!Stuck(y) && s'.counter + Covers(s.ctx[c]) <= s.counter + Covers(y))
    ensures Inv(s')
  {
    SumUpdate(s.ctx, c, y, InHand);
    SumUpdate(s.ctx, c, y, Covers);
    if !Stuck(y) { PutStuck(s, c, y); }
  }

  lemma HandOverKeeps(s: State, a: Action)
    requires Inv(s) && Enabled(s, a) && a.Advance? && HandsOver(s.ctx[a.c].pc) && a.to.Some?
    ensures Inv(Step(s, a))
  {
    var s', w := Step(s, a), a.to.value;
    var x, y, z := s.ctx[a.c], s'.ctx[a.c], s.ctx[w].(node := Taken);
    assert ContextOk(x) && ContextOk(s.ctx[w]);
    // The token is in the waiter's hand before the release lets go of it.
    var s1 := Put(s, w, z).(released := s.released + 1);
    Finish(s, s1, w, z);
    Finish(s1, s', a.c, y);
  }

  lemma WaiterKeeps(s: State, a: Action)
    requires Inv(s) && Enabled(s, a) && a.Advance?
    requires var pc := s.ctx[a.c].pc; pc.Poll? || pc.Met? || pc.Vain? || pc.Repoll? || pc.Settle? || pc.Arm?
    ensures Inv(Step(s, a))
  {
    var s' := Step(s, a);
    assert ContextOk(s.ctx[a.c]);
    Finish(s, s', a.c, s'.ctx[a.c]);
  }

  lemma ReleaserKeeps(s: State, a: Action)
    requires Inv(s) && Enabled(s, a) && a.Advance?
    requires var pc := s.ctx[a.c].pc;
             pc.Test? || pc.Add? || pc.Retest? || pc.HandEach? || pc.Reclaim? || pc.ReclaimHand?
    requires HandsOver(s.ctx[a.c].pc) ==> a.to == None
    ensures Inv(Step(s, a))
  {
    var s' := Step(s, a);
    assert ContextOk(s.ctx[a.c]);
    Finish(s, s', a.c, s'.ctx[a.c]);
  }

  lemma StepKeeps(s: State, a: Action)
    requires Inv(s) && Enabled(s, a)
    ensures Inv(Step(s, a))
  {
    var s', pc := Step(s, a), s.ctx[a.c].pc;
    if !a.Advance? {
      assert ContextOk(s.ctx[a.c]);
      assert s'.ctx == s.ctx[a.c := s'.ctx[a.c]];
      Finish(s, s', a.c, s'.ctx[a.c]);
    } else if HandsOver(pc) && a.to.Some? {
      HandOverKeeps(s, a);
    } else if pc.Test? || pc.Add? || pc.Retest? || pc.HandEach? || pc.Reclaim? || pc.ReclaimHand? {
      ReleaserKeeps(s, a);
    } else {
      WaiterKeeps(s, a);
    }
  }

  lemma {:induction false} RunKeeps(run: seq<State>, acts: seq<Action>, k: nat)
    requires IsRun(run, acts) && k < |run|
    ensures Inv(run[k]) && run[k].initial == run[0].initial
    decreases k
  {
    if k > 0 {
      RunKeeps(run, acts, k - 1);
      assert Steps(run, acts, k - 1);
      StepKeeps(run[k - 1], acts[k - 1]);
      SameInitial(run[k - 1], acts[k - 1]);
    } else {
      InitKeeps(run[0]);
    }
  }

  lemma InitKeeps(s: State)
    requires Init(s)
    ensures Inv(s)
  {
    SumZero(s.ctx, InHand);
  }

  lemma SameInitial(s: State, a: Action)
    requires Enabled(s, a)
    ensures Step(s, a).initial == s.initial
  {}

  /* -------------------------------------------------------- the theorems */

  /** The tokens released by the first k actions. */
  function Released(acts: seq<Action>, k: nat): nat
    requires k <= |acts|
  {
    if k == 0 then 0 else Released(acts, k - 1) + if acts[k - 1].Release? then acts[k - 1].n else 0
  }

  lemma {:induction false} ReleasesCount(run: seq<State>, acts: seq<Action>, k: nat)
    requires IsRun(run, acts) && k < |run|
    ensures run[k].released == Released(acts, k)
    decreases k
  {
    if k > 0 {
      ReleasesCount(run, acts, k - 1);
      assert Steps(run, acts, k - 1);
    }
  }

  /**
   Every token is counted, acquired, or in the hands of a release or of a waiter that has not
   returned, but for a word of them each time the counter passes it.
   */
  lemma TokensAreConserved(run: seq<State>, acts: seq<Action>, k: nat)
    requires IsRun(run, acts) && k < |run|
    ensures run[0].initial + Released(acts, k) ==
            run[k].counter + run[k].wraps * WORD + run[k].acquired + Sum(run[k].ctx, InHand)
  {
    ReleasesCount(run, acts, k);
    RunKeeps(run, acts, k);
  }

  /** A waiter committed to waiting is never passed by: every counted token has a reclaim still to run. */
  lemma CountedTokensAreReclaimed(run: seq<State>, acts: seq<Action>, k: nat)
    requires IsRun(run, acts) && k < |run| && AnyStuck(run[k])
    ensures run[k].counter <= Sum(run[k].ctx, Covers)
  {
    RunKeeps(run, acts, k);
  }

  /** With no release under way, nobody is parked beside a counted token. */
  lemma NobodyParkedBesideAToken(run: seq<State>, acts: seq<Action>, k: nat)
    requires IsRun(run, acts) && k < |run| && AnyStuck(run[k])
    requires forall i :: 0 <= i < |run[k].ctx| ==> Covers(run[k].ctx[i]) == 0
    ensures run[k].counter == 0
  {
    RunKeeps(run, acts, k);
    SumZero(run[k].ctx, Covers);
  }

  /** The k-th step is c's, and hands a token to a queued waiter. */
  predicate HandsAt(run: seq<State>, acts: seq<Action>, c: Cid, k: nat) {
    && k < |acts| && k < |run| && c < |run[k].ctx|
    && acts[k].Advance? && acts[k].c == c && HandsOver(run[k].ctx[c].pc)
    && acts[k].to.Some? && acts[k].to.value < |run[k].ctx| && run[k].ctx[acts[k].to.value].node.Queued?
  }

  /** How many of the steps from the k-th up to the e-th do. */
  function Handed(run: seq<State>, acts: seq<Action>, c: Cid, k: nat, e: nat): nat
    requires k <= e
    decreases e
  {
    if k == e then 0 else Handed(run, acts, c, k, e - 1) + (if HandsAt(run, acts, c, e - 1) then 1 else 0)
  }

  /** The tokens a release that found a waiter has still to hand over. */
  function ToHand(pc: Pc): nat { if pc.Test? || pc.HandEach? then pc.n else 0 }

  /** w is queued as c's release begins, at the k-th step, and until the e-th, and the release is not over before. */
  predicate QueuedThroughout(run: seq<State>, acts: seq<Action>, c: Cid, w: Cid, k: nat, e: nat) {
    && k < e < |run| == |acts| + 1 && acts[k].Release? && acts[k].c == c
    && (forall i :: k <= i <= e ==> c < |run[i].ctx| && w < |run[i].ctx| && run[i].ctx[w].node.Queued?)
    && (forall i :: k < i < e ==> !run[i].ctx[c].pc.Idle?)
  }

  /**
   A waiter queued before a release began is never overtaken: while it stays queued the
   release counts nothing, and each of its tokens goes to a waiter that was queued too.
   */
  lemma {:induction false} NeverOvertaken(run: seq<State>, acts: seq<Action>, c: Cid, w: Cid, k: nat, e: nat)
    requires IsRun(run, acts) && QueuedThroughout(run, acts, c, w, k, e)
    ensures var pc := run[e].ctx[c].pc; pc.Test? || pc.HandEach? || pc.Idle?
    ensures Handed(run, acts, c, k + 1, e) + ToHand(run[e].ctx[c].pc) == acts[k].n
    ensures e > k + 1 && acts[e - 1].c == c ==> run[e].counter == run[e - 1].counter
    decreases e
  {
    assert Steps(run, acts, e - 1);
    if e > k + 1 {
      NeverOvertaken(run, acts, c, w, k, e - 1);
      ReleaseBeside(run[e - 1], acts[e - 1], c, w);
    }
  }

  /** A step of a release, or of any other, beside a queued waiter. */
  lemma ReleaseBeside(s: State, a: Action, c: Cid, w: Cid)
    requires Enabled(s, a) && c < |s.ctx| && w < |s.ctx| && s.ctx[w].node.Queued?
    requires s.ctx[c].pc.Test? || s.ctx[c].pc.HandEach?
    ensures var s', x := Step(s, a), s.ctx[c];
            if a.c != c then s'.ctx[c].pc == x.pc
            else
              && (s'.ctx[c].pc.HandEach? || s'.ctx[c].pc.Idle?) && s'.counter == s.counter && a.Advance?
              && (HandsOver(x.pc) ==> a.to.Some? && a.to.value < |s.ctx| && s.ctx[a.to.value].node.Queued?)
              && ToHand(s'.ctx[c].pc) + (if HandsOver(x.pc) then 1 else 0) == ToHand(x.pc)
  {
    assert !NobodyQueued(s);
  }

  /**
   A wait about to return false took no counted token and was handed none; one about to
   return true has at least one, and gives back the second if it has two.
   */
  lemma WaitReturnsWhatItTook(run: seq<State>, acts: seq<Action>, k: nat, c: Cid)
    requires IsRun(run, acts) && k < |acts| && acts[k].Advance? && acts[k].c == c
    requires c < |run[k].ctx| && run[k].ctx[c].pc.Settle?
    ensures c < |run[k + 1].ctx|
    ensures run[k].ctx[c].pc.result <==> InHand(run[k].ctx[c]) > 0
    ensures InHand(run[k].ctx[c]) == run[k + 1].acquired - run[k].acquired + InHand(run[k + 1].ctx[c])
    ensures run[k + 1].acquired == run[k].acquired + if run[k].ctx[c].pc.result then 1 else 0
  {
    RunKeeps(run, acts, k);
    assert Steps(run, acts, k);
    assert ContextOk(run[k].ctx[c]);
  }

  predicate InWait(pc: Pc, cancel: bool) {
    (pc.Arm? || pc.Poll? || pc.Vain? || pc.Repoll?) && pc.cancel == cancel
  }

  /** The last poll of a cancellable wait, which nobody has chosen, found no token and the cancel raised. */
  predicate GaveUp(s: State, a: Action, c: Cid, cancel: bool) {
    && c < |s.ctx| && s.ctx[c].pc.Repoll? && s.counter == 0 && !s.ctx[c].chosen
    && cancel && a.Advance? && a.c == c && a.cancelled
  }

  lemma WaitStep(s: State, a: Action, c: Cid, cancel: bool)
    requires Enabled(s, a) && c < |s.ctx| && (InWait(s.ctx[c].pc, cancel) || s.ctx[c].pc.Met?)
    ensures var s' := Step(s, a);
            && c < |s'.ctx|
            && (|| InWait(s'.ctx[c].pc, cancel) || s'.ctx[c].pc.Met?
                || (s'.ctx[c].pc.Settle? && (s'.ctx[c].pc.result <==> !GaveUp(s, a, c, cancel))))
            && (GaveUp(s, a, c, cancel) ==> s'.ctx[c].pc.Settle?)
  {
    if a.c != c { OthersLeaveItThere(s, a, c); }
  }

  /** A step of another context leaves c where it is. */
  lemma OthersLeaveItThere(s: State, a: Action, c: Cid)
    requires Enabled(s, a) && c < |s.ctx| && a.c != c
    ensures |Step(s, a).ctx| == |s.ctx| && Step(s, a).ctx[c].pc == s.ctx[c].pc
  {
    if a.Advance? { match s.ctx[a.c].pc case HandEach(_) => case ReclaimHand(_) => case _ => }
  }

  /**
   A wait comes to an end with a token, or, if and only if it is cancellable and its last poll
   found neither a token nor a hand-over but the cancel raised, with none.
   */
  lemma {:induction false} WaitSettlesTrueUnlessCancelled(run: seq<State>, acts: seq<Action>, c: Cid, cancel: bool,
                                                          j: nat, k: nat)
    requires IsRun(run, acts) && j < k < |run| && acts[j] == Wait(c, cancel)
    requires forall i :: j < i < k ==> c < |run[i].ctx| && !run[i].ctx[c].pc.Settle?
    ensures c < |run[k].ctx|
    ensures var pc := run[k].ctx[c].pc;
            || InWait(pc, cancel) || pc.Met?
            || (pc.Settle? && (pc.result <==> !GaveUp(run[k - 1], acts[k - 1], c, cancel)))
    ensures GaveUp(run[k - 1], acts[k - 1], c, cancel) ==> run[k].ctx[c].pc.Settle?
    decreases k
  {
    assert Steps(run, acts, k - 1);
    if k > j + 1 {
      WaitSettlesTrueUnlessCancelled(run, acts, c, cancel, j, k - 1);
      WaitStep(run[k - 1], acts[k - 1], c, cancel);
    }
  }

  /** try_acquire takes a counted token exactly when there is one. */
  lemma TryAcquireTakesIff(run: seq<State>, acts: seq<Action>, k: nat, c: Cid)
    requires IsRun(run, acts) && k < |acts| && acts[k] == TryAcquire(c)
    ensures run[k + 1].acquired == run[k].acquired + if run[k].counter > 0 then 1 else 0
    ensures run[k + 1].ctx == run[k].ctx && run[k + 1].released == run[k].released
  {
    assert Steps(run, acts, k);
  }
}
