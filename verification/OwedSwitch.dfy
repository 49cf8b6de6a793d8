/**
 The owed switch of the ARMv7-M/v8-M port, on one core. The kernel decides a switch on the
 thread's road or in an interrupt, the port records it, and PendSV carries it out; between
 the two, further interrupts may revise the destination or ask for a reschedule, and they
 may nest in PendSV itself. A stack pointer is the frame it leads to: whose it is, and how
 far that thread had run.
 */
module OwedSwitch {
  import opened Wrappers
  import opened Threads

  datatype Frame = Frame(owner: Tid, age: nat)

  /** Where PendSV is in its dispatch. */
  datatype PendSv = Inactive | Read | Clear | Look | Lower | Handler | Leave

  datatype Owed = Owed(from: Tid, to: Option<Tid>, reschedule: bool)

  /**
   The last three fields are history: how far each thread has run, and whether a reschedule
   was asked for, with nothing owed or with a switch owed, and not served since.
   */
  datatype State = State(
    psp: Frame,
    saved: seq<Frame>,     // context->sp, by thread
    executing: Tid,        // whose registers are on the core outside PendSV
    current: Tid,          // the kernel's running thread
    dead: set<Tid>,
    owed: Owed,
    pended: bool,
    pendsv: PendSv,
    latest: seq<nat>, early: bool, late: bool)

  datatype Action =
    | Execute                       // the executing thread runs on
    | DirectSwitch(to: Tid)         // thread's road: decided, and owed at once
    | Yield                         // the port's yield, at baseline
    | Ask                           // cyros_port_pend_reschedule, from anywhere
    | Decide(to: Tid)               // an interrupt's wake decides another thread, and owes the switch
    | Enter                         // PendSV is taken
    | Advance(to: Tid, exits: bool) // its next step; the handler's pick, and whether the thread it leaves exits

  predicate IsThread(s: State, t: Tid) { t < |s.saved| && t !in s.dead }

  predicate Enabled(s: State, a: Action) {
    && s.psp.owner < |s.saved| && s.executing < |s.saved| && s.current < |s.saved| && s.owed.from < |s.saved|
    && (s.owed.to.Some? ==> s.owed.to.value < |s.saved|) && |s.latest| == |s.saved|
    && match a
       case Execute => s.pendsv.Inactive?
       // At baseline a pended PendSV would have been taken.
       case DirectSwitch(to) => s.pendsv.Inactive? && !s.pended && IsThread(s, to) && to != s.current
       case Yield => s.pendsv.Inactive? && !s.pended
       case Ask => true
       // cyros_port_interrupted_at_baseline: never while PendSV is active
       case Decide(to) => s.pendsv.Inactive? && IsThread(s, to) && to != s.current
       case Enter => s.pendsv.Inactive? && s.pended
       case Advance(to, exits) =>
         !s.pendsv.Inactive? && (s.pendsv.Handler? ==> IsThread(s, to) && (exits ==> to != s.current))
  }

  /** switch_stacks. */
  function SwitchStacks(s: State, from: Option<Tid>, to: Tid): State
    requires to < |s.saved| && (from.Some? ==> from.value < |s.saved|)
  {
    var saved := if from.Some? then s.saved[from.value := s.psp] else s.saved;
    s.(saved := saved, psp := saved[to])
  }

  function Step(s: State, a: Action): State
    requires Enabled(s, a)
  {
    match a
    case Execute =>
      s.(psp := s.psp.(age := s.psp.age + 1), latest := s.latest[s.executing := s.latest[s.executing] + 1])
    case DirectSwitch(to) =>
      s.(owed := s.owed.(from := s.current, to := Some(to)), pended := true, current := to)
    case Yield => s.(pended := true, early := true)
    case Ask =>
      if s.owed.to != None then s.(owed := s.owed.(reschedule := true), pended := true, late := true)
      else s.(pended := true, early := true)
    case Decide(to) =>
      var from := if s.owed.to == None then s.current else s.owed.from;
      s.(owed := s.owed.(from := from, to := Some(to)), pended := true, current := to)
    case Enter => s.(pended := false, pendsv := Read)
    case Advance(to, exits) =>
      match s.pendsv
      case Inactive => s
      case Read =>
        if s.owed.to == None then s.(pendsv := Handler)
        else SwitchStacks(s, Some(s.owed.from), s.owed.to.value).(pendsv := Clear)
      case Clear => s.(owed := s.owed.(to := None), pendsv := Look)
      case Look => s.(pendsv := if s.owed.reschedule then Lower else Leave)
      case Lower => s.(owed := s.owed.(reschedule := false), pendsv := Handler)
      case Handler =>
        // The kernel files the running thread, picks, and switches to the pick.
        var s1 := SwitchStacks(s, if exits then None else Some(s.current), to);
        s1.(current := to, dead := if exits then s.dead + {s.current} else s.dead,
            pendsv := Leave, early := false, late := false)
      case Leave => s.(pendsv := Inactive, executing := s.psp.owner)
  }

  ghost predicate Init(s: State) {
    && s.executing == s.current == s.psp.owner < |s.saved| && s.dead == {}
    && s.owed == Owed(0, None, false) && !s.pended && s.pendsv == Inactive
    && !s.early && !s.late
    && |s.latest| == |s.saved| && s.psp == s.saved[s.psp.owner]
    && forall t: Tid :: t < |s.saved| ==> s.saved[t] == Frame(t, s.latest[t])
  }

  ghost predicate IsRun(run: seq<State>, acts: seq<Action>) {
    |run| == |acts| + 1 && Init(run[0]) && forall k: nat :: k < |acts| ==> Steps(run, acts, k)
  }

  predicate Steps(run: seq<State>, acts: seq<Action>, k: nat)
    requires |run| == |acts| + 1 && k < |acts|
  {
    Enabled(run[k], acts[k]) && run[k + 1] == Step(run[k], acts[k])
  }

  /* ------------------------------------------------------- the invariant */

  /** The core holds the frame of one thread, as far as it ran, and every other one is saved as far as it ran. */
  ghost predicate FramesOk(s: State) {
    && |s.latest| == |s.saved| && s.psp.owner < |s.saved| && s.psp.age == s.latest[s.psp.owner]
    && forall t: Tid :: t < |s.saved| && t != s.psp.owner && t !in s.dead ==> s.saved[t] == Frame(t, s.latest[t])
  }

  ghost predicate Inv(s: State) {
    && s.psp.owner < |s.saved| && s.executing < |s.saved| && s.current < |s.saved| && s.owed.from < |s.saved|
    && s.psp.owner !in s.dead && s.current !in s.dead && FramesOk(s)
    && (s.owed.to.Some? ==> s.owed.to == Some(s.current))
    && (s.pendsv.Inactive? ==> s.executing == s.psp.owner && (s.owed.to.Some? ==> s.pended))
    && (if (s.pendsv.Inactive? || s.pendsv.Read?) && s.owed.to.Some? then s.owed.from == s.psp.owner
        else s.current == s.psp.owner)
    && (s.pendsv.Clear? ==> s.owed.to.Some?)
    && (s.pendsv.Look? || s.pendsv.Lower? || s.pendsv.Handler? || s.pendsv.Leave? ==> s.owed.to == None)
    // A reschedule asked for while a switch is owed is flagged until the handler is called.
    && (s.late ==> s.owed.reschedule || s.pendsv.Handler?)
    && (s.owed.reschedule ==> s.owed.to.Some? || s.pendsv.Look? || s.pendsv.Lower?)
  }

  lemma AdvanceKeeps(s: State, a: Action)
    requires Inv(s) && Enabled(s, a) && a.Advance?
    ensures Inv(Step(s, a))
  {
    if s.pendsv.Handler? { HandlerKeeps(s, a); }
    else { match s.pendsv case Read => case Leave => case Look => case _ => }
  }

  lemma HandlerKeeps(s: State, a: Action)
    requires Inv(s) && Enabled(s, a) && a.Advance? && s.pendsv.Handler?
    ensures Inv(Step(s, a))
  {}

  lemma StepKeeps(s: State, a: Action)
    requires Inv(s) && Enabled(s, a)
    ensures Inv(Step(s, a))
  {
    if a.Advance? { AdvanceKeeps(s, a); }
    else { match a case Execute => case DirectSwitch(_) => case Decide(_) => case _ => }
  }

  lemma {:induction false} RunKeeps(run: seq<State>, acts: seq<Action>, k: nat)
    requires IsRun(run, acts) && k < |run|
    ensures Inv(run[k])
    decreases k
  {
    if k > 0 {
      RunKeeps(run, acts, k - 1);
      assert Steps(run, acts, k - 1);
      StepKeeps(run[k - 1], acts[k - 1]);
    }
  }

  /* -------------------------------------------------------- the theorems */

  /** Every thread but the one on the core is saved as itself, where it left off; and so is the one on it. */
  lemma SavedContextsAreRight(run: seq<State>, acts: seq<Action>, k: nat, t: Tid)
    requires IsRun(run, acts) && k < |run| && t < |run[k].saved| && t !in run[k].dead
    ensures t < |run[k].latest|
    ensures (if t == run[k].psp.owner then run[k].psp else run[k].saved[t]) == Frame(t, run[k].latest[t])
    ensures run[k].pendsv.Inactive? ==> run[k].psp.owner == run[k].executing
  {
    RunKeeps(run, acts, k);
  }

  /** PendSV returns to the kernel's running thread, and outside it the two differ only while a switch is owed. */
  lemma PendSvReturnsToTheRunning(run: seq<State>, acts: seq<Action>, k: nat)
    requires IsRun(run, acts) && k < |run|
    ensures run[k].pendsv.Leave? ==> run[k].psp.owner == run[k].current && run[k].owed.to == None
    ensures run[k].pendsv.Inactive? && run[k].executing != run[k].current ==>
              run[k].owed.from == run[k].executing && run[k].owed.to == Some(run[k].current) && run[k].pended
  {
    RunKeeps(run, acts, k);
  }

  /** A reschedule asked for while a switch is owed is served before PendSV returns with nothing owed. */
  lemma NoAskWhileOwedIsLost(run: seq<State>, acts: seq<Action>, k: nat)
    requires IsRun(run, acts) && k < |run| && run[k].late
    ensures run[k].owed.to.Some? || run[k].pendsv.Look? || run[k].pendsv.Lower? || run[k].pendsv.Handler?
    ensures run[k].pendsv.Look? ==> run[k].owed.reschedule
  {
    RunKeeps(run, acts, k);
  }

  /** PendSV has been taken after step k and before state n. */
  ghost predicate EnteredSince(acts: seq<Action>, k: nat, n: nat)
    requires n <= |acts|
  {
    exists j: nat :: k < j < n && acts[j] == Enter
  }

  /** Whatever asks for a reschedule, or owes a switch, pends PendSV until it is taken. */
  lemma {:induction false} EveryAskReachesPendSv(run: seq<State>, acts: seq<Action>, k: nat, n: nat)
    requires IsRun(run, acts) && k < n < |run|
    requires acts[k].Ask? || acts[k].Yield? || acts[k].DirectSwitch? || acts[k].Decide?
    ensures run[n].pended || EnteredSince(acts, k, n)
    decreases n
  {
    assert Steps(run, acts, n - 1);
    if n > k + 1 {
      EveryAskReachesPendSv(run, acts, k, n - 1);
      if EnteredSince(acts, k, n - 1) {
        var j: nat :| k < j < n - 1 && acts[j] == Enter;
        assert k < j < n && acts[j] == Enter;
      } else if acts[n - 1] == Enter {
        assert k < n - 1 < n && acts[n - 1] == Enter;
      }
    }
  }

  /** The thread the last decision before state n chose: the thread's road's, an interrupt's, or the handler's pick. */
  ghost function LastDecided(run: seq<State>, acts: seq<Action>, n: nat): Tid
    requires |run| == |acts| + 1 && n < |run|
  {
    if n == 0 then run[0].current
    else
      match acts[n - 1]
      case DirectSwitch(to) => to
      case Decide(to) => to
      case Advance(to, _) => if run[n - 1].pendsv.Handler? then to else LastDecided(run, acts, n - 1)
      case _ => LastDecided(run, acts, n - 1)
  }

  /** The kernel's running thread is the last one decided, so PendSV returns to that one. */
  lemma {:induction false} RunsTheLastDecided(run: seq<State>, acts: seq<Action>, n: nat)
    requires IsRun(run, acts) && n < |run|
    ensures run[n].current == LastDecided(run, acts, n)
    ensures run[n].pendsv.Leave? ==> run[n].psp.owner == LastDecided(run, acts, n)
    decreases n
  {
    if n > 0 {
      assert Steps(run, acts, n - 1);
      RunsTheLastDecided(run, acts, n - 1);
    }
    PendSvReturnsToTheRunning(run, acts, n);
  }

  /** A reschedule was asked for while a switch was owed, from state k on and before state i. */
  ghost predicate AskedWhileOwed(run: seq<State>, acts: seq<Action>, k: nat, i: nat)
    requires |run| == |acts| + 1 && k <= i < |run|
  {
    exists j: nat :: k <= j < i && acts[j] == Ask && run[j].owed.to.Some?
  }

  /** PendSV, looking at state k for a switch to carry out, is on its way to calling the handler. */
  ghost predicate WillServe(run: seq<State>, acts: seq<Action>, k: nat, i: nat)
    requires |run| == |acts| + 1 && k <= i < |run|
  {
    run[k].owed.to == None || run[k].owed.reschedule || AskedWhileOwed(run, acts, k, i)
  }

  /** How far the dispatch that was at its read in state k has come by state i. */
  ghost predicate Dispatching(run: seq<State>, acts: seq<Action>, k: nat, i: nat)
    requires |run| == |acts| + 1 && k <= i < |run|
  {
    var s := run[i];
    match s.pendsv
    case Read =>
      s.owed.to == run[k].owed.to &&
      (s.owed.to.Some? ==> (s.owed.reschedule <==> WillServe(run, acts, k, i)))
    case Clear => run[k].owed.to.Some? && (s.owed.reschedule <==> WillServe(run, acts, k, i))
    case Look => run[k].owed.to.Some? && (s.owed.reschedule <==> WillServe(run, acts, k, i))
    case Lower => WillServe(run, acts, k, i)
    case Handler => WillServe(run, acts, k, i)
    case Leave => !WillServe(run, acts, k, i)
    case Inactive => !WillServe(run, acts, k, i)
  }

  /** The first state after k in which PendSV has called the handler, or returned. */
  ghost predicate Ends(run: seq<State>, k: nat, n: nat)
    requires k < n < |run|
  {
    && (run[n].pendsv.Handler? || run[n].pendsv.Inactive?)
    && forall i :: k <= i < n ==> !run[i].pendsv.Handler? && !run[i].pendsv.Inactive?
  }

  lemma AskedGoesOn(run: seq<State>, acts: seq<Action>, k: nat, i: nat)
    requires |run| == |acts| + 1 && k <= i < |acts|
    ensures AskedWhileOwed(run, acts, k, i + 1) <==>
              AskedWhileOwed(run, acts, k, i) || (acts[i] == Ask && run[i].owed.to.Some?)
  {
    if acts[i] == Ask && run[i].owed.to.Some? { assert k <= i < i + 1 && acts[i] == Ask && run[i].owed.to.Some?; }
  }

  lemma DispatchGoesOn(run: seq<State>, acts: seq<Action>, k: nat, i: nat)
    requires IsRun(run, acts) && k <= i < |acts| && Inv(run[i]) && Dispatching(run, acts, k, i)
    requires !run[i].pendsv.Handler? && !run[i].pendsv.Inactive?
    ensures Dispatching(run, acts, k, i + 1)
  {
    assert Steps(run, acts, i);
    AskedGoesOn(run, acts, k, i);
  }

  lemma {:induction false} DispatchTo(run: seq<State>, acts: seq<Action>, k: nat, i: nat, n: nat)
    requires IsRun(run, acts) && k <= i <= n < |run| && k < n && run[k].pendsv.Read? && Ends(run, k, n)
    ensures Dispatching(run, acts, k, i)
    decreases i - k
  {
    RunKeeps(run, acts, k);
    if i > k {
      DispatchTo(run, acts, k, i - 1, n);
      RunKeeps(run, acts, i - 1);
      DispatchGoesOn(run, acts, k, i - 1);
    }
  }

  /**
   Whatever interrupts land on the way, a PendSV about to look calls the kernel's handler if
   and only if nothing is owed, or a reschedule was asked for while the switch was, up to the
   moment PendSV clears it. So one asked for before the switch was owed is served exactly then.
   */
  lemma EarlyAskServedIff(run: seq<State>, acts: seq<Action>, k: nat, n: nat)
    requires IsRun(run, acts) && k < n < |run| && run[k].pendsv.Read? && Ends(run, k, n)
    ensures run[n].pendsv.Handler? <==>
              run[k].owed.to == None || run[k].owed.reschedule || AskedWhileOwed(run, acts, k, n)
  {
    DispatchTo(run, acts, k, n, n);
  }

  /**
   A reschedule asked for stays pended until PendSV is taken, and that PendSV calls the kernel's
   handler if and only if it finds nothing owed, or one asked for while a switch is.
   */
  lemma AskIsPendedThenServedIff(run: seq<State>, acts: seq<Action>, k: nat, j: nat, n: nat)
    requires IsRun(run, acts) && k < j && j + 1 < n < |run| && (acts[k].Ask? || acts[k].Yield?)
    requires acts[j] == Enter && (forall i :: k < i < j ==> acts[i] != Enter) && Ends(run, j + 1, n)
    ensures forall i :: k < i <= j ==> run[i].pended
    ensures run[n].pendsv.Handler? <==> WillServe(run, acts, j + 1, n)
  {
    forall i | k < i <= j ensures run[i].pended { EveryAskReachesPendSv(run, acts, k, i); }
    assert Steps(run, acts, j);
    EarlyAskServedIff(run, acts, j + 1, n);
  }

  /** A yield whose PendSV an interrupt's wake got in front of: the switch is made and the handler never called. */
  lemma AnEarlyAskCanBeAbsorbed() returns (run: seq<State>, acts: seq<Action>)
    ensures IsRun(run, acts) && acts == [Yield, Decide(1), Enter, Carry(), Carry(), Carry(), Carry()]
    ensures forall k :: 0 <= k < |run| ==> !run[k].pendsv.Handler?
    ensures var last := run[|acts|]; last.pendsv.Inactive? && !last.pended && last.owed.to == None && last.early
  {
    run, acts := AskedThenOwed();
    CarriedOut();
    run, acts := Grow(run, acts, Carry(), At(1, 0, 1, false, Clear, true));
    run, acts := Grow(run, acts, Carry(), At(1, 0, 1, false, Look, true));
    run, acts := Grow(run, acts, Carry(), At(1, 0, 1, false, Leave, true));
    run, acts := Grow(run, acts, Carry(), At(1, 1, 1, false, Inactive, true));
  }

  lemma AskedThenOwed() returns (run: seq<State>, acts: seq<Action>)
    ensures IsRun(run, acts) && acts == [Yield, Decide(1), Enter]
    ensures forall k :: 0 <= k < |run| ==> !run[k].pendsv.Handler?
    ensures run[|acts|] == At(0, 0, 1, false, Read, true)
  {
    run, acts := [At(0, 0, 0, false, Inactive, false)], [];
    run, acts := Grow(run, acts, Yield, At(0, 0, 0, true, Inactive, true));
    run, acts := Grow(run, acts, Decide(1), At(0, 0, 1, true, Inactive, true));
    run, acts := Grow(run, acts, Enter, At(0, 0, 1, false, Read, true));
  }

  /** PendSV's next step, away from the handler. */
  function Carry(): Action { Advance(0, false) }

  /** Two threads that have not run, the second owed the core by the first while it is current and not switched to. */
  function At(psp: Tid, executing: Tid, current: Tid, pended: bool, pendsv: PendSv, early: bool): State {
    var before := pendsv.Inactive? || pendsv.Read? || pendsv.Clear?;
    var owed := if current == 1 && before && executing == 0 then Some(1) else None;
    State(Frame(psp, 0), [Frame(0, 0), Frame(1, 0)], executing, current, {}, Owed(0, owed, false), pended, pendsv,
          [0, 0], early, false)
  }

  lemma CarriedOut()
    ensures var s := At(0, 0, 1, false, Read, true);
            Enabled(s, Carry()) && Step(s, Carry()) == At(1, 0, 1, false, Clear, true)
  {
    assert [Frame(0, 0), Frame(1, 0)][0 := Frame(0, 0)] == [Frame(0, 0), Frame(1, 0)];
  }

  lemma Grow(run: seq<State>, acts: seq<Action>, a: Action, s: State) returns (run': seq<State>, acts': seq<Action>)
    requires IsRun(run, acts) && Enabled(run[|acts|], a) && s == Step(run[|acts|], a)
    ensures IsRun(run', acts') && run' == run + [s] && acts' == acts + [a]
  {
    run', acts' := run + [s], acts + [a];
    forall k: nat | k < |acts'| ensures Steps(run', acts', k) { if k < |acts| { assert Steps(run, acts, k); } }
  }
}
