/**
 The intake of one core: the lock-free stack by which other cores ask for threads of
 this one to be readied. Producers claim a thread, link it to itself, exchange it onto
 the head and then publish its link; the core takes the whole chain, reverses it and
 services it. Every atomic is a step, and any number of producers may be under way.
 */
module Intake {
  import opened Wrappers
  import opened Threads

  /** How far the push of a claimed thread has come. A claim is owned by one producer. */
  datatype Push =
    | Off                            // no request pending
    | Claimed                        // fetch_or found no request pending
    | SelfLinked                     // intake_next names the thread itself
    | Exchanged(below: Option<Tid>)  // on the chain, its link not published
    | Linked

  /** drain_intake, on the owning core. */
  datatype Drain =
    | Rest
    | Looking                                  // about to take the chain
    | Walk(node: Option<Tid>, fifo: Option<Tid>)
    | Turn(n: Tid, next: Option<Tid>, fifo: Option<Tid>)
    | Serve(fifo: Option<Tid>)
    | Strip(n: Tid, next: Option<Tid>)
    | Release(n: Tid, next: Option<Tid>)       // about to take the request bits
    | Service(n: Tid, next: Option<Tid>)

  /**
   The last five fields are history: the order of the exchanges, the threads serviced,
   who has been asked for since its last service began, and, as positions in the
   order of exchanges, how much of it has been released, how much of the batch taken is
   still to be reversed, and where the batch taken ends.
   */
  datatype State = State(
    head: Option<Tid>,           // intake_head
    next: seq<Option<Tid>>,      // intake_next, by thread
    push: seq<Push>,
    owed: nat,                   // producers that found the intake empty and have yet to ring
    rung: bool,                  // a reschedule interrupt is pending on the core
    drain: Drain,
    log: seq<Tid>, done: seq<Tid>, asked: set<Tid>,
    released: nat, turned: nat, taken: nat)

  datatype Action =
    | Post(t: Tid)
    | SelfLink(t: Tid)
    | Exchange(t: Tid)
    | Link(t: Tid)
    | Ring
    | Answer     // the interrupt is taken: its handler reschedules
    | Switch     // any other switch of the core
    | Advance    // one step of the drain

  predicate Shaped(s: State) { |s.next| == |s.push| }

  /** pending_requests is non-zero. */
  predicate Pending(s: State, t: Tid)
    requires t < |s.push|
  {
    !s.push[t].Off?
  }

  predicate Enabled(s: State, a: Action) {
    Shaped(s) &&
    match a
    case Post(t) => t < |s.push|
    case SelfLink(t) => t < |s.push| && s.push[t].Claimed?
    case Exchange(t) => t < |s.push| && s.push[t].SelfLinked?
    case Link(t) => t < |s.push| && s.push[t].Exchanged?
    case Ring => s.owed > 0
    case Answer => s.drain == Rest && s.rung
    case Switch => s.drain == Rest
    case Advance => CanAdvance(s)
  }

  /** await_intake_link spins while the link names the node itself. */
  predicate CanAdvance(s: State)
    requires Shaped(s)
  {
    match s.drain
    case Rest => false
    case Walk(Some(n), _) => n < |s.next| && s.next[n] != Some(n)
    case Turn(n, _, _) => n < |s.next|
    case Serve(Some(n)) => n < |s.next|
    case Strip(n, _) => n < |s.next|
    case Release(n, _) => n < |s.next|
    case _ => true
  }

  function Step(s: State, a: Action): State
    requires Enabled(s, a)
  {
    match a
    case Post(t) =>
      var s1 := s.(asked := s.asked + {t});
      if Pending(s, t) then s1 else s1.(push := s.push[t := Claimed])
    case SelfLink(t) => s.(next := s.next[t := Some(t)], push := s.push[t := SelfLinked])
    case Exchange(t) => s.(head := Some(t), push := s.push[t := Exchanged(s.head)], log := s.log + [t])
    case Link(t) =>
      var below := s.push[t].below;
      s.(next := s.next[t := below], push := s.push[t := Linked], owed := if below == None then s.owed + 1 else s.owed)
    case Ring => s.(owed := s.owed - 1, rung := true)
    case Answer => s.(rung := false, drain := Looking)
    case Switch => s.(drain := Looking)
    case Advance => Drained(s)
  }

  function Drained(s: State): State
    requires Shaped(s) && CanAdvance(s)
  {
    match s.drain
    case Looking =>
      s.(head := None, drain := if s.head == None then Rest else Walk(s.head, None),
         turned := |s.log|, taken := |s.log|)
    case Walk(None, fifo) => s.(drain := Serve(fifo))
    case Walk(Some(n), fifo) => s.(drain := Turn(n, s.next[n], fifo))
    case Turn(n, next, fifo) =>
      s.(next := s.next[n := fifo], drain := Walk(next, Some(n)), turned := if s.turned > 0 then s.turned - 1 else 0)
    case Serve(None) => s.(drain := Rest)
    case Serve(Some(n)) => s.(drain := Strip(n, s.next[n]))
    case Strip(n, next) => s.(next := s.next[n := None], drain := Release(n, next))
    case Release(n, next) =>
      s.(push := s.push[n := Off], drain := Service(n, next), released := s.released + 1, turned := s.turned + 1)
    case Service(n, next) => s.(drain := Serve(next), done := s.done + [n], asked := s.asked - {n})
  }

  ghost predicate Init(s: State) {
    && Shaped(s) && s.head == None && s.owed == 0 && !s.rung && s.drain == Rest
    && (forall t :: 0 <= t < |s.push| ==> s.push[t] == Off)
    && s.log == s.done == [] && s.asked == {} && s.released == s.turned == s.taken == 0
  }

  ghost predicate IsRun(run: seq<State>, acts: seq<Action>) {
    && |run| == |acts| + 1 && Init(run[0])
    && forall k :: 0 <= k < |acts| ==> Enabled(run[k], acts[k]) && run[k + 1] == Step(run[k], acts[k])
  }

  /* ------------------------------------------------------- the invariant */

  /** The node below t, published or not. */
  function Below(s: State, t: Tid): Option<Tid>
    requires Shaped(s) && t < |s.push|
  {
    if s.push[t].Exchanged? then s.push[t].below else s.next[t]
  }

  function At(s: State, lo: nat, i: int): Option<Tid> {
    if lo <= i < |s.log| then Some(s.log[i]) else None
  }

  ghost predicate MarksOk(s: State) {
    && s.released <= s.turned <= s.taken <= |s.log|
    && forall i :: 0 <= i < |s.log| ==> s.log[i] < |s.push|
  }

  /** Whoever is not released is on the chain or taken, once. */
  ghost predicate NodesOk(s: State)
    requires Shaped(s) && MarksOk(s)
  {
    && (forall i: nat, j: nat :: s.released <= i < j < |s.log| ==> Apart(s, i, j))
    && (forall i :: s.released <= i < |s.log| ==> NodeOk(s, i))
    && (forall t: Tid :: t < |s.push| ==> PushOk(s, t))
  }

  predicate Apart(s: State, i: nat, j: nat)
    requires i < |s.log| && j < |s.log|
  {
    s.log[i] != s.log[j]
  }

  /** Position i: on the chain or still to be reversed, it leads down; reversed, it leads up. */
  predicate NodeOk(s: State, i: nat)
    requires Shaped(s) && MarksOk(s) && i < |s.log|
  {
    var t := s.log[i];
    && (s.push[t].Exchanged? || s.push[t].Linked?)
    && (s.taken <= i ==> Below(s, t) == At(s, s.taken, i - 1))
    && (s.released <= i < s.turned ==> Below(s, t) == At(s, s.released, i - 1))
    && (s.turned <= i < s.taken ==>
          s.push[t].Linked? &&
          ((s.drain.Release? && i == s.released) || s.next[t] == Front(s, i + 1, s.taken)))
  }

  ghost predicate PushOk(s: State, t: Tid)
    requires Shaped(s) && t < |s.push|
  {
    && (s.push[t].SelfLinked? || s.push[t].Exchanged? ==> s.next[t] == Some(t))
    && (s.push[t].Exchanged? || s.push[t].Linked? ==> OnOrder(s, t))
    && (t in s.asked ==> Pending(s, t) || (s.drain.Service? && s.drain.n == t))
  }

  ghost predicate OnOrder(s: State, t: Tid) {
    exists i :: s.released <= i < |s.log| && s.log[i] == t
  }

  predicate DrainOk(s: State)
    requires Shaped(s) && MarksOk(s)
  {
    var a, b, c := s.released, s.turned, s.taken;
    && s.head == At(s, c, |s.log| - 1)
    && s.log[..a] == s.done + (if s.drain.Service? then [s.drain.n] else [])
    && match s.drain
       case Rest => a == b == c
       case Looking => a == b == c
       case Walk(node, fifo) => node == Last(s, a, b) && fifo == Front(s, b, c) && a < c
       case Turn(n, next, fifo) =>
         a < b && n == s.log[b - 1] && next == At(s, a, b - 2) && s.push[n].Linked? && fifo == Front(s, b, c)
       case Serve(fifo) => a == b && fifo == Front(s, a, c)
       case Strip(n, next) => a == b < c && n == s.log[a] && next == Front(s, a + 1, c)
       case Release(n, next) => a == b < c && n == s.log[a] && next == Front(s, a + 1, c)
       case Service(n, next) => a == b && next == Front(s, a, c)
  }

  /** The last of positions lo to hi, and the first. */
  function Last(s: State, lo: nat, hi: nat): Option<Tid> { if lo < hi <= |s.log| then Some(s.log[hi - 1]) else None }
  function Front(s: State, lo: nat, hi: nat): Option<Tid> { if lo < hi <= |s.log| then Some(s.log[lo]) else None }

  /** A chain waiting has a bell rung, one still to ring, or a core about to look. */
  predicate BellOk(s: State)
    requires Shaped(s) && MarksOk(s)
  {
    s.taken < |s.log| ==> s.rung || s.owed > 0 || s.drain == Looking || s.push[s.log[s.taken]] == Exchanged(None)
  }

  ghost predicate Inv(s: State) {
    Shaped(s) && MarksOk(s) && NodesOk(s) && DrainOk(s) && BellOk(s)
  }

  /** Off the order, t is neither exchanged nor linked. */
  lemma OffOrder(s: State, t: Tid)
    requires Inv(s) && t < |s.push| && !s.push[t].Exchanged? && !s.push[t].Linked?
    ensures forall i :: s.released <= i < |s.log| ==> s.log[i] != t
  {
    forall i | s.released <= i < |s.log| ensures s.log[i] != t { assert NodeOk(s, i); }
  }

  lemma StillOnOrder(s: State, s': State, t: Tid)
    requires s.released == s'.released && s.log <= s'.log
    ensures OnOrder(s, t) ==> OnOrder(s', t)
  {
    if OnOrder(s, t) {
      var i :| s.released <= i < |s.log| && s.log[i] == t;
      assert s'.log[i] == t;
    }
  }

  /** A step that releases nobody and leaves every other thread's link alone. */
  ghost predicate Near(s: State, s': State, t: Tid) {
    && Shaped(s) && Shaped(s') && MarksOk(s) && MarksOk(s')
    && |s.push| == |s'.push| && s.log <= s'.log && s.released == s'.released && s.drain == s'.drain
    && s.turned == s'.turned && s.taken == s'.taken
    && forall u: Tid :: u < |s.push| && u != t ==> s.next[u] == s'.next[u] && s.push[u] == s'.push[u]
  }

  lemma NearNodes(s: State, s': State, t: Tid)
    requires Near(s, s', t) && NodesOk(s) && s'.asked <= s.asked + {t}
    requires forall i: nat :: s.released <= i < |s'.log| && (i >= |s.log| || s.log[i] == t) ==> NodeOk(s', i)
    requires forall i: nat, j: nat :: s.released <= i < j && |s.log| <= j < |s'.log| ==> Apart(s', i, j)
    requires t < |s.push| ==> PushOk(s', t)
    ensures NodesOk(s')
  {
    forall i: nat | s'.released <= i < |s'.log| ensures NodeOk(s', i) {
      if i < |s.log| { assert NodeOk(s, i); assert s'.log[i] == s.log[i]; }
    }
    forall i: nat, j: nat | s'.released <= i < j < |s'.log| ensures Apart(s', i, j) {
      if j < |s.log| { assert Apart(s, i, j); }
    }
    forall u: Tid | u < |s'.push| ensures PushOk(s', u) {
      assert PushOk(s, u);
      StillOnOrder(s, s', u);
    }
  }

  lemma PostKeeps(s: State, t: Tid)
    requires Inv(s) && Enabled(s, Post(t))
    ensures Inv(Step(s, Post(t)))
  {
    PostNodes(s, Step(s, Post(t)), t);
  }

  lemma PostNodes(s: State, s': State, t: Tid)
    requires Inv(s) && Near(s, s', t) && s'.log == s.log && s'.next == s.next && s'.asked == s.asked + {t} &&
             t < |s.push|
    requires s'.push[t] == if Pending(s, t) then s.push[t] else Claimed
    ensures NodesOk(s')
  {
    assert PushOk(s, t);
    StillOnOrder(s, s', t);
    if !Pending(s, t) { OffOrder(s, t); }
    forall i: nat | s.released <= i < |s'.log| && s.log[i] == t ensures NodeOk(s', i) { assert NodeOk(s, i); }
    NearNodes(s, s', t);
  }

  lemma SelfLinkKeeps(s: State, t: Tid)
    requires Inv(s) && Enabled(s, SelfLink(t))
    ensures Inv(Step(s, SelfLink(t)))
  {
    assert PushOk(s, t);
    OffOrder(s, t);
    NearNodes(s, Step(s, SelfLink(t)), t);
  }

  lemma LinkKeeps(s: State, t: Tid)
    requires Inv(s) && Enabled(s, Link(t))
    ensures Inv(Step(s, Link(t)))
  {
    LinkNodes(s, Step(s, Link(t)), t);
  }

  lemma LinkNodes(s: State, s': State, t: Tid)
    requires Inv(s) && Enabled(s, Link(t)) && Near(s, s', t) && s'.log == s.log && s'.asked == s.asked
    requires s'.push[t] == Linked && s'.next[t] == s.push[t].below
    ensures NodesOk(s')
  {
    assert PushOk(s, t);
    StillOnOrder(s, s', t);
    forall i: nat | s.released <= i < |s'.log| && s.log[i] == t ensures NodeOk(s', i) { assert NodeOk(s, i); }
    NearNodes(s, s', t);
  }

  lemma ExchangeKeeps(s: State, t: Tid)
    requires Inv(s) && Enabled(s, Exchange(t))
    ensures Inv(Step(s, Exchange(t)))
  {
    var s' := Step(s, Exchange(t));
    ExchangeNodes(s, s', t);
    assert s'.log[..s.released] == s.log[..s.released];
  }

  lemma ExchangeNodes(s: State, s': State, t: Tid)
    requires Inv(s) && Enabled(s, Exchange(t)) && Near(s, s', t) && s'.log == s.log + [t] && s'.next == s.next
    requires s'.push[t] == Exchanged(s.head) && s'.asked == s.asked
    ensures NodesOk(s')
  {
    OffOrder(s, t);
    assert PushOk(s, t);
    assert s'.log[|s.log|] == t;
    NearNodes(s, s', t);
  }

  lemma BellKeeps(s: State, a: Action)
    requires Inv(s) && Enabled(s, a) && (a.Ring? || a.Answer? || a.Switch?)
    ensures Inv(Step(s, a))
  {
    DrainNodes(s, Step(s, a));
  }

  /** A step of the drain that leaves the links, the pushes and the marks alone. */
  lemma DrainNodes(s: State, s': State)
    requires Inv(s) && Shaped(s') && MarksOk(s') && s.log == s'.log && s.released == s'.released && s'.asked <= s.asked
    requires (s.drain.Release? <==> s'.drain.Release?) && (s.drain.Service? ==> s'.drain == s.drain)
    requires s.next == s'.next && s.push == s'.push && s.turned == s'.turned && s.taken == s'.taken
    ensures NodesOk(s')
  {
    forall i: nat | s'.released <= i < |s'.log| ensures NodeOk(s', i) { assert NodeOk(s, i); }
    forall i: nat, j: nat | s'.released <= i < j < |s'.log| ensures Apart(s', i, j) { assert Apart(s, i, j); }
    forall u: Tid | u < |s'.push| ensures PushOk(s', u) { assert PushOk(s, u); StillOnOrder(s, s', u); }
  }

  lemma TakeKeeps(s: State)
    requires Inv(s) && Enabled(s, Advance) && s.drain.Looking?
    ensures Inv(Drained(s))
  {
    var s' := Drained(s);
    forall i: nat | s'.released <= i < |s'.log| ensures NodeOk(s', i) { assert NodeOk(s, i); }
    forall i: nat, j: nat | s'.released <= i < j < |s'.log| ensures Apart(s', i, j) { assert Apart(s, i, j); }
    forall u: Tid | u < |s'.push| ensures PushOk(s', u) { assert PushOk(s, u); StillOnOrder(s, s', u); }
  }

  lemma WalkKeeps(s: State)
    requires Inv(s) && Enabled(s, Advance) && s.drain.Walk?
    ensures Inv(Drained(s))
  {
    var b := s.turned;
    if s.drain.node.Some? { assert NodeOk(s, b - 1) && PushOk(s, s.log[b - 1]); }
    DrainNodes(s, Drained(s));
  }

  lemma ServeKeeps(s: State)
    requires Inv(s) && Enabled(s, Advance) && s.drain.Serve?
    ensures Inv(Drained(s))
  {
    if s.drain.fifo.Some? { assert NodeOk(s, s.released); }
    DrainNodes(s, Drained(s));
  }

  /** The link of one node is rewritten by the drain, and the rest stand. */
  lemma TurnKeeps(s: State)
    requires Inv(s) && Enabled(s, Advance) && s.drain.Turn?
    ensures Inv(Drained(s))
  {
    var s', b := Drained(s), s.turned;
    forall i: nat | s'.released <= i < |s'.log| ensures NodeOk(s', i) {
      assert NodeOk(s, i);
      assert i < b - 1 ==> Apart(s, i, b - 1);
      assert i > b - 1 ==> Apart(s, b - 1, i);
    }
    forall i: nat, j: nat | s'.released <= i < j < |s'.log| ensures Apart(s', i, j) { assert Apart(s, i, j); }
    forall u: Tid | u < |s'.push| ensures PushOk(s', u) { assert PushOk(s, u); StillOnOrder(s, s', u); }
  }

  lemma StripKeeps(s: State)
    requires Inv(s) && Enabled(s, Advance) && s.drain.Strip?
    ensures Inv(Drained(s))
  {
    var s', a := Drained(s), s.released;
    assert NodeOk(s, a);
    forall i: nat | s'.released <= i < |s'.log| ensures NodeOk(s', i) {
      assert NodeOk(s, i);
      assert i > a ==> Apart(s, a, i);
    }
    forall i: nat, j: nat | s'.released <= i < j < |s'.log| ensures Apart(s', i, j) { assert Apart(s, i, j); }
    forall u: Tid | u < |s'.push| ensures PushOk(s', u) { assert PushOk(s, u); StillOnOrder(s, s', u); }
  }

  lemma ReleaseKeeps(s: State)
    requires Inv(s) && Enabled(s, Advance) && s.drain.Release?
    ensures Inv(Drained(s))
  {
    var s', a, n := Drained(s), s.released, s.drain.n;
    forall i: nat | s'.released <= i < |s'.log| ensures NodeOk(s', i) { assert NodeOk(s, i) && Apart(s, a, i); }
    forall i: nat, j: nat | s'.released <= i < j < |s'.log| ensures Apart(s', i, j) { assert Apart(s, i, j); }
    forall u: Tid | u < |s'.push| ensures PushOk(s', u) { ReleasePush(s, u); }
    assert s.taken < |s.log| ==> Apart(s, a, s.taken);
    assert s.log[..a + 1] == s.log[..a] + [n];
  }

  lemma ReleasePush(s: State, u: Tid)
    requires Inv(s) && Enabled(s, Advance) && s.drain.Release? && u < |s.push|
    ensures u < |Drained(s).push| && PushOk(Drained(s), u)
  {
    assert PushOk(s, u);
    if u != s.drain.n && OnOrder(s, u) {
      var i :| s.released <= i < |s.log| && s.log[i] == u;
      assert Drained(s).log[i] == u;
    }
  }

  lemma ServiceKeeps(s: State)
    requires Inv(s) && Enabled(s, Advance) && s.drain.Service?
    ensures Inv(Drained(s))
  {
    var s' := Drained(s);
    forall i: nat | s'.released <= i < |s'.log| ensures NodeOk(s', i) { assert NodeOk(s, i); }
    forall i: nat, j: nat | s'.released <= i < j < |s'.log| ensures Apart(s', i, j) { assert Apart(s, i, j); }
    forall u: Tid | u < |s'.push| ensures PushOk(s', u) { assert PushOk(s, u); StillOnOrder(s, s', u); }
  }

  lemma StepKeeps(s: State, a: Action)
    requires Inv(s) && Enabled(s, a)
    ensures Inv(Step(s, a))
  {
    match a
    case Post(t) => PostKeeps(s, t);
    case SelfLink(t) => SelfLinkKeeps(s, t);
    case Exchange(t) => ExchangeKeeps(s, t);
    case Link(t) => LinkKeeps(s, t);
    case Ring => BellKeeps(s, a);
    case Answer => BellKeeps(s, a);
    case Switch => BellKeeps(s, a);
    case Advance =>
      match s.drain
      case Looking => TakeKeeps(s);
      case Walk(_, _) => WalkKeeps(s);
      case Turn(_, _, _) => TurnKeeps(s);
      case Serve(_) => ServeKeeps(s);
      case Strip(_, _) => StripKeeps(s);
      case Release(_, _) => ReleaseKeeps(s);
      case Service(_, _) => ServiceKeeps(s);
  }

  lemma {:induction false} RunKeeps(run: seq<State>, acts: seq<Action>, k: nat)
    requires IsRun(run, acts) && k < |run|
    ensures Inv(run[k])
    decreases k
  {
    if k > 0 {
      RunKeeps(run, acts, k - 1);
      assert Enabled(run[k - 1], acts[k - 1]) && run[(k - 1) + 1] == Step(run[k - 1], acts[k - 1]);
      StepKeeps(run[k - 1], acts[k - 1]);
    }
  }

  /* -------------------------------------------------------- the theorems */

  /** Threads are serviced in the order of their exchanges, each exchange at most once. */
  lemma ServicedInOrder(run: seq<State>, acts: seq<Action>, k: nat)
    requires IsRun(run, acts) && k < |run|
    ensures run[k].done <= run[k].log
  {
    RunKeeps(run, acts, k);
  }

  /** A thread goes onto the chain only when every earlier push of it has been released. */
  lemma OnceOnTheChain(run: seq<State>, acts: seq<Action>, k: nat, t: Tid)
    requires IsRun(run, acts) && k < |acts| && acts[k] == Exchange(t)
    ensures run[k].released <= |run[k].log| && t !in run[k].log[run[k].released..]
  {
    RunKeeps(run, acts, k);
    assert Enabled(run[k], acts[k]);
    OffOrder(run[k], t);
  }

  /** A core spinning on a link waits for a producer whose next step publishes it. */
  lemma NoLinkIsStranded(run: seq<State>, acts: seq<Action>, k: nat, n: Tid)
    requires IsRun(run, acts) && k < |run| && run[k].drain.Walk? && run[k].drain.node == Some(n)
    requires !Enabled(run[k], Advance)
    ensures Enabled(run[k], Link(n)) && Enabled(Step(run[k], Link(n)), Advance)
  {
    var s := run[k];
    RunKeeps(run, acts, k);
    var b := s.turned;
    assert NodeOk(s, b - 1) && PushOk(s, n);
    assert b - 1 > s.released ==> Apart(s, b - 2, b - 1);
  }

  /** An intake that is not empty has a doorbell rung, one about to be, or a core about to look. */
  lemma NonEmptyHasABell(run: seq<State>, acts: seq<Action>, k: nat)
    requires IsRun(run, acts) && k < |run| && run[k].head != None
    ensures var s := run[k];
            s.rung || s.owed > 0 || s.drain == Looking || exists t: Tid :: t < |s.push| && s.push[t] == Exchanged(None)
  {
    RunKeeps(run, acts, k);
  }

  /** No push under way, no bell to ring or to answer, and the core outside its drain. */
  ghost predicate AtRest(s: State) {
    && s.owed == 0 && !s.rung && s.drain == Rest
    && forall t: Tid :: t < |s.push| ==> s.push[t].Off? || s.push[t].Linked?
  }

  /** At rest, everything pushed has been serviced, and nobody asked for is waiting. */
  lemma AtRestAllServiced(run: seq<State>, acts: seq<Action>, k: nat)
    requires IsRun(run, acts) && k < |run| && AtRest(run[k])
    ensures run[k].done == run[k].log && run[k].asked == {} && run[k].head == None
  {
    var s := run[k];
    RunKeeps(run, acts, k);
    assert s.taken == |s.log|;
    AskedInRange(run, acts, k);
    forall t: Tid | t < |s.push| ensures t !in s.asked { assert PushOk(s, t); }
  }

  lemma {:induction false} AskedInRange(run: seq<State>, acts: seq<Action>, k: nat)
    requires IsRun(run, acts) && k < |run|
    ensures forall t :: t in run[k].asked ==> t < |run[k].push|
    decreases k
  {
    if k > 0 {
      AskedInRange(run, acts, k - 1);
      assert Enabled(run[k - 1], acts[k - 1]) && run[(k - 1) + 1] == Step(run[k - 1], acts[k - 1]);
    }
  }

  /** The service of t begins at step i. */
  predicate ServicesAt(run: seq<State>, acts: seq<Action>, i: nat, t: Tid) {
    i < |run| && i < |acts| && acts[i] == Advance && run[i].drain.Service? && run[i].drain.n == t
  }

  /**
   No request is absorbed by work already done: whether a post claimed the thread or
   merged with a request already pending, a service of it begins after the post.
   */
  lemma EveryPostIsServiced(run: seq<State>, acts: seq<Action>, k: nat, j: nat)
    requires IsRun(run, acts) && k < j < |run| && acts[k].Post? && AtRest(run[j])
    ensures exists i: nat :: k < i < j && ServicesAt(run, acts, i, acts[k].t)
  {
    assert run[k + 1] == Step(run[k], acts[k]);
    AtRestAllServiced(run, acts, j);
    LeavesByService(run, acts, k + 1, j, acts[k].t);
  }

  lemma {:induction false} LeavesByService(run: seq<State>, acts: seq<Action>, k: nat, j: nat, t: Tid)
    requires IsRun(run, acts) && k <= j < |run| && t in run[k].asked && t !in run[j].asked
    ensures exists i: nat :: k <= i < j && ServicesAt(run, acts, i, t)
    decreases j - k
  {
    assert Enabled(run[k], acts[k]) && run[k + 1] == Step(run[k], acts[k]);
    if t in run[k + 1].asked {
      LeavesByService(run, acts, k + 1, j, t);
    } else {
      assert ServicesAt(run, acts, k, t);
    }
  }
}
