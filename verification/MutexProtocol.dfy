/**
 base_mutex over every interleaving of any number of threads and mutexes.
 A step is one atomic of lock, try_lock or unlock, or one hold of a queue lock,
 except that a hand-over keeps the queue lock across the claim of a slot for the
 new owner, whose three writes are steps of their own.
 A thread past its failed poll may come back from the park at any time, so every
 wake, late or spurious, is allowed.
 */
module MutexProtocol {
  import opened Wrappers
  import opened Threads
  import opened WaitGraph
  import opened WaitOrder

  /** claim_slot: look whether it is filed, scan for a slot, then the index, then the bit. */
  datatype FileStep = Enter | Scan(i: nat) | Index(i: nat) | Mask(i: nat)

  /** retire_held: the bit, then the slot, then the index. */
  datatype RetireStep = UnMask | UnSlot(i: nat) | UnIndex(i: nat)

  /** Where a thread is in a call on mutex m. */
  datatype Pc =
    | Idle
    | TakeCas(m: Mid, blocking: bool)            // take_if_free, for lock or try_lock
    | File(m: Mid, file: FileStep, armed: bool)  // register_held, after a won CAS
    | Arm(m: Mid)
    | Publish(m: Mid)
    | Poll(m: Mid)                               // acquire_condition
    | WonClear(m: Mid)
    | WonDisarm(m: Mid)
    | Commit(m: Mid)                             // polled in vain: parked, or about to be
    | WokenDisarm(m: Mid)
    | WokenClear(m: Mid)
    | Recheck(m: Mid)
    | Retire(m: Mid, retire: RetireStep)
    | HandOver(m: Mid)
    | HandFile(m: Mid, to: Tid, file: FileStep)  // claim_slot for the new owner, queue lock held

  datatype State = State(
    g: Graph,                        // owner words, queues, caches, slots, masks, edges
    pc: seq<Pc>,                     // by thread
    ticket: seq<nat>,                // by thread: the arrival of its latest arming
    has: seq<set<Mid>>,              // by thread: locks returned to it and not given back
    index: seq<Option<nat>>,         // by mutex: held_slot
    lockedBy: seq<Option<Tid>>,      // by mutex: the hand-over holding the queue lock
    clock: nat)

  datatype Action =
    | CallLock(t: Tid, m: Mid)
    | CallTryLock(t: Tid, m: Mid)
    | CallUnlock(t: Tid, m: Mid)
    | Advance(t: Tid)

  function Base(g: Graph): Tid -> nat { (w: Tid) => if w < |g.threads| then g.threads[w].base else 0 }
  function Arrival(s: State): Tid -> nat { (w: Tid) => if w < |s.ticket| then s.ticket[w] else 0 }

  predicate FreeSlot(g: Graph, t: Tid)
    requires IsThread(g, t)
  {
    exists i :: 0 <= i < |g.threads[t].slots| && g.threads[t].slots[i] == None
  }

  predicate Shaped(s: State) {
    && |s.pc| == |s.ticket| == |s.has| == |s.g.threads|
    && |s.index| == |s.lockedBy| == |s.g.mutexes|
    && (forall t :: 0 <= t < |s.g.threads| ==> |s.g.threads[t].slots| == MAX_HELD && s.g.threads[t].base < 0xFF)
  }

  predicate Call(s: State, t: Tid, m: Mid)
    requires Shaped(s)
  {
    IsThread(s.g, t) && m < |s.g.mutexes| && s.pc[t] == Idle
  }

  predicate Enabled(s: State, a: Action) {
    Shaped(s) &&
    match a
    case CallLock(t, m) =>
      // Not already the owner, a ceiling fit for the caller, and room for one more mutex.
      Call(s, t, m) && s.g.mutexes[m].owner != Some(t) && FreeSlot(s.g, t) &&
      (s.g.mutexes[m].ceiling != NO_CEILING ==> s.g.mutexes[m].ceiling <= s.g.threads[t].base)
    case CallTryLock(t, m) =>
      Call(s, t, m) && FreeSlot(s.g, t) &&
      (s.g.mutexes[m].ceiling != NO_CEILING ==> s.g.mutexes[m].ceiling <= s.g.threads[t].base)
    case CallUnlock(t, m) => Call(s, t, m) && s.g.mutexes[m].owner == Some(t)
    case Advance(t) => IsThread(s.g, t) && CanAdvance(s, t)
  }

  /** The queue lock, where the step takes it, is free. */
  predicate CanAdvance(s: State, t: Tid)
    requires Shaped(s) && IsThread(s.g, t)
  {
    match s.pc[t]
    case Idle => false
    case Arm(m) => m < |s.g.mutexes| && s.lockedBy[m] == None
    case WonDisarm(m) => m < |s.g.mutexes| && s.lockedBy[m] == None
    case WokenDisarm(m) => m < |s.g.mutexes| && s.lockedBy[m] == None
    case HandOver(m) => m < |s.g.mutexes| && s.lockedBy[m] == None
    case HandFile(m, to, file) => m < |s.g.mutexes| && IsThread(s.g, to) && (file.Scan? ==> file.i < MAX_HELD)
    case File(m, file, _) => m < |s.g.mutexes| && (file.Scan? ==> file.i < MAX_HELD)
    case Retire(m, retire) =>
      m < |s.g.mutexes| && (retire.UnSlot? ==> retire.i < MAX_HELD) && (retire.UnMask? ==> s.index[m].Some?)
    case other => other.m < |s.g.mutexes|
  }

  /* ------------------------------------------------------------ the steps */

  function Goto(s: State, t: Tid, pc: Pc): State
    requires t < |s.pc|
  {
    s.(pc := s.pc[t := pc])
  }

  function PutThread(s: State, t: Tid, th: Thread): State
    requires IsThread(s.g, t)
  {
    s.(g := s.g.(threads := s.g.threads[t := th]))
  }

  function PutMutex(s: State, m: Mid, mx: Mutex): State
    requires m < |s.g.mutexes|
  {
    s.(g := s.g.(mutexes := s.g.mutexes[m := mx]))
  }

  /** A lock() or try_lock() that succeeded is back with its caller. */
  function Return(s: State, t: Tid, m: Mid): State
    requires t < |s.pc| == |s.has|
  {
    Goto(s, t, Idle).(has := s.has[t := s.has[t] + {m}])
  }

  /** refresh_top, after the queue became q. */
  function Refreshed(g: Graph, mx: Mutex, q: seq<Tid>): Mutex {
    mx.(queue := q,
        top := if q != [] && q[0] < |g.threads| then g.threads[q[0]].base else NO_WAITER,
        hint := mx.hint && q != [])
  }

  function Armed(s: State, t: Tid, m: Mid): State
    requires Shaped(s) && IsThread(s.g, t) && m < |s.g.mutexes|
  {
    var mx := s.g.mutexes[m];
    var hinted := mx.(hint := mx.hint || !s.g.threads[t].HoldsNothing());
    PutMutex(s.(ticket := s.ticket[t := s.clock], clock := s.clock + 1), m,
             Refreshed(s.g, hinted, Insert(mx.queue, t, Base(s.g))))
  }

  function Disarmed(s: State, t: Tid, m: Mid): State
    requires Shaped(s) && m < |s.g.mutexes|
  {
    var mx := s.g.mutexes[m];
    if t in mx.queue then PutMutex(s, m, Refreshed(s.g, mx, Remove(mx.queue, t))) else s
  }

  /** wake_one_and_commit with hand_over's commit, up to the claim of the slot. */
  function HandedOver(s: State, t: Tid, m: Mid): State
    requires Shaped(s) && IsThread(s.g, t) && m < |s.g.mutexes|
  {
    var mx := s.g.mutexes[m];
    if mx.queue == [] then
      Goto(PutMutex(s, m, mx.(owner := None)), t, Idle)
    else
      var chosen := mx.queue[0];
      Goto(PutMutex(s, m, Refreshed(s.g, mx, mx.queue[1..]).(owner := Some(chosen))), t, HandFile(m, chosen, Scan(0)))
      .(lockedBy := s.lockedBy[m := Some(t)])
  }

  function CasOwner(s: State, t: Tid, m: Mid, won: Pc, lost: Pc): State
    requires Shaped(s) && IsThread(s.g, t) && m < |s.g.mutexes|
  {
    if s.g.mutexes[m].owner == None then
      Goto(PutMutex(s, m, s.g.mutexes[m].(owner := Some(t))), t, won)
    else Goto(s, t, lost)
  }

  function SetSlot(s: State, t: Tid, i: nat, x: Option<Mid>): State
    requires Shaped(s) && IsThread(s.g, t) && i < MAX_HELD
  {
    PutThread(s, t, s.g.threads[t].(slots := s.g.threads[t].slots[i := x]))
  }

  /** One write of claim_slot, by or for thread to. */
  function FileWrite(s: State, to: Tid, m: Mid, file: FileStep): State
    requires Shaped(s) && IsThread(s.g, to) && m < |s.g.mutexes| && (file.Scan? ==> file.i < MAX_HELD)
  {
    match file
    case Enter => s
    case Scan(i) => if s.g.threads[to].slots[i] == None then SetSlot(s, to, i, Some(m)) else s
    case Index(i) => s.(index := s.index[m := Some(i)])
    case Mask(i) => PutThread(s, to, s.g.threads[to].(mask := s.g.threads[to].mask + {i}))
  }

  /** The step after it, if any. */
  function FileNext(s: State, to: Tid, m: Mid, file: FileStep): Option<FileStep>
    requires Shaped(s) && IsThread(s.g, to) && m < |s.g.mutexes| && (file.Scan? ==> file.i < MAX_HELD)
  {
    match file
    case Enter => Some(Scan(0))
    case Scan(i) => Some(if s.g.threads[to].slots[i] == None then Index(i) else Scan(i + 1))
    case Index(i) => Some(Mask(i))
    case Mask(i) => None
  }

  function RetireWrite(s: State, t: Tid, m: Mid, retire: RetireStep): State
    requires Shaped(s) && IsThread(s.g, t) && m < |s.g.mutexes|
    requires (retire.UnSlot? ==> retire.i < MAX_HELD) && (retire.UnMask? ==> s.index[m].Some?)
  {
    match retire
    case UnMask => PutThread(s, t, s.g.threads[t].(mask := s.g.threads[t].mask - {s.index[m].value}))
    case UnSlot(i) => SetSlot(s, t, i, None)
    case UnIndex(_) => s.(index := s.index[m := None])
  }

  function Step(s: State, a: Action): State
    requires Enabled(s, a)
  {
    match a
    case CallLock(t, m) => Goto(s, t, TakeCas(m, true))
    case CallTryLock(t, m) => Goto(s, t, TakeCas(m, false))
    case CallUnlock(t, m) => Goto(s, t, Retire(m, UnMask)).(has := s.has[t := s.has[t] - {m}])
    case Advance(t) => StepOf(s, t)
  }

  function StepOf(s: State, t: Tid): State
    requires Shaped(s) && IsThread(s.g, t) && CanAdvance(s, t)
  {
    var th := s.g.threads[t];
    match s.pc[t]
    case TakeCas(m, blocking) => CasOwner(s, t, m, File(m, Enter, false), if blocking then Arm(m) else Idle)
    case File(m, file, armed) =>
      // register_held is idempotent: filed already is nothing to do.
      var next := if file.Enter? && s.index[m] != None then None else FileNext(s, t, m, file);
      var s1 := FileWrite(s, t, m, file);
      if next.Some? then Goto(s1, t, File(m, next.value, armed))
      else if armed then Goto(s1, t, WonClear(m)) else Return(s1, t, m)
    case Arm(m) => Goto(Armed(s, t, m), t, Publish(m))
    case Publish(m) => Goto(PutThread(s, t, th.(blockedOn := Some(m))), t, Poll(m))
    case Poll(m) =>
      if s.g.mutexes[m].owner == Some(t) then Goto(s, t, WonClear(m))
      else CasOwner(s, t, m, File(m, Enter, true), Commit(m))
    case WonClear(m) => Goto(PutThread(s, t, th.(blockedOn := None)), t, WonDisarm(m))
    case WonDisarm(m) => Return(Disarmed(s, t, m), t, m)
    case Commit(m) => Goto(s, t, WokenDisarm(m))
    case WokenDisarm(m) => Goto(Disarmed(s, t, m), t, WokenClear(m))
    case WokenClear(m) => Goto(PutThread(s, t, th.(blockedOn := None)), t, Recheck(m))
    case Recheck(m) => if s.g.mutexes[m].owner == Some(t) then Return(s, t, m) else Goto(s, t, Arm(m))
    case Retire(m, retire) =>
      var s1 := RetireWrite(s, t, m, retire);
      Goto(s1, t, match retire
                  case UnMask => Retire(m, UnSlot(s.index[m].value))
                  case UnSlot(i) => Retire(m, UnIndex(i))
                  case UnIndex(_) => HandOver(m))
    case HandOver(m) => HandedOver(s, t, m)
    case HandFile(m, to, file) =>
      var next := FileNext(s, to, m, file);
      var s1 := FileWrite(s, to, m, file);
      if next.Some? then Goto(s1, t, HandFile(m, to, next.value))
      else Goto(s1, t, Idle).(lockedBy := s.lockedBy[m := None])
  }

  /** Nothing held, nothing queued, nobody inside a call. */
  ghost predicate Init(s: State) {
    && Shaped(s)
    && (forall t: Tid :: IsThread(s.g, t) ==>
          && s.pc[t] == Idle && s.has[t] == {} && s.g.threads[t].mask == {} && s.g.threads[t].blockedOn == None
          && (forall i :: 0 <= i < MAX_HELD ==> s.g.threads[t].slots[i] == None))
    && (forall m: Mid :: m < |s.g.mutexes| ==>
          && s.g.mutexes[m].owner == None && s.g.mutexes[m].queue == []
          && s.g.mutexes[m].top == NO_WAITER && !s.g.mutexes[m].hint
          && s.index[m] == None && s.lockedBy[m] == None)
  }

  ghost predicate IsRun(run: seq<State>, acts: seq<Action>) {
    |run| == |acts| + 1 && Init(run[0]) && forall k: nat :: k < |acts| ==> Steps(run, acts, k)
  }

  predicate Steps(run: seq<State>, acts: seq<Action>, k: nat)
    requires |run| == |acts| + 1 && k < |acts|
  {
    Enabled(run[k], acts[k]) && run[k + 1] == Step(run[k], acts[k])
  }

  /* ------------------------------------------------------- the invariant */

  /** How far m's filing has come. */
  datatype Filing = Unfiled | Slotted(i: nat) | Indexed(i: nat) | Filed | Unslotted

  function FilingAt(file: FileStep): Filing {
    match file
    case Enter => Unfiled
    case Scan(_) => Unfiled
    case Index(i) => Slotted(i)
    case Mask(i) => Indexed(i)
  }

  function FilingBack(retire: RetireStep): Filing {
    match retire
    case UnMask => Filed
    case UnSlot(i) => Indexed(i)
    case UnIndex(_) => Unslotted
  }

  /** A thread at pc has m's filing in hand. */
  predicate Works(pc: Pc, m: Mid) {
    (pc.File? || pc.HandFile? || pc.Retire? || pc.HandOver?) && pc.m == m
  }

  function FilingBy(pc: Pc): Filing
    requires pc.File? || pc.HandFile? || pc.Retire? || pc.HandOver?
  {
    if pc.File? || pc.HandFile? then FilingAt(pc.file) else if pc.Retire? then FilingBack(pc.retire) else Unfiled
  }

  function FilingOf(s: State, m: Mid): Filing
    requires Shaped(s) && m < |s.g.mutexes|
  {
    var o, l := s.g.mutexes[m].owner, s.lockedBy[m];
    if o.Some? && o.value < |s.pc| && Works(s.pc[o.value], m) then FilingBy(s.pc[o.value])
    else if l.Some? && l.value < |s.pc| && Works(s.pc[l.value], m) then FilingBy(s.pc[l.value])
    else Filed
  }

  /** Armed on m with a poll still to make, or one made in vain. */
  predicate StillWaiting(pc: Pc, m: Mid) {
    (pc.Publish? || pc.Poll? || pc.Commit? || pc.WokenDisarm?) && pc.m == m
  }

  /** Armed on m, the mutex won or handed over, and not yet through the disarm. */
  predicate Winning(pc: Pc, m: Mid) {
    (pc.WonClear? || pc.WonDisarm? || (pc.File? && pc.armed)) && pc.m == m
  }

  predicate ArmedOn(pc: Pc, m: Mid) { StillWaiting(pc, m) || Winning(pc, m) }

  /** The step at pc is made by m's owner. */
  predicate ByOwner(pc: Pc, m: Mid) {
    (pc.File? || pc.WonClear? || pc.WonDisarm? || pc.Retire? || pc.HandOver?) && pc.m == m
  }

  /** In lock() or try_lock(). */
  predicate Locking(pc: Pc) { !pc.Idle? && !pc.Retire? && !pc.HandOver? && !pc.HandFile? }

  /** The wait-for edge is published. */
  predicate EdgeUp(pc: Pc) {
    pc.Poll? || pc.Commit? || pc.WokenDisarm? || pc.WokenClear? || pc.WonClear? || (pc.File? && pc.armed)
  }

  ghost predicate ThreadOk(s: State, t: Tid)
    requires Shaped(s) && IsThread(s.g, t)
  {
    var pc, th := s.pc[t], s.g.threads[t];
    && (pc != Idle ==> pc.m < |s.g.mutexes| && PcOk(s, t, pc.m))
    && (th.blockedOn == if EdgeUp(pc) then Some(pc.m) else None)
    && (forall m :: m in s.has[t] ==> HasOk(s, t, m))
    && (forall i :: i in th.mask ==> i < MAX_HELD && th.slots[i].Some?)
  }

  /** What a caller has locked, it owns, and no call of its own is on it. */
  predicate HasOk(s: State, t: Tid, m: Mid)
    requires Shaped(s) && IsThread(s.g, t)
  {
    m < |s.g.mutexes| && s.g.mutexes[m].owner == Some(t) && !ByOwner(s.pc[t], m) && !ArmedOn(s.pc[t], m)
  }

  ghost predicate PcOk(s: State, t: Tid, m: Mid)
    requires Shaped(s) && IsThread(s.g, t) && m < |s.g.mutexes|
  {
    var pc, th, mx := s.pc[t], s.g.threads[t], s.g.mutexes[m];
    && (ByOwner(pc, m) ==> mx.owner == Some(t))
    && ((pc.TakeCas? && pc.blocking) || pc.Arm? ==> mx.owner != Some(t))
    // A waiter off the queue was handed the mutex, and one that polled in vain has an owner ahead.
    && (ArmedOn(pc, m) && t !in mx.queue ==> mx.owner == Some(t))
    && (pc.Commit? || pc.WokenDisarm? ==> mx.owner != None)
    // Room for the mutex in hand.
    && (Locking(pc) && Some(m) !in th.slots ==> FreeSlot(s.g, t))
    && (pc.File? ==> ScanOk(th, pc.file))
    && (pc.HandFile? ==>
          && s.lockedBy[m] == Some(t) && pc.to != t && IsThread(s.g, pc.to) && mx.owner == Some(pc.to)
          && ArmedOn(s.pc[pc.to], m) && !s.pc[pc.to].File? && ScanOk(s.g.threads[pc.to], pc.file))
  }

  /** Every slot a claim has passed is taken. */
  predicate ScanOk(th: Thread, file: FileStep) {
    file.Scan? ==> file.i <= |th.slots| && forall j :: 0 <= j < file.i ==> th.slots[j].Some?
  }

  ghost predicate MutexOk(s: State, m: Mid)
    requires Shaped(s) && m < |s.g.mutexes|
  {
    var mx := s.g.mutexes[m];
    && QueueOk(s, m)
    && (s.lockedBy[m].Some? ==>
          s.lockedBy[m].value < |s.pc| && s.pc[s.lockedBy[m].value].HandFile? && s.pc[s.lockedBy[m].value].m == m)
    && (mx.owner == None ==> s.index[m] == None)
    && (mx.owner.Some? ==> IsThread(s.g, mx.owner.value) && FilingOk(s, m, mx.owner.value))
  }

  /** The slot, the index and the mask bit agree with how far the filing has come. */
  ghost predicate FilingOk(s: State, m: Mid, t: Tid)
    requires Shaped(s) && m < |s.g.mutexes| && IsThread(s.g, t)
  {
    FilingAs(s, m, t, FilingOf(s, m))
  }

  ghost predicate FilingAs(s: State, m: Mid, t: Tid, f: Filing)
    requires Shaped(s) && m < |s.g.mutexes| && IsThread(s.g, t)
  {
    var th := s.g.threads[t];
    match f
    case Unfiled => s.index[m] == None
    case Slotted(i) => s.index[m] == None && InSlot(th, i, m) && i !in th.mask
    case Indexed(i) => s.index[m] == Some(i) && InSlot(th, i, m) && i !in th.mask
    case Filed => s.index[m].Some? && InSlot(th, s.index[m].value, m) && s.index[m].value in th.mask
    case Unslotted => s.index[m].Some?
  }

  predicate InSlot(th: Thread, i: nat, m: Mid) { i < |th.slots| && th.slots[i] == Some(m) }

  ghost predicate QueueOk(s: State, m: Mid)
    requires Shaped(s) && m < |s.g.mutexes|
  {
    var mx := s.g.mutexes[m];
    && AllThreads(s.g, mx.queue)
    && InOrder(s, mx.queue)
    && mx.top == (if mx.queue == [] then NO_WAITER else s.g.threads[mx.queue[0]].base)
    && (forall w :: w in mx.queue ==> WaiterOk(s, m, w))
  }

  predicate IsAhead(s: State, a: Tid, b: Tid) {
    a < |s.g.threads| == |s.ticket| && b < |s.g.threads| &&
    (s.g.threads[a].base < s.g.threads[b].base ||
     (s.g.threads[a].base == s.g.threads[b].base && s.ticket[a] < s.ticket[b]))
  }

  /** Most urgent first, and first come first served among equals. */
  predicate InOrder(s: State, q: seq<Tid>) {
    forall i, j :: 0 <= i < j < |q| ==> IsAhead(s, q[i], q[j])
  }

  ghost predicate WaiterOk(s: State, m: Mid, w: Tid)
    requires Shaped(s) && m < |s.g.mutexes|
  {
    && IsThread(s.g, w) && ArmedOn(s.pc[w], m) && s.ticket[w] < s.clock
    && (s.g.mutexes[m].owner == Some(w) ==> Winning(s.pc[w], m))
    && (IsBridge(s.g, m, w) ==> s.g.mutexes[m].hint)
  }

  /** A filled slot names a mutex its thread owns, filed nowhere else. */
  ghost predicate SlotOk(s: State, t: Tid, i: nat)
    requires Shaped(s) && IsThread(s.g, t) && i < MAX_HELD
  {
    var x := s.g.threads[t].slots[i];
    x.Some? ==>
      x.value < |s.g.mutexes| && s.g.mutexes[x.value].owner == Some(t) && FiledIn(s, x.value, i, FilingOf(s, x.value))
  }

  predicate FiledIn(s: State, m: Mid, i: nat, f: Filing)
    requires Shaped(s) && m < |s.g.mutexes|
  {
    f == Slotted(i) || f == Indexed(i) || (f == Filed && s.index[m] == Some(i))
  }

  ghost predicate Inv(s: State) {
    && Shaped(s)
    && (forall t: Tid :: IsThread(s.g, t) ==> ThreadOk(s, t))
    && (forall m: Mid :: m < |s.g.mutexes| ==> MutexOk(s, m))
    && (forall t: Tid, i: nat :: IsThread(s.g, t) && i < MAX_HELD ==> SlotOk(s, t, i))
  }
}
