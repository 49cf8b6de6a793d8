/**
 One core's trace ring: one producer, one consumer, and two free-running 32-bit counters,
 for any power-of-two capacity. A record is written and copied in two halves, each a step
 of its own, so a torn record would show. The ring refines a bounded queue.
 */
module TraceRing {
  import opened WrappingCounters

  /** A record, or a slot: two halves. */
  datatype Record = Record(lo: int, hi: int)

  /** append_on_this_core, one at a time: the core is masked. at is history: what the tail it loaded counts. */
  datatype Producer =
    | Resting
    | Check(rec: Record, tailSeen: Word, at: nat)
    | WriteLo(rec: Record)
    | WriteHi(rec: Record)
    | Publish(rec: Record)

  /** read. */
  datatype Consumer =
    | Away
    | LoadHead(size: nat)
    | Copy(count: nat, out: seq<Record>)
    | CopyHi(count: nat, out: seq<Record>, lo: int)

  /** The last four fields are history: the records appended, those read, and the attempts and drops. */
  datatype State = State(
    k: nat,                            // the capacity is 2 to the k
    head: Word, tail: Word, dropped: Word,
    slots: seq<Record>,
    producer: Producer, consumer: Consumer,
    log: seq<Record>, taken: seq<Record>, attempts: nat, drops: nat)

  datatype Action =
    | Append(rec: Record)
    | Produce
    | Read(size: nat)
    | Consume

  function Capacity(s: State): (r: nat)
    ensures r > 0
  {
    Pow2(s.k)
  }

  /** The slot a counter leads to. */
  function Slot(s: State, counter: nat): nat { And(counter, Capacity(s) - 1) }

  predicate Enabled(s: State, a: Action) {
    match a
    case Append(_) => s.producer == Resting
    case Produce =>
      s.producer != Resting &&
      (s.producer.WriteLo? || s.producer.WriteHi? ==> Slot(s, s.head) < |s.slots|)
    case Read(_) => s.consumer == Away
    case Consume =>
      match s.consumer
      case Away => false
      case LoadHead(_) => true
      case Copy(count, out) => |out| < count ==> Slot(s, (s.tail + |out|) % WORD) < |s.slots|
      case CopyHi(_, out, _) => Slot(s, (s.tail + |out|) % WORD) < |s.slots|
  }

  /** Subtraction of 32-bit words. */
  function Minus(a: Word, b: Word): Word { (a + WORD - b) % WORD }

  function Step(s: State, a: Action): State
    requires Enabled(s, a)
  {
    match a
    case Append(rec) => s.(producer := Check(rec, s.tail, |s.taken|), attempts := s.attempts + 1)
    case Produce => Produced(s)
    case Read(size) => s.(consumer := LoadHead(size))
    case Consume => Consumed(s)
  }

  function Produced(s: State): State
    requires Enabled(s, Produce)
  {
    var i := Slot(s, s.head);
    match s.producer
    case Resting => s
    case Check(rec, tailSeen, _) =>
      if Minus(s.head, tailSeen) == Capacity(s) then
        s.(producer := Resting, dropped := (s.dropped + 1) % WORD, drops := s.drops + 1)
      else s.(producer := WriteLo(rec))
    case WriteLo(rec) => s.(producer := WriteHi(rec), slots := s.slots[i := s.slots[i].(lo := rec.lo)])
    case WriteHi(rec) => s.(producer := Publish(rec), slots := s.slots[i := s.slots[i].(hi := rec.hi)])
    case Publish(rec) => s.(producer := Resting, head := (s.head + 1) % WORD, log := s.log + [rec])
  }

  function Consumed(s: State): State
    requires Enabled(s, Consume)
  {
    match s.consumer
    case Away => s
    case LoadHead(size) =>
      var ready := Minus(s.head, s.tail);
      s.(consumer := Copy(if ready < size then ready else size, []))
    case Copy(count, out) =>
      if |out| < count then s.(consumer := CopyHi(count, out, s.slots[Slot(s, (s.tail + |out|) % WORD)].lo))
      else s.(consumer := Away, tail := (s.tail + count) % WORD, taken := s.taken + out)
    case CopyHi(count, out, lo) =>
      s.(consumer := Copy(count, out + [Record(lo, s.slots[Slot(s, (s.tail + |out|) % WORD)].hi)]))
  }

  ghost predicate Init(s: State) {
    && s.k < 32 && |s.slots| == Capacity(s) && s.head == s.tail == s.dropped == 0
    && s.producer == Resting && s.consumer == Away && s.log == s.taken == [] && s.attempts == s.drops == 0
  }

  ghost predicate IsRun(run: seq<State>, acts: seq<Action>) {
    |run| == |acts| + 1 && Init(run[0]) && forall k: nat :: k < |acts| ==> Steps(run, acts, k)
  }

  predicate Steps(run: seq<State>, acts: seq<Action>, k: nat)
    requires |run| == |acts| + 1 && k < |acts|
  {
    Enabled(run[k], acts[k]) && run[k + 1] == Step(run[k], acts[k])
  }

  /* ------------------------------------------------------- the invariant */

  ghost predicate Shaped(s: State) {
    && s.k < 32 && |s.slots| == Capacity(s) && s.taken <= s.log && |s.log| <= |s.taken| + Capacity(s)
    && s.head == |s.log| % WORD && s.tail == |s.taken| % WORD && s.dropped == s.drops % WORD
    && s.attempts == |s.log| + s.drops + (if s.producer.Resting? then 0 else 1)
  }

  /** A record in the ring is in its slot, whole. */
  ghost predicate InPlace(s: State, i: nat)
    requires Shaped(s) && i < |s.log|
  {
    s.slots[i % Capacity(s)] == s.log[i]
  }

  ghost predicate ProducerOk(s: State)
    requires Shaped(s)
  {
    var next := s.slots[|s.log| % Capacity(s)];
    match s.producer
    case Resting => true
    case Check(_, tailSeen, at) => tailSeen == at % WORD && at <= |s.taken| && |s.log| <= at + Capacity(s)
    case WriteLo(_) => |s.log| < |s.taken| + Capacity(s)
    case WriteHi(rec) => |s.log| < |s.taken| + Capacity(s) && next.lo == rec.lo
    case Publish(rec) => |s.log| < |s.taken| + Capacity(s) && next == rec
  }

  ghost predicate ConsumerOk(s: State)
    requires Shaped(s)
  {
    var t := |s.taken|;
    match s.consumer
    case Away => true
    case LoadHead(_) => true
    case Copy(count, out) => t + count <= |s.log| && |out| <= count && out == s.log[t..t + |out|]
    case CopyHi(count, out, lo) =>
      t + count <= |s.log| && |out| < count && out == s.log[t..t + |out|] && lo == s.log[t + |out|].lo
  }

  ghost predicate Inv(s: State) {
    && Shaped(s) && ProducerOk(s) && ConsumerOk(s)
    && forall i: nat :: |s.taken| <= i < |s.log| ==> InPlace(s, i)
  }

  lemma CapacityFits(s: State)
    requires s.k < 32
    ensures Capacity(s) < WORD
  {
    WordSplits(s.k + 1);
    var m: nat :| m > 0 && WORD == m * Pow2(s.k + 1);
    assert (m - 1) * Pow2(s.k + 1) >= 0;
  }

  lemma CheckKeeps(s: State)
    requires Inv(s) && s.producer.Check?
    ensures Inv(Produced(s))
  {
    var s' := Produced(s);
    FullIffSeenFull(s);
    CounterSum(s.drops, 1);
    forall i: nat | |s'.taken| <= i < |s'.log| ensures InPlace(s', i) { assert InPlace(s, i); }
  }

  lemma FullIffSeenFull(s: State)
    requires Shaped(s) && ProducerOk(s) && s.producer.Check?
    ensures Minus(s.head, s.producer.tailSeen) == |s.log| - s.producer.at
  {
    CapacityFits(s);
    CounterDifference(|s.log|, s.producer.at);
  }

  lemma PublishKeeps(s: State)
    requires Inv(s) && s.producer.Publish?
    ensures Inv(Produced(s))
  {
    var s', h := Produced(s), |s.log|;
    CounterSum(h, 1);
    forall i: nat | |s'.taken| <= i < |s'.log| ensures InPlace(s', i) { if i < h { assert InPlace(s, i); } }
  }

  lemma ProduceKeeps(s: State)
    requires Inv(s) && Enabled(s, Produce)
    ensures Inv(Produced(s))
  {
    match s.producer
    case Check(_, _, _) => CheckKeeps(s);
    case Publish(_) => PublishKeeps(s);
    case WriteLo(_) => WrittenKeeps(s);
    case WriteHi(_) => WrittenKeeps(s);
  }

  lemma WrittenKeeps(s: State)
    requires Inv(s) && (s.producer.WriteLo? || s.producer.WriteHi?)
    ensures Enabled(s, Produce) && Inv(Produced(s))
  {
    SlotOfCounter(|s.log|, s.k);
    WriteKeeps(s, Produced(s));
  }

  /** The slot being written holds no record still in the ring. */
  lemma WriteKeeps(s: State, s': State)
    requires Inv(s) && Shaped(s') && s'.k == s.k && s'.log == s.log && s'.taken == s.taken && s'.consumer == s.consumer
    requires |s.log| < |s.taken| + Capacity(s) && ProducerOk(s')
    requires forall j :: 0 <= j < |s.slots| && j != |s.log| % Capacity(s) ==> s'.slots[j] == s.slots[j]
    ensures Inv(s')
  {
    forall i: nat | |s'.taken| <= i < |s'.log| ensures InPlace(s', i) {
      assert InPlace(s, i);
      SlotsDiffer(i, |s.log|, Capacity(s));
    }
  }

  /** A step of the consumer that releases nothing. */
  lemma LookKeeps(s: State, c: Consumer)
    requires Inv(s) && ConsumerOk(s.(consumer := c))
    ensures Inv(s.(consumer := c))
  {
    var s' := s.(consumer := c);
    forall i: nat | |s'.taken| <= i < |s'.log| ensures InPlace(s', i) { assert InPlace(s, i); }
  }

  lemma StoreKeeps(s: State)
    requires Inv(s) && s.consumer.Copy? && |s.consumer.out| == s.consumer.count
    ensures Inv(Consumed(s))
  {
    var s' := Consumed(s);
    CounterSum(|s.taken|, s.consumer.count);
    forall i: nat | |s'.taken| <= i < |s'.log| ensures InPlace(s', i) { assert InPlace(s, i); }
  }

  lemma ConsumeKeeps(s: State)
    requires Inv(s) && Enabled(s, Consume)
    ensures Inv(Consumed(s))
  {
    if s.consumer.Copy? && |s.consumer.out| == s.consumer.count {
      StoreKeeps(s);
    } else {
      if s.consumer.LoadHead? { LoadOk(s); } else { CopyOk(s); }
      LookKeeps(s, Consumed(s).consumer);
    }
  }

  lemma LoadOk(s: State)
    requires Inv(s) && s.consumer.LoadHead?
    ensures ConsumerOk(s.(consumer := Consumed(s).consumer))
  {
    CapacityFits(s);
    CounterDifference(|s.log|, |s.taken|);
  }

  lemma CopyOk(s: State)
    requires Inv(s) && Enabled(s, Consume)
    requires s.consumer.CopyHi? || (s.consumer.Copy? && |s.consumer.out| < s.consumer.count)
    ensures ConsumerOk(s.(consumer := Consumed(s).consumer))
  {
    CopyReads(s, |s.consumer.out|);
    if s.consumer.CopyHi? { SecondHalfOk(s); }
  }

  lemma SecondHalfOk(s: State)
    requires Shaped(s) && ConsumerOk(s) && s.consumer.CopyHi?
    requires var at := Slot(s, (s.tail + |s.consumer.out|) % WORD);
             at < |s.slots| && s.slots[at] == s.log[|s.taken| + |s.consumer.out|]
    ensures ConsumerOk(s.(consumer := Consumed(s).consumer))
  {
    var out, at := s.consumer.out, Slot(s, (s.tail + |s.consumer.out|) % WORD);
    OneMore(s.log, |s.taken|, |out|);
    assert Record(s.consumer.lo, s.slots[at].hi) == s.log[|s.taken| + |out|];
  }

  lemma OneMore(log: seq<Record>, t: nat, i: nat)
    requires t + i < |log|
    ensures log[t..t + i + 1] == log[t..t + i] + [log[t + i]]
  {}

  /** The slot copied i past the tail holds the record i past the last one read. */
  lemma CopyReads(s: State, i: nat)
    requires Inv(s) && |s.taken| + i < |s.log|
    ensures Slot(s, (s.tail + i) % WORD) < |s.slots|
    ensures s.slots[Slot(s, (s.tail + i) % WORD)] == s.log[|s.taken| + i]
  {
    CounterSum(|s.taken|, i);
    SlotOfCounter(|s.taken| + i, s.k);
    assert InPlace(s, |s.taken| + i);
  }

  lemma {:induction false} RunKeeps(run: seq<State>, acts: seq<Action>, n: nat)
    requires IsRun(run, acts) && n < |run|
    ensures Inv(run[n])
    decreases n
  {
    if n > 0 {
      RunKeeps(run, acts, n - 1);
      var s, a := run[n - 1], acts[n - 1];
      assert Steps(run, acts, n - 1);
      match a
      case Produce => ProduceKeeps(s);
      case Consume => ConsumeKeeps(s);
      case _ => forall i: nat | |s.taken| <= i < |s.log| ensures InPlace(run[n], i) { assert InPlace(s, i); }
    }
  }

  /* -------------------------------------------------------- the theorems */

  /**
   What has been read is a prefix of what was appended, whole and in order, and what is
   left fits the ring; every attempt was read, is buffered, was dropped or is under way.
   */
  lemma RefinesABoundedQueue(run: seq<State>, acts: seq<Action>, n: nat)
    requires IsRun(run, acts) && n < |run|
    ensures var s := run[n];
            && s.taken <= s.log && |s.log| - |s.taken| <= Capacity(s)
            && s.attempts == |s.taken| + (|s.log| - |s.taken|) + s.drops + (if s.producer == Resting then 0 else 1)
            && s.dropped == s.drops % WORD
  {
    RunKeeps(run, acts, n);
  }

  /** What a read that is about to load head is to return: as much as it has room for, or all there is. */
  function Wanted(s: State, size: nat): nat
    requires |s.taken| <= |s.log|
  {
    var buffered := |s.log| - |s.taken|;
    if buffered < size then buffered else size
  }

  /** The read given size, begun in s, loaded head at l, where so many records were buffered. */
  predicate LoadsAt(run: seq<State>, acts: seq<Action>, s: State, size: nat, l: nat) {
    && l < |acts| && l < |run| && acts[l] == Consume && run[l].consumer == LoadHead(size)
    && run[l].taken == s.taken && |s.taken| <= |run[l].log|
  }

  /** How far it has come: to the load of head, or to copying what it found. */
  predicate Reading(run: seq<State>, acts: seq<Action>, s: State, size: nat, s': State, l: nat) {
    s'.taken == s.taken &&
    (s'.consumer == LoadHead(size) ||
     (&& (s'.consumer.Copy? || s'.consumer.CopyHi?)
      && LoadsAt(run, acts, s, size, l) && s'.consumer.count == Wanted(run[l], size)))
  }

  lemma {:induction false} InRead(run: seq<State>, acts: seq<Action>, size: nat, j: nat, n: nat) returns (l: nat)
    requires IsRun(run, acts) && j < n < |run| && acts[j] == Read(size)
    requires forall i :: j < i <= n ==> run[i].consumer != Away
    ensures Reading(run, acts, run[j], size, run[n], l) && (run[n].consumer.LoadHead? || j < l < n)
    decreases n
  {
    assert Steps(run, acts, n - 1);
    l := 0;
    if n > j + 1 {
      l := InRead(run, acts, size, j, n - 1);
      RunKeeps(run, acts, n - 1);
      if acts[n - 1] == Consume && run[n - 1].consumer.LoadHead? {
        l := n - 1;
        CountIsWanted(run[l]);
      }
    }
  }

  lemma CountIsWanted(s: State)
    requires Inv(s) && s.consumer.LoadHead?
    ensures Consumed(s).consumer.count == Wanted(s, s.consumer.size)
  {
    CapacityFits(s);
    CounterDifference(|s.log|, |s.taken|);
  }

  /**
   A read returns exactly the oldest records buffered, whole and in order: as many as it has
   room for or, if fewer, all that were buffered when it loaded head.
   */
  lemma ReadReturnsTheOldest(run: seq<State>, acts: seq<Action>, size: nat, j: nat, n: nat) returns (l: nat)
    requires IsRun(run, acts) && j < n < |run| && acts[j] == Read(size) && run[n].consumer == Away
    requires forall i :: j < i < n ==> run[i].consumer != Away
    ensures j < l < n && LoadsAt(run, acts, run[j], size, l)
    ensures var t, count := |run[j].taken|, Wanted(run[l], size);
            t + count <= |run[n].log| && run[n].taken == run[j].taken + run[n].log[t..t + count]
  {
    assert Steps(run, acts, n - 1);
    RunKeeps(run, acts, n - 1);
    if n == j + 1 { assert false; }
    l := InRead(run, acts, size, j, n - 1);
  }

  /** A record is dropped exactly when the ring was full as the append loaded the tail. */
  lemma DropsIffFull(run: seq<State>, acts: seq<Action>, n: nat)
    requires IsRun(run, acts) && n < |acts| && acts[n] == Produce && run[n].producer.Check?
    ensures run[n + 1].drops == run[n].drops + (if |run[n].log| - run[n].producer.at == Capacity(run[n]) then 1 else 0)
  {
    RunKeeps(run, acts, n);
    assert Steps(run, acts, n);
    FullIffSeenFull(run[n]);
  }

  /** Under way with rec since s, which nothing has changed yet that the append would. */
  predicate Appending(s: State, rec: Record, s': State) {
    && s'.log == s.log && s'.drops == s.drops && s'.k == s.k
    && match s'.producer
       case Resting => false
       case Check(x, _, at) => x == rec && at == |s.taken|
       case WriteLo(x) => x == rec && |s.log| - |s.taken| != Capacity(s)
       case WriteHi(x) => x == rec && |s.log| - |s.taken| != Capacity(s)
       case Publish(x) => x == rec && |s.log| - |s.taken| != Capacity(s)
  }

  /** Over, with rec the last of the log; or dropped, the ring having been full in s. */
  predicate Appended(s: State, rec: Record, s': State) {
    s'.producer == Resting &&
    if |s.log| - |s.taken| == Capacity(s) then s'.log == s.log && s'.drops == s.drops + 1
    else s'.log == s.log + [rec] && s'.drops == s.drops
  }

  lemma AppendStep(s: State, rec: Record, s1: State, a: Action)
    requires Inv(s1) && Enabled(s1, a) && Appending(s, rec, s1)
    ensures Appending(s, rec, Step(s1, a)) || Appended(s, rec, Step(s1, a))
  {
    if s1.producer.Check? { FullIffSeenFull(s1); }
  }

  /** An append leaves its record at the end of the log, or drops it, exactly when the ring was full as it began. */
  lemma {:induction false} AppendLogsOrDrops(run: seq<State>, acts: seq<Action>, rec: Record, j: nat, n: nat)
    requires IsRun(run, acts) && j < n < |run| && acts[j] == Append(rec)
    requires forall i :: j < i < n ==> run[i].producer != Resting
    ensures Appending(run[j], rec, run[n]) || Appended(run[j], rec, run[n])
    decreases n
  {
    assert Steps(run, acts, n - 1);
    if n > j + 1 {
      AppendLogsOrDrops(run, acts, rec, j, n - 1);
      RunKeeps(run, acts, n - 1);
      AppendStep(run[j], rec, run[n - 1], acts[n - 1]);
    }
  }
}
