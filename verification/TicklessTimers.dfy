/**
 One core's tickless timer table over its compare register: scheduling, cancelling, the
 compare interrupt and the callbacks it runs, which may schedule and cancel themselves.
 Times are 64-bit tick counts, and sums of them wrap. A slot also carries, as history, a
 serial number no other schedule has, the deadline its grid is anchored at, and whether a
 deadline of it has wrapped; the table carries every firing.
 */
module TicklessTimers {
  import opened GridLoop

  const IDS := 0x1_0000_0000
  const MAX_SCHEDULED_CALLBACKS := 16

  /** wrapped: a deadline of it has wrapped past 64 bits. */
  datatype Slot = Slot(id: nat, when: Ticks, period: Ticks, cb: nat, serial: nat, anchor: Ticks, wrapped: bool)
  const FREE := Slot(0, 0, 0, 0, 0, 0, false)

  /** A slot's callback run at now, due at when; a recurring slot is next due at next. */
  datatype Fire = Fire(
    serial: nat, cb: nat, when: Ticks, now: Ticks, period: Ticks, anchor: Ticks, next: Ticks, wrapped: bool)

  /** lost is history too: a deadline was reached with delivery off, and nothing has re-armed since. */
  datatype Table = Table(
    started: bool, nextId: nat, slots: seq<Slot>,
    armed: Ticks, delivery: bool,
    serial: nat, fired: seq<Fire>, lost: bool)

  predicate Live(x: Slot) { x.id != 0 }

  /* ---------------------------------------------------------- operations */

  function Earliest(slots: seq<Slot>): (r: Ticks)
    ensures forall i :: 0 <= i < |slots| && Live(slots[i]) ==> r <= slots[i].when
    ensures r == NEVER || exists i :: 0 <= i < |slots| && Live(slots[i]) && slots[i].when == r
  {
    if slots == [] then NEVER
    else
      var e, x := Earliest(slots[..|slots| - 1]), slots[|slots| - 1];
      if Live(x) && x.when < e then x.when else e
  }

  /** rearm_locked: cyros_port_time_arm only ever brings the deadline forward. */
  function Rearmed(t: Table): Table {
    var e := Earliest(t.slots);
    t.(armed := if e == NEVER then NEVER else if e < t.armed then e else t.armed, lost := false)
  }

  function RearmedIfStarted(t: Table): Table { if t.started then Rearmed(t) else t }

  /** The first free slot, or the number of slots. */
  function FirstFree(slots: seq<Slot>, i: nat): (r: nat)
    requires i <= |slots|
    ensures i <= r <= |slots| && (r < |slots| ==> !Live(slots[r])) && forall j :: i <= j < r ==> Live(slots[j])
    decreases |slots| - i
  {
    if i == |slots| || !Live(slots[i]) then i else FirstFree(slots, i + 1)
  }

  /** next_handle_id: the counter wraps, and zero is skipped. */
  function HandleId(next: nat): (r: nat)
    ensures r != 0
  {
    if next == 0 then 1 else next
  }

  /** The slot of a schedule: absolute, or every interval from now. */
  datatype Op =
    | At(when: Ticks, cb: nat)
    | Every(interval: Ticks, now: Ticks, cb: nat)
    | Cancel(id: nat)

  function Scheduled(t: Table, when: Ticks, period: Ticks, cb: nat): (r: (Table, nat)) {
    var i, id := FirstFree(t.slots, 0), HandleId(t.nextId);
    if cb == 0 || i == |t.slots| then (t, 0)  // no callback, or out of slots
    else
      (RearmedIfStarted(t.(slots := t.slots[i := Slot(id, when, period, cb, t.serial, when, false)],
                           nextId := (id + 1) % IDS, serial := t.serial + 1)), id)
  }

  /** The first slot with the handle, or the number of slots. */
  function FindId(slots: seq<Slot>, id: nat, i: nat): (r: nat)
    requires i <= |slots|
    ensures i <= r <= |slots| && (r < |slots| ==> slots[r].id == id) && forall j :: i <= j < r ==> slots[j].id != id
    decreases |slots| - i
  {
    if i == |slots| || slots[i].id == id then i else FindId(slots, id, i + 1)
  }

  function Apply(t: Table, op: Op): Table {
    match op
    case At(when, cb) => Scheduled(t, when, 0, cb).0
    case Every(interval, now, cb) =>
      if interval == 0 then t else Scheduled(t, if t.started then (now + interval) % TICKS else 0, interval, cb).0
    case Cancel(id) =>
      var i := FindId(t.slots, id, 0);
      if id == 0 || i == |t.slots| then t else RearmedIfStarted(t.(slots := t.slots[i := FREE]))
  }

  function ApplyAll(t: Table, ops: seq<Op>): Table
    decreases |ops|
  {
    if ops == [] then t else ApplyAll(Apply(t, ops[0]), ops[1..])
  }

  /** The slot is free, a one-shot, or its grid loop ends. */
  ghost predicate CanFire(x: Slot, now: Ticks) { x.period > 0 ==> Ends(x.when, x.period, now) }

  /** One due slot: a one-shot is freed, a recurring one advanced, and the firing noted. */
  ghost function Fired(t: Table, i: nat, now: Ticks): Table
    requires i < |t.slots| && CanFire(t.slots[i], now)
  {
    var x := t.slots[i];
    var next := if x.period == 0 then 0 else Landing(x.when, x.period, now);
    var wrapped := x.wrapped || !Fits(x.when, x.period, now);
    t.(slots := t.slots[i := if x.period == 0 then FREE else x.(when := next, wrapped := wrapped)],
       fired := t.fired + [Fire(x.serial, x.cb, x.when, now, x.period, x.anchor, next, wrapped)])
  }

  predicate Due(x: Slot, now: Ticks) { Live(x) && x.when <= now }

  /** What the next callback does, and what those after it do. */
  function Ops(script: seq<seq<Op>>): seq<Op> { if script == [] then [] else script[0] }
  function Rest(script: seq<seq<Op>>): seq<seq<Op>> { if script == [] then [] else script[1..] }

  /** fire_due_isr returns, from slot i on: the grid loop of every recurring slot it fires ends. */
  ghost predicate Completes(t: Table, i: nat, now: Ticks, script: seq<seq<Op>>)
    decreases |t.slots| - i
  {
    if i >= |t.slots| then true
    else if Due(t.slots[i], now) then
      && CanFire(t.slots[i], now)
      && (SameSlotCount(Fired(t, i, now), Ops(script));
          Completes(ApplyAll(Fired(t, i, now), Ops(script)), i + 1, now, Rest(script)))
    else Completes(t, i + 1, now, script)
  }

  /** fire_due_isr from slot i on. Each callback does the next of the lists of operations. */
  ghost function FireFrom(t: Table, i: nat, now: Ticks, script: seq<seq<Op>>): Table
    requires Completes(t, i, now, script)
    decreases |t.slots| - i
  {
    if i >= |t.slots| then t
    else if Due(t.slots[i], now) then
      SameSlotCount(Fired(t, i, now), Ops(script));
      FireFrom(ApplyAll(Fired(t, i, now), Ops(script)), i + 1, now, Rest(script))
    else FireFrom(t, i + 1, now, script)
  }

  lemma {:induction false} SameSlotCount(t: Table, ops: seq<Op>)
    ensures |ApplyAll(t, ops).slots| == |t.slots|
    decreases |ops|
  {
    if ops != [] { SameSlotCount(Apply(t, ops[0]), ops[1..]); }
  }

  predicate Reached(t: Table, seen: Ticks) { t.armed != NEVER && seen >= t.armed }

  /** The compare interrupt, read at one time, and its handler at a later one. */
  ghost function Interrupted(t: Table, seen: Ticks, now: Ticks, script: seq<seq<Op>>): Table
    requires Reached(t, seen) && t.delivery ==> Completes(t.(armed := NEVER), 0, now, script)
  {
    if !Reached(t, seen) then t
    else if t.delivery then Rearmed(FireFrom(t.(armed := NEVER), 0, now, script))
    else t.(armed := NEVER, lost := true)
  }

  /** start, up to its release of the mask: pended recurring slots are anchored here. */
  function StartArmed(t: Table, now: Ticks): Table {
    Rearmed(t.(started := true, delivery := false, armed := NEVER,
               slots := AnchoredAll(t.slots, now)))
  }

  function AnchoredAll(slots: seq<Slot>, now: Ticks): (r: seq<Slot>)
    ensures |r| == |slots| && forall i :: 0 <= i < |r| ==> r[i] == Anchored(slots[i], now)
  {
    seq(|slots|, i requires 0 <= i < |slots| => Anchored(slots[i], now))
  }

  function Anchored(x: Slot, now: Ticks): Slot {
    var when: Ticks := (now + x.period) % TICKS;
    if Live(x) && x.period != 0 && x.when == 0 then x.(when := when, anchor := when) else x
  }

  datatype Event =
    | Api(op: Op)
    | Compare(seen: Ticks, now: Ticks, script: seq<seq<Op>>)
    | Start(now: Ticks)
    | Enable
    | Stop

  /** A compare interrupt whose handler returns, or anything else. */
  ghost predicate CanHappen(t: Table, e: Event) {
    e.Compare? && Reached(t, e.seen) && t.delivery ==> Completes(t.(armed := NEVER), 0, e.now, e.script)
  }

  ghost function After(t: Table, e: Event): Table
    requires CanHappen(t, e)
  {
    match e
    case Api(op) => Apply(t, op)
    case Compare(seen, now, script) => Interrupted(t, seen, now, script)
    case Start(now) => if t.started then t else StartArmed(t, now)
    case Enable => t.(delivery := t.started)
    case Stop => if t.started then t.(started := false, delivery := false, armed := NEVER, lost := false) else t
  }

  ghost predicate Init(t: Table) {
    && t == Table(false, 1, t.slots, NEVER, false, 0, [], false)
    && |t.slots| == MAX_SCHEDULED_CALLBACKS && forall i :: 0 <= i < |t.slots| ==> t.slots[i] == FREE
  }

  ghost predicate IsRun(run: seq<Table>, events: seq<Event>) {
    && |run| == |events| + 1 && Init(run[0])
    && forall k: nat :: k < |events| ==> Steps(run, events, k)
  }

  ghost predicate Steps(run: seq<Table>, events: seq<Event>, k: nat)
    requires |run| == |events| + 1 && k < |events|
  {
    CanHappen(run[k], events[k]) && run[k + 1] == After(run[k], events[k])
  }

  /* ------------------------------------------------------- the invariant */

  predicate ArmedInTime(t: Table) {
    forall i :: 0 <= i < |t.slots| && Live(t.slots[i]) ==> t.armed <= t.slots[i].when || t.slots[i].when >= NEVER
  }

  /** A live slot has a serial of its own, sits on its grid, and has fired before only if it recurs. */
  ghost predicate SlotOk(t: Table, i: nat)
    requires i < |t.slots|
  {
    var x := t.slots[i];
    Live(x) ==>
      && x.serial < t.serial && (!x.wrapped ==> OnGrid(x.anchor, x.period, x.when))
      && (x.wrapped ==> exists k :: 0 <= k < |t.fired| && t.fired[k].serial == x.serial && Unfit(t.fired[k]))
      && forall k :: 0 <= k < |t.fired| && t.fired[k].serial == x.serial ==> t.fired[k].period == x.period > 0
  }

  predicate SerialsDiffer(t: Table, i: nat, j: nat)
    requires i < |t.slots| && j < |t.slots|
  {
    Live(t.slots[i]) && Live(t.slots[j]) ==> t.slots[i].serial != t.slots[j].serial
  }

  ghost predicate FireOk(f: Fire) {
    && f.when <= f.now
    && (f.period > 0 ==> f.now < f.next && (!Unfit(f) ==> f.next == Next(f.when, f.period, f.now)))
    && (f.period > 0 && !f.wrapped ==> OnGrid(f.anchor, f.period, f.next))
  }

  /** The next point of its grid did not fit. */
  predicate Unfit(f: Fire) { !Fits(f.when, f.period, f.now) }

  /** A firing after which the slot has left its grid comes no sooner than one that did not fit. */
  ghost predicate WrapOk(t: Table, k: nat)
    requires k < |t.fired|
  {
    t.fired[k].wrapped ==> exists j :: 0 <= j <= k && t.fired[j].serial == t.fired[k].serial && Unfit(t.fired[j])
  }

  predicate OncePer(f: Fire, g: Fire) { f.serial == g.serial ==> f.period == g.period > 0 }

  ghost predicate Good(t: Table) {
    && |t.slots| == MAX_SCHEDULED_CALLBACKS
    && (forall i: nat :: i < |t.slots| ==> SlotOk(t, i))
    && (forall i: nat, j: nat :: i < j < |t.slots| ==> SerialsDiffer(t, i, j))
    && (forall k :: 0 <= k < |t.fired| ==> FireOk(t.fired[k]) && t.fired[k].serial < t.serial)
    && (forall k: nat :: k < |t.fired| ==> WrapOk(t, k))
    && (forall j, k :: 0 <= j < k < |t.fired| ==> OncePer(t.fired[j], t.fired[k]))
  }

  ghost predicate Inv(t: Table) {
    && Good(t)
    && (t.started && !t.lost ==> ArmedInTime(t)) && (t.started && t.lost ==> t.armed == NEVER)
    && (t.delivery || t.lost || t.armed != NEVER ==> t.started)
  }

  /* ------------------------------------------------------------ its steps */

  lemma RearmedInTime(t: Table)
    ensures ArmedInTime(Rearmed(t)) && (Good(t) ==> Good(Rearmed(t)))
  {
    if Good(t) { SameSlots(t, Rearmed(t)); }
  }

  lemma SameSlots(t: Table, t': Table)
    requires Good(t) && t'.slots == t.slots && t'.fired == t.fired && t'.serial == t.serial
    ensures Good(t')
  {
    forall i: nat | i < |t'.slots| ensures SlotOk(t', i) { assert SlotOk(t, i); }
    forall i: nat, j: nat | i < j < |t'.slots| ensures SerialsDiffer(t', i, j) { assert SerialsDiffer(t, i, j); }
    forall k: nat | k < |t'.fired| ensures WrapOk(t', k) { assert WrapOk(t, k); }
  }

  /** One slot is filled with a fresh serial, or freed. */
  lemma SlotChanges(t: Table, i: nat, x: Slot, t': Table)
    requires Good(t) && i < |t.slots| && t'.slots == t.slots[i := x] && t'.fired == t.fired && t.serial <= t'.serial
    requires Live(x) ==> x.serial == t.serial < t'.serial && x.anchor == x.when && !x.wrapped
    ensures Good(t')
  {
    forall j: nat | j < |t'.slots| ensures SlotOk(t', j) {
      assert SlotOk(t, j);
      if j == i && Live(x) { assert x.when == x.anchor + 0 * x.period; }
    }
    forall j: nat, k: nat | j < k < |t'.slots| ensures SerialsDiffer(t', j, k) {
      assert SerialsDiffer(t, j, k) && SlotOk(t, j) && SlotOk(t, k);
    }
    forall k: nat | k < |t'.fired| ensures WrapOk(t', k) { assert WrapOk(t, k); }
  }

  lemma ScheduledKeeps(t: Table, when: Ticks, period: Ticks, cb: nat)
    requires Good(t)
    ensures Good(Scheduled(t, when, period, cb).0)
  {
    var i, t' := FirstFree(t.slots, 0), Scheduled(t, when, period, cb).0;
    if cb != 0 && i < |t.slots| { SlotChanges(t, i, t'.slots[i], t'); }
  }

  lemma ApplyKeeps(t: Table, op: Op)
    requires Good(t)
    ensures Good(Apply(t, op))
  {
    match op
    case At(when, cb) => ScheduledKeeps(t, when, 0, cb);
    case Every(interval, now, cb) => ScheduledKeeps(t, if t.started then (now + interval) % TICKS else 0, interval, cb);
    case Cancel(id) =>
      var i := FindId(t.slots, id, 0);
      if id != 0 && i < |t.slots| { SlotChanges(t, i, FREE, Apply(t, op)); }
  }

  /** What no operation touches, and what every one on a started core leaves. */
  lemma ApplyArms(t: Table, op: Op)
    ensures var t' := Apply(t, op);
            && t'.started == t.started && t'.delivery == t.delivery && t'.fired == t.fired
            && (t' == t || !t.started || (ArmedInTime(t') && !t'.lost))
            && (!t.started ==> t'.armed == t.armed && t'.lost == t.lost)
  {
    match op
    case At(when, cb) => ScheduledArms(t, when, 0, cb);
    case Every(interval, now, cb) => ScheduledArms(t, if t.started then (now + interval) % TICKS else 0, interval, cb);
    case Cancel(id) =>
      var i := FindId(t.slots, id, 0);
      if i < |t.slots| { RearmedInTime(t.(slots := t.slots[i := FREE])); }
  }

  lemma ScheduledArms(t: Table, when: Ticks, period: Ticks, cb: nat)
    ensures var t' := Scheduled(t, when, period, cb).0;
            && t'.started == t.started && t'.delivery == t.delivery && t'.fired == t.fired
            && (t' == t || !t.started || (ArmedInTime(t') && !t'.lost))
            && (!t.started ==> t'.armed == t.armed && t'.lost == t.lost)
  {
    var i, id := FirstFree(t.slots, 0), HandleId(t.nextId);
    if i < |t.slots| {
      RearmedInTime(t.(slots := t.slots[i := Slot(id, when, period, cb, t.serial, when, false)],
                       nextId := (id + 1) % IDS, serial := t.serial + 1));
    }
  }

  lemma {:induction false} ApplyAllKeeps(t: Table, ops: seq<Op>)
    requires Good(t)
    ensures Good(ApplyAll(t, ops))
    ensures ApplyAll(t, ops).started == t.started && ApplyAll(t, ops).delivery == t.delivery
    decreases |ops|
  {
    if ops != [] {
      ApplyKeeps(t, ops[0]);
      ApplyArms(t, ops[0]);
      ApplyAllKeeps(Apply(t, ops[0]), ops[1..]);
    }
  }

  lemma FiredOk(t: Table, i: nat, now: Ticks)
    requires Good(t) && i < |t.slots| && Due(t.slots[i], now) && CanFire(t.slots[i], now)
    ensures var t' := Fired(t, i, now); FireOk(t'.fired[|t.fired|]) && WrapOk(t', |t.fired|)
    ensures SlotOk(Fired(t, i, now), i)
  {
    var t', x, n := Fired(t, i, now), t.slots[i], |t.fired|;
    assert SlotOk(t, i) && t'.fired[n].serial == x.serial;
    if x.period > 0 {
      LandsPastNow(x.when, x.period, now);
      if Fits(x.when, x.period, now) { FitsLands(x.when, x.period, now); }
      if !x.wrapped { NextOnGrid(x.anchor, x.when, x.period, now); }
      if x.wrapped {
        var k :| 0 <= k < n && t.fired[k].serial == x.serial && Unfit(t.fired[k]);
        assert t'.fired[k] == t.fired[k];
      }
      assert !Fits(x.when, x.period, now) ==> Unfit(t'.fired[n]);
    }
  }

  lemma FiredKeeps(t: Table, i: nat, now: Ticks)
    requires Good(t) && i < |t.slots| && Due(t.slots[i], now) && CanFire(t.slots[i], now)
    ensures Good(Fired(t, i, now))
  {
    var t', x := Fired(t, i, now), t.slots[i];
    FiredOk(t, i, now);
    assert SlotOk(t, i);
    forall j: nat | j < |t'.slots| ensures SlotOk(t', j) {
      assert SlotOk(t, j);
      if j != i { OthersFired(t, t', i, j); }
    }
    forall j: nat, k: nat | j < k < |t'.slots| ensures SerialsDiffer(t', j, k) { assert SerialsDiffer(t, j, k); }
    forall k: nat | k < |t'.fired| ensures WrapOk(t', k) {
      if k < |t.fired| { assert WrapOk(t, k); }
    }
    forall j, k | 0 <= j < k < |t'.fired| ensures OncePer(t'.fired[j], t'.fired[k]) {
      if k < |t.fired| { assert OncePer(t.fired[j], t.fired[k]); }
    }
  }

  /** A firing of another slot is none of this one's. */
  lemma OthersFired(t: Table, t': Table, i: nat, j: nat)
    requires Good(t) && i < |t.slots| == |t'.slots| && j < |t.slots| && i != j && Live(t.slots[i])
    requires t'.slots[j] == t.slots[j] && t'.serial == t.serial && |t'.fired| == |t.fired| + 1
    requires t'.fired[..|t.fired|] == t.fired && t'.fired[|t.fired|].serial == t.slots[i].serial
    ensures SlotOk(t', j)
  {
    assert SlotOk(t, j) && (if i < j then SerialsDiffer(t, i, j) else SerialsDiffer(t, j, i));
    forall k | 0 <= k < |t.fired| ensures t'.fired[k] == t.fired[k] { assert t'.fired[..|t.fired|][k] == t'.fired[k]; }
    var x := t.slots[j];
    if Live(x) && x.wrapped {
      var k :| 0 <= k < |t.fired| && t.fired[k].serial == x.serial && Unfit(t.fired[k]);
      assert t'.fired[k] == t.fired[k];
    }
  }

  lemma {:induction false} FireFromKeeps(t: Table, i: nat, now: Ticks, script: seq<seq<Op>>)
    requires Good(t) && Completes(t, i, now, script)
    ensures Good(FireFrom(t, i, now, script))
    ensures FireFrom(t, i, now, script).started == t.started && FireFrom(t, i, now, script).delivery == t.delivery
    decreases |t.slots| - i
  {
    if i < |t.slots| {
      if Due(t.slots[i], now) {
        var t1 := Fired(t, i, now);
        FiredKeeps(t, i, now);
        ApplyAllKeeps(t1, Ops(script));
        SameSlotCount(t1, Ops(script));
        FireFromKeeps(ApplyAll(t1, Ops(script)), i + 1, now, Rest(script));
      } else {
        FireFromKeeps(t, i + 1, now, script);
      }
    }
  }

  lemma StartKeeps(t: Table, now: Ticks)
    requires Good(t)
    ensures Good(StartArmed(t, now)) && ArmedInTime(StartArmed(t, now))
  {
    var t' := t.(started := true, delivery := false, armed := NEVER, slots := AnchoredAll(t.slots, now));
    forall i: nat | i < |t'.slots| ensures SlotOk(t', i) {
      assert SlotOk(t, i);
      var x := t'.slots[i];
      if x != t.slots[i] { assert x.when == x.anchor + 0 * x.period; }
    }
    forall i: nat, j: nat | i < j < |t'.slots| ensures SerialsDiffer(t', i, j) { assert SerialsDiffer(t, i, j); }
    forall k: nat | k < |t'.fired| ensures WrapOk(t', k) { assert WrapOk(t, k); }
    RearmedInTime(t');
  }

  lemma AfterKeeps(t: Table, e: Event)
    requires Inv(t) && CanHappen(t, e)
    ensures Inv(After(t, e))
  {
    match e
    case Api(op) =>
      ApplyKeeps(t, op);
      ApplyArms(t, op);
    case Compare(seen, now, script) =>
      var t1 := t.(armed := NEVER);
      SameSlots(t, t1);
      if Reached(t, seen) && t.delivery {
        FireFromKeeps(t1, 0, now, script);
        RearmedInTime(FireFrom(t1, 0, now, script));
      }
      SameSlots(t, t.(armed := NEVER, lost := true));
    case Start(now) => StartKeeps(t, now);
    case Enable => SameSlots(t, After(t, e));
    case Stop => SameSlots(t, After(t, e));
  }

  lemma {:induction false} RunKeeps(run: seq<Table>, events: seq<Event>, k: nat)
    requires IsRun(run, events) && k < |run|
    ensures Inv(run[k])
    decreases k
  {
    if k > 0 {
      RunKeeps(run, events, k - 1);
      assert Steps(run, events, k - 1);
      AfterKeeps(run[k - 1], events[k - 1]);
    }
  }

  /* -------------------------------------------------------- the theorems */

  /**
   On a started core the armed deadline is at or before every live slot's, except exactly
   when a deadline was reached with delivery off and a slot is still waiting.
   */
  lemma ArmedAtOrBeforeEveryDeadline(run: seq<Table>, events: seq<Event>, k: nat)
    requires IsRun(run, events) && k < |run| && run[k].started
    ensures ArmedInTime(run[k]) <==>
            !run[k].lost ||
            forall i :: 0 <= i < |run[k].slots| && Live(run[k].slots[i]) ==> run[k].slots[i].when >= NEVER
  {
    RunKeeps(run, events, k);
  }

  /** A deadline is lost only by a compare interrupt between start's re-arm and its enabling of delivery. */
  lemma LostOnlyBeforeEnable(run: seq<Table>, events: seq<Event>, k: nat)
    requires IsRun(run, events) && k < |events| && !run[k].lost && run[k + 1].lost
    ensures events[k].Compare? && run[k].started && !run[k].delivery
  {
    RunKeeps(run, events, k);
    assert Steps(run, events, k);
    match events[k]
    case Api(op) => ApplyArms(run[k], op);
    case _ =>
  }

  /** Such a run: a timer due as the core starts is never armed again by it. */
  lemma AStartCanLoseADeadline() returns (run: seq<Table>, events: seq<Event>)
    ensures IsRun(run, events)
    ensures var t := run[|events|];
            t.started && t.delivery && |t.slots| > 0 && Live(t.slots[0]) && t.slots[0].when == 5 && t.armed == NEVER
  {
    var slots := seq(MAX_SCHEDULED_CALLBACKS, i => FREE);
    var t0 := Table(false, 1, slots, NEVER, false, 0, [], false);
    var e1, e2, e3, e4 := Api(At(5, 1)), Start(4), Compare(5, 5, []), Enable;
    var t1 := After(t0, e1);
    var t2 := After(t1, e2);
    assert t1.slots[0].when == 5 && Live(t1.slots[0]) && t2.slots[0] == t1.slots[0];
    assert t2.armed <= t2.slots[0].when && !t2.delivery;
    var t3 := After(t2, e3);
    var t4 := After(t3, e4);
    run, events := [t0, t1, t2, t3, t4], [e1, e2, e3, e4];
    assert Steps(run, events, 0) && Steps(run, events, 1) && Steps(run, events, 2) && Steps(run, events, 3);
  }

  /** No slot fires before its deadline, and a one-shot fires at most once. */
  lemma FiresOnTimeAndOnce(run: seq<Table>, events: seq<Event>, k: nat, i: nat)
    requires IsRun(run, events) && k < |run| && i < |run[k].fired|
    ensures run[k].fired[i].when <= run[k].fired[i].now
    ensures run[k].fired[i].period == 0 ==>
            forall j :: 0 <= j < |run[k].fired| && j != i ==> run[k].fired[j].serial != run[k].fired[i].serial
  {
    RunKeeps(run, events, k);
    var t := run[k];
    assert FireOk(t.fired[i]);
    forall j | 0 <= j < |t.fired| && j != i && t.fired[i].period == 0 ensures t.fired[j].serial != t.fired[i].serial {
      assert if i < j then OncePer(t.fired[i], t.fired[j]) else OncePer(t.fired[j], t.fired[i]);
    }
  }

  /**
   Each firing of a recurring slot leaves it due after now. It is on the grid of the deadline
   that fired and at most a period ahead if and only if that grid's next point fits 64 bits;
   and while every firing's has, it is on the grid it was anchored to.
   */
  lemma RecurringStaysOnGrid(run: seq<Table>, events: seq<Event>, k: nat, i: nat)
    requires IsRun(run, events) && k < |run| && i < |run[k].fired| && run[k].fired[i].period > 0
    ensures var f := run[k].fired[i];
            && f.now < f.next
            && (OnGrid(f.when, f.period, f.next) && f.next <= f.now + f.period <==>
                  Next(f.when, f.period, f.now) < TICKS)
            && ((forall j :: 0 <= j <= i && run[k].fired[j].serial == f.serial ==> !Unfit(run[k].fired[j])) ==>
                  OnGrid(f.anchor, f.period, f.next))
  {
    RunKeeps(run, events, k);
    var f := run[k].fired[i];
    assert FireOk(f) && WrapOk(run[k], i);
    assert f.when == f.when + 0 * f.period;
    NextOnGrid(f.when, f.when, f.period, f.now);
    if OnGrid(f.when, f.period, f.next) && f.next <= f.now + f.period { OnlyNext(f.when, f.period, f.now, f.next); }
  }

  /* ---------------------------------------------------- the slots in place */

  class Timetable {
    const slots: array<Slot>
    var started: bool
    var nextId: nat
    var armed: Ticks
    var delivery: bool
    var serial: nat
    ghost var fired: seq<Fire>
    ghost var lost: bool

    ghost function Abs(): Table
      reads this, slots
    {
      Table(started, nextId, slots[..], armed, delivery, serial, fired, lost)
    }

    constructor ()
      ensures Init(Abs()) && fresh(slots)
    {
      slots := new Slot[MAX_SCHEDULED_CALLBACKS](_ => FREE);
      started, nextId, armed, delivery, serial, fired, lost := false, 1, NEVER, false, 0, [], false;
    }

    /** rearm_locked, with cyros_port_time_arm and cyros_port_time_disarm. */
    method Rearm()
      modifies `armed, `lost
      ensures Abs() == Rearmed(old(Abs()))
    {
      var earliest: Ticks := NEVER;
      for i := 0 to slots.Length
        invariant earliest == Earliest(slots[..i])
      {
        assert slots[..i + 1][..i] == slots[..i];
        if Live(slots[i]) && slots[i].when < earliest { earliest := slots[i].when; }
      }
      assert slots[..slots.Length] == slots[..];
      if earliest == NEVER { armed := NEVER; } else if earliest < armed { armed := earliest; }
      lost := false;
    }

    /** The body schedule_at and schedule_recurring share. */
    method Schedule(when: Ticks, period: Ticks, cb: nat) returns (id: nat)
      modifies this, slots
      ensures (Abs(), id) == Scheduled(old(Abs()), when, period, cb)
      ensures id == 0 <==> cb == 0 || forall i :: 0 <= i < slots.Length ==> Live(old(slots[i]))
    {
      if cb == 0 { return 0; }
      var i := 0;
      while i < slots.Length && Live(slots[i])
        invariant 0 <= i <= slots.Length && FirstFree(slots[..], 0) == FirstFree(slots[..], i)
      {
        i := i + 1;
      }
      if i == slots.Length { return 0; }
      id := if nextId == 0 then 1 else nextId;
      slots[i] := Slot(id, when, period, cb, serial, when, false);
      nextId, serial := (id + 1) % IDS, serial + 1;
      if started { Rearm(); }
    }

    method ScheduleAt(when: Ticks, cb: nat) returns (id: nat)
      modifies this, slots
      ensures Abs() == Apply(old(Abs()), At(when, cb))
      ensures id == 0 <==> cb == 0 || forall i :: 0 <= i < slots.Length ==> Live(old(slots[i]))
    {
      id := Schedule(when, 0, cb);
    }

    method ScheduleRecurring(interval: Ticks, now: Ticks, cb: nat) returns (id: nat)
      modifies this, slots
      ensures Abs() == Apply(old(Abs()), Every(interval, now, cb))
      ensures id == 0 <==> cb == 0 || interval == 0 || forall i :: 0 <= i < slots.Length ==> Live(old(slots[i]))
    {
      if interval == 0 { return 0; }
      id := Schedule(if started then (now + interval) % TICKS else 0, interval, cb);
    }

    method CancelHandle(id: nat) returns (cancelled: bool)
      modifies this, slots
      ensures Abs() == Apply(old(Abs()), Cancel(id))
      ensures cancelled <==> id != 0 && exists i :: 0 <= i < slots.Length && old(slots[i]).id == id
    {
      if id == 0 { return false; }
      var i := 0;
      while i < slots.Length && slots[i].id != id
        invariant 0 <= i <= slots.Length && FindId(slots[..], id, 0) == FindId(slots[..], id, i)
        invariant forall j :: 0 <= j < i ==> slots[j].id != id
      {
        i := i + 1;
      }
      if i == slots.Length { return false; }
      assert old(slots[i]).id == id;
      slots[i] := FREE;
      if started { Rearm(); }
      return true;
    }

    /** What a callback does. */
    method Perform(ops: seq<Op>)
      modifies this, slots
      ensures Abs() == ApplyAll(old(Abs()), ops)
    {
      ghost var t := Abs();
      assert ops[0..] == ops;
      for k := 0 to |ops|
        invariant ApplyAll(t, ops) == ApplyAll(Abs(), ops[k..])
      {
        assert ops[k..][0] == ops[k] && ops[k..][1..] == ops[k + 1..];
        match ops[k]
        case At(when, cb) => var h := ScheduleAt(when, cb);
        case Every(interval, now, cb) => var h := ScheduleRecurring(interval, now, cb);
        case Cancel(id) => var ok := CancelHandle(id);
      }
    }

    /** fire_due_isr: callbacks run between slots and may change any of them. */
    method FireDue(now: Ticks, script: seq<seq<Op>>)
      requires Completes(Abs(), 0, now, script)
      modifies this, slots
      ensures Abs() == FireFrom(old(Abs()), 0, now, script)
    {
      ghost var t := Abs();
      var rest := script;
      for i := 0 to slots.Length
        invariant Completes(Abs(), i, now, rest)
        invariant FireFrom(t, 0, now, script) == FireFrom(Abs(), i, now, rest)
      {
        if Live(slots[i]) && slots[i].when <= now {
          FireSlot(i, now);
          Perform(Ops(rest));
          rest := Rest(rest);
        }
      }
    }

    method FireSlot(i: nat, now: Ticks)
      requires i < slots.Length && CanFire(slots[i], now)
      modifies slots, `fired
      ensures Abs() == Fired(old(Abs()), i, now)
    {
      var x := slots[i];
      ghost var next: Ticks, wrapped := 0, x.wrapped || !Fits(x.when, x.period, now);
      if x.period == 0 {
        slots[i] := FREE;
      } else {
        var w := Advance(x.when, x.period, now);
        next := w;
        slots[i] := x.(when := w, wrapped := x.wrapped || !Fits(x.when, x.period, now));
      }
      fired := fired + [Fire(x.serial, x.cb, x.when, now, x.period, x.anchor, next, wrapped)];
    }

    /** The compare interrupt, and on_timer_isr when it is delivered. */
    method Interrupt(seen: Ticks, now: Ticks, script: seq<seq<Op>>)
      requires Reached(Abs(), seen) && delivery ==> Completes(Abs().(armed := NEVER), 0, now, script)
      modifies this, slots
      ensures Abs() == Interrupted(old(Abs()), seen, now, script)
    {
      if armed == NEVER || seen < armed { return; }
      armed := NEVER;
      if delivery {
        FireDue(now, script);
        Rearm();
      } else {
        lost := true;
      }
    }

    /** start, up to its release of the mask. */
    method StartArm(now: Ticks)
      modifies this, slots
      ensures Abs() == if old(started) then old(Abs()) else StartArmed(old(Abs()), now)
    {
      if started { return; }
      delivery, armed := false, NEVER;
      ghost var was := slots[..];
      for i := 0 to slots.Length
        modifies slots
        invariant forall j :: 0 <= j < i ==> slots[j] == Anchored(was[j], now)
        invariant forall j :: i <= j < slots.Length ==> slots[j] == was[j]
      {
        var x := slots[i];
        if Live(x) && x.period != 0 && x.when == 0 {
          slots[i] := x.(when := (now + x.period) % TICKS, anchor := (now + x.period) % TICKS);
        }
      }
      assert slots[..] == AnchoredAll(was, now);
      started := true;
      Rearm();
    }
  }
}
