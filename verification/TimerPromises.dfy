/**
 What the timer table does with what it was asked for, in every run: a delivered interrupt
 fires what is due and was not cancelled, what fires is what was scheduled, and what was
 cancelled fires no more.
 */
module TimerPromises {
  import opened WrappingCounters
  import opened GridLoop
  import opened TicklessTimers

  /* ------------------------------------------------------ what an interrupt fires */

  /** Operations fire nothing, and what they schedule has a serial of its own. */
  lemma {:induction false} ApplyAllFresh(t: Table, ops: seq<Op>)
    ensures var t' := ApplyAll(t, ops);
            && t'.fired == t.fired && t.serial <= t'.serial && |t'.slots| == |t.slots|
            && forall j :: 0 <= j < |t.slots| && Live(t'.slots[j]) ==>
                 t'.slots[j] == t.slots[j] || t.serial <= t'.slots[j].serial
    decreases |ops|
  {
    if ops != [] {
      ApplyArms(t, ops[0]);
      ApplyAllFresh(Apply(t, ops[0]), ops[1..]);
    }
  }

  /** No slot from i on has the serial. */
  predicate NoneFrom(t: Table, i: nat, serial: nat) {
    forall j :: i <= j < |t.slots| && Live(t.slots[j]) ==> t.slots[j].serial != serial
  }

  lemma {:induction false} FiresNoMore(t: Table, i: nat, now: Ticks, script: seq<seq<Op>>, serial: nat)
    requires Completes(t, i, now, script) && serial < t.serial && NoneFrom(t, i, serial)
    ensures t.fired <= FireFrom(t, i, now, script).fired
    ensures forall k :: |t.fired| <= k < |FireFrom(t, i, now, script).fired| ==>
              FireFrom(t, i, now, script).fired[k].serial != serial
    decreases |t.slots| - i
  {
    if i < |t.slots| {
      if Due(t.slots[i], now) {
        var t1 := Fired(t, i, now);
        var t2 := ApplyAll(t1, Ops(script));
        ApplyAllFresh(t1, Ops(script));
        FiresNoMore(t2, i + 1, now, Rest(script), serial);
      } else {
        FiresNoMore(t, i + 1, now, script, serial);
      }
    }
  }

  /** From n on there is exactly one firing of x, for the deadline it had, at now. */
  predicate FiresOnce(fired: seq<Fire>, n: nat, x: Slot, now: Ticks) {
    exists k :: n <= k < |fired| && fired[k].serial == x.serial && fired[k].when == x.when && fired[k].now == now &&
                forall j :: n <= j < |fired| && j != k ==> fired[j].serial != x.serial
  }

  lemma FiresAtItsTurn(t: Table, j: nat, now: Ticks, script: seq<seq<Op>>)
    requires Good(t) && Completes(t, j, now, script) && j < |t.slots| && Due(t.slots[j], now)
    ensures FiresOnce(FireFrom(t, j, now, script).fired, |t.fired|, t.slots[j], now)
  {
    var x, t1, n := t.slots[j], Fired(t, j, now), |t.fired|;
    var t2 := ApplyAll(t1, Ops(script));
    assert SlotOk(t, j);
    ApplyAllFresh(t1, Ops(script));
    forall i | j + 1 <= i < |t2.slots| && Live(t2.slots[i]) ensures t2.slots[i].serial != x.serial {
      assert SerialsDiffer(t, j, i);
    }
    FiresNoMore(t2, j + 1, now, Rest(script), x.serial);
    var fired := FireFrom(t, j, now, script).fired;
    assert fired == FireFrom(t2, j + 1, now, Rest(script)).fired;
    assert fired[n] == t1.fired[n];
  }

  predicate FiresNever(fired: seq<Fire>, n: nat, serial: nat) {
    forall k :: n <= k < |fired| ==> fired[k].serial != serial
  }

  /** One of the operations cancels the handle of slot j, which is the first slot with it. */
  predicate Frees(t: Table, ops: seq<Op>, j: nat)
    decreases |ops|
  {
    ops != [] && (FreesOne(t, ops[0], j) || Frees(Apply(t, ops[0]), ops[1..], j))
  }

  predicate FreesOne(t: Table, op: Op, j: nat) {
    op.Cancel? && op.id != 0 && j < |t.slots| && FindId(t.slots, op.id, 0) == j
  }

  /** A live slot stays as it is until it is freed, and is then gone for good. */
  lemma {:induction false} FreesIff(t: Table, ops: seq<Op>, j: nat)
    requires j < |t.slots| && Live(t.slots[j]) && t.slots[j].serial < t.serial
    ensures j < |ApplyAll(t, ops).slots|
    ensures ApplyAll(t, ops).slots[j] == t.slots[j] <==> !Frees(t, ops, j)
    decreases |ops|
  {
    if ops != [] {
      var t1 := Apply(t, ops[0]);
      FreesOneIff(t, ops[0], j);
      ApplyAllFresh(t1, ops[1..]);
      if !FreesOne(t, ops[0], j) { FreesIff(t1, ops[1..], j); }
    }
  }

  lemma FreesOneIff(t: Table, op: Op, j: nat)
    requires j < |t.slots| && Live(t.slots[j])
    ensures var t' := Apply(t, op);
            && |t'.slots| == |t.slots| && t.serial <= t'.serial
            && t'.slots[j] == if FreesOne(t, op, j) then FREE else t.slots[j]
  {}

  /** A callback that fire_due_isr runs on its way from slot i to slot j frees slot j. */
  ghost predicate FreedBefore(t: Table, i: nat, j: nat, now: Ticks, script: seq<seq<Op>>)
    requires Completes(t, i, now, script)
    decreases |t.slots| - i
  {
    if i >= j || i >= |t.slots| then false
    else if Due(t.slots[i], now) then
      SameSlotCount(Fired(t, i, now), Ops(script));
      || Frees(Fired(t, i, now), Ops(script), j)
      || FreedBefore(ApplyAll(Fired(t, i, now), Ops(script)), i + 1, j, now, Rest(script))
    else FreedBefore(t, i + 1, j, now, script)
  }

  /** It fires once, unless it is freed before its turn, and then never. */
  ghost predicate FiresUnlessFreed(t: Table, i: nat, j: nat, now: Ticks, script: seq<seq<Op>>)
    requires Completes(t, i, now, script) && j < |t.slots|
  {
    var x, fired := t.slots[j], FireFrom(t, i, now, script).fired;
    if FreedBefore(t, i, j, now, script) then FiresNever(fired, |t.fired|, x.serial)
    else FiresOnce(fired, |t.fired|, x, now)
  }

  lemma {:induction false} EveryDueSlotFires(t: Table, i: nat, j: nat, now: Ticks, script: seq<seq<Op>>)
    requires Good(t) && Completes(t, i, now, script) && i <= j < |t.slots| && Due(t.slots[j], now)
    ensures FiresUnlessFreed(t, i, j, now, script)
    decreases |t.slots| - i
  {
    if i == j {
      FiresAtItsTurn(t, j, now, script);
    } else if !Due(t.slots[i], now) {
      EveryDueSlotFires(t, i + 1, j, now, script);
    } else {
      DueSlotFiresNext(t, i, j, now, script);
      var t1 := Fired(t, i, now);
      if !Frees(t1, Ops(script), j) {
        var t2 := ApplyAll(t1, Ops(script));
        EveryDueSlotFires(t2, i + 1, j, now, Rest(script));
        assert FreedBefore(t, i, j, now, script) <==> FreedBefore(t2, i + 1, j, now, Rest(script));
      }
      OneBeforeIsAnothers(t, i, j, now, script);
    }
  }

  lemma DueSlotFiresNext(t: Table, i: nat, j: nat, now: Ticks, script: seq<seq<Op>>)
    requires Good(t) && Completes(t, i, now, script) && i < j < |t.slots|
    requires Due(t.slots[i], now) && Due(t.slots[j], now)
    ensures var t1 := Fired(t, i, now);
            var t2 := ApplyAll(t1, Ops(script));
            && t1.fired == t2.fired && |t2.slots| == |t.slots|
            && if Frees(t1, Ops(script), j) then
                 FiresNever(FireFrom(t, i, now, script).fired, |t1.fired|, t.slots[j].serial)
               else t2.slots[j] == t.slots[j] && Good(t2)
  {
    var t1 := Fired(t, i, now);
    assert SlotOk(t, j);
    FiredKeeps(t, i, now);
    ApplyAllKeeps(t1, Ops(script));
    ApplyAllFresh(t1, Ops(script));
    FreesIff(t1, Ops(script), j);
    if Frees(t1, Ops(script), j) { CancelledFiresNever(t, i, j, now, script); }
  }

  /** A slot that the callback of slot i has freed does not fire after it. */
  lemma CancelledFiresNever(t: Table, i: nat, j: nat, now: Ticks, script: seq<seq<Op>>)
    requires Good(t) && Completes(t, i, now, script) && i < j < |t.slots|
    requires Due(t.slots[i], now) && Due(t.slots[j], now)
    requires var t2 := ApplyAll(Fired(t, i, now), Ops(script)); j < |t2.slots| ==> t2.slots[j] != t.slots[j]
    ensures FiresNever(FireFrom(t, i, now, script).fired, |Fired(t, i, now).fired|, t.slots[j].serial)
  {
    var x, t1 := t.slots[j], Fired(t, i, now);
    var t2 := ApplyAll(t1, Ops(script));
    assert SlotOk(t, j);
    ApplyAllFresh(t1, Ops(script));
    forall k | i + 1 <= k < |t2.slots| && Live(t2.slots[k]) ensures t2.slots[k].serial != x.serial {
      assert k < j ==> SerialsDiffer(t, k, j);
      assert j < k ==> SerialsDiffer(t, j, k);
    }
    FiresNoMore(t2, i + 1, now, Rest(script), x.serial);
  }

  /** The firing of slot i, before those that follow it, is not slot j's. */
  lemma OneBeforeIsAnothers(t: Table, i: nat, j: nat, now: Ticks, script: seq<seq<Op>>)
    requires Good(t) && Completes(t, i, now, script) && i < j < |t.slots|
    requires Due(t.slots[i], now) && Due(t.slots[j], now)
    ensures var t1 := Fired(t, i, now);
            var fired := FireFrom(t, i, now, script).fired;
            && (FiresOnce(fired, |t1.fired|, t.slots[j], now) ==> FiresOnce(fired, |t.fired|, t.slots[j], now))
            && (FiresNever(fired, |t1.fired|, t.slots[j].serial) ==> FiresNever(fired, |t.fired|, t.slots[j].serial))
  {
    var x, t1, n := t.slots[j], Fired(t, i, now), |t.fired|;
    var t2 := ApplyAll(t1, Ops(script));
    var fired := FireFrom(t, i, now, script).fired;
    assert SerialsDiffer(t, i, j);
    ApplyAllFresh(t1, Ops(script));
    FiredGrows(t2, i + 1, now, Rest(script));
    assert fired[n] == t1.fired[n];
  }

  lemma {:induction false} FiredGrows(t: Table, i: nat, now: Ticks, script: seq<seq<Op>>)
    requires Completes(t, i, now, script)
    ensures t.fired <= FireFrom(t, i, now, script).fired
    decreases |t.slots| - i
  {
    if i < |t.slots| {
      if Due(t.slots[i], now) {
        var t1 := Fired(t, i, now);
        ApplyAllFresh(t1, Ops(script));
        FiredGrows(ApplyAll(t1, Ops(script)), i + 1, now, Rest(script));
      } else {
        FiredGrows(t, i + 1, now, script);
      }
    }
  }

  /**
   In every run, a compare interrupt that is delivered fires each slot due at its now exactly
   once, unless a callback it runs before that slot's turn cancels it, and then never.
   */
  lemma DeliveredInterruptFiresTheDue(run: seq<Table>, events: seq<Event>, k: nat, j: nat)
    requires IsRun(run, events) && k < |events| && events[k].Compare?
    requires Reached(run[k], events[k].seen) && run[k].delivery
    requires j < |run[k].slots| && Due(run[k].slots[j], events[k].now)
    ensures var t, x, e, fired := run[k].(armed := NEVER), run[k].slots[j], events[k], run[k + 1].fired;
            && Completes(t, 0, e.now, e.script)
            && if FreedBefore(t, 0, j, e.now, e.script) then FiresNever(fired, |t.fired|, x.serial)
               else FiresOnce(fired, |t.fired|, x, e.now)
  {
    RunKeeps(run, events, k);
    assert Steps(run, events, k);
    var t := run[k].(armed := NEVER);
    SameSlots(run[k], t);
    EveryDueSlotFires(t, 0, j, events[k].now, events[k].script);
  }

  /* ---------------------------------------------------- what is cancelled is gone */

  /** Scheduled once, and in no slot. */
  predicate Gone(t: Table, serial: nat) { serial < t.serial && NoneFrom(t, 0, serial) }

  lemma {:induction false} GoneThroughFiring(t: Table, i: nat, now: Ticks, script: seq<seq<Op>>, serial: nat)
    requires Completes(t, i, now, script) && Gone(t, serial)
    ensures Gone(FireFrom(t, i, now, script), serial)
    decreases |t.slots| - i
  {
    if i < |t.slots| {
      if Due(t.slots[i], now) {
        var t1 := Fired(t, i, now);
        ApplyAllFresh(t1, Ops(script));
        GoneThroughFiring(ApplyAll(t1, Ops(script)), i + 1, now, Rest(script), serial);
      } else {
        GoneThroughFiring(t, i + 1, now, script, serial);
      }
    }
  }

  lemma ApplyFresh(t: Table, op: Op)
    ensures var t' := Apply(t, op);
            && t'.fired == t.fired && t.serial <= t'.serial && |t'.slots| == |t.slots|
            && forall j :: 0 <= j < |t.slots| && Live(t'.slots[j]) ==>
                 t'.slots[j] == t.slots[j] || t.serial <= t'.slots[j].serial
  {
    assert ApplyAll(t, [op]) == Apply(t, op);
    ApplyAllFresh(t, [op]);
  }

  lemma GoneStays(t: Table, e: Event, serial: nat)
    requires Gone(t, serial) && CanHappen(t, e)
    ensures var t' := After(t, e); Gone(t', serial) && t.fired <= t'.fired && FiresNever(t'.fired, |t.fired|, serial)
  {
    match e
    case Api(op) => ApplyFresh(t, op);
    case Compare(seen, now, script) =>
      if Reached(t, seen) && t.delivery {
        var t1 := t.(armed := NEVER);
        FiresNoMore(t1, 0, now, script, serial);
        GoneThroughFiring(t1, 0, now, script, serial);
      }
    case Start(_) =>
    case Enable =>
    case Stop =>
  }

  /** What is gone stays gone, and fires no more. */
  lemma {:induction false} GoneForGood(run: seq<Table>, events: seq<Event>, k: nat, n: nat, serial: nat)
    requires IsRun(run, events) && k <= n < |run| && Gone(run[k], serial)
    ensures Gone(run[n], serial) && run[k].fired <= run[n].fired
    ensures FiresNever(run[n].fired, |run[k].fired|, serial)
    decreases n
  {
    if n > k {
      GoneForGood(run, events, k, n - 1, serial);
      assert Steps(run, events, n - 1);
      GoneStays(run[n - 1], events[n - 1], serial);
    }
  }

  /** A timer that is cancelled is in no slot from then on, and never fires again. */
  lemma CancelledNeverFires(run: seq<Table>, events: seq<Event>, k: nat, n: nat, id: nat, i: nat)
    requires IsRun(run, events) && k < n < |run| && events[k] == Api(Cancel(id)) && id != 0
    requires i == FindId(run[k].slots, id, 0) < |run[k].slots|
    ensures NoneFrom(run[n], 0, run[k].slots[i].serial)
    ensures run[k].fired <= run[n].fired && FiresNever(run[n].fired, |run[k].fired|, run[k].slots[i].serial)
  {
    var t, t', x := run[k], run[k + 1], run[k].slots[i];
    RunKeeps(run, events, k);
    assert Steps(run, events, k) && SlotOk(t, i);
    forall j | 0 <= j < |t'.slots| && Live(t'.slots[j]) ensures t'.slots[j].serial != x.serial {
      assert j < i ==> SerialsDiffer(t, j, i);
      assert i < j ==> SerialsDiffer(t, i, j);
    }
    GoneForGood(run, events, k + 1, n, x.serial);
  }

  /** Cancelling the handle a schedule returned undoes it, exactly when no earlier slot has the same handle. */
  lemma CancelUndoesSchedule(t: Table, when: Ticks, period: Ticks, cb: nat)
    requires cb != 0 && FirstFree(t.slots, 0) < |t.slots|
    ensures var i := FirstFree(t.slots, 0);
            var (t1, id) := Scheduled(t, when, period, cb);
            Apply(t1, Cancel(id)).slots == t.slots[i := FREE] <==> forall j :: 0 <= j < i ==> t.slots[j].id != id
  {
    var i := FirstFree(t.slots, 0);
    var (t1, id) := Scheduled(t, when, period, cb);
    var f := FindId(t1.slots, id, 0);
    var r := Apply(t1, Cancel(id)).slots;
    assert t1.slots == t.slots[i := t1.slots[i]] && t1.slots[i].id == id;
    assert f <= i && r == t1.slots[f := FREE];
    if f < i {
      assert t.slots[f].id == id && r[f] == FREE && r[f] != t.slots[i := FREE][f];
    } else {
      forall j | 0 <= j < i ensures t.slots[j].id != id { assert t1.slots[j] == t.slots[j]; }
    }
  }

  /* ------------------------------------------------------ handles */

  /** The handle of a schedule: they count up from 1, and start again after the last that is not zero. */
  function HandleOf(serial: nat): nat { 1 + serial % (IDS - 1) }

  predicate HandlesOk(t: Table) {
    && t.nextId < IDS && HandleId(t.nextId) == HandleOf(t.serial)
    && forall j :: 0 <= j < |t.slots| && Live(t.slots[j]) ==> t.slots[j].id == HandleOf(t.slots[j].serial)
  }

  lemma NextHandle(serial: nat)
    ensures HandleId((HandleOf(serial) + 1) % IDS) == HandleOf(serial + 1)
  {
    var w, q, r := IDS - 1, serial / (IDS - 1), serial % (IDS - 1);
    assert serial == q * w + r;
    if r + 1 < w {
      assert serial + 1 == q * w + (r + 1);
      SameModulo(q, w, r + 1);
    } else {
      assert serial + 1 == (q + 1) * w + 0;
      SameModulo(q + 1, w, 0);
    }
  }

  lemma ApplyKeepsHandles(t: Table, op: Op)
    requires HandlesOk(t)
    ensures HandlesOk(Apply(t, op))
  {
    NextHandle(t.serial);
  }

  lemma {:induction false} ApplyAllKeepsHandles(t: Table, ops: seq<Op>)
    requires HandlesOk(t)
    ensures HandlesOk(ApplyAll(t, ops))
    decreases |ops|
  {
    if ops != [] {
      ApplyKeepsHandles(t, ops[0]);
      ApplyAllKeepsHandles(Apply(t, ops[0]), ops[1..]);
    }
  }

  lemma {:induction false} FiringKeepsHandles(t: Table, i: nat, now: Ticks, script: seq<seq<Op>>)
    requires Completes(t, i, now, script) && HandlesOk(t)
    ensures HandlesOk(FireFrom(t, i, now, script))
    decreases |t.slots| - i
  {
    if i < |t.slots| {
      if Due(t.slots[i], now) {
        var t1 := Fired(t, i, now);
        ApplyAllKeepsHandles(t1, Ops(script));
        ApplyAllFresh(t1, Ops(script));
        FiringKeepsHandles(ApplyAll(t1, Ops(script)), i + 1, now, Rest(script));
      } else {
        FiringKeepsHandles(t, i + 1, now, script);
      }
    }
  }

  lemma {:induction false} HandlesCountUp(run: seq<Table>, events: seq<Event>, n: nat)
    requires IsRun(run, events) && n < |run|
    ensures HandlesOk(run[n])
    decreases n
  {
    if n > 0 {
      HandlesCountUp(run, events, n - 1);
      assert Steps(run, events, n - 1);
      var t, e := run[n - 1], events[n - 1];
      if e.Api? { ApplyKeepsHandles(t, e.op); }
      if e.Compare? && Reached(t, e.seen) && t.delivery {
        FiringKeepsHandles(t.(armed := NEVER), 0, e.now, e.script);
      }
    }
  }

  /** Two timers have the same handle only if a multiple of 2^32 - 1 schedules were made from the one to the other. */
  lemma SameHandleIff(run: seq<Table>, events: seq<Event>, n: nat, i: nat, j: nat)
    requires IsRun(run, events) && n < |run| && i < j < |run[n].slots| && Live(run[n].slots[i]) && Live(run[n].slots[j])
    ensures var x, y := run[n].slots[i], run[n].slots[j];
            && x.serial != y.serial
            && (x.id == y.id <==> x.serial % (IDS - 1) == y.serial % (IDS - 1))
  {
    HandlesCountUp(run, events, n);
    RunKeeps(run, events, n);
    assert SerialsDiffer(run[n], i, j);
  }

  /* ------------------------------------------------------ what fires was asked for */

  /** y is x, but for a recurring deadline that has moved on. */
  predicate AsIs(x: Slot, y: Slot) {
    y.cb == x.cb && y.period == x.period && y.anchor == x.anchor && (x.period == 0 ==> y.when == x.when)
  }

  predicate FiresAsIs(x: Slot, f: Fire) {
    f.cb == x.cb && f.period == x.period && f.anchor == x.anchor && (x.period == 0 ==> f.when == x.when)
  }

  /** Whatever has x's serial, of the slots and of the firings from n on, is x's. */
  predicate AllAsIs(t: Table, x: Slot, n: nat) {
    && x.serial < t.serial && n <= |t.fired|
    && (forall j :: 0 <= j < |t.slots| && Live(t.slots[j]) && t.slots[j].serial == x.serial ==> AsIs(x, t.slots[j]))
    && (forall k :: n <= k < |t.fired| && t.fired[k].serial == x.serial ==> FiresAsIs(x, t.fired[k]))
  }

  lemma {:induction false} FiringKeepsAsIs(t: Table, i: nat, now: Ticks, script: seq<seq<Op>>, x: Slot, n: nat)
    requires Completes(t, i, now, script) && AllAsIs(t, x, n)
    ensures AllAsIs(FireFrom(t, i, now, script), x, n)
    decreases |t.slots| - i
  {
    if i < |t.slots| {
      if Due(t.slots[i], now) {
        var t1 := Fired(t, i, now);
        assert AllAsIs(t1, x, n);
        ApplyAllFresh(t1, Ops(script));
        FiringKeepsAsIs(ApplyAll(t1, Ops(script)), i + 1, now, Rest(script), x, n);
      } else {
        FiringKeepsAsIs(t, i + 1, now, script, x, n);
      }
    }
  }

  /** A recurring schedule made at event k counts its periods from its interval past now, or past a later start. */
  ghost predicate Anchors(run: seq<Table>, events: seq<Event>, k: nat, n: nat, anchor: Ticks)
    requires |run| == |events| + 1 && k < n < |run| && events[k].Api? && events[k].op.Every?
  {
    var op := events[k].op;
    || (run[k].started && anchor == (op.now + op.interval) % TICKS)
    || exists l: nat :: k < l < n && AnchorsAt(run, events, l, op.interval, anchor)
  }

  predicate AnchorsAt(run: seq<Table>, events: seq<Event>, l: nat, interval: Ticks, anchor: Ticks)
    requires l < |run| && l < |events|
  {
    events[l].Start? && !run[l].started && anchor == (events[l].now + interval) % TICKS
  }

  lemma AnchorsGoesOn(run: seq<Table>, events: seq<Event>, k: nat, n: nat, anchor: Ticks)
    requires |run| == |events| + 1 && k < n < |events| && events[k].Api? && events[k].op.Every?
    requires Anchors(run, events, k, n, anchor) || AnchorsAt(run, events, n, events[k].op.interval, anchor)
    ensures Anchors(run, events, k, n + 1, anchor)
  {
    if AnchorsAt(run, events, n, events[k].op.interval, anchor) {
      assert k < n < n + 1;
    } else if exists l: nat :: k < l < n && AnchorsAt(run, events, l, events[k].op.interval, anchor) {
      var l: nat :| k < l < n && AnchorsAt(run, events, l, events[k].op.interval, anchor);
      assert k < l < n + 1 && AnchorsAt(run, events, l, events[k].op.interval, anchor);
    }
  }

  /** What the schedule of event k asked for: the callback, and the deadline or the interval. */
  ghost predicate Asked(run: seq<Table>, events: seq<Event>, k: nat, n: nat, cb: nat, period: Ticks, when: Ticks,
                        anchor: Ticks, pends: bool)
    requires |run| == |events| + 1 && k < n < |run| && events[k].Api? && !events[k].op.Cancel?
  {
    var op := events[k].op;
    cb == op.cb &&
    if op.At? then period == 0 && when == op.when
    else period == op.interval > 0 && (Anchors(run, events, k, n, anchor) || (pends && when == 0 && !run[n].started))
  }

  ghost predicate SlotAsked(run: seq<Table>, events: seq<Event>, k: nat, n: nat, x: Slot)
    requires |run| == |events| + 1 && k < n < |run| && events[k].Api? && !events[k].op.Cancel?
  {
    Asked(run, events, k, n, x.cb, x.period, x.when, x.anchor, true)
  }

  ghost predicate FireAsked(run: seq<Table>, events: seq<Event>, k: nat, n: nat, f: Fire)
    requires |run| == |events| + 1 && k < n < |run| && events[k].Api? && !events[k].op.Cancel?
  {
    Asked(run, events, k, n, f.cb, f.period, f.when, f.anchor, false)
  }

  /** The schedule of event k, with the serial it was given, is kept to in state n. */
  ghost predicate KeptTo(run: seq<Table>, events: seq<Event>, k: nat, n: nat)
    requires |run| == |events| + 1 && k < n < |run| && events[k].Api? && !events[k].op.Cancel?
  {
    var t, serial := run[n], run[k].serial;
    && serial < t.serial
    && (forall j :: 0 <= j < |t.slots| && Live(t.slots[j]) && t.slots[j].serial == serial ==>
          SlotAsked(run, events, k, n, t.slots[j]))
    && (forall i :: 0 <= i < |t.fired| && t.fired[i].serial == serial ==> FireAsked(run, events, k, n, t.fired[i]))
  }

  lemma AskedGoesOn(run: seq<Table>, events: seq<Event>, k: nat, n: nat, cb: nat, period: Ticks, when: Ticks,
                    anchor: Ticks, pends: bool)
    requires |run| == |events| + 1 && k < n < |events| && events[k].Api? && !events[k].op.Cancel?
    requires Asked(run, events, k, n, cb, period, when, anchor, pends)
    requires pends ==> run[n].started || !run[n + 1].started
    ensures Asked(run, events, k, n + 1, cb, period, when, anchor, pends)
  {
    if events[k].op.Every? && Anchors(run, events, k, n, anchor) { AnchorsGoesOn(run, events, k, n, anchor); }
  }

  /** No slot or firing of the serial is new, and no start has been made. */
  lemma KeptWithoutStart(run: seq<Table>, events: seq<Event>, k: nat, n: nat)
    requires |run| == |events| + 1 && k < n < |events| && events[k].Api? && !events[k].op.Cancel?
    requires KeptTo(run, events, k, n) && (run[n].started || !run[n + 1].started)
    requires run[n + 1].fired == run[n].fired && run[n].serial <= run[n + 1].serial
    requires |run[n + 1].slots| == |run[n].slots|
    requires forall j :: 0 <= j < |run[n].slots| && Live(run[n + 1].slots[j]) ==>
               run[n + 1].slots[j] == run[n].slots[j] || run[n].serial <= run[n + 1].slots[j].serial
    ensures KeptTo(run, events, k, n + 1)
  {
    var t, t', serial := run[n], run[n + 1], run[k].serial;
    forall j | 0 <= j < |t'.slots| && Live(t'.slots[j]) && t'.slots[j].serial == serial
      ensures SlotAsked(run, events, k, n + 1, t'.slots[j])
    {
      var x := t.slots[j];
      AskedGoesOn(run, events, k, n, x.cb, x.period, x.when, x.anchor, true);
    }
    FiringsStillAsked(run, events, k, n);
  }

  lemma FiringsStillAsked(run: seq<Table>, events: seq<Event>, k: nat, n: nat)
    requires |run| == |events| + 1 && k < n < |events| && events[k].Api? && !events[k].op.Cancel?
    requires KeptTo(run, events, k, n)
    ensures forall i :: 0 <= i < |run[n].fired| && run[n].fired[i].serial == run[k].serial ==>
              FireAsked(run, events, k, n + 1, run[n].fired[i])
  {
    forall i | 0 <= i < |run[n].fired| && run[n].fired[i].serial == run[k].serial
      ensures FireAsked(run, events, k, n + 1, run[n].fired[i])
    {
      var f := run[n].fired[i];
      AskedGoesOn(run, events, k, n, f.cb, f.period, f.when, f.anchor, false);
    }
  }

  lemma KeptThroughStart(run: seq<Table>, events: seq<Event>, k: nat, n: nat)
    requires IsRun(run, events) && k < n < |events| && events[k].Api? && !events[k].op.Cancel?
    requires KeptTo(run, events, k, n) && events[n].Start? && !run[n].started
    ensures KeptTo(run, events, k, n + 1)
  {
    assert Steps(run, events, n);
    var t, t', serial, op := run[n], run[n + 1], run[k].serial, events[k].op;
    forall j | 0 <= j < |t'.slots| && Live(t'.slots[j]) && t'.slots[j].serial == serial
      ensures SlotAsked(run, events, k, n + 1, t'.slots[j])
    {
      var x, y := t.slots[j], t'.slots[j];
      assert y == Anchored(x, events[n].now) && SlotAsked(run, events, k, n, x);
      if op.Every? { AnchorsGoesOn(run, events, k, n, y.anchor); }
    }
    FiringsStillAsked(run, events, k, n);
  }

  lemma KeptThroughFiring(run: seq<Table>, events: seq<Event>, k: nat, n: nat)
    requires IsRun(run, events) && k < n < |events| && events[k].Api? && !events[k].op.Cancel?
    requires KeptTo(run, events, k, n) && Inv(run[n]) && Steps(run, events, n)
    requires events[n].Compare? && Reached(run[n], events[n].seen) && run[n].delivery
    ensures KeptTo(run, events, k, n + 1)
  {
    var t, e, serial := run[n], events[n], run[k].serial;
    var t1 := t.(armed := NEVER);
    var t2 := FireFrom(t1, 0, e.now, e.script);
    FiringsStillAsked(run, events, k, n);
    SameSlots(t, t1);
    FireFromKeeps(t1, 0, e.now, e.script);
    assert run[n + 1] == Rearmed(t2);
    if j :| 0 <= j < |t.slots| && Live(t.slots[j]) && t.slots[j].serial == serial {
      FiredAsAsked(run, events, k, n, j, t2);
    } else {
      FiresNoMore(t1, 0, e.now, e.script, serial);
      GoneThroughFiring(t1, 0, e.now, e.script, serial);
    }
  }

  lemma FiredAsAsked(run: seq<Table>, events: seq<Event>, k: nat, n: nat, j: nat, t2: Table)
    requires IsRun(run, events) && k < n < |events| && events[k].Api? && !events[k].op.Cancel?
    requires KeptTo(run, events, k, n) && Inv(run[n]) && Steps(run, events, n)
    requires events[n].Compare? && Reached(run[n], events[n].seen) && run[n].delivery
    requires j < |run[n].slots| && Live(run[n].slots[j]) && run[n].slots[j].serial == run[k].serial
    requires t2 == FireFrom(run[n].(armed := NEVER), 0, events[n].now, events[n].script)
    requires run[n + 1] == Rearmed(t2) && t2.started == run[n].started
    requires forall i :: 0 <= i < |run[n].fired| && run[n].fired[i].serial == run[k].serial ==>
               FireAsked(run, events, k, n + 1, run[n].fired[i])
    ensures KeptTo(run, events, k, n + 1)
  {
    var t, x, e := run[n], run[n].slots[j], events[n];
    var t1 := t.(armed := NEVER);
    OnlySlotOf(t, j);
    FiringKeepsAsIs(t1, 0, e.now, e.script, x, |t.fired|);
    FiredGrows(t1, 0, e.now, e.script);
    assert SlotAsked(run, events, k, n, x) && t.started;
    AskedGoesOn(run, events, k, n, x.cb, x.period, x.when, x.anchor, true);
  }

  /** A serial is one slot's. */
  lemma OnlySlotOf(t: Table, j: nat)
    requires Good(t) && j < |t.slots| && Live(t.slots[j])
    ensures AllAsIs(t.(armed := NEVER), t.slots[j], |t.fired|)
  {
    assert SlotOk(t, j);
    forall i | 0 <= i < |t.slots| && Live(t.slots[i]) && t.slots[i].serial == t.slots[j].serial ensures i == j {
      assert i < j ==> SerialsDiffer(t, i, j);
      assert j < i ==> SerialsDiffer(t, j, i);
    }
  }

  lemma KeptAtFirst(run: seq<Table>, events: seq<Event>, k: nat)
    requires IsRun(run, events) && k < |events| && events[k].Api? && !events[k].op.Cancel?
    requires run[k + 1].serial > run[k].serial
    ensures KeptTo(run, events, k, k + 1)
  {
    RunKeeps(run, events, k);
    assert Steps(run, events, k);
    var t, i := run[k], FirstFree(run[k].slots, 0);
    forall j | 0 <= j < |t.slots| && Live(t.slots[j]) ensures t.slots[j].serial < t.serial { assert SlotOk(t, j); }
    assert run[k + 1].slots == t.slots[i := run[k + 1].slots[i]];
  }

  /**
   In every run, what a schedule's slot holds and what it fires is what was asked for: the
   callback, once at the deadline given, or every interval, counted from an interval past now
   or, for one made before the core starts, past the start.
   */
  lemma {:induction false} FiringsAreAsAsked(run: seq<Table>, events: seq<Event>, k: nat, n: nat)
    requires IsRun(run, events) && k < n < |run| && events[k].Api? && !events[k].op.Cancel?
    requires run[k + 1].serial > run[k].serial
    ensures KeptTo(run, events, k, n)
    decreases n
  {
    if n == k + 1 {
      KeptAtFirst(run, events, k);
    } else {
      var m := n - 1;
      FiringsAreAsAsked(run, events, k, m);
      RunKeeps(run, events, m);
      assert Steps(run, events, m);
      var t, e := run[m], events[m];
      if e.Start? && !t.started {
        KeptThroughStart(run, events, k, m);
      } else if e.Compare? && Reached(t, e.seen) && t.delivery {
        KeptThroughFiring(run, events, k, m);
      } else {
        if e.Api? { ApplyFresh(t, e.op); ApplyArms(t, e.op); }
        KeptWithoutStart(run, events, k, m);
      }
    }
  }

  /* ------------------------------------------------------ what is scheduled stays */

  /** Slot j holds the schedule with the serial. */
  predicate HeldIn(t: Table, j: nat, serial: nat) {
    j < |t.slots| && Live(t.slots[j]) && t.slots[j].serial == serial
  }

  /** A schedule is accepted exactly when it has a callback, an interval if it recurs, and a free slot to go in. */
  lemma AcceptedIff(run: seq<Table>, events: seq<Event>, k: nat)
    requires IsRun(run, events) && k < |events| && events[k].Api? && !events[k].op.Cancel?
    ensures run[k + 1].serial > run[k].serial <==>
              && events[k].op.cb != 0 && (events[k].op.Every? ==> events[k].op.interval > 0)
              && exists j :: 0 <= j < |run[k].slots| && !Live(run[k].slots[j])
    ensures run[k + 1].serial > run[k].serial ==> HeldIn(run[k + 1], FirstFree(run[k].slots, 0), run[k].serial)
  {
    assert Steps(run, events, k);
    var i := FirstFree(run[k].slots, 0);
    assert i < |run[k].slots| ==> !Live(run[k].slots[i]);
  }

  /** A callback that fire_due_isr runs from slot i on frees slot j. */
  ghost predicate FreedIn(t: Table, i: nat, j: nat, now: Ticks, script: seq<seq<Op>>)
    requires Completes(t, i, now, script)
    decreases |t.slots| - i
  {
    if i >= |t.slots| then false
    else if Due(t.slots[i], now) then
      SameSlotCount(Fired(t, i, now), Ops(script));
      || Frees(Fired(t, i, now), Ops(script), j)
      || FreedIn(ApplyAll(Fired(t, i, now), Ops(script)), i + 1, j, now, Rest(script))
    else FreedIn(t, i + 1, j, now, script)
  }

  /** The event cancels what is in slot j. */
  ghost predicate Cancels(t: Table, e: Event, j: nat)
    requires CanHappen(t, e)
  {
    || (e.Api? && FreesOne(t, e.op, j))
    || (e.Compare? && Reached(t, e.seen) && t.delivery && FreedIn(t.(armed := NEVER), 0, j, e.now, e.script))
  }

  /** A one-shot with the serial has fired. */
  predicate FiredOnceFor(t: Table, serial: nat) {
    exists k :: 0 <= k < |t.fired| && t.fired[k].serial == serial && t.fired[k].period == 0
  }

  lemma {:induction false} StaysThroughFiring(t: Table, i: nat, j: nat, now: Ticks, script: seq<seq<Op>>, serial: nat)
    requires Completes(t, i, now, script) && HeldIn(t, j, serial) && serial < t.serial
    ensures var t' := FireFrom(t, i, now, script);
            HeldIn(t', j, serial) || FreedIn(t, i, j, now, script) || FiredOnceFor(t', serial)
    decreases |t.slots| - i
  {
    if i < |t.slots| {
      if Due(t.slots[i], now) {
        var t1 := Fired(t, i, now);
        var t2 := ApplyAll(t1, Ops(script));
        ApplyAllFresh(t1, Ops(script));
        if HeldIn(t1, j, serial) {
          FreesIff(t1, Ops(script), j);
          if HeldIn(t2, j, serial) { StaysThroughFiring(t2, i + 1, j, now, Rest(script), serial); }
        } else {
          FiredGrows(t2, i + 1, now, Rest(script));
          var n := |t.fired|;
          assert FireFrom(t, i, now, script).fired[n] == t1.fired[n];
        }
      } else {
        StaysThroughFiring(t, i + 1, j, now, script, serial);
      }
    }
  }

  lemma StaysThroughEvent(t: Table, e: Event, j: nat, serial: nat)
    requires CanHappen(t, e) && HeldIn(t, j, serial) && serial < t.serial
    ensures HeldIn(After(t, e), j, serial) || Cancels(t, e, j) || FiredOnceFor(After(t, e), serial)
  {
    match e
    case Api(op) => FreesOneIff(t, op, j);
    case Compare(seen, now, script) =>
      if Reached(t, seen) && t.delivery {
        var t1 := t.(armed := NEVER);
        StaysThroughFiring(t1, 0, j, now, script, serial);
        assert After(t, e).fired == FireFrom(t1, 0, now, script).fired;
      }
    case Start(_) =>
    case Enable =>
    case Stop =>
  }

  ghost predicate CancelledSince(run: seq<Table>, events: seq<Event>, k: nat, n: nat, j: nat)
    requires IsRun(run, events) && n < |run|
  {
    exists l: nat :: k < l < n && Steps(run, events, l) && Cancels(run[l], events[l], j)
  }

  /** An accepted schedule stays in its slot until it is cancelled there or, a one-shot, has fired. */
  lemma {:induction false} StaysUntilFiredOrCancelled(run: seq<Table>, events: seq<Event>, k: nat, n: nat)
    requires IsRun(run, events) && k < n < |run| && events[k].Api? && !events[k].op.Cancel?
    requires run[k + 1].serial > run[k].serial
    ensures var j, serial := FirstFree(run[k].slots, 0), run[k].serial;
            HeldIn(run[n], j, serial) || CancelledSince(run, events, k, n, j) || FiredOnceFor(run[n], serial)
    decreases n
  {
    var j, serial := FirstFree(run[k].slots, 0), run[k].serial;
    if n == k + 1 {
      AcceptedIff(run, events, k);
    } else {
      var m := n - 1;
      StaysUntilFiredOrCancelled(run, events, k, m);
      FiringsAreAsAsked(run, events, k, m);
      assert Steps(run, events, m);
      if CancelledSince(run, events, k, m, j) {
        var l: nat :| k < l < m && Steps(run, events, l) && Cancels(run[l], events[l], j);
        assert k < l < n;
      } else if FiredOnceFor(run[m], serial) {
        FiredStays(run[m], events[m]);
      } else {
        StaysThroughEvent(run[m], events[m], j, serial);
      }
    }
  }

  lemma FiredStays(t: Table, e: Event)
    requires CanHappen(t, e)
    ensures t.fired <= After(t, e).fired
  {
    match e
    case Api(op) => ApplyFresh(t, op);
    case Compare(seen, now, script) =>
      if Reached(t, seen) && t.delivery { FiredGrows(t.(armed := NEVER), 0, now, script); }
    case Start(_) =>
    case Enable =>
    case Stop =>
  }

  /** From a stop until the next start nothing is armed and nothing fires. */
  lemma {:induction false} StoppedFiresNothing(run: seq<Table>, events: seq<Event>, k: nat, n: nat)
    requires IsRun(run, events) && k < n < |run| && events[k] == Stop
    requires forall i :: k < i < n ==> !events[i].Start?
    ensures !run[n].started && run[n].armed == NEVER && run[n].fired == run[k].fired
    decreases n
  {
    RunKeeps(run, events, n - 1);
    assert Steps(run, events, n - 1);
    if n > k + 1 {
      StoppedFiresNothing(run, events, k, n - 1);
      if events[n - 1].Api? { ApplyArms(run[n - 1], events[n - 1].op); }
    }
  }

  /* ------------------------------------------------------ what is armed next */

  lemma {:induction false} ArmedThroughFiring(t: Table, i: nat, now: Ticks, script: seq<seq<Op>>)
    requires Completes(t, i, now, script) && forall k :: 0 <= k < |script| ==> script[k] == []
    ensures FireFrom(t, i, now, script).armed == t.armed
    decreases |t.slots| - i
  {
    if i < |t.slots| {
      if Due(t.slots[i], now) {
        ArmedThroughFiring(ApplyAll(Fired(t, i, now), Ops(script)), i + 1, now, Rest(script));
      } else {
        ArmedThroughFiring(t, i + 1, now, script);
      }
    }
  }

  /** An interrupt whose callbacks leave the table alone arms the earliest deadline there is, or none. */
  lemma InterruptArmsTheEarliest(run: seq<Table>, events: seq<Event>, k: nat)
    requires IsRun(run, events) && k < |events| && events[k].Compare?
    requires Reached(run[k], events[k].seen) && run[k].delivery
    requires forall i :: 0 <= i < |events[k].script| ==> events[k].script[i] == []
    ensures var t := run[k + 1];
            && (forall i :: 0 <= i < |t.slots| && Live(t.slots[i]) ==> t.armed <= t.slots[i].when)
            && (t.armed == NEVER || exists i :: 0 <= i < |t.slots| && Live(t.slots[i]) && t.slots[i].when == t.armed)
  {
    assert Steps(run, events, k);
    ArmedThroughFiring(run[k].(armed := NEVER), 0, events[k].now, events[k].script);
  }
}
