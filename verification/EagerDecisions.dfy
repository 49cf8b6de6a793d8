/**
 An interrupt's wakes each decide at once when they are warranted, the pick that never
 ran going back to the front of its level. With no holders and an empty intake, that
 leaves what readying them all and deciding once at the return would leave: the same
 running thread, and the same ready matrix in the same order.
 */
module EagerDecisions {
  import opened Threads
  import opened Switching
  import opened SwitchingSafety

  /** Nobody holds a mutex, so urgency is base priority. */
  ghost predicate Plain(c: Core, v: View) {
    Inv(c, v) && c.holders == [] && forall t :: 0 <= t < |v.holds| ==> !v.holds[t]
  }

  /** Threads that may be woken: any but the idle one, which never waits. */
  predicate Wakeable(v: View, ts: seq<Tid>) { InRange(v, ts) && v.idle !in ts }

  /** Every wake in turn, each deciding at once when it is warranted. */
  ghost function Eager(c: Core, v: View, ts: seq<Tid>): (r: Core)
    requires Plain(c, v) && Wakeable(v, ts)
    ensures Plain(r, v)
    decreases |ts|
  {
    if ts == [] then c
    else
      var before, t := Eager(c, v, ts[..|ts| - 1]), ts[|ts| - 1];
      WakePlain(before, v, t, true);
      Wake(before, v, t, true, [])
  }

  /** Every thread readied and nothing decided, and whether any wake was warranted. */
  ghost function Gather(c: Core, v: View, ts: seq<Tid>): (r: (Core, bool))
    requires Plain(c, v) && Wakeable(v, ts)
    ensures Plain(r.0, v)
    decreases |ts|
  {
    if ts == [] then (c, false)
    else
      var (before, any) := Gather(c, v, ts[..|ts| - 1]);
      var t := ts[|ts| - 1];
      WakePlain(before, v, t, false);
      (Wake(before, v, t, false, []), any || (!before.state[t].Running? && MakeReady(before, v, t).1))
  }

  /** One decision at the end, if any wake was warranted. */
  ghost function Once(c: Core, v: View, ts: seq<Tid>): Core
    requires Plain(c, v) && Wakeable(v, ts)
  {
    var (gathered, any) := Gather(c, v, ts);
    if any then Decide(gathered, v, Preempted, []) else gathered
  }

  lemma WakePlain(c: Core, v: View, t: Tid, decides: bool)
    requires Plain(c, v) && t < |v.base|
    ensures Plain(Wake(c, v, t, decides, []), v)
  {
    WakeKeeps(c, v, t, decides, []);
  }

  lemma DecidePlain(c: Core, v: View)
    requires Plain(c, v)
    ensures Plain(Decide(c, v, Preempted, []), v)
  {
    DecideKeeps(c, v, Preempted, []);
  }

  ghost predicate SomeoneReady(c: Core) { exists p :: 0 <= p < |c.levels| && c.levels[p] != [] }

  /** Readying t and then preempting the running thread, or the other way about, is the same. */
  lemma AdmitsCommute(c: Core, v: View, t: Tid)
    requires Plain(c, v) && t < |v.base| && t != c.current && t != v.idle
    ensures Shaped(Admit(c, v, c.current, true), v) && Shaped(Admit(c, v, t, false), v)
    ensures Admit(Admit(c, v, c.current, true), v, t, false) == Admit(Admit(c, v, t, false), v, c.current, true)
  {
    var r := c.current;
    AdmitShaped(c, v, r, true);
    AdmitShaped(c, v, t, false);
    var a, b := Admit(Admit(c, v, r, true), v, t, false), Admit(Admit(c, v, t, false), v, r, true);
    assert a.state == b.state;
    forall p | 0 <= p < |c.levels| ensures a.levels[p] == b.levels[p] {
      assert ([r] + c.levels[p]) + [t] == [r] + (c.levels[p] + [t]);
    }
    assert a.levels == b.levels;
  }

  /** A thread that does not beat the pick changes nothing but its own level's back. */
  lemma PickThenAdmit(c: Core, v: View, t: Tid)
    requires WellFiled(c, v) && c.holders == [] && t < |v.base| && t != v.idle && !v.holds[t]
    requires c.state[t].Blocked? && BestLevel(c.levels, 0) <= v.base[t]
    ensures Shaped(RunNext(c, v), v) && Shaped(Admit(c, v, t, false), v)
    ensures Admit(RunNext(c, v), v, t, false) == RunNext(Admit(c, v, t, false), v)
  {
    var p, b, d := v.base[t], BestLevel(c.levels, 0), RunNext(c, v);
    HeadIsPlaced(c, v, b);
    AdmitShaped(c, v, t, false);
    assert InRange(v, c.levels[b]) && InRange(v, c.levels[b][1..]);
    var c' := Admit(c, v, t, false);
    assert c'.levels[b] != [] && forall j :: 0 <= j < b ==> c'.levels[j] == c.levels[j];
    assert BestLevel(c'.levels, 0) == b;
    var d' := RunNext(c', v);
    assert c.levels[b] != [] ==> (c.levels[b] + [t])[1..] == c.levels[b][1..] + [t];
    assert d'.levels == Admit(d, v, t, false).levels;
    assert d'.state == Admit(d, v, t, false).state;
  }

  /** One that beats it takes the core, and the pick goes back to where it was taken from. */
  lemma PickThenBeaten(c: Core, v: View, t: Tid)
    requires WellFiled(c, v) && NoneRunning(c) && c.holders == [] && t < |v.base| && t != v.idle && !v.holds[t]
    requires c.state[t].Blocked? && v.base[t] < BestLevel(c.levels, 0) < |c.levels|
    requires forall u :: 0 <= u < |v.holds| ==> !v.holds[u]
    ensures Shaped(RunNext(c, v), v) && Shaped(Admit(RunNext(c, v), v, t, false), v) && Shaped(Admit(c, v, t, false), v)
    ensures Decide(Admit(RunNext(c, v), v, t, false), v, Preempted, []) == RunNext(Admit(c, v, t, false), v)
  {
    var p, b, d := v.base[t], BestLevel(c.levels, 0), RunNext(c, v);
    var n := c.levels[b][0];
    HeadIsPlaced(c, v, b);
    RunNextKeeps(c, v);
    AdmitShaped(c, v, t, false);
    AdmitShaped(d, v, t, false);
    var d1, c' := Admit(d, v, t, false), Admit(c, v, t, false);
    assert c.levels[p] == [];
    BackWhereItWas(c, v, t);
    PickIgnoresCurrent(c', v, d1.current);
  }

  /** The pick preempted is the pick undone, but for who counts as running. */
  lemma BackWhereItWas(c: Core, v: View, t: Tid)
    requires WellFiled(c, v) && NoneRunning(c) && c.holders == [] && t < |v.base| && t != v.idle && !v.holds[t]
    requires c.state[t].Blocked? && v.base[t] < BestLevel(c.levels, 0) < |c.levels|
    requires forall u :: 0 <= u < |v.holds| ==> !v.holds[u]
    requires Shaped(RunNext(c, v), v) && Shaped(Admit(RunNext(c, v), v, t, false), v) &&
             Shaped(Admit(c, v, t, false), v)
    ensures var d1 := Admit(RunNext(c, v), v, t, false);
            && d1.state[d1.current].Running?
            && Depart(d1, v, Preempted, []) == Admit(c, v, t, false).(current := d1.current)
  {
    var b := BestLevel(c.levels, 0);
    var n := c.levels[b][0];
    HeadIsPlaced(c, v, b);
    var d1, c' := Admit(RunNext(c, v), v, t, false), Admit(c, v, t, false);
    var d2 := Depart(d1, v, Preempted, []);
    assert [n] + c.levels[b][1..] == c.levels[b];
    assert d2.levels == c'.levels;
    assert d2.state == c'.state;
  }

  /** Who ran before is nothing to the pick. */
  lemma PickIgnoresCurrent(c: Core, v: View, x: Tid)
    requires Shaped(c, v) && c.holders == [] && x < |v.base|
    ensures Shaped(c.(current := x), v) && RunNext(c.(current := x), v) == RunNext(c, v)
  {}

  /** A wake after a decision is a decision after the wake. */
  lemma DecisionThenWake(c: Core, v: View, t: Tid)
    requires Plain(c, v) && t < |v.base| && t != v.idle && SomeoneReady(c)
    ensures Plain(Decide(c, v, Preempted, []), v) && Plain(Wake(c, v, t, false, []), v)
    ensures Wake(Decide(c, v, Preempted, []), v, t, true, []) == Decide(Wake(c, v, t, false, []), v, Preempted, [])
  {
    var r, d := c.current, Decide(c, v, Preempted, []);
    DecidePlain(c, v);
    WakePlain(c, v, t, false);
    assert Placed(c, v, t) && Placed(d, v, t);
    DepartKeeps(c, v, Preempted, []);
    var c1 := Depart(c, v, Preempted, []);
    DecisionKeepsState(c, v, t);
    if c.state[t].Blocked? && t !in c.exiting {
      AdmitsCommute(c, v, t);
      var b := BestLevel(c1.levels, 0);
      assert b < |c1.levels| by {
        var p :| 0 <= p < |c.levels| && c.levels[p] != [];
        assert c1.levels[p] != [];
      }
      HeadIsPlaced(c1, v, b);
      if v.base[t] < b { PickThenBeaten(c1, v, t); } else { PickThenAdmit(c1, v, t); }
    }
  }

  /** A decision leaves the blocked blocked and the ready ready or running. */
  lemma DecisionKeepsState(c: Core, v: View, t: Tid)
    requires Plain(c, v) && t < |v.base|
    ensures var d := Decide(c, v, Preempted, []);
            && |d.state| == |c.state| && (c.state[t].Blocked? <==> d.state[t].Blocked?)
            && (c.state[t].Terminated? <==> d.state[t].Terminated?)
  {
    DecideKeeps(c, v, Preempted, []);
    DepartKeeps(c, v, Preempted, []);
    var c1 := Depart(c, v, Preempted, []);
    if BestLevel(c1.levels, 0) < |c1.levels| { HeadIsPlaced(c1, v, BestLevel(c1.levels, 0)); }
  }

  lemma {:induction false} AnyMeansReady(c: Core, v: View, ts: seq<Tid>)
    requires Plain(c, v) && Wakeable(v, ts) && Gather(c, v, ts).1
    ensures SomeoneReady(Gather(c, v, ts).0)
    decreases |ts|
  {
    var (before, any) := Gather(c, v, ts[..|ts| - 1]);
    var t := ts[|ts| - 1];
    var after := Gather(c, v, ts).0;
    assert Placed(before, v, t);
    if any {
      AnyMeansReady(c, v, ts[..|ts| - 1]);
      var p :| 0 <= p < |before.levels| && before.levels[p] != [];
      assert after.levels[p] != [];
    } else {
      assert t in after.levels[v.base[t]];
    }
  }

  /** Eager decisions refine one decision at the return, for every sequence of wakes. */
  lemma {:induction false} EagerIsOnce(c: Core, v: View, ts: seq<Tid>)
    requires Plain(c, v) && Wakeable(v, ts)
    ensures Eager(c, v, ts) == Once(c, v, ts)
    decreases |ts|
  {
    if ts != [] {
      var init, t := ts[..|ts| - 1], ts[|ts| - 1];
      EagerIsOnce(c, v, init);
      var (before, any) := Gather(c, v, init);
      if any {
        AnyMeansReady(c, v, init);
        DecisionThenWake(before, v, t);
      }
    }
  }
}
