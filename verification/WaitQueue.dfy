/**
 The wait queue as the source keeps it: nodes linked best priority first through their
 waiters, with the cached top priority and the bridge hint of an inheriting queue. A node is
 known by its owner, since a thread has one node on a queue at a time.
 */
module WaitQueue {
  import opened Wrappers
  import opened Threads
  import opened WaitOrder
  import opened IntrusiveList

  function TopOf(base: seq<nat>, q: seq<Tid>): nat { if q == [] || q[0] >= |base| then NO_WAITER else base[q[0]] }

  function Key(base: seq<nat>): Tid -> nat { (t: Tid) => if t < |base| then base[t] else 0 }

  /* --------------------------------------------------- inserting in place */

  function Put(q: seq<Tid>, k: nat, t: Tid): (r: seq<Tid>)
    requires k <= |q|
    ensures |r| == |q| + 1 && forall i :: 0 <= i < |r| ==>
            r[i] == if i < k then q[i] else if i == k then t else q[i - 1]
  {
    q[..k] + [t] + q[k..]
  }

  /** The walk has passed everyone as urgent or more, and the next waiter is less urgent. */
  ghost predicate Stops(base: seq<nat>, q: seq<Tid>, k: nat, t: Tid) {
    && k <= |q| && t < |base| && (forall i :: 0 <= i < |q| ==> q[i] < |base|)
    && (forall i :: 0 <= i < k ==> base[q[i]] <= base[t]) && (k < |q| ==> base[t] < base[q[k]])
  }

  lemma {:induction false} InsertStops(base: seq<nat>, q: seq<Tid>, k: nat, t: Tid)
    requires Stops(base, q, k, t)
    ensures Insert(q, t, Key(base)) == Put(q, k, t)
    decreases k
  {
    if k > 0 {
      StopsLater(base, q, k, t);
      InsertStops(base, q[1..], k - 1, t);
      PutLater(q, k, t);
    } else {
      assert Put(q, 0, t) == [t] + q;
    }
  }

  lemma StopsLater(base: seq<nat>, q: seq<Tid>, k: nat, t: Tid)
    requires Stops(base, q, k, t) && k > 0
    ensures Stops(base, q[1..], k - 1, t) && Key(base)(q[0]) <= Key(base)(t)
  {}

  lemma PutLater(q: seq<Tid>, k: nat, t: Tid)
    requires 0 < k <= |q|
    ensures Put(q, k, t) == [q[0]] + Put(q[1..], k - 1, t)
  {}

  lemma PutDistinct(q: seq<Tid>, k: nat, t: Tid)
    requires Distinct(q) && k <= |q| && t !in q
    ensures Distinct(Put(q, k, t))
  {
    var r := Put(q, k, t);
    forall i: nat, j: nat | i < j < |r| ensures Apart(r, i, j) {
      if i != k && j != k { assert Apart(q, if i < k then i else i - 1, if j < k then j else j - 1); }
    }
  }

  /** The links from head spell q, and everyone else's node is linked to nothing. */
  ghost predicate Chain(next: Links, head: Option<Tid>, q: seq<Tid>) {
    && IsList(next, head, At(q, |q| - 1), q)
    && forall t: Tid :: t < |next| && t !in q ==> next[t] == None
  }

  /** The writes that put t behind position k - 1, or at the head. */
  lemma PutLinks(next: Links, head: Option<Tid>, q: seq<Tid>, k: nat, t: Tid, next': Links)
    requires Chain(next, head, q) && k <= |q| && t !in q && t < |next|
    requires next' == (if k == 0 then next[t := head] else next[t := next[q[k - 1]]][q[k - 1] := Some(t)])
    ensures Chain(next', if k == 0 then Some(t) else head, Put(q, k, t))
  {
    var r := Put(q, k, t);
    PutDistinct(q, k, t);
    forall i: nat | i < |r| ensures LinkAt(next', r, i) { PutLink(next, head, q, k, t, next', i); }
    PutMembers(q, k, t);
  }

  lemma PutLink(next: Links, head: Option<Tid>, q: seq<Tid>, k: nat, t: Tid, next': Links, i: nat)
    requires IsList(next, head, At(q, |q| - 1), q) && k <= |q| && t !in q && t < |next| && i <= |q|
    requires next' == (if k == 0 then next[t := head] else next[t := next[q[k - 1]]][q[k - 1] := Some(t)])
    ensures LinkAt(next', Put(q, k, t), i)
  {
    assert k > 0 ==> LinkAt(next, q, k - 1);
    if i != k {
      var j := if i < k then i else i - 1;
      assert LinkAt(next, q, j) && q[j] != t;
      if k > 0 && j != k - 1 { Differ(q, j, k - 1); }
    }
  }

  lemma PutMembers(q: seq<Tid>, k: nat, t: Tid)
    requires k <= |q|
    ensures forall u :: u in Put(q, k, t) <==> u == t || u in q
  {
    var r := Put(q, k, t);
    assert r[k] == t;
    forall i | 0 <= i < |q| ensures q[i] in r { assert r[if i < k then i else i + 1] == q[i]; }
  }

  /** The writes that take out position k, its own link cleared. */
  lemma TakenLinks(next: Links, head: Option<Tid>, q: seq<Tid>, k: nat, next': Links)
    requires Chain(next, head, q) && k < |q|
    requires next' == (if k > 0 then next[q[k - 1] := next[q[k]]] else next)[q[k] := None]
    ensures Chain(next', if k > 0 then head else next[q[k]], Remove(q, q[k])) && next[q[k]] == At(q, k + 1)
  {
    assert LinkAt(next, q, k);
    UnlinkedAt(next, head, At(q, |q| - 1), q, k, None, next');
    RemoveMembers(q, q[k]);
  }

  /* ----------------------------------------------------- taking by choice */

  function Filter(q: seq<Tid>, wants: Tid -> bool): seq<Tid> {
    if q == [] then [] else (if wants(q[0]) then [q[0]] else []) + Filter(q[1..], wants)
  }

  /** What one walk takes: the first of those wanted, up to a batch. */
  function Batch(q: seq<Tid>, wants: Tid -> bool, room: nat): seq<Tid> {
    if q == [] || room == 0 then []
    else if wants(q[0]) then [q[0]] + Batch(q[1..], wants, room - 1)
    else Batch(q[1..], wants, room)
  }

  /** And the queue it leaves. */
  function Left(q: seq<Tid>, wants: Tid -> bool, room: nat): seq<Tid> {
    if q == [] || room == 0 then q
    else if wants(q[0]) then Left(q[1..], wants, room - 1)
    else [q[0]] + Left(q[1..], wants, room)
  }

  function Refused(q: seq<Tid>, wants: Tid -> bool): seq<Tid> {
    if q == [] then [] else (if wants(q[0]) then [] else [q[0]]) + Refused(q[1..], wants)
  }

  /** A walk takes no more than there is room for, and the rest stay. */
  lemma {:induction false} BatchFits(q: seq<Tid>, wants: Tid -> bool, room: nat)
    ensures |Batch(q, wants, room)| <= room && |Batch(q, wants, room)| + |Left(q, wants, room)| == |q|
    decreases |q|
  {
    if q != [] && room > 0 { BatchFits(q[1..], wants, if wants(q[0]) then room - 1 else room); }
  }

  /** It takes the wanted in order, and one that is not full took them all. */
  lemma {:induction false} BatchTakes(q: seq<Tid>, wants: Tid -> bool, room: nat)
    ensures Filter(q, wants) == Batch(q, wants, room) + Filter(Left(q, wants, room), wants)
    ensures |Batch(q, wants, room)| < room ==> Filter(Left(q, wants, room), wants) == []
    decreases |q|
  {
    if q != [] && room > 0 {
      var r := q[1..];
      if wants(q[0]) {
        BatchTakes(r, wants, room - 1);
        var taken, more := Batch(r, wants, room - 1), Filter(Left(r, wants, room - 1), wants);
        assert [q[0]] + (taken + more) == ([q[0]] + taken) + more;
      } else {
        BatchTakes(r, wants, room);
        FilterSkips(q[0], Left(r, wants, room), wants);
        FilterSkips(q[0], r, wants);
        assert q == [q[0]] + r;
      }
    }
  }

  lemma FilterSkips(x: Tid, q: seq<Tid>, wants: Tid -> bool)
    requires !wants(x)
    ensures Filter([x] + q, wants) == Filter(q, wants)
  {
    assert ([x] + q)[1..] == q;
  }

  /** It leaves whoever it refuses in place. */
  lemma {:induction false} BatchLeaves(q: seq<Tid>, wants: Tid -> bool, room: nat)
    ensures Refused(q, wants) == Refused(Left(q, wants, room), wants)
    ensures |Batch(q, wants, room)| < room ==> Left(q, wants, room) == Refused(q, wants)
    decreases |q|
  {
    if q != [] && room > 0 {
      var room1 := if wants(q[0]) then room - 1 else room;
      BatchLeaves(q[1..], wants, room1);
      var left := Left(q[1..], wants, room1);
      assert ([q[0]] + left)[1..] == left;
    }
  }

  lemma {:induction false} BatchCounts(q: seq<Tid>, wants: Tid -> bool, room: nat)
    ensures multiset(q) == multiset(Batch(q, wants, room)) + multiset(Left(q, wants, room))
    ensures forall t :: t in Batch(q, wants, room) ==> wants(t)
    decreases |q|
  {
    if q != [] && room > 0 {
      assert q == [q[0]] + q[1..];
      BatchCounts(q[1..], wants, if wants(q[0]) then room - 1 else room);
    }
  }

  /* ------------------------------------- walks with the lock let go between */

  /** What another thread does to the queue meanwhile; one that is queued does not arm again. */
  datatype Change = Arms(t: Tid, holdsNothing: bool) | Disarms(t: Tid)

  predicate Comes(base: seq<nat>, q: seq<Tid>, c: Change) { c.Arms? && c.t < |base| && c.t !in q }

  predicate Goes(q: seq<Tid>, c: Change) { c.Disarms? && c.t in q }

  function Changed(base: seq<nat>, q: seq<Tid>, c: Change): seq<Tid> {
    if Comes(base, q, c) then Insert(q, c.t, Key(base)) else if Goes(q, c) then Remove(q, c.t) else q
  }

  function ChangedAll(base: seq<nat>, q: seq<Tid>, cs: seq<Change>): seq<Tid>
    decreases |cs|
  {
    if cs == [] then q else ChangedAll(base, Changed(base, q, cs[0]), cs[1..])
  }

  /** Who armed in the course of cs, and who disarmed. */
  function Came(base: seq<nat>, q: seq<Tid>, cs: seq<Change>): multiset<Tid>
    decreases |cs|
  {
    if cs == [] then multiset{}
    else (if Comes(base, q, cs[0]) then multiset{cs[0].t} else multiset{}) +
         Came(base, Changed(base, q, cs[0]), cs[1..])
  }

  function Went(base: seq<nat>, q: seq<Tid>, cs: seq<Change>): multiset<Tid>
    decreases |cs|
  {
    if cs == [] then multiset{}
    else (if Goes(q, cs[0]) then multiset{cs[0].t} else multiset{}) + Went(base, Changed(base, q, cs[0]), cs[1..])
  }

  lemma {:induction false} ChangesCount(base: seq<nat>, q: seq<Tid>, cs: seq<Change>)
    ensures multiset(q) + Came(base, q, cs) == multiset(ChangedAll(base, q, cs)) + Went(base, q, cs)
    decreases |cs|
  {
    if cs != [] {
      var q1, c := Changed(base, q, cs[0]), cs[0];
      InsertCounts(q, c.t, Key(base));
      RemoveCounts(q, c.t);
      ChangesCount(base, q1, cs[1..]);
      var came := if Comes(base, q, c) then multiset{c.t} else multiset{};
      var went := if Goes(q, c) then multiset{c.t} else multiset{};
      assert multiset(q) + came == multiset(q1) + went;
      Balance(multiset(q), came, multiset(q1), went, Came(base, q1, cs[1..]), multiset(ChangedAll(base, q1, cs[1..])),
              Went(base, q1, cs[1..]));
    }
  }

  lemma Balance(a: multiset<Tid>, came: multiset<Tid>, b: multiset<Tid>, went: multiset<Tid>,
                came': multiset<Tid>, c: multiset<Tid>, went': multiset<Tid>)
    requires a + came == b + went && b + came' == c + went'
    ensures a + (came + came') == c + (went + went')
  {
    forall t ensures (a + (came + came'))[t] == (c + (went + went'))[t] {
      assert (a + came)[t] == (b + went)[t] && (b + came')[t] == (c + went')[t];
    }
  }

  function Now(between: seq<seq<Change>>): seq<Change> { if between == [] then [] else between[0] }
  function Later(between: seq<seq<Change>>): seq<seq<Change>> { if between == [] then [] else between[1..] }

  /** What walks that take up to size at a time wake, until one is not full. */
  function Woken(base: seq<nat>, q: seq<Tid>, wants: Tid -> bool, size: nat, between: seq<seq<Change>>): seq<Tid>
    requires size > 0
    decreases |between|, |q|
  {
    var taken, left := Batch(q, wants, size), Left(q, wants, size);
    BatchFits(q, wants, size);
    if |taken| < size then taken
    else taken + Woken(base, ChangedAll(base, left, Now(between)), wants, size, Later(between))
  }

  /** The queue they leave. */
  function Kept(base: seq<nat>, q: seq<Tid>, wants: Tid -> bool, size: nat, between: seq<seq<Change>>): seq<Tid>
    requires size > 0
    decreases |between|, |q|
  {
    var taken, left := Batch(q, wants, size), Left(q, wants, size);
    BatchFits(q, wants, size);
    if |taken| < size then left
    else Kept(base, ChangedAll(base, left, Now(between)), wants, size, Later(between))
  }

  /** Who armed between two of them, and who disarmed. */
  function CameIn(base: seq<nat>, q: seq<Tid>, wants: Tid -> bool, size: nat, between: seq<seq<Change>>): multiset<Tid>
    requires size > 0
    decreases |between|, |q|
  {
    var taken, left := Batch(q, wants, size), Left(q, wants, size);
    BatchFits(q, wants, size);
    if |taken| < size then multiset{}
    else Came(base, left, Now(between)) +
         CameIn(base, ChangedAll(base, left, Now(between)), wants, size, Later(between))
  }

  function WentIn(base: seq<nat>, q: seq<Tid>, wants: Tid -> bool, size: nat, between: seq<seq<Change>>): multiset<Tid>
    requires size > 0
    decreases |between|, |q|
  {
    var taken, left := Batch(q, wants, size), Left(q, wants, size);
    BatchFits(q, wants, size);
    if |taken| < size then multiset{}
    else Went(base, left, Now(between)) +
         WentIn(base, ChangedAll(base, left, Now(between)), wants, size, Later(between))
  }

  /** Whoever was queued or came is woken once, disarmed itself, or is still queued. */
  lemma {:induction false} WakesAreConserved(base: seq<nat>, q: seq<Tid>, wants: Tid -> bool, size: nat,
                                             between: seq<seq<Change>>)
    requires size > 0
    ensures multiset(q) + CameIn(base, q, wants, size, between) ==
            multiset(Woken(base, q, wants, size, between)) + WentIn(base, q, wants, size, between) +
            multiset(Kept(base, q, wants, size, between))
    decreases |between|, |q|
  {
    var taken, left := Batch(q, wants, size), Left(q, wants, size);
    BatchFits(q, wants, size);
    BatchCounts(q, wants, size);
    if |taken| == size {
      var q1, rest := ChangedAll(base, left, Now(between)), Later(between);
      ChangesCount(base, left, Now(between));
      WakesAreConserved(base, q1, wants, size, rest);
      MoreBalance(multiset(q), taken, left, q1, Came(base, left, Now(between)), Went(base, left, Now(between)),
                  Woken(base, q1, wants, size, rest), Kept(base, q1, wants, size, rest),
                  CameIn(base, q1, wants, size, rest), WentIn(base, q1, wants, size, rest));
    }
  }

  lemma MoreBalance(all: multiset<Tid>, taken: seq<Tid>, left: seq<Tid>, q: seq<Tid>,
                    came: multiset<Tid>, went: multiset<Tid>,
                    woken: seq<Tid>, kept: seq<Tid>, came': multiset<Tid>, went': multiset<Tid>)
    requires all == multiset(taken) + multiset(left)
    requires multiset(left) + came == multiset(q) + went
    requires multiset(q) + came' == multiset(woken) + went' + multiset(kept)
    ensures all + (came + came') == multiset(taken + woken) + (went + went') + multiset(kept)
  {
    var w, k := multiset(woken), multiset(kept);
    assert multiset(q) + came' == (w + k) + went';
    Balance(multiset(left), came, multiset(q), went, came', w + k, went');
    Regroup(multiset(taken), multiset(left), came + came', w, k, went + went');
  }

  lemma Regroup(taken: multiset<Tid>, left: multiset<Tid>, came: multiset<Tid>, w: multiset<Tid>, k: multiset<Tid>,
                went: multiset<Tid>)
    requires left + came == (w + k) + went
    ensures (taken + left) + came == (taken + w) + went + k
  {
    assert (taken + left) + came == taken + (left + came);
    assert taken + ((w + k) + went) == (taken + w) + went + k;
  }

  /** Only the wanted are woken, and none of them is still queued at the last look. */
  lemma {:induction false} WakesTheWanted(base: seq<nat>, q: seq<Tid>, wants: Tid -> bool, size: nat,
                                          between: seq<seq<Change>>)
    requires size > 0
    ensures forall t :: t in Woken(base, q, wants, size, between) ==> wants(t)
    ensures Filter(Kept(base, q, wants, size, between), wants) == []
    decreases |between|, |q|
  {
    BatchFits(q, wants, size);
    BatchCounts(q, wants, size);
    BatchTakes(q, wants, size);
    if |Batch(q, wants, size)| == size {
      WakesTheWanted(base, ChangedAll(base, Left(q, wants, size), Now(between)), wants, size, Later(between));
    }
  }

  lemma {:induction false} FilterFinds(q: seq<Tid>, wants: Tid -> bool, t: Tid)
    requires t in q && wants(t)
    ensures t in Filter(q, wants)
  {
    if t != q[0] { FilterFinds(q[1..], wants, t); }
  }

  lemma InOneOf(t: Tid, a: multiset<Tid>, came: multiset<Tid>, b: multiset<Tid>, went: multiset<Tid>, c: multiset<Tid>)
    requires t in a && a + came == b + went + c
    ensures t in b || t in went || t in c
  {
    assert t in a + came;
  }

  /** Everyone wanted who was queued as the walks began is woken, or disarmed itself between two of them. */
  lemma EveryoneWantedIsWoken(base: seq<nat>, q: seq<Tid>, wants: Tid -> bool, size: nat,
                              between: seq<seq<Change>>, t: Tid)
    requires size > 0 && t in q && wants(t)
    ensures t in Woken(base, q, wants, size, between) || t in WentIn(base, q, wants, size, between)
  {
    WakesAreConserved(base, q, wants, size, between);
    WakesTheWanted(base, q, wants, size, between);
    var woken, kept := Woken(base, q, wants, size, between), Kept(base, q, wants, size, between);
    InOneOf(t, multiset(q), CameIn(base, q, wants, size, between), multiset(woken),
            WentIn(base, q, wants, size, between), multiset(kept));
    if t in kept { FilterFinds(kept, wants, t); }
  }

  /** With nothing between, exactly the wanted are woken, in order, and the rest keep their places. */
  lemma {:induction false} Undisturbed(base: seq<nat>, q: seq<Tid>, wants: Tid -> bool, size: nat)
    requires size > 0
    ensures Woken(base, q, wants, size, []) == Filter(q, wants) && Kept(base, q, wants, size, []) == Refused(q, wants)
    decreases |q|
  {
    BatchFits(q, wants, size);
    BatchTakes(q, wants, size);
    BatchLeaves(q, wants, size);
    var taken, left := Batch(q, wants, size), Left(q, wants, size);
    assert taken + [] == taken && ChangedAll(base, left, Now([])) == left && Later([]) == [];
    if |taken| == size { Undisturbed(base, left, wants, size); }
  }

  /** Walks that began on was have woken so many and come to q, with rest of between to go. */
  ghost predicate WalksAt(base: seq<nat>, wants: Tid -> bool, size: nat, was: seq<Tid>, between: seq<seq<Change>>,
                          q: seq<Tid>, rest: seq<seq<Change>>, woken: seq<Tid>)
    requires size > 0
  {
    && woken + Woken(base, q, wants, size, rest) == Woken(base, was, wants, size, between)
    && Kept(base, q, wants, size, rest) == Kept(base, was, wants, size, between)
  }

  lemma WalksGoOn(base: seq<nat>, wants: Tid -> bool, size: nat, was: seq<Tid>, between: seq<seq<Change>>,
                  q: seq<Tid>, rest: seq<seq<Change>>, woken: seq<Tid>)
    requires size > 0 && WalksAt(base, wants, size, was, between, q, rest, woken)
    ensures var taken, left := Batch(q, wants, size), Left(q, wants, size);
            if |taken| < size then
              woken + taken == Woken(base, was, wants, size, between) && left == Kept(base, was, wants, size, between)
            else
              var q1 := ChangedAll(base, left, Now(rest));
              && WalksAt(base, wants, size, was, between, q1, Later(rest), woken + taken)
              && (|Later(rest)| < |rest| || (Later(rest) == rest && |q1| < |q|))
  {
    var taken, left := Batch(q, wants, size), Left(q, wants, size);
    BatchFits(q, wants, size);
    if |taken| == size {
      var more := Woken(base, ChangedAll(base, left, Now(rest)), wants, size, Later(rest));
      assert (woken + taken) + more == woken + (taken + more);
    }
  }

  function Anyone(): Tid -> bool { (t: Tid) => true }

  /** A walk of one that wants anyone is a take of the head. */
  lemma HeadIsABatch(q: seq<Tid>)
    ensures Batch(q, Anyone(), 1) == (if q == [] then [] else [q[0]])
    ensures Left(q, Anyone(), 1) == (if q == [] then [] else q[1..])
  {
    if q != [] { assert Batch(q[1..], Anyone(), 0) == [] && Left(q[1..], Anyone(), 0) == q[1..]; }
  }

  /** A walk of was has taken so many, passed over k, and has the rest of q to go. */
  ghost predicate WalkAt(was: seq<Tid>, wants: Tid -> bool, size: nat, q: seq<Tid>, k: nat, taken: seq<Tid>) {
    && k <= |q| && |taken| <= size
    && Batch(was, wants, size) == taken + Batch(q[k..], wants, size - |taken|)
    && Left(was, wants, size) == q[..k] + Left(q[k..], wants, size - |taken|)
  }

  lemma WalkStarts(q: seq<Tid>, wants: Tid -> bool, size: nat)
    ensures WalkAt(q, wants, size, q, 0, [])
  {
    assert q[0..] == q && q[..0] == [];
  }

  lemma WalkTakes(was: seq<Tid>, wants: Tid -> bool, size: nat, q: seq<Tid>, k: nat, taken: seq<Tid>)
    requires WalkAt(was, wants, size, q, k, taken) && k < |q| && |taken| < size && wants(q[k])
    ensures WalkAt(was, wants, size, Cut(q, k), k, taken + [q[k]])
  {
    var rest, r := q[k..], Cut(q, k);
    assert rest[0] == q[k] && rest[1..] == r[k..] && q[..k] == r[..k];
    var more := Batch(r[k..], wants, size - |taken| - 1);
    assert taken + ([q[k]] + more) == (taken + [q[k]]) + more;
  }

  lemma WalkSkips(was: seq<Tid>, wants: Tid -> bool, size: nat, q: seq<Tid>, k: nat, taken: seq<Tid>)
    requires WalkAt(was, wants, size, q, k, taken) && k < |q| && |taken| < size && !wants(q[k])
    ensures WalkAt(was, wants, size, q, k + 1, taken)
  {
    var rest := q[k..];
    assert rest[0] == q[k] && rest[1..] == q[k + 1..];
    var left := Left(q[k + 1..], wants, size - |taken|);
    assert q[..k] + ([q[k]] + left) == q[..k + 1] + left;
  }

  lemma WalkEnds(was: seq<Tid>, wants: Tid -> bool, size: nat, q: seq<Tid>, k: nat, taken: seq<Tid>)
    requires WalkAt(was, wants, size, q, k, taken) && (k == |q| || |taken| == size)
    ensures taken == Batch(was, wants, size) && q == Left(was, wants, size)
  {
    assert q[..k] + q[k..] == q;
  }

  class Queue {
    const base: seq<nat>      // base_priority, by thread
    const inherits: bool      // an inheritance_cache is kept
    var head: Option<Tid>
    var next: Links           // the node of each thread
    var top: nat              // inheritance_cache::top_priority
    var hint: bool            // inheritance_cache::may_have_bridges
    ghost var q: seq<Tid>

    ghost predicate Linked()
      reads this
    {
      |next| == |base| && Chain(next, head, q)
    }

    /** The cache is what the queue says: the head's priority, and no hint without a waiter. */
    ghost predicate Valid()
      reads this
    {
      Linked() && (inherits ==> top == TopOf(base, q) && (hint ==> q != []))
    }

    constructor (base: seq<nat>, inherits: bool)
      ensures Valid() && q == [] && this.base == base && this.inherits == inherits
    {
      this.base, this.inherits := base, inherits;
      head, next, top, hint, q := None, seq(|base|, i => None), NO_WAITER, false, [];
    }

    method RefreshTop()
      requires Linked()
      modifies `top, `hint
      ensures Valid() && (inherits ==> hint == (old(hint) && q != []))
    {
      if !inherits { return; }
      top := if head.Some? then base[head.value] else NO_WAITER;
      if head == None { hint := false; }
    }

    /** link: the walk stops before the first waiter less urgent. */
    method Link(t: Tid)
      requires Linked() && t < |base| && t !in q
      modifies `head, `next, `q
      ensures Linked() && q == Insert(old(q), t, Key(base))
    {
      if head == None || base[t] < base[head.value] {
        InsertStops(base, q, 0, t);
        PutLinks(next, head, q, 0, t, next[t := head]);
        next, head, q := next[t := head], Some(t), Put(q, 0, t);
        return;
      }
      var before := head.value;
      ghost var k := 1;
      assert LinkAt(next, q, 0);
      while next[before].Some? && base[next[before].value] <= base[t]
        invariant 1 <= k <= |q| && before == q[k - 1] && next[before] == At(q, k)
        invariant forall i :: 0 <= i < k ==> base[q[i]] <= base[t]
        decreases |q| - k
      {
        assert LinkAt(next, q, k);
        before := next[before].value;
        k := k + 1;
      }
      InsertStops(base, q, k, t);
      var links := next[t := next[before]][before := Some(t)];
      PutLinks(next, head, q, k, t, links);
      next, q := links, Put(q, k, t);
    }

    /** unlink, which finds the node or that a wake has taken it. */
    method UnlinkNode(t: Tid) returns (found: bool)
      requires Linked() && t < |base|
      modifies `head, `next, `q
      ensures Linked() && q == Remove(old(q), t) && (found <==> t in old(q))
    {
      var before;
      found, before := Find(next, head, At(q, |q| - 1), q, t);
      RemoveCounts(q, t);
      if !found { return; }
      ghost var k: nat :| k < |q| && q[k] == t && before == At(q, k - 1);
      assert LinkAt(next, q, k);
      RemoveAt(q, k);
      TakeAt(k, before, t, next[t]);
    }

    method Arm(t: Tid, holdsNothing: bool)
      requires Linked() && t < |base| && t !in q
      modifies `head, `next, `q, `top, `hint
      ensures Valid() && q == Insert(old(q), t, Key(base))
      ensures inherits ==> hint == (old(hint) || !holdsNothing)
    {
      InsertMembers(q, t, Key(base));
      Link(t);
      if inherits && !holdsNothing { hint := true; }
      RefreshTop();
    }

    method Disarm(t: Tid) returns (removed: bool)
      requires Linked() && t < |base|
      modifies `head, `next, `q, `top, `hint
      ensures Linked() && q == Remove(old(q), t) && (removed <==> t in old(q))
      ensures old(Valid()) || removed ==> Valid() && (inherits ==> hint == (old(hint) && q != []))
    {
      removed := UnlinkNode(t);
      if !removed { return false; }
      RefreshTop();
    }

    /** The take every wake makes: the head, and the cache with it. */
    method TakeHead() returns (chosen: Option<Tid>)
      requires Valid()
      modifies `head, `next, `q, `top, `hint
      ensures Valid() && chosen == At(old(q), 0) && q == if chosen == None then [] else old(q)[1..]
      ensures inherits ==> hint == (old(hint) && q != [])
    {
      chosen := head;
      if chosen == None { return; }
      assert Remove(q, q[0]) == q[1..];
      var found := UnlinkNode(chosen.value);
      RefreshTop();
    }

    /** What others do while the lock is let go. */
    method Perform(cs: seq<Change>)
      requires Linked()
      modifies `head, `next, `q, `top, `hint
      ensures Linked() && q == ChangedAll(base, old(q), cs) && (old(Valid()) ==> Valid())
    {
      assert cs[0..] == cs;
      for k := 0 to |cs|
        invariant Linked() && (old(Valid()) ==> Valid())
        invariant ChangedAll(base, old(q), cs) == ChangedAll(base, q, cs[k..])
      {
        assert cs[k..][0] == cs[k] && cs[k..][1..] == cs[k + 1..];
        ghost var was := q;
        Make(cs[k]);
        assert q == Changed(base, was, cs[k]);
      }
    }

    method Make(c: Change)
      requires Linked()
      modifies `head, `next, `q, `top, `hint
      ensures Linked() && q == Changed(base, old(q), c) && (old(Valid()) ==> Valid())
    {
      if c.t >= |base| { return; }
      var queued, before := Find(next, head, At(q, |q| - 1), q, c.t);
      if c.Arms? && !queued {
        Arm(c.t, c.holdsNothing);
      } else if c.Disarms? && queued {
        var removed := Disarm(c.t);
      }
    }

    /** wake_all: one head after another, the lock let go in between, until nobody is queued. */
    method WakeAll(between: seq<seq<Change>>) returns (woken: seq<Tid>)
      requires Valid()
      modifies `head, `next, `q, `top, `hint
      ensures Valid() && woken == Woken(base, old(q), Anyone(), 1, between) && q == []
    {
      woken := [];
      var rest := between;
      while true
        invariant Valid() && WalksAt(base, Anyone(), 1, old(q), between, q, rest, woken)
        decreases |rest|, |q|
      {
        HeadIsABatch(q);
        WalksGoOn(base, Anyone(), 1, old(q), between, q, rest, woken);
        var chosen := TakeHead();
        if chosen == None { return; }
        woken := woken + [chosen.value];
        Perform(Now(rest));
        rest := Later(rest);
      }
    }

    /** wake_all_where: whoever is wanted, eight to a walk, the lock let go in between. */
    method WakeAllWhere(wants: Tid -> bool, between: seq<seq<Change>>) returns (woken: seq<Tid>)
      requires Linked()
      modifies `head, `next, `q, `top, `hint
      ensures Linked() && woken == Woken(base, old(q), wants, 8, between) && q == Kept(base, old(q), wants, 8, between)
    {
      woken := Walks(wants, 8, between);
    }

    method Walks(wants: Tid -> bool, size: nat, between: seq<seq<Change>>) returns (woken: seq<Tid>)
      requires Linked() && size > 0
      modifies `head, `next, `q, `top, `hint
      ensures Linked() && woken == Woken(base, old(q), wants, size, between)
      ensures q == Kept(base, old(q), wants, size, between)
    {
      woken := [];
      var rest := between;
      while true
        invariant Linked() && WalksAt(base, wants, size, old(q), between, q, rest, woken)
        decreases |rest|, |q|
      {
        WalksGoOn(base, wants, size, old(q), between, q, rest, woken);
        var taken := Walk(wants, size);
        woken := woken + taken;
        if |taken| < size { return; }
        Perform(Now(rest));
        rest := Later(rest);
      }
    }

    /** One walk under the lock. */
    method Walk(wants: Tid -> bool, size: nat) returns (taken: seq<Tid>)
      requires Linked()
      modifies `head, `next, `q
      ensures Linked() && taken == Batch(old(q), wants, size) && q == Left(old(q), wants, size)
    {
      taken := [];
      ghost var was, k := q, 0;     // k: nodes passed over
      var before: Option<Tid> := None;
      var node := head;
      WalkStarts(q, wants, size);
      while node.Some? && |taken| < size
        invariant Linked() && k <= |q| && node == At(q, k) && before == At(q, k - 1)
        invariant WalkAt(was, wants, size, q, k, taken)
        decreases |q| - k
      {
        assert LinkAt(next, q, k);
        var after := next[node.value];
        if wants(node.value) {
          WalkTakes(was, wants, size, q, k, taken);
          taken := taken + [node.value];
          TakeAt(k, before, node.value, after);
        } else {
          WalkSkips(was, wants, size, q, k, taken);
          before := node;
          k := k + 1;
        }
        node := after;
      }
      WalkEnds(was, wants, size, q, k, taken);
    }

    /** The walk's unlink of the node at position k. */
    method TakeAt(ghost k: nat, before: Option<Tid>, t: Tid, after: Option<Tid>)
      requires Linked() && k < |q| && q[k] == t && before == At(q, k - 1) && after == next[t]
      modifies `head, `next, `q
      ensures Linked() && q == Cut(old(q), k)
    {
      var links := next;
      if before.Some? { links := links[before.value := after]; } else { head := after; }
      links := links[t := None];
      TakenLinks(next, old(head), q, k, links);
      RemoveAt(q, k);
      next, q := links, Cut(q, k);
    }
  }
}
