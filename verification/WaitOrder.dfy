/**
 The order of a wait queue: best base priority first, first come first served
 within one. wait_queue::link is specified by Insert, and what Insert means is
 the lexicographic order of (priority, arrival).
 */
module WaitOrder {

  /** Behind every waiter as urgent or more. */
  function Insert<T>(q: seq<T>, x: T, key: T -> nat): seq<T> {
    if q == [] || key(x) < key(q[0]) then [x] + q else [q[0]] + Insert(q[1..], x, key)
  }

  /** The queue without x, everyone else in place. */
  function Remove<T(==)>(q: seq<T>, x: T): seq<T> {
    if q == [] then [] else if q[0] == x then q[1..] else [q[0]] + Remove(q[1..], x)
  }

  lemma {:induction false} InsertCounts<T>(q: seq<T>, x: T, key: T -> nat)
    ensures multiset(Insert(q, x, key)) == multiset(q) + multiset{x}
  {
    if q != [] && key(x) >= key(q[0]) {
      InsertCounts(q[1..], x, key);
      assert q == [q[0]] + q[1..];
    }
  }

  lemma {:induction false} RemoveCounts<T>(q: seq<T>, x: T)
    ensures multiset(Remove(q, x)) == multiset(q) - multiset{x}
    ensures x !in q ==> Remove(q, x) == q
  {
    if q != [] {
      assert q == [q[0]] + q[1..];
      if q[0] != x { RemoveCounts(q[1..], x); }
    }
  }

  /** Nobody is in the queue without x who was not in it. */
  lemma RemoveSubset<T>(q: seq<T>, x: T, i: nat)
    requires i < |Remove(q, x)|
    ensures Remove(q, x)[i] in q
  {
    RemoveCounts(q, x);
    assert Remove(q, x)[i] in multiset(Remove(q, x));
  }

  predicate Apart<T(==)>(q: seq<T>, i: nat, j: nat)
    requires i < |q| && j < |q|
  {
    q[i] != q[j]
  }

  predicate Distinct<T(==)>(q: seq<T>) {
    forall i: nat, j: nat :: i < j < |q| ==> Apart(q, i, j)
  }

  lemma DistinctTail<T>(q: seq<T>)
    requires Distinct(q) && q != []
    ensures Distinct(q[1..]) && q[0] !in q[1..]
  {
    forall i: nat, j: nat | i < j < |q[1..]| ensures Apart(q[1..], i, j) { assert Apart(q, i + 1, j + 1); }
    forall i: nat | i < |q[1..]| ensures q[1..][i] != q[0] { assert Apart(q, 0, i + 1); }
  }

  lemma DistinctPush<T>(q: seq<T>, x: T)
    requires Distinct(q) && x !in q
    ensures Distinct([x] + q) && Distinct(q + [x])
  {
    var f, b := [x] + q, q + [x];
    forall i: nat, j: nat | i < j < |f| ensures Apart(f, i, j) { assert i > 0 ==> Apart(q, i - 1, j - 1); }
    forall i: nat, j: nat | i < j < |b| ensures Apart(b, i, j) { assert j < |q| ==> Apart(q, i, j); }
  }

  /** a is ahead of b: more urgent, or as urgent and here first. */
  predicate Ahead<T>(a: T, b: T, key: T -> nat, arrival: T -> nat) {
    key(a) < key(b) || (key(a) == key(b) && arrival(a) < arrival(b))
  }

  ghost predicate Ordered<T>(q: seq<T>, key: T -> nat, arrival: T -> nat) {
    forall i, j :: 0 <= i < j < |q| ==> Ahead(q[i], q[j], key, arrival)
  }

  /** Inserting the latest arrival keeps the order of priority, then arrival. */
  lemma {:induction false} InsertKeepsOrder<T>(q: seq<T>, x: T, key: T -> nat, arrival: T -> nat)
    requires Ordered(q, key, arrival)
    requires forall y :: y in q ==> arrival(y) < arrival(x)
    ensures Ordered(Insert(q, x, key), key, arrival)
    decreases |q|
  {
    if q == [] || key(x) < key(q[0]) {
      var r := [x] + q;
      forall i, j | 0 <= i < j < |r| ensures Ahead(r[i], r[j], key, arrival) {
        if i > 0 { assert Ahead(q[i - 1], q[j - 1], key, arrival); }
        else if j > 1 { assert Ahead(q[0], q[j - 1], key, arrival); }
      }
    } else {
      var t := q[1..];
      forall i, j | 0 <= i < j < |t| ensures Ahead(t[i], t[j], key, arrival) {
        assert Ahead(q[i + 1], q[j + 1], key, arrival);
      }
      InsertKeepsOrder(t, x, key, arrival);
      InsertCounts(t, x, key);
      var rest := Insert(t, x, key);
      var r := [q[0]] + rest;
      assert q[0] in q;
      forall j | 0 < j < |r| ensures Ahead(r[0], r[j], key, arrival) {
        assert rest[j - 1] in multiset(rest);
        if rest[j - 1] in t {
          var k :| 0 <= k < |t| && t[k] == rest[j - 1];
          assert Ahead(q[0], q[k + 1], key, arrival);
        }
      }
      forall i, j | 0 <= i < j < |r| ensures Ahead(r[i], r[j], key, arrival) {
        if i > 0 { assert Ahead(rest[i - 1], rest[j - 1], key, arrival); }
      }
    }
  }

  lemma {:induction false} RemoveKeepsOrder<T>(q: seq<T>, x: T, key: T -> nat, arrival: T -> nat)
    requires Ordered(q, key, arrival)
    ensures Ordered(Remove(q, x), key, arrival)
    decreases |q|
  {
    if q != [] {
      var t := q[1..];
      forall i, j | 0 <= i < j < |t| ensures Ahead(t[i], t[j], key, arrival) {
        assert Ahead(q[i + 1], q[j + 1], key, arrival);
      }
      if q[0] != x {
        RemoveKeepsOrder(t, x, key, arrival);
        var rest := Remove(t, x);
        var r := [q[0]] + rest;
        forall j | 0 < j < |r| ensures Ahead(r[0], r[j], key, arrival) {
          RemoveSubset(t, x, j - 1);
          var k :| 0 <= k < |t| && t[k] == rest[j - 1];
          assert Ahead(q[0], q[k + 1], key, arrival);
        }
        forall i, j | 0 <= i < j < |r| ensures Ahead(r[i], r[j], key, arrival) {
          if i > 0 { assert Ahead(rest[i - 1], rest[j - 1], key, arrival); }
        }
      }
    }
  }

  lemma OrderedIsDistinct<T>(q: seq<T>, key: T -> nat, arrival: T -> nat)
    requires Ordered(q, key, arrival)
    ensures Distinct(q)
  {
    forall i: nat, j: nat | i < j < |q| ensures Apart(q, i, j) {
      assert Ahead(q[i], q[j], key, arrival);
    }
  }

  lemma {:induction false} RemoveRemoves<T>(q: seq<T>, x: T)
    requires Distinct(q)
    ensures x !in Remove(q, x)
    decreases |q|
  {
    if q != [] {
      DistinctTail(q);
      if q[0] != x { RemoveRemoves(q[1..], x); }
    }
  }

  lemma InsertMembers<T(!new)>(q: seq<T>, x: T, key: T -> nat)
    ensures forall y :: y in Insert(q, x, key) <==> y == x || y in q
    ensures x !in q && Distinct(q) ==> Distinct(Insert(q, x, key))
  {
    var r := Insert(q, x, key);
    InsertCounts(q, x, key);
    forall y ensures y in r <==> y == x || y in q {
      assert y in r <==> y in multiset(r);
    }
    if x !in q && Distinct(q) {
      assert forall y :: multiset(q)[y] <= 1 by { DistinctCounts(q); }
      CountsDistinct(r);
    }
  }

  lemma RemoveMembers<T(!new)>(q: seq<T>, x: T)
    requires Distinct(q)
    ensures forall y :: y in Remove(q, x) <==> y != x && y in q
    ensures Distinct(Remove(q, x))
  {
    var r := Remove(q, x);
    RemoveCounts(q, x);
    RemoveRemoves(q, x);
    forall y ensures y in r <==> y != x && y in q {
      assert y in r <==> y in multiset(r);
    }
    assert forall y :: multiset(q)[y] <= 1 by { DistinctCounts(q); }
    CountsDistinct(r);
  }

  lemma {:induction false} DistinctCounts<T(!new)>(q: seq<T>)
    requires Distinct(q)
    ensures forall y :: multiset(q)[y] <= 1
    decreases |q|
  {
    if q != [] {
      DistinctTail(q);
      DistinctCounts(q[1..]);
      assert q == [q[0]] + q[1..];
    }
  }

  lemma CountsDistinct<T(!new)>(q: seq<T>)
    requires forall y :: multiset(q)[y] <= 1
    ensures Distinct(q)
  {
    forall i: nat, j: nat | i < j < |q| ensures Apart(q, i, j) {
      assert q == q[..j] + [q[j]] + q[j + 1..];
      assert multiset(q) == multiset(q[..j]) + multiset{q[j]} + multiset(q[j + 1..]);
      assert multiset(q)[q[j]] <= 1;
      assert q[j] !in multiset(q[..j]);
      assert q[..j][i] in multiset(q[..j]);
    }
  }
}
