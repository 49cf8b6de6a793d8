/**
 The loop that advances a recurring deadline past now by whole periods. Times are 64-bit tick
 counts and the loop's sums wrap, so it may leave the grid, and need not end at all.
 */
module GridLoop {
  import opened WrappingCounters

  const NEVER := 0xFFFF_FFFF_FFFF_FFFF
  const TICKS := 0x1_0000_0000_0000_0000

  /** A 64-bit tick count. */
  type Ticks = t: nat | t < TICKS

  /** The first point after now of the grid through when. */
  function Next(when: nat, period: nat, now: nat): (r: nat)
    requires period > 0
    ensures now < r && (when <= now ==> r <= now + period)
    decreases if when <= now then now - when + 1 else 0
  {
    if when > now then when else Next(when + period, period, now)
  }

  /** The grid loop's j-th value, in 64-bit arithmetic. */
  function Wrapped(when: Ticks, period: Ticks, j: nat): Ticks { (when + j * period) % TICKS }

  /** The grid loop ends. */
  ghost predicate Ends(when: Ticks, period: Ticks, now: Ticks) { exists j: nat :: Over(when, period, now, j) }

  predicate Over(when: Ticks, period: Ticks, now: Ticks, j: nat) { j > 0 && Wrapped(when, period, j) > now }

  /** The first of its values past now, from the j-th on. */
  ghost function FirstOver(when: Ticks, period: Ticks, now: Ticks, j: nat, last: nat): (r: nat)
    requires 0 < j <= last && Over(when, period, now, last)
    ensures j <= r <= last && Over(when, period, now, r) && forall i :: j <= i < r ==> !Over(when, period, now, i)
    decreases last - j
  {
    if Over(when, period, now, j) then j else FirstOver(when, period, now, j + 1, last)
  }

  /** Where the grid loop leaves a deadline. */
  ghost function Landing(when: Ticks, period: Ticks, now: Ticks): Ticks
    requires Ends(when, period, now)
  {
    var last: nat :| Over(when, period, now, last);
    Wrapped(when, period, FirstOver(when, period, now, 1, last))
  }

  lemma LandingIs(when: Ticks, period: Ticks, now: Ticks, j: nat)
    requires Over(when, period, now, j) && forall i :: 0 < i < j ==> !Over(when, period, now, i)
    ensures Ends(when, period, now) && Landing(when, period, now) == Wrapped(when, period, j)
  {
    var last: nat :| Over(when, period, now, last) &&
                     Landing(when, period, now) == Wrapped(when, period, FirstOver(when, period, now, 1, last));
    assert Over(when, period, now, last);
    var r := FirstOver(when, period, now, 1, last);
    assert !(r < j) && !(j < r);
  }

  /** The next point of a recurring slot's grid is within 64 bits. */
  predicate Fits(when: Ticks, period: Ticks, now: Ticks) { period > 0 ==> Next(when, period, now) < TICKS }

  ghost predicate OnGrid(anchor: nat, period: nat, when: nat) { exists k: nat :: when == anchor + k * period }

  /* ------------------------------------------------------------- the grid */

  /** The grid carries on from one of its points. */
  lemma {:induction false} NextOnGrid(anchor: nat, when: nat, period: nat, now: nat)
    requires period > 0 && OnGrid(anchor, period, when)
    ensures OnGrid(anchor, period, Next(when, period, now))
    decreases if when <= now then now - when + 1 else 0
  {
    if when <= now {
      var k: nat :| when == anchor + k * period;
      assert when + period == anchor + (k + 1) * period;
      NextOnGrid(anchor, when + period, period, now);
    }
  }

  /** Next is so many periods on, and every point before it is at or before now. */
  lemma {:induction false} NextSteps(when: nat, period: nat, now: nat) returns (k: nat)
    requires period > 0
    ensures Next(when, period, now) == when + k * period
    ensures when <= now ==> k > 0
    ensures forall i :: 0 <= i < k ==> when + i * period <= now
    decreases if when <= now then now - when + 1 else 0
  {
    if when > now {
      k := 0;
    } else {
      var j := NextSteps(when + period, period, now);
      k := j + 1;
      assert when + k * period == (when + period) + j * period;
      forall i | 0 <= i < k ensures when + i * period <= now {
        if i > 0 { assert when + i * period == (when + period) + (i - 1) * period; }
      }
    }
  }

  /** The grid has one point after now and at most a period ahead. */
  lemma OnlyNext(when: nat, period: nat, now: nat, x: nat)
    requires period > 0 && when <= now < x <= now + period && OnGrid(when, period, x)
    ensures x == Next(when, period, now)
  {
    var a: nat :| x == when + a * period;
    var b := NextSteps(when, period, now);
    assert (a - b) * period == x - Next(when, period, now);
    SmallMultiple(a - b, period);
  }

  lemma LandsPastNow(when: Ticks, period: Ticks, now: Ticks)
    requires Ends(when, period, now)
    ensures Landing(when, period, now) > now
  {
    var last: nat :| Over(when, period, now, last) &&
                     Landing(when, period, now) == Wrapped(when, period, FirstOver(when, period, now, 1, last));
  }

  /** A grid whose next point fits is landed on, so its loop ends. */
  lemma FitsLands(when: Ticks, period: Ticks, now: Ticks)
    requires period > 0 && when <= now && Next(when, period, now) < TICKS
    ensures Ends(when, period, now) && Landing(when, period, now) == Next(when, period, now)
  {
    var k := NextSteps(when, period, now);
    assert Wrapped(when, period, k) == when + k * period;
    forall i | 0 < i < k ensures !Over(when, period, now, i) { assert Wrapped(when, period, i) == when + i * period; }
    LandingIs(when, period, now, k);
  }

  /** The loop, in 64-bit arithmetic, ends on the next point of the grid exactly when that point fits 64 bits. */
  lemma GridExactlyWhenItFits(when: Ticks, period: Ticks, now: Ticks)
    requires period > 0 && when <= now
    ensures Ends(when, period, now) && Landing(when, period, now) == Next(when, period, now) <==>
            Next(when, period, now) < TICKS
  {
    if Next(when, period, now) < TICKS { FitsLands(when, period, now); }
  }

  /** A deadline past 64 bits: the loop ends off the grid, on the last tick there is. */
  lemma AGridCanWrap()
    ensures Ends(1, NEVER, 1) && Landing(1, NEVER, 1) == NEVER && Next(1, NEVER, 1) == TICKS
  {
    assert Wrapped(1, NEVER, 1) == 0 && Wrapped(1, NEVER, 2) == NEVER;
    LandingIs(1, NEVER, 1, 2);
  }

  /** A deadline for which the loop never ends. */
  lemma AGridCanSpin()
    ensures !Ends(TICKS / 2, TICKS / 2, TICKS / 2)
  {
    var half := TICKS / 2;
    forall j: nat ensures !Over(half, half, half, j) {
      var q, r := (1 + j) / 2, (1 + j) % 2;
      assert half + j * half == q * TICKS + r * half;
      SameModulo(q, TICKS, r * half);
    }
  }

  /* ------------------------------------------------- where the loop ends */

  /** The largest power of two that divides a period, as an exponent. */
  function Twos(period: nat): (k: nat)
    requires period > 0
    ensures period % Pow2(k) == 0 && (period / Pow2(k)) % 2 == 1
  {
    if period % 2 == 1 then 0
    else
      assert period == 2 * (period / 2);
      var k := Twos(period / 2);
      TwiceTheMultiple(period / 2, Pow2(k));
      k + 1
  }

  lemma TwiceTheMultiple(n: nat, g: nat)
    requires g > 0 && n % g == 0
    ensures (2 * n) % (2 * g) == 0 && (2 * n) / (2 * g) == n / g
  {
    var q := n / g;
    assert n == q * g;
    assert 2 * n == q * (2 * g) + 0;
    SameModulo(q, 2 * g, 0);
    Division(2 * n, 2 * g);
    SmallMultiple((2 * n) / (2 * g) - q, 2 * g);
  }

  /**
   The grid loop visits the ticks that differ from the deadline by a multiple of the largest
   power of two in its period, so it ends if and only if the last such tick is after now.
   */
  lemma EndsIff(when: Ticks, period: Ticks, now: Ticks)
    requires period > 0
    ensures var g := Pow2(Twos(period)); Ends(when, period, now) <==> now < TICKS - g + when % g
  {
    var g := Pow2(Twos(period));
    var a, r := Split(when, g);
    var o, zero := Split(period, g);
    var m := Cofactor(period);
    EndsWhen(when, period, now, a, g, o, m, r);
  }

  lemma Split(x: nat, g: nat) returns (q: nat, r: nat)
    requires g > 0
    ensures x == q * g + r && q == x / g && r == x % g < g
  {
    q, r := x / g, x % g;
    Division(x, g);
  }

  lemma EndsWhen(when: Ticks, period: Ticks, now: Ticks, a: nat, g: nat, o: nat, m: nat, r: nat)
    requires when == a * g + r && period == o * g && r < g && o % 2 == 1 && TICKS == g * Pow2(m)
    ensures Ends(when, period, now) <==> now < TICKS - g + r
  {
    if Ends(when, period, now) {
      var j: nat :| Over(when, period, now, j);
      NoneLater(when, period, a, g, o, m, r, j);
    }
    var last := LastVisited(when, period, a, g, o, m, r);
    assert Over(when, period, now, last) <==> now < TICKS - g + r;
  }

  /** TICKS is a multiple of that power. */
  lemma Cofactor(period: Ticks) returns (m: nat)
    requires period > 0
    ensures TICKS == Pow2(Twos(period)) * Pow2(m)
  {
    var k := Twos(period);
    TicksIsPow2();
    Division(period, Pow2(k));
    assert period / Pow2(k) >= 1;
    if k > 64 { Pow2Adds(64, k - 64); }
    m := 64 - k;
    Pow2Adds(k, m);
  }

  lemma TicksIsPow2()
    ensures Pow2(64) == TICKS
  {
    Squares(1, 2);
    Squares(2, 4);
    Squares(4, 0x10);
    Squares(8, 0x100);
    Squares(16, 0x1_0000);
    Squares(32, 0x1_0000_0000);
  }

  lemma Squares(k: nat, v: nat)
    requires Pow2(k) == v
    ensures Pow2(2 * k) == v * v
  {
    Pow2Adds(k, k);
  }

  lemma {:induction false} Pow2Adds(i: nat, j: nat)
    ensures Pow2(i + j) == Pow2(i) * Pow2(j)
  {
    if j > 0 { Pow2Adds(i, j - 1); }
  }

  lemma NoneLater(when: Ticks, period: Ticks, a: nat, g: nat, o: nat, m: nat, r: nat, j: nat)
    requires when == a * g + r && period == o * g && r < g && TICKS == g * Pow2(m)
    ensures Wrapped(when, period, j) <= TICKS - g + r
  {
    var n, x := Pow2(m), when + j * period;
    var q := x / TICKS;
    Division(x, TICKS);
    Regroup(a, g, o, r, j);
    var e := a + j * o - q * n;
    assert q * TICKS == (q * n) * g;
    assert (a + j * o) * g - (q * n) * g == e * g;
    Below(e, g, n, r);
  }

  lemma Regroup(a: nat, g: nat, o: nat, r: nat, j: nat)
    ensures (a * g + r) + j * (o * g) == (a + j * o) * g + r
  {
    assert j * (o * g) == (j * o) * g;
  }

  lemma Below(e: int, g: nat, n: nat, r: nat)
    requires r < g && e * g + r < g * n
    ensures e * g + r <= g * n - g + r
  {
    Fewer(e, n, g);
    Scales(e, n - 1, g);
    assert (n - 1) * g == g * n - g;
  }

  lemma Scales(x: int, y: int, g: nat)
    requires x <= y
    ensures x * g <= y * g
  {
    assert (y - x) * g >= 0;
  }

  lemma Fewer(x: int, y: int, g: nat)
    requires x * g < g * y
    ensures x < y
  {
    if x >= y { Scales(y, x, g); }
  }

  /** The last tick that can be is visited, after the first step. */
  lemma LastVisited(when: Ticks, period: Ticks, a: nat, g: nat, o: nat, m: nat, r: nat) returns (j: nat)
    requires when == a * g + r && period == o * g && r < g && o % 2 == 1 && TICKS == g * Pow2(m)
    ensures j > 0 && Wrapped(when, period, j) == TICKS - g + r
  {
    var n := Pow2(m);
    Fewer(a, n, g);
    var x, q := OddInverse(o, m);
    var d := n - 1 - a + n;
    j := x * d;
    Scales(1, x, d);
    LastSum(a, g, o, n, r, x, q, d);
    Lands(when, period, j, 1 + d * q, TICKS - g + r);
  }

  lemma NextWrapped(when: Ticks, period: Ticks, j: nat)
    ensures Wrapped(when, period, j + 1) == (Wrapped(when, period, j) + period) % TICKS
  {
    var q, r := Split(when + j * period, TICKS);
    var p, v := Split(r + period, TICKS);
    assert (j + 1) * period == j * period + period;
    Lands(when, period, j + 1, q + p, v);
  }

  lemma Lands(when: Ticks, period: Ticks, j: nat, c: nat, v: Ticks)
    requires when + j * period == c * TICKS + v
    ensures Wrapped(when, period, j) == v
  {
    SameModulo(c, TICKS, v);
  }

  lemma LastSum(a: nat, g: nat, o: nat, n: nat, r: nat, x: nat, q: nat, d: nat)
    requires o * x == 1 + q * n && d == n - 1 - a + n
    ensures (a * g + r) + (x * d) * (o * g) == (1 + d * q) * (g * n) + (g * n - g + r)
  {
    var c := 1 + d * q;
    Regroup(a, g, o, r, x * d);
    Inverted(a, o, n, x, q, d);
    assert (n - 1 + c * n) * g == n * g - g + c * (n * g);
  }

  lemma Inverted(a: nat, o: nat, n: nat, x: nat, q: nat, d: nat)
    requires o * x == 1 + q * n && d == n - 1 - a + n
    ensures a + (x * d) * o == n - 1 + (1 + d * q) * n
  {
    assert (x * d) * o == d * (o * x);
    assert d * (1 + q * n) == d + (d * q) * n;
  }

  /** An odd number has an inverse modulo every power of two. */
  lemma {:induction false} OddInverse(o: nat, m: nat) returns (x: nat, q: nat)
    requires o % 2 == 1
    ensures x > 0 && o * x == 1 + q * Pow2(m)
  {
    if m == 0 {
      x, q := 1, o - 1;
    } else {
      x, q := OddInverse(o, m - 1);
      x, q := NextInverse(o, x, q, Pow2(m - 1));
    }
  }

  lemma NextInverse(o: nat, x: nat, q: nat, p: nat) returns (y: nat, s: nat)
    requires o % 2 == 1 && x > 0 && o * x == 1 + q * p
    ensures y > 0 && o * y == 1 + s * (2 * p)
  {
    y := if q % 2 == 0 then x else x + p;
    var t := if q % 2 == 0 then q else q + o;
    assert o * (x + p) == 1 + q * p + o * p;
    assert o * y == 1 + t * p;
    s := t / 2;
    assert t == 2 * s;
  }

  /** The grid loop, in 64-bit arithmetic, where it ends. */
  method Advance(when: Ticks, period: Ticks, now: Ticks) returns (w: Ticks)
    requires Ends(when, period, now)
    ensures w == Landing(when, period, now)
  {
    ghost var last: nat :| Over(when, period, now, last);
    ghost var j := 1;
    w := (when + period) % TICKS;
    while w <= now
      invariant 0 < j <= last && w == Wrapped(when, period, j)
      invariant forall i :: 0 < i < j ==> !Over(when, period, now, i)
      decreases last - j
    {
      NextWrapped(when, period, j);
      w := (w + period) % TICKS;
      j := j + 1;
    }
    LandingIs(when, period, now, j);
  }
}
