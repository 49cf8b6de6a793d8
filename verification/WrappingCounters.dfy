/** Free-running 32-bit counters into a ring whose size is a power of two. */
module WrappingCounters {

  const WORD := 0x1_0000_0000

  type Word = w: nat | w < WORD

  function Pow2(k: nat): (r: nat)
    ensures r > 0
  {
    if k == 0 then 1 else 2 * Pow2(k - 1)
  }

  /** Bitwise and. */
  function And(a: nat, b: nat): nat {
    if a == 0 then 0 else 2 * And(a / 2, b / 2) + (if a % 2 == 1 && b % 2 == 1 then 1 else 0)
  }

  lemma {:induction false} MaskIsModulo(a: nat, k: nat)
    ensures And(a, Pow2(k) - 1) == a % Pow2(k)
    decreases k, a
  {
    if k == 0 {
      AndZero(a);
    } else if a > 0 {
      var n := Pow2(k - 1);
      calc {
        And(a, Pow2(k) - 1);
        And(a, 2 * n - 1);
        { AndOdd(a, n); }
        2 * And(a / 2, n - 1) + a % 2;
        { MaskIsModulo(a / 2, k - 1); }
        2 * ((a / 2) % n) + a % 2;
        { HalfModulo(a, n); }
        a % (2 * n);
        a % Pow2(k);
      }
    } else {
      assert And(0, Pow2(k) - 1) == 0;
    }
  }

  lemma AndOdd(a: nat, n: nat)
    requires a > 0 && n > 0
    ensures And(a, 2 * n - 1) == 2 * And(a / 2, n - 1) + a % 2
  {
    assert (2 * n - 1) / 2 == n - 1 && (2 * n - 1) % 2 == 1;
  }

  lemma {:induction false} AndZero(a: nat)
    ensures And(a, 0) == 0
  {
    if a > 0 { AndZero(a / 2); }
  }

  lemma HalfModulo(a: nat, n: nat)
    requires n > 0
    ensures a % (2 * n) == 2 * ((a / 2) % n) + a % 2
  {
    var q, r := (a / 2) / n, (a / 2) % n;
    assert a / 2 == q * n + r;
    assert a == q * (2 * n) + (2 * r + a % 2);
    SameModulo(q, 2 * n, 2 * r + a % 2);
  }

  lemma SmallMultiple(d: int, n: int)
    requires n > 0 && -n < d * n < n
    ensures d == 0
  {
    assert d >= 1 ==> (d - 1) * n >= 0;
    assert d <= -1 ==> (d + 1) * n <= 0;
  }

  lemma Division(x: int, n: nat)
    requires n > 0
    ensures x == (x / n) * n + x % n && 0 <= x % n < n
  {}

  lemma SameModulo(q: int, n: nat, r: nat)
    requires r < n
    ensures (q * n + r) % n == r
  {
    var x := q * n + r;
    Division(x, n);
    var d, m := q - x / n, x % n;
    assert d * n == m - r;
    SmallMultiple(d, n);
  }

  lemma {:induction false} WordSplits(k: nat)
    requires k <= 32
    ensures exists m: nat :: m > 0 && WORD == m * Pow2(k)
    decreases 32 - k
  {
    if k == 32 {
      PowersOfTwo();
      assert WORD == 1 * Pow2(32);
    } else {
      WordSplits(k + 1);
      var m: nat :| m > 0 && WORD == m * Pow2(k + 1);
      Doubled(m, Pow2(k));
      assert WORD == (2 * m) * Pow2(k);
    }
  }

  lemma Doubled(m: nat, n: nat)
    ensures m * (2 * n) == (2 * m) * n
  {}

  lemma PowersOfTwo()
    ensures Pow2(32) == WORD
  {
    assert Pow2(8) == 256;
    assert Pow2(16) == 0x1_0000;
    assert Pow2(24) == 0x100_0000;
  }

  /** A counter's slot is the same whether or not the counter has wrapped. */
  lemma SlotOfCounter(x: nat, k: nat)
    requires k < 32
    ensures And(x % WORD, Pow2(k) - 1) == x % Pow2(k)
  {
    MaskIsModulo(x % WORD, k);
    WordSplits(k);
    var m: nat :| m > 0 && WORD == m * Pow2(k);
    ModuloOfModulo(x, m, Pow2(k));
  }

  lemma ModuloOfModulo(x: nat, m: nat, cap: nat)
    requires m > 0 && cap > 0
    ensures m * cap > 0 && (x % (m * cap)) % cap == x % cap
  {
    var n := m * cap;
    Division(x, n);
    Division(x % n, cap);
    var a, q, r := x / n, (x % n) / cap, (x % n) % cap;
    Regroup(a, m, cap, q);
    SameModulo(a * m + q, cap, r);
  }

  lemma Regroup(a: int, m: int, cap: int, q: int)
    ensures a * (m * cap) + q * cap == (a * m + q) * cap
  {
    assert a * (m * cap) == (a * m) * cap;
  }

  /** The difference of two counters, wrapped or not, is the difference of what they count. */
  lemma CounterDifference(x: nat, y: nat)
    requires y <= x < y + WORD
    ensures (x % WORD + WORD - y % WORD) % WORD == x - y
  {
    var a, b := x / WORD, y / WORD;
    assert x == a * WORD + x % WORD && y == b * WORD + y % WORD;
  }

  /** Positions less than a lap apart have different slots. */
  lemma SlotsDiffer(i: nat, j: nat, cap: nat)
    requires i < j < i + cap
    ensures i % cap != j % cap
  {
    Division(i, cap);
    Division(j, cap);
    var d := j / cap - i / cap;
    assert d * cap == (j / cap) * cap - (i / cap) * cap;
    assert i % cap == j % cap ==> d * cap == j - i;
    if d * cap == j - i { SmallMultiple(d, cap); }
  }

  lemma CounterSum(x: nat, i: nat)
    ensures (x % WORD + i) % WORD == (x + i) % WORD
  {
    var a, r := x / WORD, x % WORD;
    assert x + i == a * WORD + (r + i);
  }
}
