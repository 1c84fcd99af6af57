/**
  Which shard serves a routing key (bindings/go/asyncengine/sharded.go).

  The 64-bit arithmetic is written out on integers: products wrap at 2^64, the
  exclusive or works bit by bit, and the shard is the high half of a 128-bit
  product.
*/
module Sharding {
  import opened Sets

  const W: int := 0x1_0000_0000_0000_0000
  const FIBONACCI_MULTIPLIER: int := 11400714819323198485
  const KIND_MULTIPLIER: int := 15485907386658061715

  /** The inverse of FIBONACCI_MULTIPLIER modulo W. */
  const FIBONACCI_INVERSE: int := 17428512612931826493

  /** Exclusive or of the low k bits. */
  function Xor(a: nat, b: nat, k: nat): nat {
    if k == 0 then 0 else 2 * Xor(a / 2, b / 2, k - 1) + (a % 2 + b % 2) % 2
  }

  function KindMix(kind: nat): nat { kind * KIND_MULTIPLIER % W }

  function Hash(kind: nat, id: nat): nat { Xor(id * FIBONACCI_MULTIPLIER % W, KindMix(kind), 64) }

  /** The index that shardFor computes for a pool of n shards. */
  function ShardIndex(kind: nat, id: nat, n: nat): nat { Hash(kind, id) * n / W }

  // The hash permutes the 64-bit values.

  function Pow2(k: nat): (r: nat)
    ensures r > 0
  {
    if k == 0 then 1 else 2 * Pow2(k - 1)
  }

  lemma BitUndoes(p: nat, q: nat)
    requires p < 2 && q < 2
    ensures (p + q) % 2 < 2 && ((p + q) % 2 + q) % 2 == p
  {
  }

  lemma HalfAndBit(h: nat, bit: nat)
    requires bit < 2
    ensures (2 * h + bit) / 2 == h && (2 * h + bit) % 2 == bit
  {
  }

  lemma {:induction false} XorUndoes(a: nat, b: nat, k: nat)
    requires a < Pow2(k)
    ensures Xor(a, b, k) < Pow2(k)
    ensures Xor(Xor(a, b, k), b, k) == a
    decreases k
  {
    if k > 0 {
      XorUndoes(a / 2, b / 2, k - 1);
      BitUndoes(a % 2, b % 2);
      HalfAndBit(Xor(a / 2, b / 2, k - 1), (a % 2 + b % 2) % 2);
    }
  }

  lemma EightMore(k: nat)
    ensures Pow2(k + 8) == 0x100 * Pow2(k)
  {
    assert Pow2(k + 2) == 4 * Pow2(k);
    assert Pow2(k + 4) == 4 * Pow2(k + 2);
    assert Pow2(k + 6) == 4 * Pow2(k + 4);
  }

  /** Bit i of a number. */
  predicate Bit(a: nat, i: nat) {
    if i == 0 then a % 2 == 1 else Bit(a / 2, i - 1)
  }

  /** A bit of the exclusive or is set where exactly one of the two is, up to the width and not beyond. */
  lemma {:induction false} XorIsBitwise(a: nat, b: nat, k: nat, i: nat)
    ensures Bit(Xor(a, b, k), i) == (i < k && Bit(a, i) != Bit(b, i))
    decreases i
  {
    if k > 0 {
      HalfAndBit(Xor(a / 2, b / 2, k - 1), (a % 2 + b % 2) % 2);
      if i > 0 { XorIsBitwise(a / 2, b / 2, k - 1, i - 1); }
    } else {
      ZeroHasNoBit(i);
    }
  }

  lemma {:induction false} ZeroHasNoBit(i: nat)
    ensures !Bit(0, i)
  {
    if i > 0 { ZeroHasNoBit(i - 1); }
  }

  /** The multiplier is 2^64 over the golden ratio, rounded down, and odd. */
  lemma FibonacciIsGolden()
    ensures FIBONACCI_MULTIPLIER * (FIBONACCI_MULTIPLIER + W) < W * W
    ensures W * W < (FIBONACCI_MULTIPLIER + 1) * (FIBONACCI_MULTIPLIER + 1 + W)
    ensures FIBONACCI_MULTIPLIER % 2 == 1 && KIND_MULTIPLIER % 2 == 1
  {
  }

  lemma WidthIsPow2()
    ensures Pow2(64) == W
  {
    EightMore(0);
    EightMore(8);
    EightMore(16);
    EightMore(24);
    EightMore(32);
    EightMore(40);
    EightMore(48);
    EightMore(56);
  }

  /** A residue is determined by any way of writing the number. */
  lemma ModUnique(x: int, q: int, r: int)
    requires 0 <= r < W && x == q * W + r
    ensures x % W == r
  {
  }

  lemma ProductUndone(x: int, a: int, b: int)
    requires 0 <= x < W && a * b % W == 1
    ensures (x * a % W) * b % W == x
  {
    var t, q := x * a / W, a * b / W;
    assert x * a % W == x * a - t * W;
    assert a * b == q * W + 1;
    assert (x * a - t * W) * b == x * (a * b) - t * b * W;
    assert x * (a * b) == x * q * W + x;
    assert (x * a % W) * b == (x * q - t * b) * W + x;
    ModUnique((x * a % W) * b, x * q - t * b, x);
  }

  /** The key that has this hash. */
  function Unhash(kind: nat, h: nat): nat { Xor(h, KindMix(kind), 64) * FIBONACCI_INVERSE % W }

  lemma HashIsBijective(kind: nat, x: nat)
    requires x < W
    ensures Hash(kind, x) < W && Unhash(kind, x) < W
    ensures Unhash(kind, Hash(kind, x)) == x
    ensures Hash(kind, Unhash(kind, x)) == x
  {
    WidthIsPow2();
    XorUndoes(x * FIBONACCI_MULTIPLIER % W, KindMix(kind), 64);
    ProductUndone(x, FIBONACCI_MULTIPLIER, FIBONACCI_INVERSE);
    XorUndoes(x, KindMix(kind), 64);
    ProductUndone(Xor(x, KindMix(kind), 64), FIBONACCI_INVERSE, FIBONACCI_MULTIPLIER);
  }

  lemma Times(a: int, b: int, n: int)
    requires a <= b && n >= 0
    ensures a * n <= b * n
  {
  }

  lemma DivBelow(x: int, n: int, s: int)
    requires n > 0
    ensures x / n < s <==> x < s * n
    ensures s <= x / n <==> s * n <= x
  {
    var q := x / n;
    assert x == q * n + x % n;
    assert (q + 1) * n == q * n + n;
    if q < s { Times(q + 1, s, n); } else { Times(s, q, n); }
  }

  /** Every key has a shard, whatever the number of shards. */
  lemma ShardInRange(kind: nat, id: nat, n: nat)
    requires id < W && 0 < n
    ensures 0 <= ShardIndex(kind, id, n) < n
  {
    HashIsBijective(kind, id);
    HighHalf(Hash(kind, id), n);
  }

  lemma HighHalf(h: nat, n: nat)
    requires h < W && 0 < n
    ensures 0 <= h * n / W < n
  {
    Times(h + 1, W, n);
    assert (h + 1) * n == h * n + n;
    DivBelow(h * n, W, n);
  }

  // Balance: each shard owns floor(2^64 / n) or one more of the ids of a kind.

  /** The least hash whose shard is s or later. */
  function Start(s: nat, n: nat): nat
    requires n > 0
  {
    (s * W + n - 1) / n
  }

  lemma StartBounds(h: nat, s: nat, n: nat)
    requires n > 0
    ensures s <= h * n / W <==> Start(s, n) <= h
  {
    DivBelow(h * n, W, s);
    DivBelow(s * W + n - 1, n, h + 1);
    assert s * W + n - 1 < (h + 1) * n <==> s * W <= h * n by { assert (h + 1) * n == h * n + n; }
  }

  lemma StartStep(s: nat, n: nat)
    requires n > 0
    ensures W / n <= Start(s + 1, n) - Start(s, n) <= (W + n - 1) / n
  {
    var a, b := Start(s, n), Start(s + 1, n);
    var x := s * W + n - 1;
    assert (s + 1) * W + n - 1 == x + W;
    assert x == a * n + x % n && x + W == b * n + (x + W) % n;
    assert (b - a) * n == W + x % n - (x + W) % n by { assert (b - a) * n == b * n - a * n; }
    DivBelow(W, n, b - a + 1);
    assert W < (b - a) * n + n;
    assert (b - a + 1) * n == (b - a) * n + n;
    DivBelow(W + n - 1, n, b - a);
  }

  function Interval(lo: int, hi: int): (r: set<int>)
    requires lo <= hi
    ensures forall h: int :: h in r <==> lo <= h < hi
    ensures |r| == hi - lo
    decreases hi - lo
  {
    if lo == hi then {} else Interval(lo, hi - 1) + {hi - 1}
  }

  /** The ids of a kind that shard s of n serves. */
  ghost function Owned(kind: nat, s: nat, n: nat): set<int> { set id: int | 0 <= id < W && ShardIndex(kind, id, n) == s }

  /** Two sets have the same size when two functions carry each into the other and back. */
  lemma {:induction false} SameSize(a: set<int>, b: set<int>, f: int -> int, g: int -> int)
    requires forall x: int :: x in a ==> f(x) in b && g(f(x)) == x
    requires forall y: int :: y in b ==> g(y) in a && f(g(y)) == y
    ensures |a| == |b|
    decreases |a|
  {
    if |a| == 0 {
      assert forall y: int :: y in b ==> g(y) in a;
      assert b == {};
    } else {
      var x := SomeMember(a);
      SameSize(a - {x}, b - {f(x)}, f, g);
    }
  }

  lemma ShardsAreBalanced(kind: nat, s: nat, n: nat)
    requires s < n
    ensures W / n <= |Owned(kind, s, n)| <= (W + n - 1) / n
  {
    StartStep(s, n);
    assert W / n >= 0;
    OwnedSize(kind, s, n);
  }

  lemma OwnedSize(kind: nat, s: nat, n: nat)
    requires s < n && Start(s, n) <= Start(s + 1, n)
    ensures |Owned(kind, s, n)| == Start(s + 1, n) - Start(s, n)
  {
    var hashes := Interval(Start(s, n), Start(s + 1, n));
    var f := (id: int) => if id < 0 then 0 else Hash(kind, id);
    var g := (h: int) => if h < 0 then 0 else Unhash(kind, h);
    LastStart(s, n);
    forall id: int | id in Owned(kind, s, n) ensures f(id) in hashes && g(f(id)) == id {
      HashIsBijective(kind, id);
      OwnedIsInterval(Hash(kind, id), s, n);
    }
    forall h: int | h in hashes ensures g(h) in Owned(kind, s, n) && f(g(h)) == h {
      HashIsBijective(kind, h);
      OwnedIsInterval(h, s, n);
    }
    SameSize(Owned(kind, s, n), hashes, f, g);
  }

  lemma OwnedIsInterval(h: nat, s: nat, n: nat)
    requires n > 0 && Start(s, n) <= Start(s + 1, n)
    ensures h * n / W == s <==> h in Interval(Start(s, n), Start(s + 1, n))
  {
    StartBounds(h, s, n);
    StartBounds(h, s + 1, n);
  }

  lemma LastStart(s: nat, n: nat)
    requires s < n
    ensures Start(s + 1, n) <= W
  {
    assert (s + 1) * W <= n * W by { assert (n - s - 1) * W >= 0; }
    DivBelow((s + 1) * W + n - 1, n, W + 1);
    assert (W + 1) * n == W * n + n;
  }
}
