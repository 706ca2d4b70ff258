/** The 32-bit and 64-bit words of the static queue, and how they stand for
    unbounded counts.  Every counter of the queue is a `u32` that wraps; the
    machine and the class both keep the unbounded count beside it and use the
    lemmas here to show that the code's wrapped comparisons decide exactly what
    the unbounded counts say. */
module Words {
  const WORD: int := 0x1_0000_0000
  newtype u32 = x: int | 0 <= x < 0x1_0000_0000
  newtype u64 = x: int | 0 <= x < 0x1_0000_0000_0000_0000

  /** The low 32 bits of an unbounded count. */
  function Low(x: int): u32 { (x % WORD) as u32 }

  function WrappingAdd(a: u32, b: u32): u32 { ((a as int + b as int) % WORD) as u32 }

  function WrappingSub(a: u32, b: u32): u32 { ((a as int - b as int) % WORD) as u32 }

  /** Bitwise `&` and `|`, one bit at a time. */
  function BitAnd(a: nat, b: nat): nat {
    if a == 0 || b == 0 then 0 else 2 * BitAnd(a / 2, b / 2) + (a % 2) * (b % 2)
  }

  function BitOr(a: nat, b: nat): nat {
    if a == 0 then b else if b == 0 then a
    else 2 * BitOr(a / 2, b / 2) + (if a % 2 == 1 || b % 2 == 1 then 1 else 0)
  }

  function Pow2(k: nat): (p: nat)
    ensures p > 0
  {
    if k == 0 then 1 else 2 * Pow2(k - 1)
  }

  ghost predicate IsPowerOfTwo(n: int) { exists k: nat :: n == Pow2(k) }

  // ----- the packed word -----

  /** `((v1 as u64) << 32) | v2 as u64` */
  function Pack(v1: u32, v2: u32): u64 {
    PackFits(v1, v2);
    BitOr(v1 as nat * WORD, v2 as nat) as u64
  }

  /** `((v >> 32) as u32, v as u32)` */
  function Unpack(v: u64): (u32, u32) {
    ((v as int / WORD) as u32, (v as int % WORD) as u32)
  }

  /** A shifted word and a word below the shift have no bit in common. */
  lemma {:induction false} OrDisjoint(k: nat, hi: nat, lo: nat)
    requires lo < Pow2(k)
    ensures BitOr(hi * Pow2(k), lo) == hi * Pow2(k) + lo
  {
    if k == 0 || hi == 0 || lo == 0 {
      assert k == 0 ==> lo == 0;
    } else {
      var a, p := hi * Pow2(k), Pow2(k - 1);
      DoubleProduct(hi, p);
      assert hi * p > 0;
      assert lo / 2 < p;
      OrDisjoint(k - 1, hi, lo / 2);
      assert a / 2 == hi * p && a % 2 == 0;
    }
  }

  lemma Pow2At32()
    ensures Pow2(32) == WORD
  {
    assert Pow2(8) == 256;
    assert Pow2(16) == 65536;
    assert Pow2(24) == 16777216;
  }

  lemma PackFits(v1: u32, v2: u32)
    ensures BitOr(v1 as nat * WORD, v2 as nat) == v1 as nat * WORD + v2 as nat < 0x1_0000_0000_0000_0000
  {
    Pow2At32();
    OrDisjoint(32, v1 as nat, v2 as nat);
  }

  /** The two halves survive the packed word, so comparing packed words
      compares both halves: this is what one compare-and-swap relies on. */
  lemma PackRoundTrip(v1: u32, v2: u32, w1: u32, w2: u32)
    ensures Unpack(Pack(v1, v2)) == (v1, v2)
    ensures Pack(v1, v2) == Pack(w1, w2) <==> v1 == w1 && v2 == w2
  {
    UnpackPack(v1, v2);
    UnpackPack(w1, w2);
  }

  lemma UnpackPack(v1: u32, v2: u32)
    ensures Unpack(Pack(v1, v2)) == (v1, v2)
  {
    PackFits(v1, v2);
  }

  lemma UnpackRoundTrip(v: u64)
    ensures Pack(Unpack(v).0, Unpack(v).1) == v
  {
    PackFits(Unpack(v).0, Unpack(v).1);
  }

  // ----- wrapped counters -----

  /** Counts less than a full wrap apart are told apart by their low words. */
  lemma LowExact(x: int, y: int)
    requires -WORD < x - y < WORD
    ensures Low(x) == Low(y) <==> x == y
  {
  }

  /** A wrapped difference is the true difference, across the wrap, whenever
      the true difference fits in a word. */
  lemma SubExact(x: int, y: int)
    ensures WrappingSub(Low(x), Low(y)) == Low(x - y)
    ensures 0 <= x - y < WORD ==> WrappingSub(Low(x), Low(y)) as int == x - y
  {
  }

  lemma AddExact(x: int, y: int)
    ensures WrappingAdd(Low(x), Low(y)) == Low(x + y)
  {
  }

  /** Adding or subtracting a word, wherever the counter wraps. */
  lemma AddWord(x: int, k: u32)
    ensures WrappingAdd(Low(x), k) == Low(x + k as int)
    ensures WrappingSub(Low(x), k) == Low(x - k as int)
  {
  }

  // ----- ring slots -----

  /** The slot of a position in a ring of n. */
  function Slot(i: int, n: int): (s: int)
    requires n > 0
    ensures 0 <= s < n
  {
    i % n
  }

  lemma MulStep(a: int, b: int, n: int)
    requires n > 0
    ensures a < b ==> a * n + n <= b * n
  {
    if a < b {
      var d := b - a - 1;
      assert b * n == a * n + n + d * n by {
        assert b == a + 1 + d;
        assert (a + 1 + d) * n == a * n + n + d * n;
      }
      assert d * n >= 0 by { ProductSign(d, n); }
    }
  }

  lemma ProductSign(a: nat, b: nat)
    ensures a * b >= 0
  {
  }

  lemma DivisionUnique(n: int, q: int, r: int, q': int, r': int)
    requires 0 <= r < n && 0 <= r' < n && q * n + r == q' * n + r'
    ensures q == q' && r == r'
  {
    MulStep(q, q', n);
    MulStep(q', q, n);
  }

  lemma ModUnique(x: int, n: int, q: int, r: int)
    requires 0 <= r < n && x == q * n + r
    ensures x % n == r && x / n == q
  {
    DivisionUnique(n, q, r, x / n, x % n);
  }

  /** Positions less than a ring apart have different slots. */
  lemma SlotsDiffer(i: int, j: int, n: int)
    requires n > 0 && i < j < i + n
    ensures Slot(i, n) != Slot(j, n)
  {
    MulStep(i / n, j / n, n);
    MulStep(j / n, i / n, n);
    assert i == (i / n) * n + i % n && j == (j / n) * n + j % n;
  }

  lemma DoubleProduct(a: int, b: int)
    ensures a * (2 * b) == 2 * (a * b)
  {
  }

  lemma HalfMod(p: nat, h: int)
    requires h > 0
    ensures p % (2 * h) == 2 * (p / 2 % h) + p % 2
  {
    var q, r := p / 2 / h, p / 2 % h;
    assert p / 2 == q * h + r;
    DoubleProduct(q, h);
    ModUnique(p, 2 * h, q, 2 * r + p % 2);
  }

  /** `position & (n - 1)` is the remainder by a power of two. */
  lemma {:induction false} MaskIsMod(k: nat, p: nat)
    ensures BitAnd(p, Pow2(k) - 1) == p % Pow2(k)
  {
    var n := Pow2(k);
    if k == 0 || p == 0 {
      if p == 0 { ModUnique(0, n, 0, 0); }
    } else {
      var h := Pow2(k - 1);
      assert n == 2 * h && (n - 1) / 2 == h - 1 && (n - 1) % 2 == 1;
      MaskIsMod(k - 1, p / 2);
      HalfMod(p, h);
    }
  }

  lemma {:induction false} Pow2Divides(k: nat, m: nat) returns (c: nat)
    requires k <= m
    ensures Pow2(m) == Pow2(k) * c
  {
    if k == m {
      c := 1;
    } else {
      var d := Pow2Divides(k, m - 1);
      c := 2 * d;
      assert Pow2(m) == 2 * (Pow2(k) * d) == Pow2(k) * (2 * d);
    }
  }

  lemma {:induction false} Pow2Monotone(k: nat, m: nat)
    requires k < m
    ensures Pow2(k) < Pow2(m)
  {
    if k + 1 < m { Pow2Monotone(k, m - 1); }
  }

  lemma ModOfMod(i: int, n: int, c: int)
    requires n > 0 && n * c == WORD
    ensures (i % WORD) % n == i % n
  {
    var w, t := i % WORD, i / WORD;
    var q, r := w / n, w % n;
    assert i == t * (n * c) + w && w == n * q + r;
    assert t * (n * c) == (t * c) * n;
    assert (t * c + q) * n == (t * c) * n + q * n;
    ModUnique(i, n, t * c + q, r);
  }

  /** The code masks a wrapped position; that is the slot of the unbounded
      position, because a ring size of at most 2^31 divides 2^32. */
  lemma MaskedSlot(i: int, n: int)
    requires IsPowerOfTwo(n) && n < WORD
    ensures BitAnd(Low(i) as nat, n - 1) == Slot(i, n)
  {
    var k: nat :| n == Pow2(k);
    Pow2At32();
    if k >= 32 {
      if k > 32 { Pow2Monotone(32, k); }
      assert false;
    }
    var c := Pow2Divides(k, 32);
    MaskIsMod(k, Low(i) as nat);
    ModOfMod(i, n, c);
  }

  /** Masked positions are distinct over any n consecutive positions, also
      where the 32-bit counter wraps in between. */
  lemma MaskedSlotsDiffer(i: int, j: int, n: int)
    requires IsPowerOfTwo(n) && n < WORD && i < j < i + n
    ensures BitAnd(Low(i) as nat, n - 1) != BitAnd(Low(j) as nat, n - 1)
  {
    MaskedSlot(i, n);
    MaskedSlot(j, n);
    SlotsDiffer(i, j, n);
  }
}
