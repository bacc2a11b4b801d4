/** Machine words: bytes, fixed-width unsigned integers, wrap-around arithmetic and
    little-endian layout, as the x86-64 program sees them. */
module Words {
  const TWO16: int := 0x1_0000
  const TWO32: int := 0x1_0000_0000
  const TWO64: int := 0x1_0000_0000_0000_0000

  type byte = x: int | 0 <= x < 0x100
  type u16 = x: int | 0 <= x < 0x1_0000
  type u32 = x: int | 0 <= x < 0x1_0000_0000
  type u64 = x: int | 0 <= x < 0x1_0000_0000_0000_0000

  /** 64-bit addition and subtraction, which wrap around. */
  function Add64(x: u64, y: u64): u64 {
    if x + y < TWO64 then x + y else x + y - TWO64
  }

  function Sub64(x: u64, y: u64): u64 {
    if x >= y then x - y else x - y + TWO64
  }

  /** Counters may be compared by distance although they wrap. */
  lemma Distances(x: u64, y: u64, z: u64)
    ensures Add64(x, Sub64(y, x)) == y && Sub64(Add64(x, y), x) == y && Sub64(x, x) == 0
    ensures Sub64(y, x) <= Sub64(z, x) ==> Sub64(z, y) == Sub64(z, x) - Sub64(y, x)
    ensures Sub64(x, y) == 0 <==> x == y
  {
  }

  lemma DistanceAfter(head: u64, position: u64, n: nat)
    requires n <= Sub64(head, position)
    ensures Sub64(head, Add64(position, n)) == Sub64(head, position) - n
  {
  }

  lemma PositionOfFree(head: u64, tail: u64, k: nat)
    requires Sub64(head, tail) + k < TWO64
    ensures Add64(tail, Sub64(head, tail) + k) == Add64(head, k)
  {
  }

  lemma Add64Assoc(x: u64, y: u64, z: u64)
    requires y + z < TWO64
    ensures Add64(Add64(x, y), z) == Add64(x, y + z)
  {
  }

  /** What 64 bits keep of a sum: x modulo 2^64, in a form that needs no division. */
  function Wrap(x: nat): u64
    decreases x
  {
    if x < TWO64 then x else Wrap(x - TWO64)
  }

  lemma {:induction false} WrapAdd(x: nat, y: u64)
    ensures Add64(Wrap(x), y) == Wrap(x + y)
    decreases x
  {
    if x >= TWO64 {
      WrapAdd(x - TWO64, y);
    }
  }

  lemma {:induction false} WrapIsMod(x: nat)
    ensures Wrap(x) == x % TWO64
    decreases x
  {
    if x >= TWO64 {
      WrapIsMod(x - TWO64);
      ModAddMultiple(x - TWO64, 1, TWO64);
    }
  }

  lemma NonzeroMultiple(d: int, m: int)
    requires m > 0
    ensures d > 0 ==> d * m >= m
    ensures d < 0 ==> d * m <= -m
  {
  }

  lemma ModAddMultiple(x: int, q: int, m: int)
    requires m > 0
    ensures (x + q * m) % m == x % m
  {
    assert (x + q * m) / m * m + (x + q * m) % m == x / m * m + x % m + q * m;
    var d := (x + q * m) / m - x / m - q;
    assert d * m == x % m - (x + q * m) % m;
    NonzeroMultiple(d, m);
  }

  // ----- slots of a circular buffer

  /** The slot of position `x` in a circular buffer of `m` slots: x % m, in a form that
      needs no nonlinear arithmetic. */
  function Slot(x: nat, m: nat): (slot: nat)
    requires m > 0
    ensures slot < m
    decreases x
  {
    if x < m then x else Slot(x - m, m)
  }

  lemma {:induction false} SlotIsMod(x: nat, m: nat)
    requires m > 0
    ensures Slot(x, m) == x % m
    decreases x
  {
    if x >= m {
      SlotIsMod(x - m, m);
      ModAddMultiple(x - m, 1, m);
    }
  }

  /** Consecutive positions take consecutive slots up to the end of the buffer. */
  lemma {:induction false} SlotAdvance(x: nat, i: nat, m: nat)
    requires m > 0 && Slot(x, m) + i <= m
    ensures Slot(x + i, m) == if Slot(x, m) + i == m then 0 else Slot(x, m) + i
    decreases x
  {
    if x >= m {
      SlotAdvance(x - m, i, m);
    }
  }

  /** Two positions of a window no longer than the buffer never share a slot. */
  lemma {:induction false} SlotInjective(x: nat, y: nat, m: nat)
    requires m > 0 && x < y < x + m
    ensures Slot(x, m) != Slot(y, m)
    decreases x
  {
    if x >= m {
      SlotInjective(x - m, y - m, m);
    }
  }

  lemma {:induction false} SlotSkipsTurns(x: nat, q: nat, m: nat)
    requires m > 0
    ensures q * m >= 0 && Slot(x + q * m, m) == Slot(x, m)
    decreases q
  {
    if q > 0 {
      SlotSkipsTurns(x, q - 1, m);
      assert x + q * m - m == x + (q - 1) * m;
      NonzeroMultiple(q, m);
    }
  }

  /** The buffer sizes a wrapping 64-bit counter indexes like an unbounded one. */
  predicate DividesCounter(m: nat)
    requires m > 0
  {
    TWO64 % m == 0
  }

  lemma SlotOfSum(x: u64, y: u64, i: nat, m: nat)
    requires m > 0 && DividesCounter(m)
    ensures Slot(Add64(x, y) + i, m) == Slot(x + y + i, m)
  {
    if x + y >= TWO64 {
      SlotAddCounter(x + y - TWO64 + i, m);
    }
  }

  lemma SlotAddCounter(x: nat, m: nat)
    requires m > 0 && DividesCounter(m)
    ensures Slot(x + TWO64, m) == Slot(x, m)
  {
    assert TWO64 / m * m == TWO64;
    SlotSkipsTurns(x, TWO64 / m, m);
  }

  // ----- little-endian words

  function Pow256(k: nat): (p: nat)
    ensures p > 0
  {
    if k == 0 then 1 else 0x100 * Pow256(k - 1)
  }

  function FromLE(bytes: seq<byte>): (n: nat)
    ensures n < Pow256(|bytes|)
  {
    if bytes == [] then 0 else bytes[0] + 0x100 * FromLE(bytes[1..])
  }

  function ToLE(n: nat, width: nat): (bytes: seq<byte>)
    ensures |bytes| == width
  {
    if width == 0 then [] else [n % 0x100] + ToLE(n / 0x100, width - 1)
  }

  lemma {:induction false} FromLEOfToLE(n: nat, width: nat)
    requires n < Pow256(width)
    ensures FromLE(ToLE(n, width)) == n
  {
    if width > 0 {
      FromLEOfToLE(n / 0x100, width - 1);
      assert ToLE(n, width)[1..] == ToLE(n / 0x100, width - 1);
    }
  }

  lemma {:induction false} ToLEOfFromLE(bytes: seq<byte>)
    ensures ToLE(FromLE(bytes), |bytes|) == bytes
  {
    if bytes != [] {
      ToLEOfFromLE(bytes[1..]);
      assert FromLE(bytes) / 0x100 == FromLE(bytes[1..]);
    }
  }

  lemma WordWidths()
    ensures Pow256(2) == TWO16 && Pow256(4) == TWO32 && Pow256(8) == TWO64
  {
    assert Pow256(1) == 0x100;
    assert Pow256(3) == 0x100 * Pow256(2);
    assert Pow256(5) == 0x100 * Pow256(4);
    assert Pow256(6) == 0x100 * Pow256(5);
    assert Pow256(7) == 0x100 * Pow256(6);
  }
}
