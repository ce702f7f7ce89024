// The game's random number generator: xorshift32 with the shift triple
// (13, 7, 5) on a 32-bit state seeded with 1, and RANDN(n), which maps one
// draw into 0 .. n-1 either by remainder (when n is a compile-time
// constant) or by the high half of the 64-bit product draw * n.

module Random {

  const Seed: bv32 := 1

  const TwoTo32: int := 0x1_0000_0000

  // The three shift-xor stages of one step.
  function StageLeft13(x: bv32): bv32 { x ^ (x << 13) }
  function StageRight7(x: bv32): bv32 { x ^ (x >> 7) }
  function StageLeft5(x: bv32): bv32 { x ^ (x << 5) }

  /** One xorshift32 step.  Every state is recovered from its successor by
      Unxorshift32 (below), so the step never maps two states to one. */
  function Xorshift32(x: bv32): (y: bv32)
    ensures Unxorshift32(y) == x
  {
    var a := StageLeft13(x);
    var b := StageRight7(a);
    StagesUndone(b);
    StagesUndone(a);
    StagesUndone(x);
    StageLeft5(b)
  }

  // Each stage v ^ (v << k) (or >> k) is undone by applying the same kind of
  // stage with shifts k, 2k, 4k, ... until the shift reaches 32, because
  // applying a stage with shift k twice is the stage with shift 2k.

  lemma TwiceLeft5(v: bv32)
    ensures var w := v ^ (v << 5); w ^ (w << 5) == v ^ (v << 10)
  {
  }

  lemma TwiceLeft10(v: bv32)
    ensures var w := v ^ (v << 10); w ^ (w << 10) == v ^ (v << 20)
  {
  }

  lemma TwiceLeft20(v: bv32)
    ensures var w := v ^ (v << 20); w ^ (w << 20) == v
  {
  }

  lemma TwiceLeft13(v: bv32)
    ensures var w := v ^ (v << 13); w ^ (w << 13) == v ^ (v << 26)
  {
  }

  lemma TwiceLeft26(v: bv32)
    ensures var w := v ^ (v << 26); w ^ (w << 26) == v
  {
  }

  lemma TwiceRight7(v: bv32)
    ensures var w := v ^ (v >> 7); w ^ (w >> 7) == v ^ (v >> 14)
  {
  }

  lemma TwiceRight14(v: bv32)
    ensures var w := v ^ (v >> 14); w ^ (w >> 14) == v ^ (v >> 28)
  {
  }

  lemma TwiceRight28(v: bv32)
    ensures var w := v ^ (v >> 28); w ^ (w >> 28) == v
  {
  }

  /** Undo y := x ^ (x << 13). */
  function UndoLeft13(y: bv32): bv32 {
    var a := y ^ (y << 13);
    a ^ (a << 26)
  }

  /** Undo y := x ^ (x >> 7). */
  function UndoRight7(y: bv32): bv32 {
    var a := y ^ (y >> 7);
    var b := a ^ (a >> 14);
    b ^ (b >> 28)
  }

  /** Undo y := x ^ (x << 5). */
  function UndoLeft5(y: bv32): bv32 {
    var a := y ^ (y << 5);
    var b := a ^ (a << 10);
    b ^ (b << 20)
  }

  lemma UndoLeft13Inverts(x: bv32)
    ensures UndoLeft13(x ^ (x << 13)) == x
  {
    TwiceLeft13(x);
    TwiceLeft26(x);
  }

  lemma UndoRight7Inverts(x: bv32)
    ensures UndoRight7(x ^ (x >> 7)) == x
  {
    TwiceRight7(x);
    TwiceRight14(x);
    TwiceRight28(x);
  }

  lemma UndoLeft5Inverts(x: bv32)
    ensures UndoLeft5(x ^ (x << 5)) == x
  {
    TwiceLeft5(x);
    TwiceLeft10(x);
    TwiceLeft20(x);
  }

  lemma StagesUndone(x: bv32)
    ensures UndoLeft13(StageLeft13(x)) == x
    ensures UndoRight7(StageRight7(x)) == x
    ensures UndoLeft5(StageLeft5(x)) == x
  {
    UndoLeft13Inverts(x);
    UndoRight7Inverts(x);
    UndoLeft5Inverts(x);
  }

  /** The inverse of one xorshift32 step: the stages undone in reverse
      order. */
  function Unxorshift32(y: bv32): bv32 {
    UndoLeft13(UndoRight7(UndoLeft5(y)))
  }

  lemma XorshiftInjective(x: bv32, z: bv32)
    ensures Xorshift32(x) == Xorshift32(z) ==> x == z
  {
  }

  /** Zero is a fixed point and no other state reaches it, so a nonzero
      seed never produces the all-zero state. */
  lemma XorshiftZeroIffZero(x: bv32)
    ensures Xorshift32(x) == 0 <==> x == 0
  {
    XorshiftInjective(x, 0);
  }

  /** k steps from x. */
  function Iterate(x: bv32, k: nat): bv32
    decreases k
  {
    if k == 0 then x else Xorshift32(Iterate(x, k - 1))
  }

  lemma {:induction false} IterateNonZero(x: bv32, k: nat)
    requires x != 0
    ensures Iterate(x, k) != 0
    decreases k
  {
    if k > 0 {
      IterateNonZero(x, k - 1);
      XorshiftZeroIffZero(Iterate(x, k - 1));
    }
  }

  /** The first draws from the seed. */
  lemma FirstDraws()
    ensures Iterate(Seed, 1) == 272481
    ensures Iterate(Seed, 2) == 71374417
  {
  }

  /** RANDN's mapping of a draw x into 0 .. n-1: the remainder when n is a
      compile-time constant, otherwise the upper 32 bits of the 64-bit
      product x * n.  Both branches land in 0 .. n-1 for n > 0, and the
      product branch yields 0 for n == 0. */
  function RandNFrom(x: bv32, n: bv32, nIsConstant: bool): (r: nat)
    requires nIsConstant ==> n != 0
    ensures n != 0 ==> r < n as int
    ensures n == 0 ==> r == 0
  {
    var xi, ni := x as int, n as int;
    if nIsConstant then
      xi % ni
    else
      HighHalfBoundInt(xi, ni);
      (xi * ni) / TwoTo32
  }

  lemma MulStrictBound(a: int, a1: int, b: int, b1: int)
    requires 0 <= a < a1 && 0 <= b < b1
    ensures 0 <= a * b < a1 * b1
  {
    assert a * b <= a1 * b;
    assert a1 * b < a1 * b1;
  }

  /** The 64-bit product in RANDN never wraps. */
  lemma ProductFits64(x: bv32, n: bv32)
    ensures 0 <= (x as int) * (n as int) < TwoTo32 * TwoTo32
  {
    MulStrictBound(x as int, TwoTo32, n as int, TwoTo32);
  }

  lemma HighHalfBoundInt(x: int, n: int)
    requires 0 <= x < 0x1_0000_0000 && 0 <= n
    ensures 0 <= (x * n) / 0x1_0000_0000 <= n
    ensures n != 0 ==> (x * n) / 0x1_0000_0000 < n
  {
    assert x * n <= 0x1_0000_0000 * n;
    if n != 0 {
      assert x * n < 0x1_0000_0000 * n;
    }
  }

  /** The upper half of the product draw * n is at most n, and below n when
      n is nonzero. */
  lemma HighHalfBound(x: bv32, n: bv32)
    ensures 0 <= ((x as int) * (n as int)) / TwoTo32 <= n as int
    ensures n != 0 ==> ((x as int) * (n as int)) / TwoTo32 < n as int
  {
    HighHalfBoundInt(x as int, n as int);
  }

  /** The generator's state (rand_state) and its draws. */
  class Rng {
    var state: bv32

    ghost predicate Valid()
      reads this
    {
      state != 0
    }

    constructor ()
      ensures state == Seed && Valid()
    {
      state := Seed;
    }

    /** rand(): one step; the new state is also the draw. */
    method Rand() returns (r: bv32)
      requires Valid()
      modifies this
      ensures r == Xorshift32(old(state)) && state == r
      ensures Valid()
    {
      var x := state;
      x := StageLeft13(x);
      x := StageRight7(x);
      x := StageLeft5(x);
      state := x;
      r := x;
      XorshiftZeroIffZero(old(state));
    }

    /** RANDN(n). */
    method RandN(n: bv32, nIsConstant: bool) returns (r: nat)
      requires Valid() && (nIsConstant ==> n != 0)
      modifies this
      ensures state == Xorshift32(old(state)) && Valid()
      ensures r == RandNFrom(state, n, nIsConstant)
      ensures n != 0 ==> r < n as int
    {
      var x := Rand();
      if nIsConstant {
        r := (x as int) % (n as int);
      } else {
        HighHalfBound(x, n);
        r := ((x as int) * (n as int)) / TwoTo32;
      }
    }
  }
}
