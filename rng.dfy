/** The xorshift32 generator (`RNG`): a 32-bit state updated by three
    shift-and-xor steps. */
module Random {

  /** `uint32_t` as an integer range (the argument and result of `next_range`). */
  newtype uint32 = x: int | 0 <= x < 0x1_0000_0000

  function Shift13(x: bv32): (r: bv32)
    ensures x != 0 ==> r != 0
  {
    x ^ (x << 13)
  }

  function Shift17(x: bv32): (r: bv32)
    ensures x != 0 ==> r != 0
  {
    x ^ (x >> 17)
  }

  function Shift5(x: bv32): (r: bv32)
    ensures x != 0 ==> r != 0
  {
    x ^ (x << 5)
  }

  /** One xorshift32 step; each of its three steps is invertible, so a
      non-zero state never maps to zero. */
  function XorShift(x: bv32): (r: bv32)
    ensures x != 0 ==> r != 0
  {
    Shift5(Shift17(Shift13(x)))
  }

  /** The state the constructor starts from: a zero seed is replaced by 1. */
  function InitialState(seed: bv32): (s: bv32)
    ensures s != 0
    ensures seed != 0 ==> s == seed
  {
    if seed == 0 then 1 else seed
  }

  /** The first n values `next` returns after seeding with `seed`, and the
      state left behind: a function of the seed alone. */
  function Outputs(seed: bv32, n: nat): (r: (seq<bv32>, bv32))
    ensures |r.0| == n
    ensures r.1 != 0
    ensures forall k :: 0 <= k < n ==> r.0[k] != 0
    ensures n > 0 ==> r.1 == r.0[n - 1]
  {
    if n == 0 then ([], InitialState(seed))
    else
      var (prev, s) := Outputs(seed, n - 1);
      var x := XorShift(s);
      (prev + [x], x)
  }

  class Rng {
    var s: bv32

    ghost predicate Valid()
      reads this
    {
      s != 0
    }

    /** `RNG(seed)`. */
    constructor (seed: bv32)
      ensures Valid()
      ensures s == InitialState(seed)
    {
      s := if seed != 0 then seed else 1;
    }

    /** `next`: advances the state and returns the new state. */
    method Next() returns (r: bv32)
      requires Valid()
      modifies this
      ensures Valid()
      ensures r == XorShift(old(s)) && s == r
    {
      var x := s;
      x := Shift13(x);   // x ^= x << 13
      x := Shift17(x);   // x ^= x >> 17
      x := Shift5(x);    // x ^= x << 5
      s := x;
      r := x;
    }

    /** `next_range(n)`: 0 without touching the state when n is 0, otherwise
        the next value reduced (unsigned) modulo n. */
    method NextRange(n: uint32) returns (r: uint32)
      requires Valid()
      modifies this
      ensures Valid()
      ensures n == 0 ==> r == 0 && s == old(s)
      ensures n != 0 ==> s == XorShift(old(s)) && r as int == s as int % n as int && r < n
    {
      if n == 0 {
        r := 0;
      } else {
        var x := Next();
        r := (x as int % n as int) as uint32;
      }
    }
  }

  /** Seeds a fresh generator and draws n values from it: the draws are
      exactly `Outputs(seed, n)`, hence determined by the seed. */
  method Draw(seed: bv32, n: nat) returns (xs: seq<bv32>)
    ensures xs == Outputs(seed, n).0
  {
    var g := new Rng(seed);
    xs := [];
    var k := 0;
    while k < n
      invariant 0 <= k <= n
      invariant g.Valid()
      invariant (xs, g.s) == Outputs(seed, k)
    {
      var x := g.Next();
      xs := xs + [x];
      k := k + 1;
    }
  }
}
