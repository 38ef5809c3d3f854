/** 16.16 signed fixed-point arithmetic on 32-bit raw values (`fx`). */
module Fixed {
  newtype int32 = x: int | -0x8000_0000 <= x < 0x8000_0000

  /** A fixed-point number: raw value `v` stands for `v / 65536`. */
  datatype Fx = Fx(v: int32)

  const One: int := 0x1_0000

  predicate InInt32(v: int)
  {
    -0x8000_0000 <= v < 0x8000_0000
  }

  /** Conversion of an integer to `int32_t`: two's complement wrap-around. */
  function Wrap32(v: int): (r: int32)
    ensures InInt32(v) ==> r as int == v
    ensures (r as int - v) % 0x1_0000_0000 == 0
  {
    (((v + 0x8000_0000) % 0x1_0000_0000) - 0x8000_0000) as int32
  }

  function Abs(a: int): nat
  {
    if a < 0 then -a else a
  }

  /** C++ integer division: the quotient is truncated toward zero, so the
      remainder is smaller than the divisor and has the sign of the dividend. */
  function TruncDiv(n: int, d: int): (q: int)
    requires d != 0
    ensures Abs(n - q * d) < Abs(d)
    ensures n - q * d == 0 || (n - q * d < 0 <==> n < 0)
  {
    var q0 := Abs(n) / Abs(d);
    TruncDivRemainder(n, d, q0);
    if (n < 0) != (d < 0) then -q0 else q0
  }

  lemma TruncDivRemainder(n: int, d: int, q0: int)
    requires d != 0 && q0 == Abs(n) / Abs(d)
    ensures var q := if (n < 0) != (d < 0) then -q0 else q0;
      n - q * d == (if n < 0 then -(Abs(n) % Abs(d)) else Abs(n) % Abs(d))
  {
    var a: int, b: int, r0 := Abs(n), Abs(d), Abs(n) % Abs(d);
    assert a == q0 * b + r0;
    var q := if (n < 0) != (d < 0) then -q0 else q0;
    if d < 0 {
      assert d == -b;
      if n < 0 { assert q * d == -(q0 * b); } else { assert q * d == (-q0) * (-b) == q0 * b; }
    } else {
      assert d == b;
      if n < 0 { assert q * d == (-q0) * b == -(q0 * b); } else { assert q * d == q0 * b; }
    }
  }

  /** `a + b`; exact, since signed overflow is excluded. */
  function Add(a: Fx, b: Fx): (r: Fx)
    requires InInt32(a.v as int + b.v as int)
    ensures r.v as int == a.v as int + b.v as int
  {
    Fx(a.v + b.v)
  }

  /** `a - b`; exact, since signed overflow is excluded. */
  function Sub(a: Fx, b: Fx): (r: Fx)
    requires InInt32(a.v as int - b.v as int)
    ensures r.v as int == a.v as int - b.v as int
  {
    Fx(a.v - b.v)
  }

  /** Addition and subtraction undo each other. */
  lemma AddSubInverse(a: Fx, b: Fx)
    requires InInt32(a.v as int + b.v as int)
    ensures Sub(Add(a, b), b) == a
  {
  }

  /** `a * b`: the 64-bit product shifted right by 16 (floor), truncated to 32 bits. */
  function Mul(a: Fx, b: Fx): (r: Fx)
    ensures b.v as int == One ==> r == a
    ensures InInt32((a.v as int * b.v as int) / One) ==>
              r.v as int * One <= a.v as int * b.v as int < (r.v as int + 1) * One
  {
    Fx(Wrap32((a.v as int * b.v as int) / One))
  }

  /** `a / b`: the raw value shifted left by 16, divided (truncating), truncated to 32 bits. */
  function Div(a: Fx, b: Fx): (r: Fx)
    requires b.v != 0
    ensures b.v as int == One ==> r == a
    ensures InInt32(TruncDiv(a.v as int * One, b.v as int)) ==>
              Abs(a.v as int * One - r.v as int * b.v as int) < Abs(b.v as int)
  {
    Fx(Wrap32(TruncDiv(a.v as int * One, b.v as int)))
  }

  /** `fx_from_int(i)`: `i << 16`, exact for |i| < 2^15. */
  function FromInt(i: int32): (r: Fx)
    ensures -0x8000 <= i < 0x8000 ==> r.v as int == i as int * One
  {
    Fx(Wrap32(i as int * One))
  }

  /** `fx_floor_to_int(a)`: arithmetic shift right by 16, i.e. floor division by 65536. */
  function FloorToInt(a: Fx): (r: int32)
    ensures r as int * One <= a.v as int < (r as int + 1) * One
  {
    (a.v as int / One) as int32
  }

  /** `fx_from_int(1)` is the fixed-point one. */
  lemma FromIntOne()
    ensures FromInt(1).v as int == One
  {
  }

  /** Converting a small integer to fixed point and flooring returns it. */
  lemma FloorFromInt(i: int32)
    requires -0x8000 <= i < 0x8000
    ensures FloorToInt(FromInt(i)) == i
  {
  }

  /** Multiplying or dividing by fixed-point one is the identity. */
  lemma MulDivByOne(a: Fx)
    ensures Mul(a, FromInt(1)) == a
    ensures Div(a, FromInt(1)) == a
  {
    FromIntOne();
  }
}
