/** Fixed-width integers of Go as subsets of `int`, the conversions between
    them (which keep the low bits, two's complement), and the small numeric
    helpers the charging function uses: `min`, integer powers of ten and the
    decimal rendering of `strconv.Itoa`. */
module MachineInts {

  const TWO_31: int := 0x8000_0000
  const TWO_32: int := 0x1_0000_0000
  const TWO_63: int := 0x8000_0000_0000_0000
  const TWO_64: int := 0x1_0000_0000_0000_0000

  type UInt32 = x: int | 0 <= x < 0x1_0000_0000
  type Int32 = x: int | -0x8000_0000 <= x < 0x8000_0000
  type UInt64 = x: int | 0 <= x < 0x1_0000_0000_0000_0000
  type Int64 = x: int | -0x8000_0000_0000_0000 <= x < 0x8000_0000_0000_0000

  /** `uint32(x)`, or the result of a `uint32` operation whose exact value is x. */
  function ToUInt32(x: int): (r: UInt32)
    ensures 0 <= x < TWO_32 ==> r == x
  {
    x % TWO_32
  }

  /** `int32(x)`: the low 32 bits read as a signed value. */
  function ToInt32(x: int): (r: Int32)
    ensures -TWO_31 <= x < TWO_31 ==> r == x
  {
    var m := x % TWO_32;
    if m < TWO_31 then m else m - TWO_32
  }

  /** `uint64(x)`, or the result of a `uint64` operation whose exact value is x. */
  function ToUInt64(x: int): (r: UInt64)
    ensures 0 <= x < TWO_64 ==> r == x
  {
    x % TWO_64
  }

  /** `int64(x)`, or the result of an `int64` operation whose exact value is x. */
  function ToInt64(x: int): (r: Int64)
    ensures -TWO_63 <= x < TWO_63 ==> r == x
  {
    var m := x % TWO_64;
    if m < TWO_63 then m else m - TWO_64
  }

  /** `a * b` computed in `uint32`. */
  function MulUInt32(a: UInt32, b: UInt32): (r: UInt32)
    ensures a * b < TWO_32 ==> r == a * b
  {
    ToUInt32(a * b)
  }

  /** Two values that differ by a multiple of 2^64 are the same `int64`. */
  lemma ToInt64Congruent(x: int, y: int)
    requires (x - y) % TWO_64 == 0
    ensures ToInt64(x) == ToInt64(y)
  {
    var k := (x - y) / TWO_64;
    assert x == y + k * TWO_64;
  }

  /** Two values that differ by a multiple of 2^32 are the same `uint32`. */
  lemma ToUInt32Congruent(x: int, y: int)
    requires (x - y) % TWO_32 == 0
    ensures ToUInt32(x) == ToUInt32(y)
  {
    var k := (x - y) / TWO_32;
    assert x == y + k * TWO_32;
  }

  /** Adding to an `int64` that was already wrapped gives the same `int64`
      as adding to the exact value: `a += int64(b)` wraps once. */
  lemma {:induction false} ToInt64OfSum(a: int, b: int)
    ensures ToInt64(a + ToInt64(b)) == ToInt64(a + b)
  {
    ToInt64Congruent(a + ToInt64(b), a + b);
  }

  /** Accumulating into a `uint32` that was already wrapped gives the same
      `uint32` as accumulating the exact values. */
  lemma {:induction false} ToUInt32OfSum(a: int, b: int)
    ensures ToUInt32(ToUInt32(a) + b) == ToUInt32(a + b)
  {
    ToUInt32Congruent(ToUInt32(a) + b, a + b);
  }

  /** The generic `min` of the source, at integers. */
  function Min(a: int, b: int): (r: int)
    ensures r <= a && r <= b
    ensures r == a || r == b
  {
    if a < b then a else b
  }

  function Pow10(e: nat): (r: nat)
    ensures r >= 1
    ensures e >= 1 ==> r >= 10
  {
    if e == 0 then 1 else 10 * Pow10(e - 1)
  }

  lemma {:induction false} Pow10Monotone(e: nat, f: nat)
    requires e <= f
    ensures Pow10(e) <= Pow10(f)
  {
    if e < f {
      Pow10Monotone(e, f - 1);
    }
  }

  /** Exponents of a unit cost that `uint32(math.Pow10(e))` converts without
      leaving the range of `uint32`; above 9 the Go conversion is
      implementation-defined. */
  type Exponent = e: int | -0x8000_0000 <= e <= 9

  /** `uint32(math.Pow10(e))`: a negative exponent gives a fraction that the
      conversion truncates to 0. */
  function Pow10Truncated(e: Exponent): (r: UInt32)
    ensures e < 0 ==> r == 0
    ensures e >= 0 ==> r == Pow10(e)
  {
    if e < 0 then 0
    else
      Pow10Monotone(e, 9);
      assert Pow10(9) == 1_000_000_000;
      Pow10(e)
  }

  function DigitChar(d: nat): (c: char)
    requires d < 10
    ensures '0' <= c <= '9'
    ensures c as int - '0' as int == d
  {
    (d + '0' as int) as char
  }

  predicate IsDecimal(s: string)
  {
    |s| >= 1 && forall i :: 0 <= i < |s| ==> '0' <= s[i] <= '9'
  }

  /** `strconv.Itoa(n)` for a non-negative n. */
  function NatToString(n: nat): (s: string)
    ensures IsDecimal(s)
    decreases n
  {
    if n < 10 then [DigitChar(n)] else NatToString(n / 10) + [DigitChar(n % 10)]
  }

  /** The value of a string of decimal digits (the inverse of `NatToString`). */
  function ParseDecimal(s: string): (n: nat)
    requires forall i :: 0 <= i < |s| ==> '0' <= s[i] <= '9'
    decreases |s|
  {
    if s == [] then 0
    else ParseDecimal(s[..|s| - 1]) * 10 + (s[|s| - 1] as int - '0' as int)
  }

  lemma {:induction false} ParseNatToString(n: nat)
    ensures ParseDecimal(NatToString(n)) == n
    decreases n
  {
    var s := NatToString(n);
    if n >= 10 {
      ParseNatToString(n / 10);
      assert s[..|s| - 1] == NatToString(n / 10);
    }
  }

  /** Distinct numbers have distinct decimal renderings. */
  lemma NatToStringInjective(a: nat, b: nat)
    requires NatToString(a) == NatToString(b)
    ensures a == b
  {
    ParseNatToString(a);
    ParseNatToString(b);
  }
}
