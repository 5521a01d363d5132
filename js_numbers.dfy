/**
 * The ECMAScript number conversions the player relies on (ECMA-262 sections 7.1.6, 7.1.7
 * and 7.1.11), stated for the integral and finite values that occur in the model, and the
 * 32-bit bitwise AND behind the `isPowerOf2` helpers.
 */
module JsNumbers {

  const TWO_32: int := 0x1_0000_0000
  const TWO_31: int := 0x8000_0000

  /** An element of a `Uint8Array`. */
  type Byte = x: int | 0 <= x < 256

  /** The range of ToInt32. */
  type Int32 = x: int | -0x8000_0000 <= x < 0x8000_0000

  /** The range of ToUint32. */
  type Uint32 = x: int | 0 <= x < 0x1_0000_0000

  /** ToUint32 (ECMA-262 section 7.1.7) of an integral number. */
  function ToUint32(n: int): (r: Uint32)
    ensures (n - r) % TWO_32 == 0
  {
    n % TWO_32
  }

  /** ToInt32 (ECMA-262 section 7.1.6) of an integral number. */
  function ToInt32(n: int): (r: Int32)
    ensures (n - r) % TWO_32 == 0
    ensures -TWO_31 <= n < TWO_31 ==> r == n
  {
    var u := n % TWO_32;
    if u >= TWO_31 then u - TWO_32 else u
  }

  /** On the int32 range, ToUint32 adds 2^32 to the negative values and keeps the others. */
  lemma Int32AsUint32(a: Int32)
    ensures ToUint32(a) == if a >= 0 then a else a + TWO_32
  {
    if a < 0 {
      ModShift(a, 1);
    }
  }

  /** Two integers with the same residue modulo 2^32 have the same ToInt32. */
  lemma ToInt32Congruent(a: int, b: int)
    requires (a - b) % TWO_32 == 0
    ensures ToInt32(a) == ToInt32(b)
  {
    var q := (a - b) / TWO_32;
    assert a == b + q * TWO_32;
    ModShift(b, q);
  }

  lemma ModShift(b: int, q: int)
    ensures (b + q * TWO_32) % TWO_32 == b % TWO_32
  {
  }

  /** Truncation toward zero, the integer part taken by ToIntegerOrInfinity. */
  function Truncate(x: real): (t: int)
    ensures x >= 0.0 ==> t as real <= x < t as real + 1.0
    ensures x < 0.0 ==> t as real - 1.0 < x <= t as real
  {
    if x >= 0.0 then x.Floor else -((-x).Floor)
  }

  /** ToUint8 (ECMA-262 section 7.1.11) of a finite number: what a store into a `Uint8Array` keeps. */
  function ToUint8(x: real): Byte
  {
    Truncate(x) % 256
  }

  /** Storing the half-sum of two bytes into a `Uint8Array` keeps its integer part. */
  lemma {:induction false} ToUint8HalfSum(l: Byte, r: Byte)
    ensures ToUint8((l + r) as real / 2.0) == (l + r) / 2
  {
    var x := (l + r) as real / 2.0;
    var q := (l + r) / 2;
    assert q as real <= x < q as real + 1.0;
    assert x.Floor == q;
  }

  /** The bitwise AND of two non-negative integers, bit by bit from the lowest. */
  function BitAnd(a: nat, b: nat): (r: nat)
    ensures r <= a && r <= b
    decreases a
  {
    if a == 0 || b == 0 then 0
    else 2 * BitAnd(a / 2, b / 2) + (if a % 2 == 1 && b % 2 == 1 then 1 else 0)
  }

  /** `x & y` in ECMAScript: both operands through ToInt32, the 32-bit patterns ANDed, the result signed. */
  function JsAnd(x: int, y: int): Int32
  {
    ToInt32(BitAnd(ToUint32(x), ToUint32(y)))
  }

  /** The helper `isPowerOf2 = (value) => (value & (value - 1)) === 0`. */
  predicate IsPowerOf2(value: int)
  {
    JsAnd(value, value - 1) == 0
  }

  /** n is 2^k for some k >= 0. */
  predicate PowerOfTwo(n: nat)
    decreases n
  {
    n == 1 || (n > 1 && n % 2 == 0 && PowerOfTwo(n / 2))
  }

  lemma {:induction false} BitAndSelf(a: nat)
    ensures BitAnd(a, a) == a
    decreases a
  {
    if a != 0 {
      BitAndSelf(a / 2);
    }
  }

  lemma {:induction false} BitAndPred(w: nat)
    requires w >= 1
    ensures BitAnd(w, w - 1) == 0 <==> PowerOfTwo(w)
    decreases w
  {
    if w == 1 {
    } else if w % 2 == 1 {
      assert (w - 1) / 2 == w / 2;
      BitAndSelf(w / 2);
      assert BitAnd(w, w - 1) == 2 * (w / 2);
    } else {
      assert (w - 1) / 2 == w / 2 - 1;
      BitAndPred(w / 2);
      assert BitAnd(w, w - 1) == 2 * BitAnd(w / 2, w / 2 - 1);
    }
  }

  /**
   * For every image dimension a canvas can have, the bit test accepts exactly the powers
   * of two and zero (an unloaded image has width and height 0).
   */
  lemma IsPowerOf2Iff(value: int)
    requires 0 <= value < TWO_32
    ensures IsPowerOf2(value) <==> (value == 0 || PowerOfTwo(value))
  {
    if value == 0 {
      assert BitAnd(ToUint32(0), ToUint32(-1)) == 0;
    } else {
      assert ToUint32(value) == value && ToUint32(value - 1) == value - 1;
      BitAndPred(value);
    }
  }
}
