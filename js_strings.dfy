/**
 * The ECMAScript string operations the player and its tools use: `Number.prototype.toString(radix)`
 * on non-negative integers, `String.prototype.padStart`, `split`/`join` on a one-character
 * separator, and the UTF-16 code units that `length` and `charCodeAt` see.
 */
module JsStrings {

  type Radix = b: nat | 2 <= b <= 16 witness 10

  /** The character `toString` emits for digit d: `0`-`9`, then lower-case `a`-`f`. */
  function DigitChar(d: nat): char
    requires d < 16
  {
    if d < 10 then ('0' as int + d) as char else ('a' as int + d - 10) as char
  }

  predicate IsDigit(c: char, radix: Radix)
  {
    ('0' <= c <= '9' && (c as int - '0' as int) < radix)
    || ('a' <= c <= 'f' && (c as int - 'a' as int) + 10 < radix)
  }

  predicate AllDigits(s: string, radix: Radix)
  {
    forall i :: 0 <= i < |s| ==> IsDigit(s[i], radix)
  }

  /** The value of one digit character. */
  function DigitValue(c: char, radix: Radix): (d: nat)
    requires IsDigit(c, radix)
    ensures d < radix && DigitChar(d) == c
  {
    if '0' <= c <= '9' then c as int - '0' as int else c as int - 'a' as int + 10
  }

  /** The value of a digit string read in the given radix (leading zeros allowed). */
  function DigitsValue(s: string, radix: Radix): nat
    requires AllDigits(s, radix)
    decreases |s|
  {
    if |s| == 0 then 0
    else DigitsValue(s[..|s| - 1], radix) * radix + DigitValue(s[|s| - 1], radix)
  }

  /** `n.toString(radix)` for a non-negative integer n. */
  function ToStringRadix(n: nat, radix: Radix): (s: string)
    ensures |s| >= 1
    decreases n
  {
    if n < radix then [DigitChar(n)]
    else ToStringRadix(n / radix, radix) + [DigitChar(n % radix)]
  }

  function Pow(b: nat, k: nat): nat
  {
    if k == 0 then 1 else b * Pow(b, k - 1)
  }

  /** The rendering uses only digits of the radix and reads back as n. */
  lemma {:induction false} ToStringRadixValue(n: nat, radix: Radix)
    ensures AllDigits(ToStringRadix(n, radix), radix)
    ensures DigitsValue(ToStringRadix(n, radix), radix) == n
    decreases n
  {
    if n < radix {
      DigitValueOf(n, radix);
      var s := ToStringRadix(n, radix);
      assert s[..|s| - 1] == [];
    } else {
      ToStringRadixValue(n / radix, radix);
      AppendDigit(ToStringRadix(n / radix, radix), n % radix, radix);
      DivMod(n, radix);
    }
  }

  /** Appending one digit multiplies the value read so far by the radix and adds the digit. */
  lemma AppendDigit(p: string, d: nat, radix: Radix)
    requires AllDigits(p, radix) && d < radix
    ensures AllDigits(p + [DigitChar(d)], radix)
    ensures DigitsValue(p + [DigitChar(d)], radix) == DigitsValue(p, radix) * radix + d
  {
    DigitValueOf(d, radix);
    var s := p + [DigitChar(d)];
    assert s[..|s| - 1] == p;
  }

  lemma DivMod(n: nat, radix: Radix)
    ensures n == (n / radix) * radix + n % radix
  {
  }

  /** The rendering has no more than k digits when n < radix^k. */
  lemma {:induction false} ToStringRadixLength(n: nat, radix: Radix, k: nat)
    requires 1 <= k && n < Pow(radix, k)
    ensures |ToStringRadix(n, radix)| <= k
    decreases n
  {
    if n >= radix {
      AtLeastTwoDigits(n, radix, k);
      PowStep(radix, k);
      DivBound(n, radix, Pow(radix, k - 1));
      DivShrinks(n, radix);
      ToStringRadixLength(n / radix, radix, k - 1);
      LengthStep(n, radix);
    }
  }

  lemma DivShrinks(n: nat, radix: Radix)
    requires n >= radix
    ensures n / radix < n
  {
  }

  lemma AtLeastTwoDigits(n: nat, radix: Radix, k: nat)
    requires 1 <= k && radix <= n < Pow(radix, k)
    ensures k >= 2
  {
  }

  lemma PowStep(b: nat, k: nat)
    requires k >= 1
    ensures Pow(b, k) == b * Pow(b, k - 1)
  {
  }

  lemma LengthStep(n: nat, radix: Radix)
    requires n >= radix
    ensures |ToStringRadix(n, radix)| == |ToStringRadix(n / radix, radix)| + 1
  {
  }

  lemma DivBound(n: nat, b: nat, m: nat)
    requires b >= 1 && n < b * m
    ensures n / b < m
  {
  }

  lemma DigitValueOf(d: nat, radix: Radix)
    requires d < radix
    ensures IsDigit(DigitChar(d), radix) && DigitValue(DigitChar(d), radix) == d
  {
  }

  function Repeat(c: char, k: nat): (s: string)
    ensures |s| == k && forall i :: 0 <= i < k ==> s[i] == c
  {
    if k == 0 then [] else [c] + Repeat(c, k - 1)
  }

  /** `s.padStart(targetLength, fill)` with a one-character fill string. */
  function PadStart(s: string, targetLength: nat, fill: char): (r: string)
    ensures |r| == if |s| >= targetLength then |s| else targetLength
    ensures r[|r| - |s|..] == s
    ensures forall i :: 0 <= i < |r| - |s| ==> r[i] == fill
  {
    if |s| >= targetLength then s else Repeat(fill, targetLength - |s|) + s
  }

  /** Leading zeros do not change the value a digit string reads as. */
  lemma {:induction false} LeadingZeros(k: nat, s: string, radix: Radix)
    requires AllDigits(s, radix)
    ensures AllDigits(Repeat('0', k) + s, radix)
    ensures DigitsValue(Repeat('0', k) + s, radix) == DigitsValue(s, radix)
    decreases |s|
  {
    var z := Repeat('0', k);
    DigitValueOf(0, radix);
    if |s| == 0 {
      assert z + s == z;
      ZerosValue(k, radix);
    } else {
      LeadingZeros(k, s[..|s| - 1], radix);
      assert (z + s)[..|z + s| - 1] == z + s[..|s| - 1];
    }
  }

  lemma {:induction false} ZerosValue(k: nat, radix: Radix)
    ensures AllDigits(Repeat('0', k), radix)
    ensures DigitsValue(Repeat('0', k), radix) == 0
  {
    DigitValueOf(0, radix);
    if k > 0 {
      ZerosValue(k - 1, radix);
      var z := Repeat('0', k);
      assert z[..k - 1] == Repeat('0', k - 1);
    }
  }

  /** `n.toString(radix).padStart(width, '0')` is `width` digits reading as n whenever n < radix^width. */
  lemma PaddedRendering(n: nat, radix: Radix, width: nat)
    requires 1 <= width && n < Pow(radix, width)
    ensures var r := PadStart(ToStringRadix(n, radix), width, '0');
      |r| == width && AllDigits(r, radix) && DigitsValue(r, radix) == n
  {
    var s := ToStringRadix(n, radix);
    ToStringRadixValue(n, radix);
    ToStringRadixLength(n, radix, width);
    LeadingZeros(width - |s|, s, radix);
  }

  /** `n.toString(radix).padStart(width, '0')` for any n: at least `width` digits, reading as n. */
  lemma PaddedValue(n: nat, radix: Radix, width: nat)
    ensures var r := PadStart(ToStringRadix(n, radix), width, '0');
      |r| >= width && AllDigits(r, radix) && DigitsValue(r, radix) == n
  {
    var s := ToStringRadix(n, radix);
    ToStringRadixValue(n, radix);
    if |s| < width {
      LeadingZeros(width - |s|, s, radix);
    }
  }

  // ---------------------------------------------------------------------------
  // split / join on a one-character separator

  /** `s.split(sep)` for a one-character separator: the pieces between separators, always at least one. */
  function Split(s: string, sep: char): (parts: seq<string>)
    ensures |parts| >= 1
    ensures forall i :: 0 <= i < |parts| ==> sep !in parts[i]
    decreases |s|
  {
    if |s| == 0 then [""]
    else if s[0] == sep then [""] + Split(s[1..], sep)
    else
      var rest := Split(s[1..], sep);
      [[s[0]] + rest[0]] + rest[1..]
  }

  /** `parts.join(sep)`. */
  function Join(parts: seq<string>, sep: char): string
    decreases |parts|
  {
    if |parts| == 0 then ""
    else if |parts| == 1 then parts[0]
    else parts[0] + [sep] + Join(parts[1..], sep)
  }

  /** Joining the pieces of a split with the same separator gives the string back. */
  lemma {:induction false} JoinSplit(s: string, sep: char)
    ensures Join(Split(s, sep), sep) == s
    decreases |s|
  {
    if |s| == 0 {
    } else if s[0] == sep {
      JoinSplit(s[1..], sep);
      assert [s[0]] + s[1..] == s;
    } else {
      JoinSplit(s[1..], sep);
      var rest := Split(s[1..], sep);
      if |rest| == 1 {
      } else {
        assert ([[s[0]] + rest[0]] + rest[1..])[1..] == rest[1..];
        assert Join(rest, sep) == rest[0] + [sep] + Join(rest[1..], sep);
      }
    }
  }

  /** The text before the first separator (all of s when there is none). */
  function BeforeFirst(s: string, sep: char): string
    decreases |s|
  {
    if |s| == 0 || s[0] == sep then "" else [s[0]] + BeforeFirst(s[1..], sep)
  }

  /** The text after the first separator ("" when there is none). */
  function AfterFirst(s: string, sep: char): string
    decreases |s|
  {
    if |s| == 0 then "" else if s[0] == sep then s[1..] else AfterFirst(s[1..], sep)
  }

  /** The two halves around the first separator put s back together. */
  lemma {:induction false} AroundFirst(s: string, sep: char)
    ensures sep !in BeforeFirst(s, sep)
    ensures sep in s ==> BeforeFirst(s, sep) + [sep] + AfterFirst(s, sep) == s
    ensures sep !in s ==> BeforeFirst(s, sep) == s && AfterFirst(s, sep) == ""
    decreases |s|
  {
    if |s| > 0 && s[0] != sep {
      AroundFirst(s[1..], sep);
      assert [s[0]] + s[1..] == s;
      assert sep in s ==> sep in s[1..];
    } else if |s| > 0 {
      assert [s[0]] + s[1..] == s;
    }
  }

  /** `s.split(sep)[0]` is the text before the first separator. */
  lemma {:induction false} FirstPiece(s: string, sep: char)
    ensures Split(s, sep)[0] == BeforeFirst(s, sep)
    decreases |s|
  {
    if |s| > 0 && s[0] != sep {
      FirstPiece(s[1..], sep);
    }
  }

  /** `s.split(sep).slice(1).join(sep)` is the text after the first separator. */
  lemma {:induction false} DropFirstPiece(s: string, sep: char)
    ensures Join(Split(s, sep)[1..], sep) == AfterFirst(s, sep)
    decreases |s|
  {
    if |s| == 0 {
    } else if s[0] == sep {
      assert Split(s, sep)[1..] == Split(s[1..], sep);
      JoinSplit(s[1..], sep);
    } else {
      var rest := Split(s[1..], sep);
      assert Split(s, sep)[1..] == rest[1..];
      DropFirstPiece(s[1..], sep);
    }
  }

  // ---------------------------------------------------------------------------
  // UTF-16 code units

  type CodeUnit = x: int | 0 <= x < 0x1_0000

  /** The UTF-16 code units of one Unicode scalar value. */
  function CodeUnitsOf(c: char): (u: seq<CodeUnit>)
    ensures |u| == if c as int < 0x1_0000 then 1 else 2
  {
    var v := c as int;
    if v < 0x1_0000 then [v]
    else [0xD800 + (v - 0x1_0000) / 0x400, 0xDC00 + (v - 0x1_0000) % 0x400]
  }

  /** The code units an ECMAScript string holds: what `length` counts and `charCodeAt` returns. */
  function Utf16(s: string): (u: seq<CodeUnit>)
    ensures |u| >= |s|
    decreases |s|
  {
    if |s| == 0 then [] else Utf16(s[..|s| - 1]) + CodeUnitsOf(s[|s| - 1])
  }
}
