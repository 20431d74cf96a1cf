/** Positional notation of natural numbers in bases 2 to 16 with lower-case
    digits, as JavaScript's `Number.prototype.toString(radix)` and
    `BigInt.prototype.toString()` write them, and its inverse. Decimal
    amounts, hexadecimal chain identifiers and upload progress keys are all
    built on these two functions. */
module Digits {

  type Base = b: nat | 2 <= b <= 16 witness 10

  function Pow(base: Base, k: nat): (r: nat)
    ensures r >= 1
  {
    if k == 0 then 1 else base * Pow(base, k - 1)
  }

  /** The character of digit `d`: `0`-`9`, then `a`-`f`. */
  function DigitChar(d: nat): char
    requires d < 16
  {
    if d < 10 then ('0' as int + d) as char else ('a' as int + d - 10) as char
  }

  predicate IsDigit(c: char, base: Base)
  {
    ('0' <= c <= '9' && (c as int) - ('0' as int) < base)
    || ('a' <= c <= 'f' && 10 + (c as int) - ('a' as int) < base)
  }

  function DigitValue(c: char, base: Base): (d: nat)
    requires IsDigit(c, base)
    ensures d < base && DigitChar(d) == c
  {
    if '0' <= c <= '9' then (c as int) - ('0' as int) else 10 + (c as int) - ('a' as int)
  }

  predicate AllDigits(s: string, base: Base)
  {
    forall i :: 0 <= i < |s| ==> IsDigit(s[i], base)
  }

  /** `n.toString(base)`: no leading zero, and `"0"` for zero. */
  function ToBase(n: nat, base: Base): (s: string)
    decreases n
  {
    if n < base then [DigitChar(n)] else ToBase(n / base, base) + [DigitChar(n % base)]
  }

  /** The number a string of digits denotes, most significant digit first. */
  function FromBase(s: string, base: Base): nat
    requires AllDigits(s, base)
  {
    if s == [] then 0
    else
      var prefix := FromBase(s[..|s| - 1], base);
      MulNonNegative(prefix, base);
      prefix * base + DigitValue(s[|s| - 1], base)
  }

  lemma MulNonNegative(x: nat, y: nat)
    ensures x * y >= 0
  {
  }

  /** Decimal notation, `String(n)`. */
  function Decimal(n: nat): string
  {
    ToBase(n, 10)
  }

  /** A string of `k` zero digits. */
  function Zeros(k: nat): (z: string)
    ensures |z| == k && forall i :: 0 <= i < k ==> z[i] == '0'
  {
    if k == 0 then [] else Zeros(k - 1) + "0"
  }

  /** `s` padded on the left with zeros to at least `width` characters. */
  function PadLeft(s: string, width: nat): (p: string)
  {
    if |s| >= width then s else Zeros(width - |s|) + s
  }

  lemma DivMod(n: nat, base: Base)
    ensures n == (n / base) * base + n % base && n % base < base
    ensures n >= base ==> 1 <= n / base < n
  {
  }

  lemma DigitCharValue(d: nat, base: Base)
    requires d < base
    ensures IsDigit(DigitChar(d), base) && DigitValue(DigitChar(d), base) == d
  {
  }

  /** Appending one digit keeps a string of digits. */
  lemma AllDigitsSnoc(s: string, c: char, base: Base)
    requires AllDigits(s, base) && IsDigit(c, base)
    ensures AllDigits(s + [c], base)
  {
  }

  /** Rendering then reading back gives the number again; the rendering is
      a non-empty string of digits of the base without a leading zero. */
  lemma {:induction false} ToBaseRoundTrip(n: nat, base: Base)
    ensures AllDigits(ToBase(n, base), base)
    ensures FromBase(ToBase(n, base), base) == n
    ensures |ToBase(n, base)| >= 1 && (ToBase(n, base)[0] == '0' ==> n == 0)
    decreases n
  {
    var s := ToBase(n, base);
    if n < base {
      DigitCharValue(n, base);
      assert s == [DigitChar(n)];
      assert s[..0] == [];
    } else {
      var q, r := n / base, n % base;
      DivMod(n, base);
      ToBaseRoundTrip(q, base);
      var p := ToBase(q, base);
      DigitCharValue(r, base);
      AllDigitsSnoc(p, DigitChar(r), base);
      assert s == p + [DigitChar(r)];
      assert s[..|s| - 1] == p;
      assert FromBase(s, base) == q * base + r;
      assert s[0] == p[0];
    }
  }

  /** Distinct numbers have distinct renderings. */
  lemma ToBaseInjective(m: nat, n: nat, base: Base)
    requires ToBase(m, base) == ToBase(n, base)
    ensures m == n
  {
    ToBaseRoundTrip(m, base);
    ToBaseRoundTrip(n, base);
  }

  /** A number below `base^k` needs at most `k` digits. */
  lemma {:induction false} ToBaseLength(n: nat, base: Base, k: nat)
    requires n < Pow(base, k)
    ensures |ToBase(n, base)| <= k || (n == 0 && k == 0)
    decreases n
  {
    if n >= base {
      assert Pow(base, 0) == 1;
      assert k >= 1;
      var q := n / base;
      DivMod(n, base);
      QuotientBound(n, base, Pow(base, k - 1));
      ToBaseLength(q, base, k - 1);
    }
  }

  lemma QuotientBound(n: nat, base: Base, p: nat)
    requires n < base * p
    ensures n / base < p
  {
    DivMod(n, base);
    var q := n / base;
    assert q * base < p * base;
    MulCancel(q, p, base);
  }

  lemma MulCancel(q: nat, p: nat, base: Base)
    requires q * base < p * base
    ensures q < p
  {
  }

  lemma ShiftDigit(x: int, p: int, y: int, b: int, d: int)
    ensures (x * p + y) * b + d == x * (b * p) + (y * b + d)
  {
  }

  /** Reading a concatenation: the left part is shifted by the length of the
      right part. */
  lemma {:induction false} FromBaseAppend(a: string, b: string, base: Base)
    requires AllDigits(a, base) && AllDigits(b, base)
    ensures AllDigits(a + b, base)
    ensures FromBase(a + b, base) == FromBase(a, base) * Pow(base, |b|) + FromBase(b, base)
    decreases |b|
  {
    var ab := a + b;
    assert AllDigits(ab, base) by {
      forall i | 0 <= i < |ab| ensures IsDigit(ab[i], base) {
        if i >= |a| { assert ab[i] == b[i - |a|]; }
      }
    }
    if b == [] {
      assert ab == a;
    } else {
      var b' := b[..|b| - 1];
      var last := b[|b| - 1];
      assert ab[..|ab| - 1] == a + b';
      assert ab[|ab| - 1] == last;
      FromBaseAppend(a, b', base);
      assert FromBase(b, base) == FromBase(b', base) * base + DigitValue(last, base);
      assert FromBase(ab, base) == FromBase(a + b', base) * base + DigitValue(last, base);
      ShiftDigit(FromBase(a, base), Pow(base, |b'|), FromBase(b', base), base, DigitValue(last, base));
    }
  }

  /** Leading zeros do not change the number. */
  lemma {:induction false} FromBaseZeros(k: nat, s: string, base: Base)
    requires AllDigits(s, base)
    ensures AllDigits(Zeros(k) + s, base) && FromBase(Zeros(k) + s, base) == FromBase(s, base)
  {
    FromBaseOfZeros(k, base);
    FromBaseAppend(Zeros(k), s, base);
    assert FromBase(Zeros(k), base) * Pow(base, |s|) == 0;
  }

  lemma {:induction false} FromBaseOfZeros(k: nat, base: Base)
    ensures AllDigits(Zeros(k), base) && FromBase(Zeros(k), base) == 0
  {
    var z := Zeros(k);
    assert AllDigits(z, base) by {
      forall i | 0 <= i < k ensures IsDigit(z[i], base) {
        assert z[i] == '0';
      }
    }
    if k > 0 {
      FromBaseOfZeros(k - 1, base);
      assert z[..k - 1] == Zeros(k - 1);
      assert DigitValue(z[k - 1], base) == 0;
      assert FromBase(z, base) == FromBase(Zeros(k - 1), base) * base + 0;
    }
  }

  /** Padding a rendering on the left keeps the number it denotes. */
  lemma PadLeftValue(n: nat, base: Base, width: nat)
    ensures AllDigits(PadLeft(ToBase(n, base), width), base)
    ensures FromBase(PadLeft(ToBase(n, base), width), base) == n
    ensures |PadLeft(ToBase(n, base), width)| >= width
  {
    ToBaseRoundTrip(n, base);
    var s := ToBase(n, base);
    if |s| < width {
      FromBaseZeros(width - |s|, s, base);
    }
  }

  /** A string of digits holds no character that is not a digit. */
  lemma DigitsExclude(s: string, base: Base, c: char)
    requires AllDigits(s, base) && !IsDigit(c, base)
    ensures c !in s
  {
  }
}
