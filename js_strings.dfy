/**
 * The JavaScript string built-ins the server relies on: `String(n)` for an
 * integer, `padStart` with a one-character pad, and the truthiness test
 * `!x` applied to request fields.
 */
module JsStrings {
  import opened Wrappers

  predicate IsDigit(c: char)
  {
    '0' <= c <= '9'
  }

  predicate AllDigits(s: string)
  {
    forall i :: 0 <= i < |s| ==> IsDigit(s[i])
  }

  /**
   * JavaScript truthiness of an optional string from a request body:
   * an absent or null field and the empty string are falsy.
   */
  predicate Truthy(v: Option<string>)
  {
    v.Some? && v.value != ""
  }

  function Repeat(c: char, n: nat): (r: string)
    ensures |r| == n
    ensures forall i :: 0 <= i < n ==> r[i] == c
    decreases n
  {
    if n == 0 then [] else Repeat(c, n - 1) + [c]
  }

  /**
   * `s.padStart(targetLength, pad)`: `s` with copies of `pad` in front until
   * it is `targetLength` long; a string already that long is left alone,
   * never truncated.
   */
  function PadStart(s: string, targetLength: nat, pad: char): (r: string)
    ensures |r| == if |s| < targetLength then targetLength else |s|
  {
    if |s| < targetLength then Repeat(pad, targetLength - |s|) + s else s
  }

  /** The padded string ends with the original and has only `pad` in front of it. */
  lemma PadStartShape(s: string, targetLength: nat, pad: char)
    ensures var r := PadStart(s, targetLength, pad);
      r[|r| - |s|..] == s && forall i :: 0 <= i < |r| - |s| ==> r[i] == pad
  {
    var r := PadStart(s, targetLength, pad);
    if |s| < targetLength {
      assert r[|r| - |s|..] == s;
    } else {
      assert r[|r| - |s|..] == r[0..];
    }
  }

  function DigitChar(d: nat): (c: char)
    requires d < 10
    ensures IsDigit(c) && c as int - '0' as int == d
  {
    ('0' as int + d) as char
  }

  function DigitValue(c: char): (d: nat)
    requires IsDigit(c)
    ensures d < 10 && DigitChar(d) == c
  {
    c as int - '0' as int
  }

  function Pow10(k: nat): (p: nat)
    ensures 1 <= p
    ensures 1 <= k ==> 10 <= p
  {
    if k == 0 then 1 else 10 * Pow10(k - 1)
  }

  /**
   * `String(n)` for a non-negative integer below 10^21 (where JavaScript
   * switches to exponent notation): the shortest decimal numeral, so the
   * only numeral starting with '0' is "0" itself.
   */
  function NatToString(n: nat): (r: string)
    ensures 1 <= |r| && AllDigits(r)
    ensures r[0] == '0' <==> n == 0
    decreases n
  {
    if n < 10 then [DigitChar(n)] else NatToString(n / 10) + [DigitChar(n % 10)]
  }

  /** `String(i)` for any integer: a minus sign before the numeral of a negative one. */
  function IntToString(i: int): (r: string)
    ensures 1 <= |r|
    ensures forall k :: 0 <= k < |r| ==> IsDigit(r[k]) || r[k] == '-'
    ensures i >= 0 ==> AllDigits(r) && DigitsValue(r) == i
    ensures i < 0 ==> r[0] == '-' && AllDigits(r[1..]) && DigitsValue(r[1..]) == -i
    ensures i >= 0 ==> (r[0] == '0' <==> i == 0)
    ensures i < 0 ==> 2 <= |r| && r[1] != '0'
  {
    if i < 0 then
      var digits := NatToString(-i);
      NatToStringValue(-i);
      assert ("-" + digits)[1..] == digits;
      "-" + digits
    else
      NatToStringValue(i);
      NatToString(i)
  }

  /** The number a string of decimal digits denotes; leading zeros allowed. */
  function DigitsValue(s: string): nat
    requires AllDigits(s)
    decreases |s|
  {
    if s == [] then 0 else 10 * DigitsValue(s[..|s| - 1]) + DigitValue(s[|s| - 1])
  }

  /** Reading back the numeral `String(n)` gives `n`. */
  lemma {:induction false} NatToStringValue(n: nat)
    ensures DigitsValue(NatToString(n)) == n
  {
    if n >= 10 {
      var s := NatToString(n);
      assert s[..|s| - 1] == NatToString(n / 10);
      NatToStringValue(n / 10);
    }
  }

  /** The numeral of `n` has at most `k` digits exactly when `n < 10^k`. */
  lemma {:induction false} NatToStringLength(n: nat, k: nat)
    requires 1 <= k
    ensures |NatToString(n)| <= k <==> n < Pow10(k)
  {
    if n >= 10 {
      assert |NatToString(n)| == |NatToString(n / 10)| + 1;
      if k == 1 {
        assert Pow10(1) == 10;
      } else {
        NatToStringLength(n / 10, k - 1);
        assert n / 10 < Pow10(k - 1) <==> n < 10 * Pow10(k - 1);
      }
    }
  }

  lemma {:induction false} ZerosValue(k: nat)
    ensures AllDigits(Repeat('0', k)) && DigitsValue(Repeat('0', k)) == 0
  {
    if k > 0 {
      assert Repeat('0', k)[..k - 1] == Repeat('0', k - 1);
      ZerosValue(k - 1);
    }
  }

  /** Zeros in front of a numeral do not change its value. */
  lemma {:induction false} LeadingZerosValue(k: nat, s: string)
    requires AllDigits(s)
    ensures AllDigits(Repeat('0', k) + s)
    ensures DigitsValue(Repeat('0', k) + s) == DigitsValue(s)
    decreases |s|
  {
    if s == [] {
      assert Repeat('0', k) + s == Repeat('0', k);
      ZerosValue(k);
    } else {
      var t := Repeat('0', k) + s;
      assert t[..|t| - 1] == Repeat('0', k) + s[..|s| - 1];
      LeadingZerosValue(k, s[..|s| - 1]);
    }
  }

  /**
   * `String(n).padStart(width, '0')` is a string of digits that still
   * denotes `n`, and it is `width` long when `n < 10^width`.
   */
  lemma PaddedNumeralValue(n: nat, width: nat)
    ensures AllDigits(PadStart(NatToString(n), width, '0'))
    ensures DigitsValue(PadStart(NatToString(n), width, '0')) == n
    ensures 1 <= width && n < Pow10(width) ==> |PadStart(NatToString(n), width, '0')| == width
  {
    PaddedNumeralDigits(n, width);
    if 1 <= width {
      NatToStringLength(n, width);
    }
  }

  lemma PaddedNumeralDigits(n: nat, width: nat)
    ensures AllDigits(PadStart(NatToString(n), width, '0'))
    ensures DigitsValue(PadStart(NatToString(n), width, '0')) == n
  {
    var s := NatToString(n);
    NatToStringValue(n);
    if |s| < width {
      LeadingZerosValue(width - |s|, s);
      assert PadStart(s, width, '0') == Repeat('0', width - |s|) + s;
    }
  }
}
