/**
 * String helpers standing in for the JavaScript string operations the source uses:
 * integer-to-decimal conversion (`${n}`, String(n), toString()), parseInt on digit
 * runs, padStart(2, '0'), includes, ASCII toLowerCase, and message templates.
 */
module Text {

  predicate IsDigit(c: char) {
    '0' <= c <= '9'
  }

  /** The regular-expression class \d+ without the `+`: every character is an ASCII digit. */
  predicate IsDigits(s: string) {
    forall i :: 0 <= i < |s| ==> IsDigit(s[i])
  }

  function DigitChar(d: nat): (c: char)
    requires d < 10
    ensures IsDigit(c) && (c as int) - ('0' as int) == d
  {
    (('0' as int) + d) as char
  }

  /** Decimal rendering of a natural number, without leading zeros. */
  function NatToString(n: nat): (s: string)
    ensures |s| >= 1
  {
    if n < 10 then [DigitChar(n)] else NatToString(n / 10) + [DigitChar(n % 10)]
  }

  /** The rendering is all digits, and starts with '0' only for zero. */
  lemma {:induction false} NatToStringDigits(n: nat)
    ensures IsDigits(NatToString(n))
    ensures NatToString(n)[0] == '0' ==> n == 0
  {
    if n >= 10 {
      NatToStringDigits(n / 10);
      assert NatToString(n)[0] == NatToString(n / 10)[0];
    }
  }

  /** Decimal rendering of an integer (`${i}` for an integral number). */
  function IntToString(i: int): (s: string)
    ensures i >= 0 ==> s == NatToString(i)
  {
    if i < 0 then "-" + NatToString(-i) else NatToString(i)
  }

  /** parseInt(s, 10) for a string of digits. */
  function DigitsValue(s: string): nat
    requires IsDigits(s)
  {
    if s == [] then 0 else DigitsValue(s[..|s| - 1]) * 10 + ((s[|s| - 1] as int) - ('0' as int))
  }

  /** Reading back the decimal rendering gives the number: parseInt(String(n)) == n. */
  lemma {:induction false} NatToStringParses(n: nat)
    ensures IsDigits(NatToString(n)) && DigitsValue(NatToString(n)) == n
  {
    NatToStringDigits(n);
    if n >= 10 {
      var s := NatToString(n);
      assert s[..|s| - 1] == NatToString(n / 10);
      NatToStringParses(n / 10);
    }
  }

  /** padStart(2, '0'). */
  function PadStart2(s: string): (r: string)
    ensures |r| == if |s| < 2 then 2 else |s|
  {
    if |s| == 0 then "00" else if |s| == 1 then "0" + s else s
  }

  /** The zero-padded rendering of a number below 100 is its tens digit and its units digit. */
  lemma PadStart2Digits(n: nat)
    requires n < 100
    ensures PadStart2(NatToString(n)) == [DigitChar(n / 10), DigitChar(n % 10)]
  {
    if n >= 10 {
      assert NatToString(n / 10) == [DigitChar(n / 10)];
    }
  }

  /** Two-digit zero-padded rendering of a number below 100 reads back to that number. */
  lemma PadStart2Parses(n: nat)
    requires n < 100
    ensures |PadStart2(NatToString(n))| == 2
    ensures IsDigits(PadStart2(NatToString(n)))
    ensures DigitsValue(PadStart2(NatToString(n))) == n
  {
    var p := PadStart2(NatToString(n));
    if n < 10 {
      assert p == ['0', DigitChar(n)];
      assert p[..1] == ['0'];
    } else {
      assert NatToString(n / 10) == [DigitChar(n / 10)];
      assert p == [DigitChar(n / 10), DigitChar(n % 10)];
      assert p[..1] == [DigitChar(n / 10)];
      assert DigitsValue(p[..1]) == n / 10;
      assert n == (n / 10) * 10 + n % 10;
    }
  }

  /** Index of the first occurrence of `c` in `s`, or |s| when there is none. */
  function IndexOf(s: string, c: char): (k: nat)
    ensures k <= |s|
    ensures k < |s| ==> s[k] == c
    ensures forall i :: 0 <= i < k ==> s[i] != c
  {
    if s == [] then 0 else if s[0] == c then 0 else 1 + IndexOf(s[1..], c)
  }

  predicate IsPrefix(p: string, s: string) {
    |p| <= |s| && s[..|p|] == p
  }

  /** s.includes(sub). */
  predicate Contains(s: string, sub: string)
    decreases |s|
  {
    IsPrefix(sub, s) || (s != [] && Contains(s[1..], sub))
  }

  /** Contains holds exactly when `sub` occurs at some position of `s`. */
  lemma {:induction false} ContainsAt(s: string, sub: string, k: nat)
    requires k + |sub| <= |s| && s[k..k + |sub|] == sub
    ensures Contains(s, sub)
    decreases k
  {
    if k > 0 {
      assert s[1..][k - 1..k - 1 + |sub|] == sub;
      ContainsAt(s[1..], sub, k - 1);
    }
  }

  /** Every string includes the empty string. */
  lemma ContainsEmpty(s: string)
    ensures Contains(s, "")
  {
    ContainsAt(s, "", 0);
  }

  function LowerChar(c: char): (d: char)
    ensures 'A' <= c <= 'Z' ==> d as int == c as int + 32
    ensures !('A' <= c <= 'Z') ==> d == c
  {
    if 'A' <= c <= 'Z' then (c as int + 32) as char else c
  }

  /** toLowerCase on ASCII letters; every other character is kept. */
  function Lower(s: string): (r: string)
    ensures |r| == |s|
    ensures forall i :: 0 <= i < |s| ==> r[i] == LowerChar(s[i])
  {
    seq(|s|, i requires 0 <= i < |s| => LowerChar(s[i]))
  }

  /**
   * One piece of a message built with a template literal: literal text, or a number that
   * JavaScript renders with Number.prototype.toString (that rendering is not modelled).
   */
  datatype Piece = Lit(text: string) | Num(value: real)
}
