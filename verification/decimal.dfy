/**
 * Culture-invariant rendering of integers as the monitor's String.Format
 * calls produce them: `{0,w}` right-aligns the shortest decimal form of an
 * `int` in `w` columns, and the `MM`/`yyyy` style fields zero-pad.
 * Each rendering comes with its parser and a round-trip lemma.
 */
module Decimal {
  import opened Text

  predicate IsDigit(c: char)
  {
    '0' <= c <= '9'
  }

  predicate AllDigits(s: string)
  {
    forall i :: 0 <= i < |s| ==> IsDigit(s[i])
  }

  function DigitChar(d: int): (c: char)
    requires 0 <= d < 10
    ensures IsDigit(c)
  {
    ('0' as int + d) as char
  }

  function DigitValue(c: char): (d: nat)
    requires IsDigit(c)
    ensures d < 10 && DigitChar(d) == c
  {
    c as int - '0' as int
  }

  function Pow10(k: nat): (p: nat)
    ensures p >= 1
  {
    if k == 0 then 1 else 10 * Pow10(k - 1)
  }

  /** Shortest decimal form of `n`: at least one digit, no leading zero. */
  function Digits(n: nat): (s: string)
    ensures 1 <= |s|
    ensures AllDigits(s)
    ensures |s| > 1 ==> s[0] != '0'
  {
    if n < 10 then [DigitChar(n)] else Digits(n / 10) + [DigitChar(n % 10)]
  }

  /** Value of a string of decimal digits, most significant first; "" is 0. */
  function ParseDigits(s: string): nat
    requires AllDigits(s)
  {
    if |s| == 0 then 0 else ParseDigits(s[..|s| - 1]) * 10 + DigitValue(s[|s| - 1])
  }

  /** Int32.ToString(): a minus sign for negative values, then the digits. */
  function IntString(n: int): string
  {
    if n < 0 then "-" + Digits(-n) else Digits(n)
  }

  /** Parser for IntString's output. */
  function ParseInt(s: string): int
  {
    if |s| > 0 && s[0] == '-' && AllDigits(s[1..]) then -(ParseDigits(s[1..]) as int)
    else if AllDigits(s) then ParseDigits(s)
    else 0
  }

  /** String.Format("{0,w}", n). */
  function Aligned(n: int, w: int): string
  {
    PadLeft(IntString(n), w, ' ')
  }

  /** A custom numeric field of `w` zeros ("00", "0000") applied to `n`. */
  function ZeroPadded(n: nat, w: int): (s: string)
    ensures AllDigits(s)
  {
    PadLeft(Digits(n), w, '0')
  }

  /** Removes the spaces an alignment put in front. */
  function TrimLeadingSpaces(s: string): string
  {
    if |s| > 0 && s[0] == ' ' then TrimLeadingSpaces(s[1..]) else s
  }

  lemma {:induction false} ParseDigitsOfDigits(n: nat)
    ensures ParseDigits(Digits(n)) == n
  {
    if n >= 10 {
      var s := Digits(n);
      assert s[..|s| - 1] == Digits(n / 10);
      ParseDigitsOfDigits(n / 10);
    }
  }

  /** Parsing undoes IntString for every `int`. */
  lemma IntStringRoundTrip(n: int)
    ensures ParseInt(IntString(n)) == n
  {
    ParseDigitsOfDigits(if n < 0 then -n else n);
    if n < 0 {
      assert IntString(n)[1..] == Digits(-n);
    }
  }

  /** The digits of `n` fit in `k` columns exactly when `n < 10^k`. */
  lemma {:induction false} DigitsLength(n: nat, k: nat)
    requires k >= 1
    ensures |Digits(n)| <= k <==> n < Pow10(k)
  {
    if n >= 10 && k > 1 {
      DigitsLength(n / 10, k - 1);
    }
  }

  /** `{0,w}` yields exactly `w` columns iff the number's text is not wider than the field. */
  lemma AlignedExactWidth(n: int, w: nat)
    requires w >= 1
    ensures |Aligned(n, w)| == w <==> -(Pow10(w - 1) as int) < n < Pow10(w)
  {
    if n < 0 && w > 1 {
      DigitsLength(-n, w - 1);
    } else if n < 0 {
    } else {
      DigitsLength(n, w);
    }
  }

  /** Stripping the alignment and parsing recovers the number. */
  lemma AlignedRoundTrip(n: int, w: int)
    ensures ParseInt(TrimLeadingSpaces(Aligned(n, w))) == n
  {
    var s := IntString(n);
    TrimPadding(s, w);
    IntStringRoundTrip(n);
  }

  lemma TrimPadding(s: string, w: int)
    requires |s| > 0 && s[0] != ' '
    ensures TrimLeadingSpaces(PadLeft(s, w, ' ')) == s
  {
    TrimSpaces(w - |s|, s);
  }

  lemma {:induction false} TrimSpaces(k: int, s: string)
    requires |s| > 0 && s[0] != ' '
    ensures TrimLeadingSpaces(Repeat(' ', k) + s) == s
    decreases k
  {
    var x := Repeat(' ', k) + s;
    if k > 0 {
      var r := Repeat(' ', k - 1);
      assert Repeat(' ', k) == [' '] + r;
      assert x == [' '] + (r + s);
      assert x[0] == ' ' && x[1..] == r + s;
      TrimSpaces(k - 1, s);
    } else {
      assert x == s;
    }
  }

  /** Leading zeros do not change a digit string's value. */
  lemma {:induction false} LeadingZeros(k: int, s: string)
    requires AllDigits(s)
    ensures AllDigits(Repeat('0', k) + s)
    ensures ParseDigits(Repeat('0', k) + s) == ParseDigits(s)
    decreases |s|
  {
    var z := Repeat('0', k);
    if |s| == 0 {
      assert z + s == z;
      AllZeros(k);
    } else {
      var t := z + s;
      assert t[..|t| - 1] == z + s[..|s| - 1];
      LeadingZeros(k, s[..|s| - 1]);
    }
  }

  lemma {:induction false} AllZeros(k: int)
    ensures AllDigits(Repeat('0', k))
    ensures ParseDigits(Repeat('0', k)) == 0
    decreases k
  {
    if k > 0 {
      var z := Repeat('0', k);
      assert z[..|z| - 1] == Repeat('0', k - 1) by {
        RepeatSnoc('0', k - 1);
      }
      AllZeros(k - 1);
    }
  }

  /** Parsing a zero-padded field recovers the number. */
  lemma ZeroPaddedRoundTrip(n: nat, w: int)
    ensures ParseDigits(ZeroPadded(n, w)) == n
  {
    LeadingZeros(w - |Digits(n)|, Digits(n));
    ParseDigitsOfDigits(n);
  }

  /** A zero-padded field is exactly `w` wide whenever the value has at most `w` digits. */
  lemma ZeroPaddedWidth(n: nat, w: nat)
    requires w >= 1 && n < Pow10(w)
    ensures |ZeroPadded(n, w)| == w
  {
    DigitsLength(n, w);
  }
}
