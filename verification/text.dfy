/** String helpers shared by the formatting code: repetition, alignment and upper-casing. */
module Text {

  /** `n` copies of `c`; a non-positive count gives the empty string. */
  function Repeat(c: char, n: int): (r: string)
    ensures |r| == if n <= 0 then 0 else n
    ensures forall i :: 0 <= i < |r| ==> r[i] == c
    decreases n
  {
    if n <= 0 then [] else [c] + Repeat(c, n - 1)
  }

  /** Repetition grows at the end as well as at the front. */
  lemma {:induction false} RepeatSnoc(c: char, n: int)
    requires n >= 0
    ensures Repeat(c, n + 1) == Repeat(c, n) + [c]
    decreases n
  {
    if n > 0 {
      RepeatSnoc(c, n - 1);
    }
  }

  /**
   * Appends `fill` until `s` is `w` long and never truncates, like
   * String.PadRight and the padding loop of Form1.cs lines 394-395.
   */
  function PadRight(s: string, w: int, fill: char): (r: string)
    ensures |r| == if |s| < w then w else |s|
  {
    s + Repeat(fill, w - |s|)
  }

  /**
   * Right-justifies `s` in a field of width `w` by prepending `fill`, as the
   * `{0,w}` alignment of String.Format and the zero-padding of custom numeric
   * formats do: a string already `w` long or longer is left untouched.
   */
  function PadLeft(s: string, w: int, fill: char): (r: string)
    ensures |r| == if |s| < w then w else |s|
  {
    Repeat(fill, w - |s|) + s
  }

  /** The ASCII letters a..z mapped to A..Z; every other character unchanged. */
  function UpperChar(c: char): char
  {
    if 'a' <= c <= 'z' then (c as int - 32) as char else c
  }

  /** String.ToUpper restricted to ASCII. */
  function Upper(s: string): (r: string)
    ensures |r| == |s|
    ensures forall i :: 0 <= i < |s| ==> r[i] == UpperChar(s[i])
  {
    seq(|s|, i requires 0 <= i < |s| => UpperChar(s[i]))
  }
}
