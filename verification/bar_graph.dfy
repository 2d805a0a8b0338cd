/**
 * The percentage bar of the 20x4 layout (Form1.cs lines 384-396, repeated
 * at 401-413 and 418-430): a value is clamped to 99, drawn as one full
 * glyph per ten and at most one partial glyph for the remainder, and the
 * line is padded with spaces to column 14 before its suffix.
 */
module BarGraph {
  import opened Int32Arith
  import opened Text
  import opened LcdCodes

  /** Column at which the suffix of a bar line starts. */
  const BarColumn: int := 14

  /** Line 387: a value above 99 is drawn as 99. */
  function Clamp(v: int): int
  {
    if v > 99 then 99 else v
  }

  /**
   * Clamping is idempotent and order-preserving, and it leaves a value
   * alone exactly when the value is already at most 99.
   */
  lemma ClampLaws(v: int, w: int)
    ensures Clamp(Clamp(v)) == Clamp(v)
    ensures v <= w ==> Clamp(v) <= Clamp(w)
    ensures Clamp(v) == v <==> v <= 99
    ensures Clamp(v) <= 99
  {
  }

  /** Lines 389-393: the partial glyph for the remainder `r` of the value modulo 10. */
  function PartialGlyph(r: int): string
  {
    if r >= 9 then [Bar5]
    else if r >= 7 then [Bar4]
    else if r >= 5 then [Bar3]
    else if r >= 3 then [Bar2]
    else if r >= 1 then [Bar1]
    else []
  }

  /**
   * Lines 387-393: full glyphs for the tens of the clamped value, then the
   * partial glyph. C#'s truncating `/` and `%` make every negative value
   * draw nothing.
   */
  function Bar(v: int): (b: string)
    ensures |b| <= 10
    ensures forall i :: 0 <= i < |b| ==> IsBarGlyph(b[i])
  {
    var c := Clamp(v);
    Repeat(Bar5, Quot(c, 10)) + PartialGlyph(Rem(c, 10))
  }

  /** Fill a value deserves, in fifths of a cell: half a fifth per percent, rounded up. */
  function Level(v: int): nat
  {
    if v <= 0 then 0 else (Clamp(v) + 1) / 2
  }

  /** Fill of a drawn string, in fifths of a cell: the sum of its glyph levels. */
  function Fill(s: string): int
  {
    if |s| == 0 then 0
    else Fill(s[..|s| - 1]) + (if IsBarGlyph(s[|s| - 1]) then GlyphLevel(s[|s| - 1]) else 0)
  }

  /** The canonical bar of fill `l`: full cells, then one glyph for what is left. */
  function BarOfLevel(l: nat): string
  {
    Repeat(Bar5, l / 5) + (if l % 5 == 0 then [] else [(22 + l % 5) as char])
  }

  /** The remainder glyph has level ceil(r/2): the five thresholds of lines 389-393 in closed form. */
  lemma PartialGlyphClosedForm(r: int)
    requires 0 <= r <= 9
    ensures PartialGlyph(r) == if r == 0 then [] else [(22 + (r + 1) / 2) as char]
  {
  }

  /** The bar a value gets is the canonical bar of the fill it deserves. */
  lemma BarClosedForm(v: int)
    ensures Bar(v) == BarOfLevel(Level(v))
  {
    var c := Clamp(v);
    if v <= 0 {
      assert Repeat(Bar5, Quot(c, 10)) == [];
    } else {
      LevelDigits(c);
      var q, r := c / 10, c % 10;
      assert Quot(c, 10) == q && Rem(c, 10) == r;
      assert Bar(v) == Repeat(Bar5, q) + PartialGlyph(r);
      var l := Level(v);
      assert l == (c + 1) / 2;
      PartialGlyphClosedForm(r);
      if r == 9 {
        assert l / 5 == q + 1 && l % 5 == 0;
        RepeatSnoc(Bar5, q);
      } else {
        assert l / 5 == q && l % 5 == (r + 1) / 2;
      }
    }
  }

  /** The fill of a clamped value `c` split into full cells and fifths, by its tens and units. */
  lemma LevelDigits(c: int)
    requires 0 < c <= 99
    ensures (c + 1) / 2 / 5 == (if c % 10 == 9 then c / 10 + 1 else c / 10)
    ensures (c + 1) / 2 % 5 == (if c % 10 == 9 then 0 else (c % 10 + 1) / 2)
  {
  }

  lemma {:induction false} FillAppend(a: string, b: string)
    ensures Fill(a + b) == Fill(a) + Fill(b)
    decreases |b|
  {
    if |b| == 0 {
      assert a + b == a;
    } else {
      assert (a + b)[..|a + b| - 1] == a + b[..|b| - 1];
      FillAppend(a, b[..|b| - 1]);
    }
  }

  lemma {:induction false} FillFull(n: nat)
    ensures Fill(Repeat(Bar5, n)) == 5 * n
    decreases n
  {
    if n > 0 {
      RepeatSnoc(Bar5, n - 1);
      FillAppend(Repeat(Bar5, n - 1), [Bar5]);
      FillFull(n - 1);
      assert [Bar5][..0] == [];
    }
  }

  /** Decoding the canonical bar of fill `l` gives back `l`. */
  lemma FillOfBarOfLevel(l: nat)
    ensures Fill(BarOfLevel(l)) == l
  {
    var tail: string := if l % 5 == 0 then [] else [(22 + l % 5) as char];
    FillAppend(Repeat(Bar5, l / 5), tail);
    FillFull(l / 5);
    if l % 5 != 0 {
      assert tail[..0] == [];
    }
  }

  /** A drawn bar shows exactly the fill its value deserves. */
  lemma BarFill(v: int)
    ensures Fill(Bar(v)) == Level(v)
  {
    BarClosedForm(v);
    FillOfBarOfLevel(Level(v));
  }

  /** Two values draw the same bar exactly when they deserve the same fill. */
  lemma BarSameIffLevelSame(v: int, w: int)
    ensures Bar(v) == Bar(w) <==> Level(v) == Level(w)
  {
    BarFill(v);
    BarFill(w);
    BarClosedForm(v);
    BarClosedForm(w);
  }

  /** Number of cells drawn: ceil(c/10) for the clamped value c, and none for v <= 0. */
  lemma BarLength(v: int)
    ensures v <= 0 ==> |Bar(v)| == 0
    ensures v > 0 ==> |Bar(v)| == Clamp(v) / 10 + (if Clamp(v) % 10 >= 1 then 1 else 0)
  {
    var c := Clamp(v);
    if v > 0 {
      assert Quot(c, 10) == c / 10 && Rem(c, 10) == c % 10;
    } else {
      assert Repeat(Bar5, Quot(c, 10)) == [];
    }
  }

  /** A larger value never draws a shorter or emptier bar. */
  lemma BarMonotone(v: int, w: int)
    requires v <= w
    ensures |Bar(v)| <= |Bar(w)|
    ensures Fill(Bar(v)) <= Fill(Bar(w))
  {
    BarLength(v);
    BarLength(w);
    BarFill(v);
    BarFill(w);
  }

  /** Every value above 99 draws the bar of 99. */
  lemma BarSaturates(v: int)
    requires v > 99
    ensures Bar(v) == Bar(99)
  {
  }

  /** Lines 384-396 without their loops: prefix, bar, spaces up to column 14, suffix. */
  function BarLine(prefix: string, v: int, suffix: string): (line: string)
    ensures |line| == (if |prefix| + |Bar(v)| < BarColumn then BarColumn else |prefix| + |Bar(v)|) + |suffix|
  {
    PadRight(prefix + Bar(v), BarColumn, ' ') + suffix
  }

  /** A bar line reads, left to right: the prefix, the bar, padding, the suffix. */
  lemma BarLineParts(prefix: string, v: int, suffix: string)
    ensures var line := BarLine(prefix, v, suffix);
      && line[..|prefix|] == prefix
      && line[|prefix|..|prefix| + |Bar(v)|] == Bar(v)
      && line[|line| - |suffix|..] == suffix
      && forall i :: |prefix| + |Bar(v)| <= i < |line| - |suffix| ==> line[i] == ' '
  {
    var line := BarLine(prefix, v, suffix);
    var padded := PadRight(prefix + Bar(v), BarColumn, ' ');
    assert line[..|prefix|] == padded[..|prefix + Bar(v)|][..|prefix|];
    assert line[|prefix|..|prefix| + |Bar(v)|] == padded[..|prefix + Bar(v)|][|prefix|..];
  }

  /** With the layout's four-character prefixes the suffix always starts at column 14. */
  lemma BarLineColumns(prefix: string, v: int, suffix: string)
    requires |prefix| <= 4
    ensures |BarLine(prefix, v, suffix)| == BarColumn + |suffix|
    ensures BarLine(prefix, v, suffix)[BarColumn..] == suffix
    ensures forall i :: |prefix| + |Bar(v)| <= i < BarColumn ==> BarLine(prefix, v, suffix)[i] == ' '
  {
    BarLineParts(prefix, v, suffix);
  }

  /**
   * Lines 384-396 as written: the full-glyph loop, the threshold chain, and
   * the padding loop whose bound is fixed before it starts.
   */
  method BuildBarLine(prefix: string, v: int, suffix: string) returns (line: string)
    ensures line == BarLine(prefix, v, suffix)
  {
    line := AppendBar(prefix, v);
    line := AppendPadding(line, BarColumn);
    line := line + suffix;
  }

  /** Lines 387-393: appends the bar of `v` to `s`. */
  method AppendBar(s: string, v: int) returns (line: string)
    ensures line == s + Bar(v)
  {
    line := s;
    var c := v;
    if c > 99 {
      c := 99;
    }
    assert c == Clamp(v);
    var full := Quot(c, 10);
    var i := 0;
    while i < full
      invariant 0 <= i <= if full < 0 then 0 else full
      invariant line == s + Repeat(Bar5, i)
    {
      RepeatSnoc(Bar5, i);
      line := line + [Bar5];
      i := i + 1;
    }
    if full < 0 {
      assert Repeat(Bar5, full) == [];
    }
    assert line == s + Repeat(Bar5, full);
    var r := Rem(c, 10);
    var before := line;
    if r >= 9 {
      line := line + [Bar5];
    } else if r >= 7 {
      line := line + [Bar4];
    } else if r >= 5 {
      line := line + [Bar3];
    } else if r >= 3 {
      line := line + [Bar2];
    } else if r >= 1 {
      line := line + [Bar1];
    }
    assert line == before + PartialGlyph(r);
  }

  /** Lines 394-395: appends spaces up to column `w`, counting from the length before the loop. */
  method AppendPadding(s: string, w: int) returns (line: string)
    ensures line == PadRight(s, w, ' ')
  {
    line := s;
    var strlen := |line|;
    var i := 0;
    while i < w - strlen
      invariant 0 <= i <= if w - strlen < 0 then 0 else w - strlen
      invariant line == s + Repeat(' ', i)
    {
      RepeatSnoc(' ', i);
      line := line + " ";
      i := i + 1;
    }
    if w - strlen < 0 {
      assert Repeat(' ', w - strlen) == [];
    }
  }
}
