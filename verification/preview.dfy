/**
 * The on-screen mirror of the LCD (`sendToPreviewScreen`, Form1.cs lines
 * 283-303): bar glyphs become printable characters and the line is stored
 * in one of four slots chosen by a rotating index.
 */
module Preview {
  import opened LcdCodes

  /** Lines 289-293: the printable stand-in of each bar glyph. */
  function MirrorChar(c: char): char
  {
    if c == Bar1 then '2'
    else if c == Bar2 then '4'
    else if c == Bar3 then '6'
    else if c == Bar4 then '8'
    else if c == Bar5 then '='
    else c
  }

  /** String.Replace(char, char): every occurrence of `from` becomes `to`. */
  function Replace(s: string, from: char, to: char): (r: string)
    ensures |r| == |s|
    ensures forall i :: 0 <= i < |s| ==> r[i] == (if s[i] == from then to else s[i])
  {
    seq(|s|, i requires 0 <= i < |s| => if s[i] == from then to else s[i])
  }

  /**
   * After a replacement `from` is gone unless it is the replacement itself;
   * a string without `from`, or a replacement by the same character, is
   * unchanged; and the only character that can appear is `to`.
   */
  lemma ReplaceLaws(s: string, from: char, to: char)
    ensures from != to ==> from !in Replace(s, from, to)
    ensures from !in s ==> Replace(s, from, to) == s
    ensures from == to ==> Replace(s, from, to) == s
    ensures forall c :: c != to && c in Replace(s, from, to) ==> c in s
  {
  }

  /**
   * Lines 289-293 as written: five replacements in a row, one per glyph.
   */
  function MirrorChain(s: string): string
  {
    Replace(Replace(Replace(Replace(Replace(s, Bar1, '2'), Bar2, '4'), Bar3, '6'), Bar4, '8'), Bar5, '=')
  }

  /** What the preview shows for a line: each character mirrored on its own. */
  function Mirror(s: string): (r: string)
    ensures |r| == |s|
    ensures forall i :: 0 <= i < |s| ==> r[i] == MirrorChar(s[i])
  {
    seq(|s|, i requires 0 <= i < |s| => MirrorChar(s[i]))
  }

  /**
   * Because no replacement character is itself a glyph, the chain of
   * lines 289-293 acts character by character: glyphs are mapped, every
   * other character is kept, and no glyph is left.
   */
  lemma MirrorChainIsMirror(s: string)
    ensures MirrorChain(s) == Mirror(s)
    ensures forall i :: 0 <= i < |s| ==> !IsBarGlyph(Mirror(s)[i])
    ensures forall i :: 0 <= i < |s| && !IsBarGlyph(s[i]) ==> Mirror(s)[i] == s[i]
  {
  }

  /** `iPreviewLine`, `sPreviewStr1..4` and the preview box's text. */
  datatype Box = Box(line: int, str1: string, str2: string, str3: string, str4: string, text: string)

  /** Lines 283-287: the state at process start. */
  const Initial: Box := Box(1, "", "", "", "", "")

  predicate Valid(p: Box)
  {
    1 <= p.line <= 4
  }

  /** The slot numbered `k`, as `sPreviewStr1..4` are numbered. */
  function Slot(p: Box, k: int): string
  {
    if k == 1 then p.str1 else if k == 2 then p.str2 else if k == 3 then p.str3 else if k == 4 then p.str4 else ""
  }

  /** Lines 299-300: the index after `line`, wrapping after 4. */
  function Next(line: int): int
  {
    if line + 1 > 4 then 1 else line + 1
  }

  /** Lines 301-302: the four slots joined by newlines. */
  function Show(p: Box): string
  {
    p.str1 + "\n" + p.str2 + "\n" + p.str3 + "\n" + p.str4
  }

  /** Lines 295-302: store a mirrored line in the current slot, advance the index, refresh the text. */
  function Store(p: Box, m: string): Box
  {
    var q :=
      if p.line == 1 then p.(str1 := m)
      else if p.line == 2 then p.(str2 := m)
      else if p.line == 3 then p.(str3 := m)
      else if p.line == 4 then p.(str4 := m)
      else p;
    q.(line := Next(p.line), text := Show(q))
  }

  /** Lines 288-303: mirror one line into the current slot and advance the index. */
  function Send(p: Box, s: string): (r: Box)
    ensures Valid(p) ==> Valid(r)
    ensures Valid(p) ==> Slot(r, p.line) == Mirror(s)
    ensures forall k :: k != p.line ==> Slot(r, k) == Slot(p, k)
    ensures p.line < 4 ==> r.line == p.line + 1
    ensures p.line >= 4 ==> r.line == 1
    ensures r.text == Show(r)
  {
    Store(p, Mirror(s))
  }

  /**
   * Four sends from any valid state bring the index back where it started
   * and leave the four lines in the slots in the order they were sent,
   * starting at the original index.
   */
  lemma FourSendsRotate(p: Box, a: string, b: string, c: string, d: string)
    requires Valid(p)
    ensures var r := Send(Send(Send(Send(p, a), b), c), d);
      && r.line == p.line
      && Slot(r, p.line) == Mirror(a)
      && Slot(r, Next(p.line)) == Mirror(b)
      && Slot(r, Next(Next(p.line))) == Mirror(c)
      && Slot(r, Next(Next(Next(p.line)))) == Mirror(d)
  {
    var p1 := Send(p, a);
    var p2 := Send(p1, b);
    var p3 := Send(p2, c);
    assert p1.line == Next(p.line) && p2.line == Next(p1.line) && p3.line == Next(p2.line);
  }
}
