/**
 * The serial character LCD's control alphabet (Form1.cs lines 18-27) and
 * the fixed byte sequences the monitor writes around rendered text.
 * The wire is modelled as a string: every character the monitor writes is
 * ASCII, so the port's ASCII encoding sends one byte per character.
 */
module LcdCodes {
  import opened Text

  /** Bar glyphs of increasing fill; Bar5 is a full cell. */
  const Bar1: char := 23 as char
  const Bar2: char := 24 as char
  const Bar3: char := 25 as char
  const Bar4: char := 26 as char
  const Bar5: char := 27 as char

  const OpenBackLight: char := 28 as char
  const CloseBackLight: char := 29 as char
  const ChangeLine: char := 30 as char
  const Clear: char := 31 as char

  predicate IsBarGlyph(c: char)
  {
    Bar1 <= c <= Bar5
  }

  /** Codes the display executes instead of showing. */
  predicate IsCommand(c: char)
  {
    OpenBackLight <= c <= Clear
  }

  /** A string that the display shows as text: it carries no command code. */
  predicate IsDisplayText(s: string)
  {
    forall i :: 0 <= i < |s| ==> !IsCommand(s[i])
  }

  lemma DisplayTextConcat(a: string, b: string)
    ensures IsDisplayText(a + b) <==> IsDisplayText(a) && IsDisplayText(b)
  {
    if IsDisplayText(a) && IsDisplayText(b) {
      forall i | 0 <= i < |a + b|
        ensures !IsCommand((a + b)[i])
      {
        if i >= |a| {
          assert (a + b)[i] == b[i - |a|];
        }
      }
    }
    if IsDisplayText(a + b) {
      forall i | 0 <= i < |a|
        ensures !IsCommand(a[i])
      {
        assert (a + b)[i] == a[i];
      }
      forall i | 0 <= i < |b|
        ensures !IsCommand(b[i])
      {
        assert (a + b)[|a| + i] == b[i];
      }
    }
  }

  /** Fill level of a bar glyph, in fifths of a cell. */
  function GlyphLevel(c: char): (l: int)
    requires IsBarGlyph(c)
    ensures 1 <= l <= 5
  {
    c as int - 22
  }

  /** Written by the connect button once the port opens (lines 111-112). */
  const ConnectSequence: string := [OpenBackLight, Clear]

  /** Written on disconnect and on closing the window when the port is open (lines 77-78, 197-198). */
  const DisconnectSequence: string := [Clear, CloseBackLight]

  /** What a tick writes when it cannot show sensor data (lines 214-217, 226-229). */
  function ErrorFrame(msg: string): string
  {
    ConnectSequence + msg + [ChangeLine]
  }

  /** One rendered line on the wire: its text, then one line break. */
  function LineOut(line: string): string
  {
    line + [ChangeLine]
  }

  /** The lines of one render, in order, each followed by its line break. */
  function Encode(lines: seq<string>): string
  {
    if |lines| == 0 then [] else Encode(lines[..|lines| - 1]) + LineOut(lines[|lines| - 1])
  }
}
