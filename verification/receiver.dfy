/**
 * A reference receiver for the LCD protocol: the meaning the control codes'
 * names give them. Backlight codes switch the light, the line-break code
 * completes the pending row, the clear code empties the screen, and every
 * other character (bar glyphs included) is shown on the pending row.
 * It is the partner against which the monitor's fixed sequences are proved.
 */
module Receiver {
  import opened LcdCodes

  datatype Screen = Screen(lit: bool, rows: seq<string>, pending: string)

  const Blank := Screen(false, [], [])

  function Step(d: Screen, c: char): Screen
  {
    if c == OpenBackLight then d.(lit := true)
    else if c == CloseBackLight then d.(lit := false)
    else if c == ChangeLine then d.(rows := d.rows + [d.pending], pending := [])
    else if c == Clear then d.(rows := [], pending := [])
    else d.(pending := d.pending + [c])
  }

  /** The screen after receiving `w` in order. */
  function Feed(d: Screen, w: string): Screen
    decreases |w|
  {
    if |w| == 0 then d else Step(Feed(d, w[..|w| - 1]), w[|w| - 1])
  }

  lemma {:induction false} FeedAppend(d: Screen, a: string, b: string)
    ensures Feed(d, a + b) == Feed(Feed(d, a), b)
    decreases |b|
  {
    if |b| == 0 {
      assert a + b == a;
    } else {
      assert (a + b)[..|a + b| - 1] == a + b[..|b| - 1];
      FeedAppend(d, a, b[..|b| - 1]);
    }
  }

  /** Text without commands only extends the pending row. */
  lemma {:induction false} FeedText(d: Screen, s: string)
    requires IsDisplayText(s)
    ensures Feed(d, s) == d.(pending := d.pending + s)
    decreases |s|
  {
    if |s| > 0 {
      FeedText(d, s[..|s| - 1]);
      assert d.pending + s[..|s| - 1] + [s[|s| - 1]] == d.pending + s;
    }
  }

  /** Whatever was on the screen, the connect sequence leaves it lit and empty. */
  lemma FeedConnect(d: Screen)
    ensures Feed(d, ConnectSequence) == Screen(true, [], [])
  {
    assert ConnectSequence[..1] == [OpenBackLight];
    assert [OpenBackLight][..0] == [];
  }

  /** Whatever was on the screen, the disconnect sequence leaves it dark and empty. */
  lemma FeedDisconnect(d: Screen)
    ensures Feed(d, DisconnectSequence) == Screen(false, [], [])
  {
    assert DisconnectSequence[..1] == [Clear];
    assert [Clear][..0] == [];
  }

  /** An error frame shows exactly its message, lit, on an otherwise empty screen. */
  lemma FeedErrorFrame(d: Screen, msg: string)
    requires IsDisplayText(msg)
    ensures Feed(d, ErrorFrame(msg)) == Screen(true, [msg], [])
  {
    var lit := Screen(true, [], []);
    FeedAppend(d, ConnectSequence + msg, [ChangeLine]);
    FeedAppend(d, ConnectSequence, msg);
    FeedConnect(d);
    FeedText(lit, msg);
    assert [] + msg == msg;
    assert Feed(d, ConnectSequence + msg) == Screen(true, [], msg);
    assert [ChangeLine][..0] == [];
  }

  /** One encoded line completes exactly one row holding that line. */
  lemma FeedLine(d: Screen, line: string)
    requires IsDisplayText(line)
    ensures Feed(d, LineOut(line)) == d.(rows := d.rows + [d.pending + line], pending := [])
  {
    FeedAppend(d, line, [ChangeLine]);
    FeedText(d, line);
    assert [ChangeLine][..0] == [];
  }

  /**
   * Round trip of the line protocol: feeding the encoding of command-free
   * lines to a screen with nothing pending appends exactly those lines as rows.
   */
  lemma {:induction false} FeedEncode(d: Screen, lines: seq<string>)
    requires d.pending == []
    requires forall k :: 0 <= k < |lines| ==> IsDisplayText(lines[k])
    ensures Feed(d, Encode(lines)) == d.(rows := d.rows + lines)
    decreases |lines|
  {
    if |lines| > 0 {
      var init := lines[..|lines| - 1];
      FeedEncode(d, init);
      FeedAppend(d, Encode(init), LineOut(lines[|lines| - 1]));
      var last := lines[|lines| - 1];
      assert Encode(lines) == Encode(init) + LineOut(last);
      FeedLine(d.(rows := d.rows + init), last);
      assert [] + last == last;
      assert d.rows + init + [last] == d.rows + lines;
    }
  }

  /** Encoding loses nothing: command-free frames with the same encoding are the same frame. */
  lemma EncodeInjective(a: seq<string>, b: seq<string>)
    requires forall k :: 0 <= k < |a| ==> IsDisplayText(a[k])
    requires forall k :: 0 <= k < |b| ==> IsDisplayText(b[k])
    requires Encode(a) == Encode(b)
    ensures a == b
  {
    FeedEncode(Blank, a);
    FeedEncode(Blank, b);
    assert Feed(Blank, Encode(a)).rows == a;
    assert Feed(Blank, Encode(b)).rows == b;
  }
}
