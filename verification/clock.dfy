/**
 * The first line of the 20x4 layout (Form1.cs lines 369-380): the local
 * time formatted with the en-US culture as "ddd yyyy-MM-dd HH:mm", or with
 * a space in place of the colon on alternate renders. The clock is an input.
 */
module Clock {
  import opened Text
  import opened Decimal
  import opened LcdCodes

  datatype DayOfWeek = Sunday | Monday | Tuesday | Wednesday | Thursday | Friday | Saturday

  /** The fields of DateTime.Now that the monitor reads. */
  datatype Instant = Instant(weekday: DayOfWeek, year: int, month: int, day: int, hour: int, minute: int)

  /** The ranges a DateTime guarantees for these fields. */
  predicate Valid(t: Instant)
  {
    && 1 <= t.year <= 9999
    && 1 <= t.month <= 12
    && 1 <= t.day <= 31
    && 0 <= t.hour < 24
    && 0 <= t.minute < 60
  }

  /** The en-US abbreviated day names of the "ddd" field. */
  function DayName(d: DayOfWeek): (s: string)
    ensures |s| == 3
  {
    match d
    case Sunday => "Sun"
    case Monday => "Mon"
    case Tuesday => "Tue"
    case Wednesday => "Wed"
    case Thursday => "Thu"
    case Friday => "Fri"
    case Saturday => "Sat"
  }

  /** Lines 371-377: the date and time, with the colon shown when `colon` holds. */
  function Stamp(t: Instant, colon: bool): (s: string)
    requires Valid(t)
    ensures |s| == 20
    ensures s[17] == if colon then ':' else ' '
  {
    ZeroPaddedWidth(t.year, 4);
    ZeroPaddedWidth(t.month, 2);
    ZeroPaddedWidth(t.day, 2);
    ZeroPaddedWidth(t.hour, 2);
    ZeroPaddedWidth(t.minute, 2);
    DayName(t.weekday) + " " + ZeroPadded(t.year, 4) + "-" + ZeroPadded(t.month, 2) + "-"
    + ZeroPadded(t.day, 2) + " " + ZeroPadded(t.hour, 2) + (if colon then ":" else " ")
    + ZeroPadded(t.minute, 2)
  }

  /** Every field of the instant can be read back from its column of the stamp. */
  lemma StampFields(t: Instant, colon: bool)
    requires Valid(t)
    ensures Stamp(t, colon)[..3] == DayName(t.weekday)
    ensures AllDigits(Stamp(t, colon)[4..8]) && ParseDigits(Stamp(t, colon)[4..8]) == t.year
    ensures AllDigits(Stamp(t, colon)[9..11]) && ParseDigits(Stamp(t, colon)[9..11]) == t.month
    ensures AllDigits(Stamp(t, colon)[12..14]) && ParseDigits(Stamp(t, colon)[12..14]) == t.day
    ensures AllDigits(Stamp(t, colon)[15..17]) && ParseDigits(Stamp(t, colon)[15..17]) == t.hour
    ensures AllDigits(Stamp(t, colon)[18..20]) && ParseDigits(Stamp(t, colon)[18..20]) == t.minute
  {
    var s := Stamp(t, colon);
    StampColumns(t, colon);
    ZeroPaddedRoundTrip(t.year, 4);
    ZeroPaddedRoundTrip(t.month, 2);
    ZeroPaddedRoundTrip(t.day, 2);
    ZeroPaddedRoundTrip(t.hour, 2);
    ZeroPaddedRoundTrip(t.minute, 2);
  }

  /** The stamp's columns hold the day name and the zero-padded fields, and nothing else varies. */
  lemma {:induction false} StampColumns(t: Instant, colon: bool)
    requires Valid(t)
    ensures Stamp(t, colon)[..3] == DayName(t.weekday)
    ensures Stamp(t, colon)[4..8] == ZeroPadded(t.year, 4)
    ensures Stamp(t, colon)[9..11] == ZeroPadded(t.month, 2)
    ensures Stamp(t, colon)[12..14] == ZeroPadded(t.day, 2)
    ensures Stamp(t, colon)[15..17] == ZeroPadded(t.hour, 2)
    ensures Stamp(t, colon)[18..20] == ZeroPadded(t.minute, 2)
    ensures Stamp(t, colon)[..17] == Stamp(t, !colon)[..17]
  {
    var y, mo, d, h, mi := ZeroPadded(t.year, 4), ZeroPadded(t.month, 2), ZeroPadded(t.day, 2),
      ZeroPadded(t.hour, 2), ZeroPadded(t.minute, 2);
    ZeroPaddedWidth(t.year, 4);
    ZeroPaddedWidth(t.month, 2);
    ZeroPaddedWidth(t.day, 2);
    ZeroPaddedWidth(t.hour, 2);
    ZeroPaddedWidth(t.minute, 2);
    var sep := if colon then ":" else " ";
    var p0 := DayName(t.weekday) + " ";
    var p1 := p0 + y;
    var p2 := p1 + "-";
    var p3 := p2 + mo;
    var p4 := p3 + "-";
    var p5 := p4 + d;
    var p6 := p5 + " ";
    var p7 := p6 + h;
    var p8 := p7 + sep;
    var s := p8 + mi;
    assert s == Stamp(t, colon);
    assert s[..|s|] == s;
    Peel(p8, mi, s);
    Peel(p7, sep, s);
    Peel(p6, h, s);
    Peel(p5, " ", s);
    Peel(p4, d, s);
    Peel(p3, "-", s);
    Peel(p2, mo, s);
    Peel(p1, "-", s);
    Peel(p0, y, s);
    Peel(DayName(t.weekday), " ", s);
    var s' := p7 + (if colon then " " else ":") + mi;
    assert s' == Stamp(t, !colon);
    assert s'[..|s'|] == s';
    Peel(p7 + (if colon then " " else ":"), mi, s');
    Peel(p7, if colon then " " else ":", s');
  }

  /** A string that starts with `p + b` has `p` and then `b` in those columns. */
  lemma Peel(p: string, b: string, s: string)
    requires |p| + |b| <= |s| && s[..|p| + |b|] == p + b
    ensures s[..|p|] == p
    ensures s[|p|..|p| + |b|] == b
  {
    assert s[..|p|] == s[..|p| + |b|][..|p|];
    assert s[|p|..|p| + |b|] == s[..|p| + |b|][|p|..];
  }

  /** The two stamps of one instant differ in the separator column only. */
  lemma StampToggleOnlySeparator(t: Instant)
    requires Valid(t)
    ensures forall i :: 0 <= i < 20 && i != 17 ==> Stamp(t, true)[i] == Stamp(t, false)[i]
    ensures Stamp(t, true)[17] != Stamp(t, false)[17]
  {
    var a, b := Stamp(t, true), Stamp(t, false);
    StampColumns(t, true);
    StampColumns(t, false);
    forall i | 0 <= i < 20 && i != 17
      ensures a[i] == b[i]
    {
      if i < 17 {
        assert a[i] == a[..17][i] && b[i] == b[..17][i];
      } else {
        assert a[i] == a[18..20][i - 18] && b[i] == b[18..20][i - 18];
      }
    }
  }

  /** The characters after the day name: digits, the separators and the blinking colon. */
  predicate Plain(c: char)
  {
    IsDigit(c) || c == ' ' || c == '-' || c == ':'
  }

  predicate AllPlain(s: string)
  {
    forall i :: 0 <= i < |s| ==> Plain(s[i])
  }

  /** Every character of `s` from index `k` on is plain. */
  predicate PlainFrom(s: string, k: nat)
  {
    forall i :: k <= i < |s| ==> Plain(s[i])
  }

  lemma PlainFromConcat(a: string, b: string, k: nat)
    requires k <= |a| && PlainFrom(a, k) && AllPlain(b)
    ensures PlainFrom(a + b, k)
  {
    forall i | k <= i < |a + b|
      ensures Plain((a + b)[i])
    {
      if i < |a| {
        assert (a + b)[i] == a[i];
      } else {
        assert (a + b)[i] == b[i - |a|];
      }
    }
  }

  /** Everything after the day name is digits and separators. */
  lemma {:induction false} StampTailPlain(t: Instant, colon: bool)
    requires Valid(t)
    ensures PlainFrom(Stamp(t, colon), 3)
  {
    var y, mo, d, h, mi := ZeroPadded(t.year, 4), ZeroPadded(t.month, 2), ZeroPadded(t.day, 2),
      ZeroPadded(t.hour, 2), ZeroPadded(t.minute, 2);
    var sep := if colon then ":" else " ";
    var acc := DayName(t.weekday) + " ";
    assert PlainFrom(acc, 3);
    PlainFromConcat(acc, y, 3);
    acc := acc + y;
    PlainFromConcat(acc, "-", 3);
    acc := acc + "-";
    PlainFromConcat(acc, mo, 3);
    acc := acc + mo;
    PlainFromConcat(acc, "-", 3);
    acc := acc + "-";
    PlainFromConcat(acc, d, 3);
    acc := acc + d;
    PlainFromConcat(acc, " ", 3);
    acc := acc + " ";
    PlainFromConcat(acc, h, 3);
    acc := acc + h;
    PlainFromConcat(acc, sep, 3);
    acc := acc + sep;
    PlainFromConcat(acc, mi, 3);
    acc := acc + mi;
    assert acc == Stamp(t, colon);
  }

  /** A stamp is shown as text: it carries no display command. */
  lemma StampIsDisplayText(t: Instant, colon: bool)
    requires Valid(t)
    ensures IsDisplayText(Stamp(t, colon))
  {
    var s := Stamp(t, colon);
    StampTailPlain(t, colon);
    StampColumns(t, colon);
    forall i | 0 <= i < |s|
      ensures !IsCommand(s[i])
    {
      if i < 3 {
        assert s[i] == DayName(t.weekday)[i];
      }
    }
  }

  /** Line 380: upper-casing for the preview changes the day name only. */
  lemma UpperStamp(t: Instant, colon: bool)
    requires Valid(t)
    ensures Upper(Stamp(t, colon))[..3] == Upper(DayName(t.weekday))
    ensures Upper(Stamp(t, colon))[3..] == Stamp(t, colon)[3..]
  {
    var s := Stamp(t, colon);
    StampTailPlain(t, colon);
    StampColumns(t, colon);
    forall i | 3 <= i < 20
      ensures UpperChar(s[i]) == s[i]
    {
      assert Plain(s[i]);
    }
  }
}
