/**
 * The two screen layouts of Form1.cs: `HAO` (lines 362-434, the one the
 * tick calls: clock, then CPU, RAM and GPU load bars) and `LIU` (lines
 * 305-360: clocks, voltages, temperatures and fan speeds). Each layout
 * first looks its readings up, then formats four lines; each line is
 * mirrored to the preview and, when the port is open, written followed by
 * one line break. Floating-point fields arrive already formatted.
 */
module Render {
  import opened Wrappers
  import opened Int32Arith
  import opened Text
  import opened Decimal
  import opened LcdCodes
  import opened BarGraph
  import opened Clock
  import opened Sensors
  import Preview
  import Receiver

  /** The state renders carry from one to the next: `bColon` and the preview mirror. */
  datatype Session = Session(colon: bool, preview: Preview.Box)

  /** Lines 283-287 and 362: the state at process start. */
  const Start: Session := Session(true, Preview.Initial)

  /** What one render produces: its lines, the characters written to the port, the next state. */
  datatype Output = Output(lines: seq<string>, wire: string, session: Session)

  function Q(name: string): Query
  {
    Query(name, None)
  }

  /** The five readings `HAO` looks up (lines 385-386, 402, 419-420). */
  datatype HaoValues = HaoValues(cpuLoad: i32, cpuTemp: i32, ramLoad: i32, gpuLoad: i32, gpuTemp: i32)

  function HaoLookup(rs: seq<Reading>): HaoValues
  {
    HaoValues(ValueOf(rs, Q("Total CPU Usage")), ValueOf(rs, Q("CPU Package")),
      ValueOf(rs, Q("Physical Memory Load")), ValueOf(rs, Q("GPU Core Load")),
      ValueOf(rs, Q("GPU Temperature")))
  }

  /** `String.Format("| {0,2}'c", t)`: a temperature suffix. */
  function TempSuffix(t: int): string
  {
    "| " + Aligned(t, 2) + "'c"
  }

  /** `"|" + String.Format("{0,4:0.0}", used / 1024) + "G"`, the figure given formatted. */
  function RamSuffix(ramUsed: string): string
  {
    "|" + ramUsed + "G"
  }

  /** The four lines of the bar layout, in order (lines 369-432), below the given clock line. */
  function HaoLines(stamp: string, v: HaoValues, ramUsed: string): seq<string>
  {
    [ stamp,
      BarLine("Cpu ", v.cpuLoad, TempSuffix(v.cpuTemp)),
      BarLine("Ram ", v.ramLoad, RamSuffix(ramUsed)),
      BarLine("Gpu ", v.gpuLoad, TempSuffix(v.gpuTemp)) ]
  }

  /** The characters lines 381, 398, 415 and 432 write: each line, then one line break. */
  function WriteLines(lines: seq<string>, portOpen: bool): (w: string)
    requires |lines| == 4
    ensures portOpen ==> w == Encode(lines)
    ensures portOpen ==> |w| > 0 && w[|w| - 1] == ChangeLine
    ensures !portOpen ==> w == []
  {
    EncodeFour(lines);
    if portOpen then LineOut(lines[0]) + LineOut(lines[1]) + LineOut(lines[2]) + LineOut(lines[3]) else []
  }

  lemma EncodeFour(lines: seq<string>)
    requires |lines| == 4
    ensures Encode(lines) == LineOut(lines[0]) + LineOut(lines[1]) + LineOut(lines[2]) + LineOut(lines[3])
  {
    assert lines[..3][..2] == lines[..2] && lines[..2][..1] == lines[..1] && lines[..1][..0] == [];
    assert Encode(lines[..1]) == Encode([]) + LineOut(lines[0]);
    assert Encode(lines[..2]) == Encode(lines[..1]) + LineOut(lines[1]);
    assert Encode(lines[..3]) == Encode(lines[..2]) + LineOut(lines[2]);
    assert Encode(lines) == Encode(lines[..3]) + LineOut(lines[3]);
  }

  /** Mirrors four lines in order. */
  function MirrorFour(p: Preview.Box, a: string, b: string, c: string, d: string): Preview.Box
  {
    Preview.Send(Preview.Send(Preview.Send(Preview.Send(p, a), b), c), d)
  }

  /**
   * `HAO` (lines 363-434). `ramUsed` is `{0,4:0.0}` applied to the
   * "Physical Memory Used" reading divided by 1024 (line 413). The clock
   * line goes to the preview upper-cased (line 380) and to the port as is.
   */
  function Hao(s: Session, now: Instant, rs: seq<Reading>, ramUsed: string, portOpen: bool): (o: Output)
    requires Valid(now)
    ensures |o.lines| == 4
    ensures o.session.colon == !s.colon
    ensures |o.lines[0]| == 20 && o.lines[0][17] == (if s.colon then ':' else ' ')
    ensures portOpen ==> o.wire == Encode(o.lines)
    ensures portOpen ==> |o.wire| > 0 && o.wire[|o.wire| - 1] == ChangeLine
    ensures !portOpen ==> o.wire == []
  {
    var lines := HaoLines(Stamp(now, s.colon), HaoLookup(rs), ramUsed);
    Output(lines, WriteLines(lines, portOpen),
      Session(!s.colon, MirrorFour(s.preview, Upper(lines[0]), lines[1], lines[2], lines[3])))
  }

  /**
   * The first render after process start (lines 283-287 and 362) shows the
   * colon, clears `bColon`, and fills the preview slots 1 to 4 in order.
   */
  lemma FirstRender(now: Instant, rs: seq<Reading>, ramUsed: string, portOpen: bool)
    requires Valid(now)
    ensures var o := Hao(Start, now, rs, ramUsed, portOpen);
      && o.lines[0][17] == ':' && !o.session.colon
      && o.session.preview.line == 1
      && Preview.Slot(o.session.preview, 1) == Preview.Mirror(Upper(o.lines[0]))
      && Preview.Slot(o.session.preview, 2) == Preview.Mirror(o.lines[1])
      && Preview.Slot(o.session.preview, 3) == Preview.Mirror(o.lines[2])
      && Preview.Slot(o.session.preview, 4) == Preview.Mirror(o.lines[3])
  {
    HaoPreview(Start, now, rs, ramUsed, portOpen);
  }

  /** Two renders in a row restore `bColon`, so the clock's colon blinks with period two. */
  lemma HaoColonBlinks(s: Session, t1: Instant, t2: Instant, rs1: seq<Reading>, rs2: seq<Reading>,
                       ram1: string, ram2: string, open1: bool, open2: bool)
    requires Valid(t1) && Valid(t2)
    ensures var o1 := Hao(s, t1, rs1, ram1, open1);
      var o2 := Hao(o1.session, t2, rs2, ram2, open2);
      && o2.session.colon == s.colon
      && (o1.lines[0][17] == ':' <==> o2.lines[0][17] == ' ')
  {
  }

  /** The bar lines: prefix, the bar of the looked-up load, and the suffix from column 14. */
  lemma HaoBars(stamp: string, v: HaoValues, ramUsed: string)
    ensures var lines := HaoLines(stamp, v, ramUsed);
      && lines[1][..4] == "Cpu " && lines[1][4..4 + |Bar(v.cpuLoad)|] == Bar(v.cpuLoad)
      && lines[2][..4] == "Ram " && lines[2][4..4 + |Bar(v.ramLoad)|] == Bar(v.ramLoad)
      && lines[3][..4] == "Gpu " && lines[3][4..4 + |Bar(v.gpuLoad)|] == Bar(v.gpuLoad)
      && lines[1][BarColumn..] == TempSuffix(v.cpuTemp)
      && lines[2][BarColumn..] == RamSuffix(ramUsed)
      && lines[3][BarColumn..] == TempSuffix(v.gpuTemp)
  {
    var lines := HaoLines(stamp, v, ramUsed);
    BarLineLayout("Cpu ", v.cpuLoad, TempSuffix(v.cpuTemp));
    BarLineLayout("Ram ", v.ramLoad, RamSuffix(ramUsed));
    BarLineLayout("Gpu ", v.gpuLoad, TempSuffix(v.gpuTemp));
    assert lines[1] == BarLine("Cpu ", v.cpuLoad, TempSuffix(v.cpuTemp));
    assert lines[2] == BarLine("Ram ", v.ramLoad, RamSuffix(ramUsed));
    assert lines[3] == BarLine("Gpu ", v.gpuLoad, TempSuffix(v.gpuTemp));
  }

  /** One bar line of the layout: a four-column prefix, the bar, and the suffix from column 14. */
  lemma BarLineLayout(prefix: string, v: int, suffix: string)
    requires |prefix| == 4
    ensures var line := BarLine(prefix, v, suffix);
      && line[..4] == prefix && line[4..4 + |Bar(v)|] == Bar(v) && line[BarColumn..] == suffix
  {
    BarLineParts(prefix, v, suffix);
    BarLineColumns(prefix, v, suffix);
  }

  /** A bar line with a temperature suffix is 20 columns exactly when the temperature prints in two. */
  lemma TempBarLineWidth(prefix: string, v: int, t: int)
    requires |prefix| == 4
    ensures |BarLine(prefix, v, TempSuffix(t))| == 20 <==> -9 <= t <= 99
  {
    AlignedExactWidth(t, 2);
    BarLineColumns(prefix, v, TempSuffix(t));
  }

  /**
   * Every line of a render is exactly 20 columns, the width of the LCD,
   * when both temperatures print in two columns and the memory figure in four.
   */
  lemma HaoColumns(colon: bool, now: Instant, v: HaoValues, ramUsed: string)
    requires Valid(now)
    requires -9 <= v.cpuTemp <= 99 && -9 <= v.gpuTemp <= 99
    requires |ramUsed| == 4
    ensures forall k :: 0 <= k < 4 ==> |HaoLines(Stamp(now, colon), v, ramUsed)[k]| == 20
  {
    LinesWidth(Stamp(now, colon), v, ramUsed);
  }

  lemma LinesWidth(stamp: string, v: HaoValues, ramUsed: string)
    requires |stamp| == 20
    requires -9 <= v.cpuTemp <= 99 && -9 <= v.gpuTemp <= 99
    requires |ramUsed| == 4
    ensures forall k :: 0 <= k < 4 ==> |HaoLines(stamp, v, ramUsed)[k]| == 20
  {
    TempBarLineWidth("Cpu ", v.cpuLoad, v.cpuTemp);
    BarLineColumns("Ram ", v.ramLoad, RamSuffix(ramUsed));
    TempBarLineWidth("Gpu ", v.gpuLoad, v.gpuTemp);
    var lines := HaoLines(stamp, v, ramUsed);
    forall k | 0 <= k < 4
      ensures |lines[k]| == 20
    {
      if k == 1 {
        assert lines[k] == BarLine("Cpu ", v.cpuLoad, TempSuffix(v.cpuTemp));
      } else if k == 2 {
        assert lines[k] == BarLine("Ram ", v.ramLoad, RamSuffix(ramUsed));
      } else if k == 3 {
        assert lines[k] == BarLine("Gpu ", v.gpuLoad, TempSuffix(v.gpuTemp));
      }
    }
  }

  /** The digits and sign of an aligned number are shown as text. */
  lemma AlignedIsDisplayText(n: int, w: int)
    ensures IsDisplayText(Aligned(n, w))
  {
    var d := Digits(if n < 0 then -n else n);
    assert IsDisplayText(d) by {
      forall i | 0 <= i < |d|
        ensures !IsCommand(d[i])
      {
        assert IsDigit(d[i]);
      }
    }
    var t := IntString(n);
    if n < 0 {
      DisplayTextConcat("-", d);
    }
    var a := Aligned(n, w);
    forall i | 0 <= i < |a|
      ensures !IsCommand(a[i])
    {
      if i >= |a| - |t| {
        assert a[i] == a[|a| - |t|..][i - (|a| - |t|)] == t[i - (|a| - |t|)];
      }
    }
  }

  lemma BarLineIsDisplayText(prefix: string, v: int, suffix: string)
    requires IsDisplayText(prefix) && IsDisplayText(suffix)
    ensures IsDisplayText(BarLine(prefix, v, suffix))
  {
    var b := Bar(v);
    assert IsDisplayText(b) by {
      forall i | 0 <= i < |b|
        ensures !IsCommand(b[i])
      {
        assert IsBarGlyph(b[i]);
      }
    }
    DisplayTextConcat(prefix, b);
    var padded := PadRight(prefix + b, BarColumn, ' ');
    assert IsDisplayText(padded) by {
      forall i | 0 <= i < |padded|
        ensures !IsCommand(padded[i])
      {
        if i < |prefix + b| {
          assert padded[i] == padded[..|prefix + b|][i] == (prefix + b)[i];
        }
      }
    }
    DisplayTextConcat(padded, suffix);
  }

  lemma TempSuffixIsDisplayText(t: int)
    ensures IsDisplayText(TempSuffix(t))
  {
    AlignedIsDisplayText(t, 2);
    DisplayTextConcat("| ", Aligned(t, 2));
    DisplayTextConcat("| " + Aligned(t, 2), "'c");
  }

  lemma RamSuffixIsDisplayText(ramUsed: string)
    requires IsDisplayText(ramUsed)
    ensures IsDisplayText(RamSuffix(ramUsed))
  {
    DisplayTextConcat("|", ramUsed);
    DisplayTextConcat("|" + ramUsed, "G");
  }

  lemma PrefixesAreDisplayText()
    ensures IsDisplayText("Cpu ") && IsDisplayText("Ram ") && IsDisplayText("Gpu ")
  {
  }

  lemma HaoLinesAreDisplayText(stamp: string, v: HaoValues, ramUsed: string)
    requires IsDisplayText(stamp) && IsDisplayText(ramUsed)
    ensures forall k :: 0 <= k < 4 ==> IsDisplayText(HaoLines(stamp, v, ramUsed)[k])
  {
    PrefixesAreDisplayText();
    TempSuffixIsDisplayText(v.cpuTemp);
    TempSuffixIsDisplayText(v.gpuTemp);
    RamSuffixIsDisplayText(ramUsed);
    BarLineIsDisplayText("Cpu ", v.cpuLoad, TempSuffix(v.cpuTemp));
    BarLineIsDisplayText("Ram ", v.ramLoad, RamSuffix(ramUsed));
    BarLineIsDisplayText("Gpu ", v.gpuLoad, TempSuffix(v.gpuTemp));
    var lines := HaoLines(stamp, v, ramUsed);
    forall k | 0 <= k < 4
      ensures IsDisplayText(lines[k])
    {
      if k == 0 {
        assert lines[k] == stamp;
      } else if k == 1 {
        assert lines[k] == BarLine("Cpu ", v.cpuLoad, TempSuffix(v.cpuTemp));
      } else if k == 2 {
        assert lines[k] == BarLine("Ram ", v.ramLoad, RamSuffix(ramUsed));
      } else {
        assert lines[k] == BarLine("Gpu ", v.gpuLoad, TempSuffix(v.gpuTemp));
      }
    }
  }

  /**
   * What the LCD shows: after a render's characters reach a screen with no
   * pending row, its rows have gained exactly the four rendered lines, one
   * row per line; nothing is lost or merged. Needs only that the formatted
   * memory figure carries no display command.
   */
  lemma HaoOnScreen(s: Session, now: Instant, rs: seq<Reading>, ramUsed: string, d: Receiver.Screen)
    requires Valid(now)
    requires IsDisplayText(ramUsed)
    requires d.pending == []
    ensures var o := Hao(s, now, rs, ramUsed, true);
      Receiver.Feed(d, o.wire) == d.(rows := d.rows + o.lines)
  {
    var stamp := Stamp(now, s.colon);
    StampIsDisplayText(now, s.colon);
    HaoLinesAreDisplayText(stamp, HaoLookup(rs), ramUsed);
    Receiver.FeedEncode(d, HaoLines(stamp, HaoLookup(rs), ramUsed));
  }

  /**
   * The preview after a render holds the four lines, bar glyphs replaced
   * and the clock upper-cased, starting at the slot the index pointed to;
   * the index ends where it began.
   */
  lemma HaoPreview(s: Session, now: Instant, rs: seq<Reading>, ramUsed: string, portOpen: bool)
    requires Valid(now)
    requires Preview.Valid(s.preview)
    ensures var o := Hao(s, now, rs, ramUsed, portOpen);
      var k := s.preview.line;
      && o.session.preview.line == k
      && Preview.Slot(o.session.preview, k) == Preview.Mirror(Upper(o.lines[0]))
      && Preview.Slot(o.session.preview, Preview.Next(k)) == Preview.Mirror(o.lines[1])
      && Preview.Slot(o.session.preview, Preview.Next(Preview.Next(k))) == Preview.Mirror(o.lines[2])
      && Preview.Slot(o.session.preview, Preview.Next(Preview.Next(Preview.Next(k)))) == Preview.Mirror(o.lines[3])
  {
    var lines := HaoLines(Stamp(now, s.colon), HaoLookup(rs), ramUsed);
    var o := Hao(s, now, rs, ramUsed, portOpen);
    assert o.lines == lines;
    assert o.session.preview == MirrorFour(s.preview, Upper(lines[0]), lines[1], lines[2], lines[3]);
    Preview.FourSendsRotate(s.preview, Upper(lines[0]), lines[1], lines[2], lines[3]);
  }

  /** The averaging of lines 335-337: `(a + b) / 2` in `int` arithmetic. */
  function Average(a: i32, b: i32): i32
  {
    Quot(Wrap32(a + b), 2)
  }

  /** Without overflow the average lies between the two values, rounded toward zero. */
  lemma AverageBounds(a: i32, b: i32)
    requires Int32Min <= a + b <= Int32Max
    ensures (if a < b then a else b) <= Average(a, b) <= (if a < b then b else a)
    ensures a + b >= 0 ==> 0 <= a + b - 2 * Average(a, b) <= 1
    ensures a + b < 0 ==> -1 <= a + b - 2 * Average(a, b) <= 0
  {
  }

  /** The ten readings `LIU` looks up (lines 312-356). */
  datatype LiuValues = LiuValues(
    coreClock: i32, cpuTemp: i32, memClock: i32, dimm2: i32, dimm3: i32,
    gpuClock: i32, gpuMemClock: i32, gpuTemp: i32, fan1: i32, fan2: i32)

  /** Lines 312-356; only the fan lookups narrow by unit. */
  function LiuLookup(rs: seq<Reading>): LiuValues
  {
    LiuValues(ValueOf(rs, Q("Core 0 Clock (perf #1/4)")), ValueOf(rs, Q("CPU (Tctl/Tdie)")),
      ValueOf(rs, Q("Memory Clock")), ValueOf(rs, Q("DIMM[2] Temperature")),
      ValueOf(rs, Q("DIMM[3] Temperature")), ValueOf(rs, Q("GPU Clock")),
      ValueOf(rs, Q("GPU Memory Clock")), ValueOf(rs, Q("GPU Temperature")),
      ValueOf(rs, Query("CPU1", Some("RPM"))), ValueOf(rs, Query("CPU2", Some("RPM"))))
  }

  /** `LIU`'s lines (lines 315, 338, 348, 357). `cpuVolts` and `dramVolts` are `{1:0.000}` of the voltage readings. */
  function LiuLines(v: LiuValues, cpuVolts: string, dramVolts: string): seq<string>
  {
    [ "Cpu|" + Aligned(v.coreClock, 4) + "@" + cpuVolts + "V|" + Aligned(v.cpuTemp, 2) + "'c",
      "Ram|" + Aligned(Wrap32(v.memClock * 2), 4) + "@" + dramVolts + "V|"
        + Aligned(Average(v.dimm2, v.dimm3), 2) + "'c",
      "Gpu|" + Aligned(v.gpuClock, 4) + "/" + Aligned(v.gpuMemClock, 4) + "  |" + Aligned(v.gpuTemp, 2) + "'c",
      "Fan|" + Aligned(v.fan1, 4) + "   Pump|" + Aligned(v.fan2, 4) ]
  }

  /** `LIU` (lines 305-360): no clock line, so `bColon` is untouched. */
  function Liu(s: Session, rs: seq<Reading>, cpuVolts: string, dramVolts: string, portOpen: bool): (o: Output)
    ensures |o.lines| == 4
    ensures o.session.colon == s.colon
    ensures portOpen ==> o.wire == Encode(o.lines)
    ensures !portOpen ==> o.wire == []
  {
    var lines := LiuLines(LiuLookup(rs), cpuVolts, dramVolts);
    Output(lines, WriteLines(lines, portOpen),
      s.(preview := MirrorFour(s.preview, lines[0], lines[1], lines[2], lines[3])))
  }

  /** The fan line is exactly 20 columns when both speeds print in four. */
  lemma LiuFanColumns(v: LiuValues, cpuVolts: string, dramVolts: string)
    requires 0 <= v.fan1 < 10000 && 0 <= v.fan2 < 10000
    ensures |LiuLines(v, cpuVolts, dramVolts)[3]| == 20
  {
    AlignedExactWidth(v.fan1, 4);
    AlignedExactWidth(v.fan2, 4);
  }

  /** The fan speeds come from the first "CPU1"/"CPU2" readings in RPM; same-named readings in other units are skipped. */
  lemma LiuFanByUnit(rs: seq<Reading>, other: seq<Reading>)
    requires forall j :: 0 <= j < |other| ==> other[j].unit != "RPM"
    ensures LiuLookup(other + rs).fan1 == LiuLookup(rs).fan1
    ensures LiuLookup(other + rs).fan2 == LiuLookup(rs).fan2
  {
    FindSkipsNonMatching(other, rs, Query("CPU1", Some("RPM")));
    FindSkipsNonMatching(other, rs, Query("CPU2", Some("RPM")));
  }
}
