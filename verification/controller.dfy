/**
 * The event handlers of Form1.cs that write to the port: the connect and
 * disconnect buttons (lines 71-121), closing the window (195-201), the
 * one-second render tick `timer2_Tick` (203-245) and the auto-connect
 * schedule `timer1_Tick` (436-458). The port is reduced to whether it is
 * open; opening it succeeds or throws as an input says. Process
 * enumeration, the clock and the shared memory are inputs.
 */
module Controller {
  import opened Wrappers
  import opened LcdCodes
  import opened Clock
  import opened Sensors
  import opened SharedMemory
  import opened Render
  import Receiver

  /** The pseudo-port of the COM list that renders to the preview only (line 61). */
  const TestPort: string := "TEST"

  /** Lines 211-216 (the message is spelled as the program spells it). */
  const AppError: string := "HWiFNO App Error!"

  /** Lines 223-228. */
  const SensorError: string := "HWiFNO Sensor Error!"

  /** Whether the serial port is open, and the render state. */
  datatype Link = Link(portOpen: bool, session: Session)

  /** A handler's outcome: the next link state and the characters it wrote. */
  datatype Effect = Effect(link: Link, wire: string)

  /** Assigning `tb_preview.Text` directly; the four preview slots are untouched. */
  function SetPreviewText(s: Session, text: string): Session
  {
    s.(preview := s.preview.(text := text))
  }

  /**
   * Lines 91-121. `com` is the selected port name; `opens` says whether
   * `port.Open()` succeeds (when it throws, the handler shows a message box
   * and nothing changes).
   */
  function Connect(l: Link, com: string, opens: bool): (e: Effect)
    ensures e.wire == [] || e.wire == ConnectSequence
    ensures e.wire == ConnectSequence <==> com != TestPort && !l.portOpen && opens
    ensures e.link.portOpen == (l.portOpen || (com != TestPort && opens))
    ensures e.link.session.colon == l.session.colon
    ensures e.link.session.preview.line == l.session.preview.line
  {
    if com == TestPort then Effect(l.(session := SetPreviewText(l.session, "")), [])
    else if !l.portOpen then
      if opens then Effect(Link(true, SetPreviewText(l.session, "")), ConnectSequence)
      else Effect(l, [])
    else Effect(l, [])
  }

  /** Lines 71-88: clear and darken the LCD if the port is open, then close it. */
  function Disconnect(l: Link): (e: Effect)
    ensures !e.link.portOpen
    ensures e.wire == (if l.portOpen then DisconnectSequence else [])
    ensures e.link.session.colon == l.session.colon
    ensures e.link.session.preview == l.session.preview.(text := "")
  {
    Effect(Link(false, SetPreviewText(l.session, "")), if l.portOpen then DisconnectSequence else [])
  }

  /** Lines 195-201: closing the window does the same to the port. */
  function Close(l: Link): (e: Effect)
    ensures !e.link.portOpen
    ensures e.wire == (if l.portOpen then DisconnectSequence else [])
    ensures e.link.session == l.session
  {
    Effect(l.(portOpen := false), if l.portOpen then DisconnectSequence else [])
  }

  /** Lines 212-218 and 224-230: show `msg` in the preview box and, if the port is open, on the LCD. */
  function ErrorTick(l: Link, msg: string): Effect
  {
    Effect(l.(session := SetPreviewText(l.session, msg)), if l.portOpen then ErrorFrame(msg) else [])
  }

  /** Lines 268-272: each raw record decoded by the (unmodelled) struct marshaller `decode`, added in index order. */
  function DecodeAll(raw: seq<seq<byte>>, decode: seq<byte> -> Reading): (rs: seq<Reading>)
    ensures |rs| == |raw|
    ensures forall i :: 0 <= i < |raw| ==> rs[i] == decode(raw[i])
  {
    seq(|raw|, i requires 0 <= i < |raw| => decode(raw[i]))
  }

  /**
   * The loop of lines 263-273 adds one decoded record per iteration to the
   * end of `data_arr`: decoding a longer read extends the shorter one.
   */
  lemma DecodeAllAppend(raw: seq<seq<byte>>, more: seq<seq<byte>>, decode: seq<byte> -> Reading)
    ensures DecodeAll(raw + more, decode) == DecodeAll(raw, decode) + DecodeAll(more, decode)
  {
    var a, b := DecodeAll(raw, decode), DecodeAll(more, decode);
    forall i | 0 <= i < |raw| + |more|
      ensures DecodeAll(raw + more, decode)[i] == (a + b)[i]
    {
      if i >= |raw| {
        assert (raw + more)[i] == more[i - |raw|];
      }
    }
  }

  /**
   * `timer2_Tick` (lines 203-245). `producerRunning` is `HWiNFOisStarted()`,
   * `region` the shared memory, `decode` the marshaller, `now` the clock,
   * `ramUsed` the formatted memory figure, `opens` the outcome of reopening.
   */
  function PollTick(l: Link, com: string, producerRunning: bool, region: Option<seq<byte>>,
                    decode: seq<byte> -> Reading, now: Instant, ramUsed: string, opens: bool): (e: Effect)
    requires Valid(now)
    ensures !l.portOpen ==> e.wire == []
    ensures e.wire != [] ==> e.wire[|e.wire| - 1] == ChangeLine
  {
    if !l.portOpen && com != TestPort then Effect(l.(portOpen := opens), [])
    else if !producerRunning then ErrorTick(l, AppError)
    else match ReadRecords(region)
      case Failure(_) => ErrorTick(l, SensorError)
      case Success(raw) =>
        if |raw| == 0 then Effect(l, [])
        else
          var o := Hao(l.session, now, DecodeAll(raw, decode), ramUsed, l.portOpen);
          Effect(l.(session := o.session), o.wire)
  }

  /** A closed real port is only reopened: nothing is read, rendered or written. */
  lemma TickReopensOnly(l: Link, com: string, producerRunning: bool, region: Option<seq<byte>>,
                        decode: seq<byte> -> Reading, now: Instant, ramUsed: string, opens: bool)
    requires Valid(now)
    requires !l.portOpen && com != TestPort
    ensures var e := PollTick(l, com, producerRunning, region, decode, now, ramUsed, opens);
      e.wire == [] && e.link == Link(opens, l.session)
  {
  }

  /**
   * When the producer is not running the shared memory is not consulted,
   * and an open LCD ends up lit, showing the one-line error.
   */
  lemma TickProducerDown(l: Link, com: string, r1: Option<seq<byte>>, r2: Option<seq<byte>>,
                         decode: seq<byte> -> Reading, now: Instant, ramUsed: string, opens: bool,
                         d: Receiver.Screen)
    requires Valid(now)
    requires l.portOpen
    ensures PollTick(l, com, false, r1, decode, now, ramUsed, opens)
         == PollTick(l, com, false, r2, decode, now, ramUsed, opens)
    ensures Receiver.Feed(d, PollTick(l, com, false, r1, decode, now, ramUsed, opens).wire)
         == Receiver.Screen(true, [AppError], [])
    ensures PollTick(l, com, false, r1, decode, now, ramUsed, opens).link.session.colon == l.session.colon
  {
    assert PollTick(l, com, false, r1, decode, now, ramUsed, opens) == ErrorTick(l, AppError);
    assert PollTick(l, com, false, r2, decode, now, ramUsed, opens) == ErrorTick(l, AppError);
    Receiver.FeedErrorFrame(d, AppError);
  }

  /** A failed shared-memory read leaves an open LCD lit, showing the one-line error, and the colon unchanged. */
  lemma TickSensorError(l: Link, com: string, region: Option<seq<byte>>,
                        decode: seq<byte> -> Reading, now: Instant, ramUsed: string, opens: bool,
                        d: Receiver.Screen)
    requires Valid(now)
    requires l.portOpen
    requires ReadRecords(region).Failure?
    ensures Receiver.Feed(d, PollTick(l, com, true, region, decode, now, ramUsed, opens).wire)
         == Receiver.Screen(true, [SensorError], [])
    ensures PollTick(l, com, true, region, decode, now, ramUsed, opens).link.session.colon == l.session.colon
  {
    Receiver.FeedErrorFrame(d, SensorError);
  }

  /** A region publishing no readings renders nothing and changes nothing. */
  lemma TickNoReadings(l: Link, com: string, region: Option<seq<byte>>,
                       decode: seq<byte> -> Reading, now: Instant, ramUsed: string, opens: bool)
    requires Valid(now)
    requires l.portOpen || com == TestPort
    requires region.Some? && |region.value| >= HeaderSize && ReadHeader(region.value).readingCount == 0
    ensures PollTick(l, com, true, region, decode, now, ramUsed, opens) == Effect(l, [])
  {
    ReadRecordsSpec(region);
    assert ReadableFrom(region.value, ReadHeader(region.value), 0);
  }

  /**
   * A successful read with readings renders one frame: the colon flips and
   * an LCD with no pending row gains exactly the four rendered lines.
   */
  lemma TickRenders(l: Link, com: string, region: Option<seq<byte>>,
                    decode: seq<byte> -> Reading, now: Instant, ramUsed: string, opens: bool,
                    d: Receiver.Screen)
    requires Valid(now)
    requires l.portOpen
    requires ReadRecords(region).Success? && |ReadRecords(region).value| > 0
    requires IsDisplayText(ramUsed)
    requires d.pending == []
    ensures var e := PollTick(l, com, true, region, decode, now, ramUsed, opens);
      var o := Hao(l.session, now, DecodeAll(ReadRecords(region).value, decode), ramUsed, true);
      && e.link.session.colon == !l.session.colon
      && e.link.portOpen
      && Receiver.Feed(d, e.wire) == d.(rows := d.rows + o.lines)
  {
    var o := Hao(l.session, now, DecodeAll(ReadRecords(region).value, decode), ramUsed, true);
    assert PollTick(l, com, true, region, decode, now, ramUsed, opens) == Effect(l.(session := o.session), o.wire);
    HaoOnScreen(l.session, now, DecodeAll(ReadRecords(region).value, decode), ramUsed, d);
  }

  /** Connecting and then disconnecting writes the two fixed sequences and leaves the LCD dark and empty. */
  lemma ConnectThenDisconnect(l: Link, com: string, d: Receiver.Screen)
    requires !l.portOpen && com != TestPort
    ensures var c := Connect(l, com, true);
      var x := Disconnect(c.link);
      && c.wire + x.wire == ConnectSequence + DisconnectSequence
      && Receiver.Feed(d, c.wire) == Receiver.Screen(true, [], [])
      && Receiver.Feed(d, c.wire + x.wire) == Receiver.Screen(false, [], [])
  {
    Receiver.FeedConnect(d);
    Receiver.FeedAppend(d, ConnectSequence, DisconnectSequence);
    Receiver.FeedDisconnect(Receiver.Feed(d, ConnectSequence));
  }

  /** A second disconnect writes nothing: the sequence goes out only while the port is open. */
  lemma DisconnectTwice(l: Link)
    ensures Disconnect(Disconnect(l).link).wire == []
  {
  }

  /** What `timer1_Tick` does. */
  datatype Decision = NoOp | ClickConnect | ClickDisconnect

  predicate IsWeekend(d: DayOfWeek)
  {
    d == Sunday || d == Saturday
  }

  /**
   * `timer1_Tick` (lines 436-458): with a port chosen and the schedule box
   * checked, connect at weekends and from 18:00 on weekdays, disconnect
   * before 18:00 on weekdays, each only while the matching button is enabled.
   */
  function AutoDecision(com: string, scheduled: bool, now: Instant,
                        connectEnabled: bool, disconnectEnabled: bool): (r: Decision)
    requires Valid(now)
    ensures r == ClickConnect <==>
      com != "" && scheduled && connectEnabled && (IsWeekend(now.weekday) || now.hour >= 18)
    ensures r == ClickDisconnect <==>
      com != "" && scheduled && disconnectEnabled && !IsWeekend(now.weekday) && now.hour < 18
  {
    if com == "" then NoOp
    else if !scheduled then NoOp
    else if now.weekday == Sunday || now.weekday == Saturday then
      if connectEnabled then ClickConnect else NoOp
    else if now.hour >= 0 && now.hour < 18 then
      if disconnectEnabled then ClickDisconnect else NoOp
    else if connectEnabled then ClickConnect
    else NoOp
  }

  /** The schedule never disconnects at a weekend and never connects on a weekday before 18:00. */
  lemma AutoRespectsHours(com: string, scheduled: bool, now: Instant, ce: bool, de: bool)
    requires Valid(now)
    ensures IsWeekend(now.weekday) ==> AutoDecision(com, scheduled, now, ce, de) != ClickDisconnect
    ensures !IsWeekend(now.weekday) && now.hour < 18 ==> AutoDecision(com, scheduled, now, ce, de) != ClickConnect
  {
  }

  /** `timer1_Tick` carried out: the clicked handler's effect, or nothing. */
  function AutoTick(l: Link, com: string, scheduled: bool, now: Instant,
                    connectEnabled: bool, disconnectEnabled: bool, opens: bool): (e: Effect)
    requires Valid(now)
    ensures IsWeekend(now.weekday) ==> e.link.portOpen || !l.portOpen
    ensures !IsWeekend(now.weekday) && now.hour < 18 ==> e.wire == [] || e.wire == DisconnectSequence
  {
    match AutoDecision(com, scheduled, now, connectEnabled, disconnectEnabled)
    case NoOp => Effect(l, [])
    case ClickConnect => Connect(l, com, opens)
    case ClickDisconnect => Disconnect(l)
  }
}
