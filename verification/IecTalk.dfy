/** The talking direction: what the host reads back, how the end of the stream is signalled, and the
    session reader that samples one half clock too late. */
module IecTalk {
  import opened IecLines
  import opened DosNames
  import opened DosCommands
  import opened DriveDos
  import opened DriveSerial
  import opened IecHost

  /** A confirmed talker between bytes with something to say. */
  predicate TalkReady(d: Drive) {
    && d.prev.clk && d.rx.count == 0 && d.rx.shift == 0
    && d.dos.talking && Confirmed(d.dos) && d.dos.queue != []
    && !d.eoi.pending && !d.tx.active
    && (d.mode == TalkData ==> d.tx.armed)
    && Releases(d.dos) && !d.pullsClk
  }

  /** Bit `k` of `byte` is on the line. */
  predicate Serving(d: Drive, byte: Byte, k: nat, last: bool) {
    && d.rx.count == 0 && d.rx.shift == 0
    && d.mode == TalkData && d.dos.talking && Confirmed(d.dos) && !d.eoi.pending
    && d.tx.active && d.tx.armed && d.tx.sawStart
    && d.tx.shift == byte && d.tx.count == k < 8 && d.tx.isEoi == last
    && d.tx.pullData == d.pullsData == !HasBit(byte, k)
    && Releases(d.dos) && !d.pullsClk
  }

  /** The byte is out; its last bit still stands on the line. */
  predicate Served(d: Drive, byte: Byte, last: bool) {
    && d.prev.clk && d.rx.count == 0 && d.rx.shift == 0
    && d.mode == TalkData && d.dos.talking && Confirmed(d.dos)
    && !d.tx.active && d.tx.armed
    && d.eoi.pending == last && (last ==> !d.eoi.lowSeen && d.eoi.wait == 0)
    && d.pullsData == !HasBit(byte, 7)
    && Releases(d.dos) && !d.pullsClk
  }

  /** A talking drive with an empty receiver: what the step leaves before it transmits. */
  function Quiet(d: Drive): Drive {
    d.(absentWait := 0, rx := d.rx.(frameSync := false, sawStart := false, idle := 0))
  }

  lemma TalkReceivesNothing(hear: Hearing, d: Drive, next: Mode)
    requires (next == TalkData || next == TalkEoiAck) && d.rx.count == 0
    ensures ReceiveTimeout(Receive(hear, d, next), next) == d.(rx := Quiet(d).rx)
  {
    assert FrameReceiver(d, next) == d.rx.(frameSync := false, sawStart := false);
    assert !Samples(d, next);
  }

  lemma TalkTick(hear: Hearing, d: Drive)
    requires NextMode(d) == TalkData && d.rx.count == 0 && (d.tx.active || d.dos.queue != [])
    requires Releases(d.dos)
    ensures var t := Transmit(Quiet(d));
            Tick(hear, d) == t.(mode := TalkData, prev := d.lines, pullsClk := false, pullsData := t.tx.pullData)
  {
    hide HoldsClk, HoldsData;
    var d0 := Preempt(AbsenceCheck(d, TalkData));
    assert d0 == d.(absentWait := 0);
    TalkReceivesNothing(hear, d0, TalkData);
  }

  lemma FetchOnFall(d: Drive)
    requires TalkReady(d) && d.lines.atn && !d.lines.clk
    ensures var t := Transmit(d);
            && t.tx.active && t.tx.armed && t.tx.sawStart && t.tx.shift == d.dos.queue[0] && t.tx.count == 0
            && t.tx.isEoi == (|d.dos.queue| == 1) && t.tx.pullData == !HasBit(d.dos.queue[0], 0)
            && t.eoi == d.eoi && t.dos == d.dos.(queue := d.dos.queue[1..]) && t.rx == d.rx
  {
    var armed := Arm(d);
    assert armed.tx.armed && !armed.tx.active;
    assert Fetches(armed, OpenFrame(armed, armed.tx));
  }

  lemma TickFetches(hear: Hearing, d: Drive)
    requires TalkReady(d) && d.lines.atn && !d.lines.clk
    ensures var d' := Tick(hear, d);
            && Serving(d', d.dos.queue[0], 0, |d.dos.queue| == 1) && d'.prev == d.lines
            && d'.dos == d.dos.(queue := d.dos.queue[1..])
  {
    TalkTick(hear, d);
    FetchOnFall(Quiet(d));
  }

  lemma TickHoldsBit(hear: Hearing, d: Drive, byte: Byte, k: nat, last: bool)
    requires Serving(d, byte, k, last) && d.prev.clk && d.lines.atn && !d.lines.clk
    ensures var d' := Tick(hear, d); Serving(d', byte, k, last) && d'.prev == d.lines && d'.dos == d.dos
  {
    TalkTick(hear, d);
    var q := Quiet(d);
    assert Arm(q) == q;
    assert OpenFrame(q, d.tx) == d.tx && ClockTransmitter(q, d.tx) == d.tx;
  }

  lemma TickAdvancesBit(hear: Hearing, d: Drive, byte: Byte, k: nat, last: bool)
    requires Serving(d, byte, k, last) && !d.prev.clk && d.lines.atn && d.lines.clk
    ensures var d' := Tick(hear, d);
            && d'.prev == d.lines && d'.dos == d.dos
            && (if k < 7 then Serving(d', byte, k + 1, last) else Served(d', byte, last))
  {
    hide HoldsClk, HoldsData, HasBit;
    TalkTick(hear, d);
    var q := Quiet(d);
    assert Arm(q) == q;
    assert OpenFrame(q, d.tx) == d.tx;
  }

  lemma TickIdlesReady(hear: Hearing, d: Drive)
    requires TalkReady(d) && d.lines.atn && d.lines.clk
    ensures var d' := Tick(hear, d); TalkReady(d') && d'.dos == d.dos
  {
    hide HoldsClk, HoldsData, HasBit;
    TalkTick(hear, d);
    IdleTransmits(Quiet(d));
    hide Transmit, Tick;
  }

  /** With the clock high and no byte under way a talker only counts. */
  lemma IdleTransmits(d: Drive)
    requires !d.tx.active && !d.eoi.pending && d.lines.clk && (d.mode == TalkData ==> d.tx.armed)
    ensures var t := Transmit(d);
            !t.tx.active && t.tx.armed && t == d.(tx := t.tx)
  {
    assert !Arm(d).tx.active && Arm(d).tx.armed;
    hide Confirmed;
  }

  // ---- reading bytes -----------------------------------------------------------------------------

  /** `i` bits of the byte at the head of the queue have been read. */
  predicate ReadProgress(before: Dos, d: Drive, i: nat)
    requires before.queue != []
  {
    var byte, last, after := before.queue[0], |before.queue| == 1, before.(queue := before.queue[1..]);
    if i == 0 then TalkReady(d) && d.dos == before
    else if i < 8 then Serving(d, byte, i, last) && d.prev.clk && d.dos == after
    else Served(d, byte, last) && d.dos == after
  }

  lemma ReadLow(hear: Hearing, before: Dos, w: Wire, i: nat)
    requires before.queue != [] && i < 8 && ReadProgress(before, w.drive, i)
    requires w.port.ddra & 0x80 == 0
    ensures var low := Clock(hear, w, Lines(true, false, true));
            && low.port.ddra & 0x80 == 0 && DataInHigh(low.port) == HasBit(before.queue[0], i)
            && Serving(low.drive, before.queue[0], i, |before.queue| == 1) && !low.drive.prev.clk
            && low.drive.dos == before.(queue := before.queue[1..])
  {
    var falling := Lines(true, false, true);
    ClockIsPulse(hear, w, falling);
    if i == 0 {
      TickFetches(hear, Settle(w.drive, falling));
    } else {
      TickHoldsBit(hear, Settle(w.drive, falling), before.queue[0], i, |before.queue| == 1);
    }
  }

  lemma ReadHigh(hear: Hearing, before: Dos, low: Wire, i: nat)
    requires before.queue != [] && i < 8 && low.port.ddra & 0x80 == 0
    requires Serving(low.drive, before.queue[0], i, |before.queue| == 1) && !low.drive.prev.clk
    requires low.drive.dos == before.(queue := before.queue[1..])
    ensures var high := Clock(hear, low, RELEASED);
            && high.port.ddra & 0x80 == 0 && ReadProgress(before, high.drive, i + 1)
            && DataInHigh(high.port) == HasBit(before.queue[0], if i < 7 then i + 1 else 7)
  {
    ClockIsPulse(hear, low, RELEASED);
    TickAdvancesBit(hear, Settle(low.drive, RELEASED), before.queue[0], i, |before.queue| == 1);
  }

  lemma ReadBitProgresses(hear: Hearing, before: Dos, w: Wire, i: nat)
    requires before.queue != [] && i < 8 && ReadProgress(before, w.drive, i) && w.port.ddra & 0x80 == 0
    ensures var r := ReadBit(hear, w);
            && r.bit == HasBit(before.queue[0], i)
            && ReadProgress(before, r.wire.drive, i + 1) && r.wire.port.ddra & 0x80 == 0
  {
    ReadLow(hear, before, w, i);
    ReadHigh(hear, before, Clock(hear, w, Lines(true, false, true)), i);
  }

  /** One byte read by the host is the byte at the head of the transmit queue. */
  lemma ReadByteReturnsHead(hear: Hearing, w: Wire)
    requires TalkReady(w.drive) && w.port.ddra & 0x80 == 0
    ensures var r := ReadByte(hear, w);
            && r.value == w.drive.dos.queue[0] && ReadProgress(w.drive.dos, r.wire.drive, 8)
            && r.wire.port.ddra & 0x80 == 0
  {
    hide Tick, Clock, ReadProgress;
    ReadyIsProgress(w.drive);
    var before := w.drive.dos;
    var readBit := v => ReadBit(hear, v);
    var holds := (i: nat, v: Wire) => ReadProgress(before, v.drive, i) && v.port.ddra & 0x80 == 0;
    forall i: nat, v: Wire | i < 8 && holds(i, v)
      ensures readBit(v).bit == HasBit(before.queue[0], i) && holds(i + 1, readBit(v).wire) {
      ReadBitProgresses(hear, before, v, i);
    }
    LowBitsGrow(before.queue[0], 0);
    GatheredBits(readBit, holds, before.queue[0], w, 0);
  }

  function IdleFor(hear: Hearing, w: Wire, n: nat): Wire
    decreases n
  {
    if n == 0 then w else IdleFor(hear, Clock(hear, w, RELEASED), n - 1)
  }

  lemma {:induction false} IdlingKeepsReady(hear: Hearing, w: Wire, n: nat)
    requires TalkReady(w.drive) && w.port.ddra & 0x80 == 0
    ensures var w' := IdleFor(hear, w, n);
            TalkReady(w'.drive) && w'.drive.dos == w.drive.dos && w'.port.ddra & 0x80 == 0
    decreases n
  {
    hide Tick;
    if n > 0 {
      ClockIsPulse(hear, w, RELEASED);
      TickIdlesReady(hear, Settle(w.drive, RELEASED));
      IdlingKeepsReady(hear, Clock(hear, w, RELEASED), n - 1);
    }
  }

  datatype Stream = Stream(wire: Wire, bytes: seq<Byte>)

  function Streamed(read: (Wire, nat) -> Read, w: Wire, gaps: seq<nat>): Stream
    decreases |gaps|
  {
    if gaps == [] then Stream(w, [])
    else
      var r := read(w, gaps[0]);
      var rest := Streamed(read, r.wire, gaps[1..]);
      Stream(rest.wire, [r.value] + rest.bytes)
  }

  /** Reads one byte per gap, letting that many idle half cycles pass before it. */
  function ReadAll(hear: Hearing, w: Wire, gaps: seq<nat>): Stream {
    Streamed((v: Wire, gap: nat) => ReadByte(hear, IdleFor(hear, v, gap)), w, gaps)
  }

  lemma {:induction false} StreamedInOrder(read: (Wire, nat) -> Read, holds: (nat, Wire) -> bool, q: seq<Byte>,
                                           n: nat, w: Wire, gaps: seq<nat>)
    requires forall i: nat, v, gap: nat :: i < |q| && holds(i, v) ==>
               read(v, gap).value == q[i] && holds(i + 1, read(v, gap).wire)
    requires n + |gaps| <= |q| && holds(n, w)
    ensures var s := Streamed(read, w, gaps);
            s.bytes == q[n..n + |gaps|] && holds(n + |gaps|, s.wire)
    decreases |gaps|
  {
    if gaps != [] {
      StreamedInOrder(read, holds, q, n + 1, read(w, gaps[0]).wire, gaps[1..]);
      assert q[n..n + |gaps|] == [q[n]] + q[n + 1..n + |gaps|];
    }
  }

  /** Reading so far: everything asked for is out, and the end is signalled exactly after the last byte. */
  predicate Delivered(before: Dos, n: nat, d: Drive)
    requires n <= |before.queue|
  {
    && d.dos == before.(queue := before.queue[n..])
    && (n < |before.queue| ==> TalkReady(d))
    && (n == |before.queue| > 0 ==> Served(d, before.queue[n - 1], true))
  }

  lemma ReadNext(hear: Hearing, before: Dos, n: nat, w: Wire, gap: nat)
    requires n < |before.queue| && Delivered(before, n, w.drive) && w.port.ddra & 0x80 == 0
    ensures var r := ReadByte(hear, IdleFor(hear, w, gap));
            && r.value == before.queue[n] && Delivered(before, n + 1, r.wire.drive)
            && r.wire.port.ddra & 0x80 == 0
  {
    IdlingKeepsReady(hear, w, gap);
    ReadByteReturnsHead(hear, IdleFor(hear, w, gap));
    assert before.queue[n..][1..] == before.queue[n + 1..];
  }

  lemma ReadyIsDelivered(d: Drive)
    requires TalkReady(d)
    ensures d.dos.queue != [] && Delivered(d.dos, 0, d)
  {
  }

  lemma DeliveredSignalsEnd(before: Dos, n: nat, d: Drive)
    requires n <= |before.queue| && before.queue != [] && Delivered(before, n, d)
    ensures d.eoi.pending <==> n == |before.queue|
  {
  }

  /** Talk round trip: from a confirmed talker the host reads the queued bytes in order, each once, at
      any pace between bytes; the end-of-stream signal comes up after the last byte and no other. */
  lemma TalkRoundTrip(hear: Hearing, w: Wire, gaps: seq<nat>)
    requires TalkReady(w.drive) && w.port.ddra & 0x80 == 0
    requires |gaps| <= |w.drive.dos.queue|
    ensures var s := ReadAll(hear, w, gaps);
            && s.bytes == w.drive.dos.queue[..|gaps|]
            && Delivered(w.drive.dos, |gaps|, s.wire.drive)
            && (s.wire.drive.eoi.pending <==> |gaps| == |w.drive.dos.queue|)
            && s.wire.port.ddra & 0x80 == 0
  {
    hide Tick, ReadByte, IdleFor, Delivered, TalkReady;
    var before := w.drive.dos;
    ReadyIsDelivered(w.drive);
    var read := (v: Wire, gap: nat) => ReadByte(hear, IdleFor(hear, v, gap));
    var holds := (i: nat, v: Wire) => i <= |before.queue| && Delivered(before, i, v.drive) && v.port.ddra & 0x80 == 0;
    forall i: nat, v: Wire, gap: nat | i < |before.queue| && holds(i, v)
      ensures read(v, gap).value == before.queue[i] && holds(i + 1, read(v, gap).wire) {
      ReadNext(hear, before, i, v, gap);
    }
    StreamedInOrder(read, holds, before.queue, 0, w, gaps);
    DeliveredSignalsEnd(before, |gaps|, Streamed(read, w, gaps).wire.drive);
  }

  // ---- the end of the stream -----------------------------------------------------------------------

  /** The end of stream is signalled and the host's acknowledge is awaited. */
  predicate AwaitsAck(d: Drive) {
    && d.prev.clk && d.rx.count == 0 && d.rx.shift == 0 && d.dos.talking && d.eoi.pending && !d.eoi.lowSeen
    && Releases(d.dos) && !d.pullsClk
  }

  lemma EoiTick(hear: Hearing, d: Drive)
    requires d.rx.count == 0 && d.lines.atn && d.dos.talking && d.eoi.pending && Releases(d.dos)
    ensures var e := EoiWait(Quiet(d));
            Tick(hear, d) == e.(mode := TalkEoiAck, prev := d.lines, pullsClk := false, pullsData := false)
  {
    hide HoldsClk, HoldsData;
    var d0 := Preempt(AbsenceCheck(d, TalkEoiAck));
    assert d0 == d.(absentWait := 0);
    TalkReceivesNothing(hear, d0, TalkEoiAck);
  }

  /** One released half cycle while waiting: DATA high only moves the timer. */
  lemma WaitingTick(hear: Hearing, d: Drive)
    requires AwaitsAck(d) && d.lines == RELEASED
    ensures var d' := Tick(hear, d);
            && !d'.pullsClk && !d'.pullsData && Releases(d'.dos) && d'.prev.clk && d'.rx.count == 0 && d'.rx.shift == 0
                && d'.dos.talking
            && d'.eoi.acks == d.eoi.acks && !d'.eoi.lowSeen
            && (d.eoi.wait < TIMEOUT_TICKS ==> d'.eoi == d.eoi.(wait := d.eoi.wait + 1))
            && (d.eoi.wait >= TIMEOUT_TICKS ==> !d'.eoi.pending && d'.dos.status == NotReady)
  {
    EoiTick(hear, d);
  }

  /** DATA low, from whichever side, then high again counts as the host's acknowledge. */
  lemma AckTicks(hear: Hearing, d: Drive)
    requires AwaitsAck(d) && d.lines == Lines(true, true, false)
    ensures var d1 := Tick(hear, d);
            var d2 := Tick(hear, d1.(lines := RELEASED));
            && !d1.pullsClk && !d1.pullsData && d1.eoi.pending
            && !d2.pullsData && !d2.eoi.pending && d2.eoi.acks == d.eoi.acks + 1
  {
    EoiTick(hear, d);
    EoiTick(hear, Tick(hear, d).(lines := RELEASED));
  }

  lemma {:induction false} EoiHeld(hear: Hearing, w: Wire, n: nat)
    requires AwaitsAck(w.drive) && !w.drive.pullsData && w.drive.eoi.wait + n <= TIMEOUT_TICKS
    ensures var d' := IdleFor(hear, w, n).drive;
            && AwaitsAck(d') && !d'.pullsData
            && d'.eoi == w.drive.eoi.(wait := w.drive.eoi.wait + n)
    decreases n
  {
    hide Tick;
    if n > 0 {
      ClockIsPulse(hear, w, RELEASED);
      WaitingTick(hear, Settle(w.drive, RELEASED));
      EoiHeld(hear, Clock(hear, w, RELEASED), n - 1);
    }
  }

  function TwoIdle(hear: Hearing, w: Wire): Wire {
    Clock(hear, Clock(hear, w, RELEASED), RELEASED)
  }

  /** A last byte whose top bit is clear leaves the drive's own pull on DATA, and releasing it looks to
      the drive like an acknowledge the host never gave. */
  lemma EoiAcknowledgesItself(hear: Hearing, w: Wire)
    requires AwaitsAck(w.drive) && w.drive.pullsData
    ensures var d' := TwoIdle(hear, w).drive;
            !d'.eoi.pending && d'.eoi.acks == w.drive.eoi.acks + 1
  {
    hide Tick;
    var w1 := Clock(hear, w, RELEASED);
    ClockIsPulse(hear, w, RELEASED);
    AckTicks(hear, Settle(w.drive, RELEASED));
    ClockIsPulse(hear, w1, RELEASED);
  }

  /** After the last byte an idle host finds the end signal still standing, up to the timeout, if and only
      if that byte has its top bit set. */
  lemma EoiStandsIff(hear: Hearing, w: Wire, byte: Byte)
    requires Served(w.drive, byte, true)
    ensures (forall n :: 2 <= n <= TIMEOUT_TICKS ==> IdleFor(hear, w, n).drive.eoi.pending) <==> HasBit(byte, 7)
    ensures !HasBit(byte, 7) ==> IdleFor(hear, w, 2).drive.eoi.acks == w.drive.eoi.acks + 1
    ensures HasBit(byte, 7) ==> IdleFor(hear, w, TIMEOUT_TICKS).drive.eoi.acks == w.drive.eoi.acks
  {
    hide Tick;
    if HasBit(byte, 7) {
      forall n | 2 <= n <= TIMEOUT_TICKS ensures IdleFor(hear, w, n).drive.eoi.pending {
        EoiHeld(hear, w, n);
      }
      EoiHeld(hear, w, TIMEOUT_TICKS);
    } else {
      EoiAcknowledgesItself(hear, w);
      TwoIdleIsIdle(hear, w);
    }
  }

  lemma TwoIdleIsIdle(hear: Hearing, w: Wire)
    ensures IdleFor(hear, w, 2) == TwoIdle(hear, w)
  {
    hide Clock;
    assert IdleFor(hear, Clock(hear, w, RELEASED), 1) == IdleFor(hear, TwoIdle(hear, w), 0);
  }

  lemma {:induction false} IdleForAdds(hear: Hearing, w: Wire, m: nat, n: nat)
    ensures IdleFor(hear, w, m + n) == IdleFor(hear, IdleFor(hear, w, m), n)
    decreases m
  {
    hide Clock;
    if m > 0 {
      IdleForAdds(hear, Clock(hear, w, RELEASED), m - 1, n);
    }
  }

  /** Left alone, the signal is given up one tick after the timeout, with an error status and no
      acknowledge counted. */
  lemma EoiTimesOut(hear: Hearing, w: Wire, byte: Byte)
    requires Served(w.drive, byte, true) && HasBit(byte, 7)
    ensures var d' := IdleFor(hear, w, TIMEOUT_TICKS + 1).drive;
            !d'.eoi.pending && d'.eoi.acks == w.drive.eoi.acks && d'.dos.status == NotReady
  {
    hide Tick;
    EoiHeld(hear, w, TIMEOUT_TICKS);
    var w' := IdleFor(hear, w, TIMEOUT_TICKS);
    IdleForAdds(hear, w, TIMEOUT_TICKS, 1);
    assert IdleFor(hear, w', 1) == Clock(hear, w', RELEASED);
    ClockIsPulse(hear, w', RELEASED);
    WaitingTick(hear, Settle(w'.drive, RELEASED));
  }

  function EoiAckPulse(hear: Hearing, w: Wire): Wire {
    Clock(hear, Clock(hear, w, Lines(true, true, false)), RELEASED)
  }

  /** The host's pulse ends the wait and is counted once, whatever the last byte was. */
  lemma EoiAckPulseCompletes(hear: Hearing, w: Wire, byte: Byte)
    requires Served(w.drive, byte, true)
    ensures var d' := EoiAckPulse(hear, w).drive;
            !d'.eoi.pending && d'.eoi.acks == w.drive.eoi.acks + 1 && !d'.pullsData
  {
    hide Tick;
    var low := Lines(true, true, false);
    var w1 := Clock(hear, w, low);
    ClockIsPulse(hear, w, low);
    AckTicks(hear, Settle(w.drive, low));
    ClockIsPulse(hear, w1, RELEASED);
  }

  // ---- the session reader --------------------------------------------------------------------------

  /** The session samples DATA after the clock has risen again. */
  function SessionReadBit(hear: Hearing, w: Wire): BitRead {
    var high := Clock(hear, Clock(hear, w, Lines(true, false, true)), RELEASED);
    BitRead(high, DataInHigh(high.port))
  }

  function SessionReadByte(hear: Hearing, w: Wire): Read {
    GatherBits(v => SessionReadBit(hear, v), w, 0, 0)
  }

  predicate ClockInHigh(p: Port) {
    Combined(p) & 0x40 != 0
  }

  /** The session's wait for a released clock is over at once after every pulse, unless the VIA holds the
      clock. */
  lemma ReleasedClockReadsHigh(hear: Hearing, w: Wire)
    requires w.port.ddra & 0x40 == 0
    ensures var w' := Clock(hear, w, RELEASED);
            && (ClockInHigh(w'.port) <==> !HoldsClk(w'.drive.dos.disk.memory)) && w'.port.ddra & 0x40 == 0
  {
    ReleasedTickPulls(hear, Settle(w.drive, RELEASED));
    hide Tick, HoldsClk;
    var w1 := DriveLines(w, RELEASED);
    DriveLinesSettles(w, RELEASED);
    assert w1.port.ddra & 0x40 == 0;
    var p, d := w1.port, Tick(hear, w1.drive);
    assert Clock(hear, w, RELEASED).port
        == p.(input := SetBit(SetBit(p.input, 0x40, !d.pullsClk), 0x80, BusLines(p, d.pullsClk, d.pullsData).data));
  }

  /** With ATN released the clock is pulled exactly by the VIA. */
  lemma ReleasedTickPulls(hear: Hearing, d: Drive)
    requires d.lines.atn
    ensures Tick(hear, d).pullsClk == HoldsClk(Tick(hear, d).dos.disk.memory)
  {
    hide HoldsClk, HoldsData, AbsenceCheck, Preempt, Receive, ReceiveTimeout, EoiWait, Transmit, NotTalking;
  }

  /** An arithmetic shift to the right by one. */
  function ShiftedRight(byte: Byte): Byte {
    (byte >> 1) | (byte & 0x80)
  }

  lemma ShiftedBits(byte: Byte, i: nat)
    requires i < 8
    ensures HasBit(ShiftedRight(byte), i) == HasBit(byte, if i < 7 then i + 1 else 7)
  {
    BitValues();
  }

  lemma SessionBitProgresses(hear: Hearing, before: Dos, w: Wire, i: nat)
    requires before.queue != [] && i < 8 && ReadProgress(before, w.drive, i) && w.port.ddra & 0x80 == 0
    ensures var r := SessionReadBit(hear, w);
            && r.bit == HasBit(ShiftedRight(before.queue[0]), i)
            && ReadProgress(before, r.wire.drive, i + 1) && r.wire.port.ddra & 0x80 == 0
  {
    hide Clock;
    ReadLow(hear, before, w, i);
    ReadHigh(hear, before, Clock(hear, w, Lines(true, false, true)), i);
    ShiftedBits(before.queue[0], i);
  }

  /** Sampling after the rising edge reads every bit one place too late: the session sees the byte
      shifted right with its top bit doubled, so it reads a byte correctly only if all its bits agree. */
  lemma SessionReadShifts(hear: Hearing, w: Wire)
    requires TalkReady(w.drive) && w.port.ddra & 0x80 == 0
    ensures var r, head := SessionReadByte(hear, w), w.drive.dos.queue[0];
            && r.value == ShiftedRight(head)
            && ReadProgress(w.drive.dos, r.wire.drive, 8)
            && (r.value == head <==> head == 0x00 || head == 0xFF)
  {
    hide Tick, ReadProgress, Clock;
    var before := w.drive.dos;
    ReadyIsProgress(w.drive);
    var readBit := v => SessionReadBit(hear, v);
    var holds := (i: nat, v: Wire) => ReadProgress(before, v.drive, i) && v.port.ddra & 0x80 == 0;
    forall i: nat, v: Wire | i < 8 && holds(i, v)
      ensures readBit(v).bit == HasBit(ShiftedRight(before.queue[0]), i) && holds(i + 1, readBit(v).wire) {
      SessionBitProgresses(hear, before, v, i);
    }
    LowBitsGrow(ShiftedRight(before.queue[0]), 0);
    GatheredBits(readBit, holds, ShiftedRight(before.queue[0]), w, 0);
  }

  lemma ReadyIsProgress(d: Drive)
    requires TalkReady(d)
    ensures d.dos.queue != [] && ReadProgress(d.dos, d, 0)
  {
  }
}
