/** The bit-banging host on the other end of the wire: CIA port A, the wired-AND bus, and what a byte
    sent or read over it comes to. */
module IecHost {
  import opened IecLines
  import opened DosNames
  import opened DosCommands
  import opened DriveDos
  import opened DriveSerial

  datatype Port = Port(pra: Byte, ddra: Byte, input: Byte)

  datatype Wire = Wire(port: Port, drive: Drive)

  // ---- the wire --------------------------------------------------------------------------------

  function SetBit(b: Byte, mask: Byte, on: bool): Byte {
    if on then b | mask else b & !mask
  }

  function WithBit(part: Byte, data: bool, k: nat): Byte {
    part | (if data then Bit(k) else 0)
  }

  predicate Pulls(p: Port, mask: Byte) {
    p.ddra & mask != 0 && p.pra & mask != 0
  }

  /** Port A as the CPU reads it: outputs where the direction bit is set, bus inputs elsewhere. */
  function Combined(p: Port): Byte {
    (p.pra & p.ddra) | (p.input & !p.ddra)
  }

  /** The host makes ATN, CLK and DATA outputs; a set bit pulls its line low. */
  function SetOutputs(p: Port, host: Lines): Port {
    p.(ddra := p.ddra | 0x38,
       pra := SetBit(SetBit(SetBit(p.pra, 0x08, !host.atn), 0x10, !host.clk), 0x20, !host.data))
  }

  function BusLines(p: Port, drivePullsClk: bool, drivePullsData: bool): Lines {
    Lines(!Pulls(p, 0x08), !(Pulls(p, 0x10) || drivePullsClk), !(Pulls(p, 0x20) || drivePullsData))
  }

  function Sync(w: Wire): Wire {
    var lines := BusLines(w.port, w.drive.pullsClk, w.drive.pullsData);
    Wire(w.port.(input := SetBit(SetBit(w.port.input, 0x40, lines.clk), 0x80, lines.data)),
         w.drive.(lines := lines))
  }

  function DriveLines(w: Wire, host: Lines): Wire {
    Sync(w.(port := SetOutputs(w.port, host)))
  }

  function HostStep(hear: Hearing, w: Wire): Wire {
    Sync(w.(drive := Tick(hear, w.drive)))
  }

  function Clock(hear: Hearing, w: Wire, host: Lines): Wire {
    HostStep(hear, DriveLines(w, host))
  }

  function SendBit(hear: Hearing, w: Wire, atn: bool, bit: bool): Wire {
    Clock(hear, Clock(hear, w, Lines(atn, false, bit)), Lines(atn, true, bit))
  }

  /** Bits `from`..7 of a byte, least significant first. */
  function SendBits(hear: Hearing, w: Wire, atn: bool, byte: Byte, from: nat): Wire
    requires from <= 8
    decreases 8 - from
  {
    if from == 8 then w else SendBits(hear, SendBit(hear, w, atn, HasBit(byte, from)), atn, byte, from + 1)
  }

  function SendByte(hear: Hearing, w: Wire, atn: bool, byte: Byte): Wire {
    SendBits(hear, w, atn, byte, 0)
  }

  predicate DataInHigh(p: Port) {
    Combined(p) & 0x80 != 0
  }

  datatype BitRead = BitRead(wire: Wire, bit: bool)

  /** The host samples DATA in the low half of the clock pulse. */
  function ReadBit(hear: Hearing, w: Wire): BitRead {
    var low := Clock(hear, w, Lines(true, false, true));
    BitRead(Clock(hear, low, RELEASED), DataInHigh(low.port))
  }

  datatype Read = Read(wire: Wire, value: Byte)

  /** Assembles bits `from`..7, least significant first. */
  function GatherBits(readBit: Wire -> BitRead, w: Wire, from: nat, value: Byte): Read
    requires from <= 8
    decreases 8 - from
  {
    if from == 8 then Read(w, value)
    else
      var r := readBit(w);
      GatherBits(readBit, r.wire, from + 1, WithBit(value, r.bit, from))
  }

  function ReadByte(hear: Hearing, w: Wire): Read {
    GatherBits(v => ReadBit(hear, v), w, 0, 0)
  }

  /** The first `n` bits of a byte. */
  function LowBits(byte: Byte, n: nat): Byte {
    byte & (Bit(n) - 1)
  }

  lemma LowBitsGrow(byte: Byte, k: nat)
    requires k < 8
    ensures LowBits(byte, k + 1) == WithBit(LowBits(byte, k), HasBit(byte, k), k)
    ensures LowBits(byte, 0) == 0 && LowBits(byte, 8) == byte
  {
    BitValues();
    assert Bit(8) == 0;
  }

  /** If each read yields the next bit of `byte`, the gathered value is `byte`. */
  lemma {:induction false} GatheredBits(readBit: Wire -> BitRead, holds: (nat, Wire) -> bool, byte: Byte,
                                        w: Wire, from: nat)
    requires from <= 8 && holds(from, w)
    requires forall i: nat, v :: i < 8 && holds(i, v) ==>
               readBit(v).bit == HasBit(byte, i) && holds(i + 1, readBit(v).wire)
    ensures var r := GatherBits(readBit, w, from, LowBits(byte, from));
            r.value == byte && holds(8, r.wire)
    decreases 8 - from
  {
    if from < 8 {
      LowBitsGrow(byte, from);
      GatheredBits(readBit, holds, byte, readBit(w).wire, from + 1);
    } else {
      LowBitsGrow(byte, 0);
    }
  }

  // ---- one clock half seen from the drive -------------------------------------------------------

  /** The bus lines a drive sees while the host asserts `host`. */
  function Settle(d: Drive, host: Lines): Drive {
    d.(lines := Lines(host.atn, host.clk && !d.pullsClk, host.data && !d.pullsData))
  }

  function Pulse(hear: Hearing, d: Drive, host: Lines): Drive {
    Settle(Tick(hear, Settle(d, host)), host)
  }

  lemma OutputsReachTheBus(p: Port, host: Lines, clk: bool, data: bool)
    ensures BusLines(SetOutputs(p, host), clk, data) == Lines(host.atn, host.clk && !clk, host.data && !data)
    ensures SetOutputs(p, host).ddra & 0x80 == p.ddra & 0x80
  {
  }

  lemma InputBitReads(p: Port, clk: bool, data: bool)
    requires p.ddra & 0x80 == 0
    ensures DataInHigh(p.(input := SetBit(SetBit(p.input, 0x40, clk), 0x80, data))) == data
  {
  }

  lemma SyncSettles(p: Port, d: Drive, host: Lines)
    requires BusLines(p, d.pullsClk, d.pullsData) == Settle(d, host).lines
    ensures var w := Sync(Wire(p, d));
            && w.drive == Settle(d, host)
            && w.port.ddra == p.ddra && w.port.pra == p.pra
            && (p.ddra & 0x80 == 0 ==> DataInHigh(w.port) == w.drive.lines.data)
  {
    if p.ddra & 0x80 == 0 {
      InputBitReads(p, Settle(d, host).lines.clk, Settle(d, host).lines.data);
    }
  }

  lemma DriveLinesSettles(w: Wire, host: Lines)
    ensures var w' := DriveLines(w, host);
            && w'.drive == Settle(w.drive, host)
            && w'.port.ddra & 0x80 == w.port.ddra & 0x80
            && forall clk, data ::
                 BusLines(w'.port, clk, data) == Lines(host.atn, host.clk && !clk, host.data && !data)
  {
    var p := SetOutputs(w.port, host);
    OutputsReachTheBus(w.port, host, w.drive.pullsClk, w.drive.pullsData);
    SyncSettles(p, w.drive, host);
    forall clk, data
      ensures BusLines(DriveLines(w, host).port, clk, data)
           == Lines(host.atn, host.clk && !clk, host.data && !data) {
      OutputsReachTheBus(w.port, host, clk, data);
    }
  }

  /** Driving the lines and stepping is one pulse of the drive; the host reads the settled DATA line. */
  lemma ClockIsPulse(hear: Hearing, w: Wire, host: Lines)
    ensures var w' := Clock(hear, w, host);
            && w'.drive == Pulse(hear, w.drive, host)
            && w'.port.ddra & 0x80 == w.port.ddra & 0x80
            && (w.port.ddra & 0x80 == 0 ==> DataInHigh(w'.port) == w'.drive.lines.data)
  {
    var w1 := DriveLines(w, host);
    DriveLinesSettles(w, host);
    var d := Tick(hear, w1.drive);
    SyncSettles(w1.port, d, host);
  }

  // ---- listening: bytes the host clocks out ------------------------------------------------------

  /** The drive takes a byte clocked under this ATN level: any command, or data while it listens and leaves
      the clock alone. */
  predicate Hears(dos: Dos, atn: bool) {
    !atn || (dos.listening && !dos.talking && !HoldsClk(dos.disk.memory))
  }

  /** What arrives of a byte: data through a line that the drive itself holds is all zeros. */
  function Arriving(dos: Dos, atn: bool, byte: Byte): Byte {
    if atn && HoldsData(dos.disk.memory) then 0 else byte
  }

  function ReceivingMode(atn: bool): Mode {
    if atn then ListenData else Command
  }

  /** Clock high, `k` bits of the byte received so far. */
  predicate At(d: Drive, atn: bool, k: nat, part: Byte) {
    && d.prev.clk
    && d.rx.count == k < 8 && d.rx.shift == part
    && (d.mode == Command ==> d.rx.frameSync)
    && (if k == 0 then part == 0 else d.mode == ReceivingMode(atn))
  }

  /** Clock low in the middle of bit `k`. */
  predicate Low(d: Drive, atn: bool, k: nat, part: Byte) {
    && !d.prev.clk && !d.pullsClk && d.pullsData == (atn && HoldsData(d.dos.disk.memory))
    && d.mode == ReceivingMode(atn)
    && d.rx.count == k < 8 && d.rx.shift == part
    && (!atn ==> d.rx.frameSync && d.rx.sawStart)
  }

  /** Between bytes: nothing half received, the clock released. */
  predicate Aligned(d: Drive) {
    d.prev.clk && d.rx.count == 0 && d.rx.shift == 0 && (d.mode == Command ==> d.rx.frameSync)
  }

  /** A whole byte was just taken under this ATN level; the transmitter is at rest. */
  predicate JustHeard(d: Drive, atn: bool) {
    && Aligned(d) && d.mode == ReceivingMode(atn) && !d.tx.active && !d.eoi.pending
    && (!atn ==> !d.pullsClk && !d.pullsData)
  }

  lemma ReceiveOnFall(hear: Hearing, d: Drive, atn: bool, k: nat, part: Byte)
    requires At(d, atn, k, part) && !d.lines.clk
    ensures var d' := Receive(hear, d, ReceivingMode(atn));
            && d' == d.(rx := FrameReceiver(d, ReceivingMode(atn)))
            && d'.rx.count == k && d'.rx.shift == part && (!atn ==> d'.rx.frameSync && d'.rx.sawStart)
  {
  }

  /** Everything after the receiver leaves a listening drive's receiver and DOS alone. */
  lemma TickAfterReceive(hear: Hearing, d: Drive, atn: bool)
    requires NextMode(d) == ReceivingMode(atn) && ClockEdge(d)
    ensures var d1 := Receive(hear, Preempt(d.(absentWait := 0)), NextMode(d));
            var d' := Tick(hear, d);
            && d'.prev == d.lines && d'.lines == d1.lines && d'.mode == NextMode(d)
            && d'.pullsClk == (atn && HoldsClk(d'.dos.disk.memory))
            && d'.pullsData == (atn && HoldsData(d'.dos.disk.memory))
            && d'.rx == d1.rx.(idle := 0) && d'.dos == d1.dos && !d'.tx.active && !d'.eoi.pending
  {
    hide HoldsClk, HoldsData;
    assert AbsenceCheck(d, NextMode(d)) == d.(absentWait := 0);
  }

  lemma TickOnFall(hear: Hearing, d: Drive, atn: bool, k: nat, part: Byte)
    requires At(d, atn, k, part) && Hears(d.dos, atn)
    requires d.lines.atn == atn && !d.lines.clk
    ensures var d' := Tick(hear, d); Low(d', atn, k, part) && d'.dos == d.dos
  {
    hide HoldsClk, HoldsData;
    TickAfterReceive(hear, d, atn);
    ReceiveOnFall(hear, Preempt(d.(absentWait := 0)), atn, k, part);
  }

  lemma ClockOnRise(d: Drive, atn: bool, k: nat, part: Byte)
    requires !d.prev.clk && d.lines.clk && d.mode == ReceivingMode(atn)
    requires d.rx.count == k < 8 && d.rx.shift == part && (!atn ==> d.rx.frameSync && d.rx.sawStart)
    ensures var next := ReceivingMode(atn);
            var rx := ClockReceiver(d, next);
            && rx.count == k + 1 && rx.shift == WithBit(part, d.lines.data, k) && (!atn ==> rx.frameSync)
            && (Completes(d, next) <==> k == 7)
            && Received(d, next) == Message(WithBit(part, d.lines.data, k), !atn)
  {
    var next := ReceivingMode(atn);
    assert Samples(d, next);
  }

  lemma TickOnRise(hear: Hearing, d: Drive, atn: bool, k: nat, part: Byte)
    requires Low(d, atn, k, part) && Hears(d.dos, atn)
    requires d.lines.atn == atn && d.lines.clk
    ensures var d' := Tick(hear, d);
            var part' := WithBit(part, d.lines.data, k);
            if k < 7 then At(d', atn, k + 1, part') && d'.dos == d.dos
            else JustHeard(d', atn) && d'.dos == hear(d.dos, Message(part', !atn))
  {
    hide HoldsClk, HoldsData;
    TickAfterReceive(hear, d, atn);
    ClockOnRise(Preempt(d.(absentWait := 0)), atn, k, part);
  }

  /** One bit sent lands at its place, unless the drive itself holds DATA low. */
  lemma SendBitDelivers(hear: Hearing, w: Wire, atn: bool, bit: bool, k: nat, part: Byte)
    requires At(w.drive, atn, k, part) && Hears(w.drive.dos, atn)
    ensures var d' := SendBit(hear, w, atn, bit).drive;
            var part' := WithBit(part, bit && !(atn && HoldsData(w.drive.dos.disk.memory)), k);
            if k < 7 then At(d', atn, k + 1, part') && d'.dos == w.drive.dos
            else JustHeard(d', atn) && d'.dos == hear(w.drive.dos, Message(part', !atn))
  {
    hide HoldsClk, HoldsData, WithBit, Tick, Clock;
    var falling, rising := Lines(atn, false, bit), Lines(atn, true, bit);
    var w1 := Clock(hear, w, falling);
    ClockIsPulse(hear, w, falling);
    TickOnFall(hear, Settle(w.drive, falling), atn, k, part);
    ClockIsPulse(hear, w1, rising);
    TickOnRise(hear, Settle(w1.drive, rising), atn, k, part);
  }

  /** After `k` bits: on the way, or (all eight) delivered to the DOS. */
  predicate Progress(hear: Hearing, before: Dos, d: Drive, atn: bool, byte: Byte, k: nat) {
    if k < 8 then At(d, atn, k, LowBits(byte, k)) && d.dos == before
    else JustHeard(d, atn) && d.dos == hear(before, Message(byte, !atn))
  }

  lemma SendBitProgresses(hear: Hearing, before: Dos, w: Wire, atn: bool, byte: Byte, k: nat)
    requires k < 8 && Progress(hear, before, w.drive, atn, Arriving(before, atn, byte), k) && Hears(before, atn)
    ensures Progress(hear, before, SendBit(hear, w, atn, HasBit(byte, k)).drive, atn, Arriving(before, atn, byte),
                     k + 1)
  {
    var arriving := Arriving(before, atn, byte);
    SendBitDelivers(hear, w, atn, HasBit(byte, k), k, LowBits(arriving, k));
    LowBitsGrow(arriving, k);
    assert !HasBit(0, k);
    hide HoldsClk, HoldsData, HasBit, LowBits, SendBit, WithBit;
  }

  lemma {:induction false} SendBitsProgress(hear: Hearing, before: Dos, w: Wire, atn: bool, byte: Byte, k: nat)
    requires k <= 8 && Progress(hear, before, w.drive, atn, Arriving(before, atn, byte), k) && Hears(before, atn)
    ensures Progress(hear, before, SendBits(hear, w, atn, byte, k).drive, atn, Arriving(before, atn, byte), 8)
    decreases 8 - k
  {
    hide Progress, SendBit, HasBit, Arriving, Hears;
    if k < 8 {
      SendBitProgresses(hear, before, w, atn, byte, k);
      SendBitsProgress(hear, before, SendBit(hear, w, atn, HasBit(byte, k)), atn, byte, k + 1);
    }
  }

  /** A byte clocked to a drive that hears it reaches the DOS once, with the right tag, whatever the DOS is:
      unchanged, or as zeros if it is data and the drive itself holds DATA low. */
  lemma SendByteDelivers(hear: Hearing, w: Wire, atn: bool, byte: Byte)
    requires Aligned(w.drive) && Hears(w.drive.dos, atn)
    ensures var d' := SendByte(hear, w, atn, byte).drive;
            JustHeard(d', atn) && d'.dos == hear(w.drive.dos, Message(Arriving(w.drive.dos, atn, byte), !atn))
  {
    LowBitsGrow(Arriving(w.drive.dos, atn, byte), 0);
    SendBitsProgress(hear, w.drive.dos, w, atn, byte, 0);
  }

  /** A drive that neither listens nor talks takes no notice of data. */
  lemma IdleTickIgnores(hear: Hearing, d: Drive)
    requires d.rx.count == 0 && d.rx.shift == 0
    requires d.lines.atn && !d.dos.listening && !d.dos.talking
    ensures var d' := Tick(hear, d);
            && d'.rx.count == 0 && d'.rx.shift == 0 && d'.dos == d.dos && d'.prev == d.lines && d'.mode == Idle
            && d'.pullsClk == HoldsClk(d.dos.disk.memory)
  {
    hide HoldsClk, HoldsData;
    assert !Samples(Preempt(AbsenceCheck(d, Idle)), Idle);
  }

  lemma SendBitIgnored(hear: Hearing, w: Wire, bit: bool)
    requires w.drive.rx.count == 0 && w.drive.rx.shift == 0
    requires !w.drive.dos.listening && !w.drive.dos.talking && !HoldsClk(w.drive.dos.disk.memory)
    ensures var d' := SendBit(hear, w, true, bit).drive;
            d'.rx.count == 0 && d'.rx.shift == 0 && d'.dos == w.drive.dos && d'.prev.clk && d'.mode == Idle
  {
    hide HoldsClk, HoldsData;
    var falling, rising := Lines(true, false, bit), Lines(true, true, bit);
    var w1 := Clock(hear, w, falling);
    ClockIsPulse(hear, w, falling);
    IdleTickIgnores(hear, Settle(w.drive, falling));
    ClockIsPulse(hear, w1, rising);
    IdleTickIgnores(hear, Settle(w1.drive, rising));
  }

  lemma {:induction false} SendBitsIgnored(hear: Hearing, w: Wire, byte: Byte, k: nat)
    requires k <= 8 && Aligned(w.drive) && !w.drive.dos.listening && !w.drive.dos.talking
    requires !HoldsClk(w.drive.dos.disk.memory)
    ensures var d' := SendBits(hear, w, true, byte, k).drive; Aligned(d') && d'.dos == w.drive.dos
    decreases 8 - k
  {
    hide SendBit, HasBit, HoldsClk;
    if k < 8 {
      SendBitIgnored(hear, w, HasBit(byte, k));
      SendBitsIgnored(hear, SendBit(hear, w, true, HasBit(byte, k)), byte, k + 1);
    }
  }

  lemma SendByteIgnored(hear: Hearing, w: Wire, byte: Byte)
    requires Aligned(w.drive) && !w.drive.dos.listening && !w.drive.dos.talking
    requires !HoldsClk(w.drive.dos.disk.memory)
    ensures var d' := SendByte(hear, w, true, byte).drive; Aligned(d') && d'.dos == w.drive.dos
  {
    hide SendBit;
    SendBitsIgnored(hear, w, byte, 0);
  }

  function SendAll(hear: Hearing, w: Wire, ms: seq<Message>): Wire
    decreases |ms|
  {
    if ms == [] then w else SendAll(hear, SendByte(hear, w, !ms[0].command, ms[0].byte), ms[1..])
  }

  /** What a drive makes of a message: commands always count, data only while it listens. */
  function Heard(hear: Hearing, dos: Dos, m: Message): Dos {
    if m.command || dos.listening then hear(dos, m.(byte := Arriving(dos, !m.command, m.byte))) else dos
  }

  function HeardAll(hear: Hearing, dos: Dos, ms: seq<Message>): Dos
    decreases |ms|
  {
    if ms == [] then dos else HeardAll(hear, Heard(hear, dos, ms[0]), ms[1..])
  }

  /** The host never clocks data at a drive that is talking itself or holding the clock. */
  predicate Sendable(hear: Hearing, dos: Dos, ms: seq<Message>)
    decreases |ms|
  {
    ms == [] || ((ms[0].command || (!dos.talking && !HoldsClk(dos.disk.memory)))
                 && Sendable(hear, Heard(hear, dos, ms[0]), ms[1..]))
  }

  /** Listen round trip: any string of command and data bytes clocked out by the host is dispatched by
      the drive as exactly that string, byte for byte and tag for tag; data nobody listens to is not, and
      data through a line that the drive holds low is zeros. */
  lemma {:induction false} ListenRoundTrip(hear: Hearing, w: Wire, ms: seq<Message>)
    requires Aligned(w.drive) && Sendable(hear, w.drive.dos, ms)
    ensures var d' := SendAll(hear, w, ms).drive;
            && Aligned(d') && d'.dos == HeardAll(hear, w.drive.dos, ms)
            && (ms != [] && ms[|ms| - 1].command ==> JustHeard(d', false))
    decreases |ms|
  {
    hide SendByte, HoldsClk, HoldsData;
    if ms != [] {
      var m := ms[0];
      if m.command || w.drive.dos.listening {
        SendByteDelivers(hear, w, !m.command, m.byte);
      } else {
        SendByteIgnored(hear, w, m.byte);
      }
      ListenRoundTrip(hear, SendByte(hear, w, !m.command, m.byte), ms[1..]);
    }
  }

  // ---- the host's DATA input stays an input -----------------------------------------------------------

  lemma {:induction false} SendBitsKeepDirection(hear: Hearing, w: Wire, atn: bool, byte: Byte, k: nat)
    requires k <= 8
    ensures SendBits(hear, w, atn, byte, k).port.ddra & 0x80 == w.port.ddra & 0x80
    decreases 8 - k
  {
    hide Tick;
    if k < 8 {
      var bit := HasBit(byte, k);
      ClockIsPulse(hear, w, Lines(atn, false, bit));
      ClockIsPulse(hear, Clock(hear, w, Lines(atn, false, bit)), Lines(atn, true, bit));
      hide Clock;
      SendBitsKeepDirection(hear, SendBit(hear, w, atn, bit), atn, byte, k + 1);
    }
  }

  lemma {:induction false} SendAllKeepsDirection(hear: Hearing, w: Wire, ms: seq<Message>)
    ensures SendAll(hear, w, ms).port.ddra & 0x80 == w.port.ddra & 0x80
    decreases |ms|
  {
    hide SendBits;
    if ms != [] {
      SendBitsKeepDirection(hear, w, !ms[0].command, ms[0].byte, 0);
      SendAllKeepsDirection(hear, SendByte(hear, w, !ms[0].command, ms[0].byte), ms[1..]);
    }
  }
}
