/** The drive side of the serial bus: what one call of the drive's serial step does to its receiver,
    its transmitter and the DOS state behind them, under the default flags. */
module DriveSerial {

  import opened IecLines
  import opened DosNames
  import opened DosCommands
  import opened DriveDos

  const TIMEOUT_TICKS := 256
  const TIMEOUT_HYSTERESIS := 16
  const RECEIVER_TIMEOUT := 1000
  const BETWEEN_BYTES := 100

  datatype Mode = Idle | Command | ListenData | TalkData | TalkEoiAck

  datatype Receiver = Receiver(shift: Byte, count: nat, idle: nat, frameSync: bool, sawStart: bool)

  datatype Transmitter = Transmitter(
    active: bool, shift: Byte, count: nat, isEoi: bool,
    startPending: bool, armed: bool, sawStart: bool, between: nat, idle: nat, pullData: bool)

  datatype Eoi = Eoi(pending: bool, lowSeen: bool, wait: nat, acks: nat)

  datatype Drive = Drive(
    lines: Lines, prev: Lines, mode: Mode, rx: Receiver, tx: Transmitter, eoi: Eoi,
    dos: Dos, absentWait: nat, pullsClk: bool, pullsData: bool)

  /** `1 << n` narrowed to a byte. */
  function Bit(n: nat): Byte {
    if n == 0 then 1 else Bit(n - 1) << 1
  }

  function HasBit(b: Byte, n: nat): bool {
    b & Bit(n) != 0
  }

  // ---- one serial step ---------------------------------------------------------------------

  function Falling(d: Drive): bool { d.prev.clk && !d.lines.clk }

  function Rising(d: Drive): bool { !d.prev.clk && d.lines.clk }

  function ClockEdge(d: Drive): bool { d.prev.clk != d.lines.clk }

  function NextMode(d: Drive): Mode {
    if !d.lines.atn then Command
    else if d.dos.talking then if d.eoi.pending then TalkEoiAck else TalkData
    else if d.dos.listening then ListenData
    else Idle
  }

  function SilentTransmitter(tx: Transmitter): Transmitter {
    tx.(active := false, count := 0, isEoi := false, startPending := false, armed := false,
        sawStart := false, between := 0, pullData := false)
  }

  function NoEoi(eoi: Eoi): Eoi {
    eoi.(pending := false, lowSeen := false, wait := 0)
  }

  function Complain(dos: Dos, late: bool): Dos {
    if late then dos.(status := NotReady) else dos
  }

  /** Counts the ticks a talker has nothing to say. */
  function AbsenceCheck(d: Drive, next: Mode): Drive {
    var absent := next == TalkData && !d.tx.active && !d.tx.startPending && d.dos.queue == [];
    var late := absent && d.absentWait + 1 > TIMEOUT_TICKS;
    d.(absentWait := if absent && !late then d.absentWait + 1 else 0, dos := Complain(d.dos, late))
  }

  predicate Preempted(d: Drive) {
    !d.lines.atn && (d.mode == TalkData || d.mode == TalkEoiAck || d.tx.active || d.tx.startPending || d.eoi.pending)
  }

  /** ATN falling into a talk wipes the transmitter. */
  function Preempt(d: Drive): Drive {
    d.(tx := if Preempted(d) then SilentTransmitter(d.tx) else d.tx,
       eoi := if Preempted(d) then NoEoi(d.eoi) else d.eoi)
  }

  /** Frame bookkeeping before a bit may be sampled. */
  function FrameReceiver(d: Drive, next: Mode): Receiver {
    var rx := if d.mode != Command && next == Command
              then d.rx.(shift := 0, count := 0, idle := 0, frameSync := true, sawStart := false)
              else d.rx;
    if next != Command then rx.(frameSync := false, sawStart := false)
    else rx.(sawStart := rx.sawStart || (rx.frameSync && Falling(d)))
  }

  /** A command bit counts only once a falling clock edge framed the frame in an earlier step. */
  predicate EdgeQualified(d: Drive, next: Mode) {
    next == ListenData ||
    (next == Command && d.mode == Command && (d.rx.frameSync ==> d.rx.sawStart))
  }

  predicate Samples(d: Drive, next: Mode) {
    Rising(d) && EdgeQualified(d, next)
  }

  function Sample(rx: Receiver, data: bool): Receiver {
    rx.(shift := rx.shift | (if data then Bit(rx.count) else 0), count := rx.count + 1)
  }

  /** The receiver after the step's clock edge, and the byte it completed, if any. */
  function ClockReceiver(d: Drive, next: Mode): Receiver {
    var rx := FrameReceiver(d, next);
    if Samples(d, next) then Sample(rx, d.lines.data) else rx
  }

  predicate Completes(d: Drive, next: Mode) {
    Samples(d, next) && FrameReceiver(d, next).count + 1 >= 8
  }

  function Received(d: Drive, next: Mode): Message {
    Message(ClockReceiver(d, next).shift, next == Command)
  }

  /** The eighth bit hands the byte on and starts the receiver over. */
  function Receive(hear: Hearing, d: Drive, next: Mode): Drive {
    var rx := ClockReceiver(d, next);
    if Completes(d, next) then
      var m := Received(d, next);
      var untalk := m == Message(0x5F, true);
      d.(rx := rx.(shift := 0, count := 0, idle := if m == Message(0x3F, true) then 0 else rx.idle),
         dos := hear(d.dos, m),
         tx := if untalk then SilentTransmitter(d.tx).(between := d.tx.between, idle := 0) else d.tx,
         eoi := if untalk then NoEoi(d.eoi) else d.eoi)
    else d.(rx := rx)
  }

  predicate ReceiverStalls(d: Drive, next: Mode) {
    d.rx.count > 0 && !ClockEdge(d) && next != Command && d.rx.idle + 1 > RECEIVER_TIMEOUT + TIMEOUT_HYSTERESIS
  }

  function TimedReceiver(d: Drive, next: Mode): Receiver {
    if d.rx.count == 0 || ClockEdge(d) then d.rx.(idle := 0)
    else if next == Command then d.rx
    else if ReceiverStalls(d, next) then d.rx.(shift := 0, count := 0, idle := 0)
    else d.rx.(idle := d.rx.idle + 1)
  }

  /** An unfinished data byte is dropped when the clock stops for too long. */
  function ReceiveTimeout(d: Drive, next: Mode): Drive {
    d.(rx := TimedReceiver(d, next), dos := Complain(d.dos, ReceiverStalls(d, next)))
  }

  /** One tick of waiting for the host to pulse DATA after the last byte. */
  function EoiSeen(eoi: Eoi, data: bool): Eoi {
    var low := eoi.lowSeen || !data;
    if low && data then Eoi(false, false, 0, eoi.acks + 1) else eoi.(lowSeen := low)
  }

  predicate EoiExpires(eoi: Eoi) {
    !eoi.lowSeen && eoi.wait + 1 > TIMEOUT_TICKS
  }

  function EoiTimed(eoi: Eoi): Eoi {
    if eoi.lowSeen then eoi
    else if EoiExpires(eoi) then eoi.(pending := false, wait := 0)
    else eoi.(wait := eoi.wait + 1)
  }

  function EoiWait(d: Drive): Drive {
    var seen := EoiSeen(d.eoi, d.lines.data);
    d.(tx := d.tx.(pullData := false), eoi := EoiTimed(seen), dos := Complain(d.dos, EoiExpires(seen)))
  }

  function NotTalking(d: Drive): Drive {
    d.(tx := SilentTransmitter(d.tx), eoi := d.eoi.(pending := false, lowSeen := false))
  }

  predicate Confirmed(dos: Dos) {
    if dos.talkChannel == 0 then dos.sa0Confirmed else dos.talkChannel != NO_CHANNEL
  }

  /** Entering the talk state, and between bytes, the next start is armed. */
  function ArmStart(d: Drive): Transmitter {
    var entering := d.mode != TalkData;
    var t1 := if entering then d.tx.(armed := true, sawStart := false) else d.tx;
    var t2 := if entering && !t1.active && !d.eoi.pending && d.dos.queue != []
              then t1.(startPending := Confirmed(d.dos), pullData := false, between := 0) else t1;
    if !t2.startPending && !t2.active && !d.eoi.pending && d.dos.queue != [] && Confirmed(d.dos) then
      if t2.between + 1 >= BETWEEN_BYTES then t2.(startPending := true, between := 0)
      else t2.(between := t2.between + 1)
    else t2
  }

  function OpenFrame(d: Drive, tx: Transmitter): Transmitter {
    tx.(sawStart := tx.sawStart || (Falling(d) && tx.armed))
  }

  /** A falling clock edge fetches the next byte if none is under way. */
  predicate Fetches(d: Drive, tx: Transmitter) {
    Falling(d) && tx.sawStart && !tx.active && !d.eoi.pending && Confirmed(d.dos) && d.dos.queue != []
  }

  predicate FindsNothing(d: Drive, tx: Transmitter) {
    Falling(d) && tx.sawStart && tx.startPending && !tx.active && !d.eoi.pending && Confirmed(d.dos)
        && d.dos.queue == []
  }

  /** A rising clock edge ends the byte after its last bit. */
  predicate EndsByte(d: Drive, tx: Transmitter) {
    Rising(d) && tx.active && tx.count + 1 >= 8
  }

  function ClockTransmitter(d: Drive, tx: Transmitter): Transmitter {
    if Fetches(d, tx) then
      tx.(startPending := false, shift := d.dos.queue[0], count := 0, active := true,
          isEoi := |d.dos.queue| == 1, between := 0)
    else if FindsNothing(d, tx) then tx.(startPending := false, pullData := false)
    else if EndsByte(d, tx) then tx.(active := false, count := 0, isEoi := false)
    else if Rising(d) && tx.active then tx.(count := tx.count + 1)
    else tx
  }

  predicate TransmitterStalls(d: Drive, tx: Transmitter) {
    tx.active && !ClockEdge(d) && tx.idle + 1 > TIMEOUT_TICKS + TIMEOUT_HYSTERESIS
  }

  /** The current bit goes on the line: a zero pulls DATA. */
  function DriveBit(d: Drive, tx: Transmitter): Transmitter {
    if !tx.active then tx.(idle := 0)
    else if TransmitterStalls(d, tx) then tx.(active := false, count := 0, pullData := false, idle := 0)
    else tx.(pullData := !HasBit(tx.shift, tx.count), idle := if ClockEdge(d) then 0 else tx.idle + 1)
  }

  function Arm(d: Drive): Drive {
    d.(tx := ArmStart(d))
  }

  function ClockTalk(d: Drive): Drive {
    var framed := OpenFrame(d, d.tx);
    var queue := if Fetches(d, framed) then d.dos.queue[1..] else d.dos.queue;
    d.(tx := ClockTransmitter(d, framed),
       eoi := if EndsByte(d, framed) && framed.isEoi then d.eoi.(pending := true, lowSeen := false, wait := 0)
           else d.eoi,
       dos := d.dos.(queue := queue))
  }

  function PutBit(d: Drive): Drive {
    d.(tx := DriveBit(d, d.tx), dos := Complain(d.dos, TransmitterStalls(d, d.tx)))
  }

  function Transmit(d: Drive): Drive {
    PutBit(ClockTalk(Arm(d)))
  }

  function StepSerial(hear: Hearing, d: Drive): Drive {
    var next := NextMode(d);
    var d1 := ReceiveTimeout(Receive(hear, Preempt(AbsenceCheck(d, next)), next), next);
    var d2 := match next
              case TalkEoiAck => EoiWait(d1)
              case TalkData => Transmit(d1)
              case _ => NotTalking(d1);
    d2.(mode := next, prev := d.lines)
  }

  /** The lines a drive pulls: the talker's zero bits, and what the VIA holds, except while commands come in. */
  function Outputs(d: Drive): Drive {
    var m := d.dos.disk.memory;
    d.(pullsClk := d.mode != Command && HoldsClk(m), pullsData := d.tx.pullData || (d.mode != Command && HoldsData(m)))
  }

  /** One half cycle of a powered drive. */
  function Tick(hear: Hearing, d: Drive): Drive {
    Outputs(StepSerial(hear, d))
  }

  /** The VIA leaves both lines alone. */
  predicate Releases(dos: Dos) {
    !HoldsClk(dos.disk.memory) && !HoldsData(dos.disk.memory)
  }

  /** A drive as constructed and reset, with the given memory contents. */
  function PowerOn(address: Byte, memory: seq<Byte>): Drive {
    Drive(RELEASED, RELEASED, Idle, Receiver(0, 0, 0, false, false),
          Transmitter(false, 0, 0, false, false, false, false, 0, 0, false),
          Eoi(false, false, 0, 0), ResetDos(address, memory), 0, false, false)
  }

  /** A drive reset while it runs: the lines it sees and its pulls on them stay as they stand until it
      steps again. */
  function ResetDrive(d: Drive): Drive {
    PowerOn(d.dos.address, d.dos.disk.memory.bytes).(lines := d.lines, pullsClk := d.pullsClk, pullsData := d.pullsData)
  }

  // ---- what every step keeps, whatever the lines do ------------------------------------------------

  predicate ReceiverOk(rx: Receiver) {
    rx.count < 8 && rx.shift < Bit(rx.count)
  }

  predicate DriveOk(d: Drive) {
    && ReceiverOk(d.rx)
    && d.tx.count < 8
    && (d.mode == Command ==> d.rx.frameSync)
    && (d.mode == TalkData ==> d.tx.armed)
    && (d.mode != TalkData && d.mode != TalkEoiAck ==> !d.tx.active && !d.tx.startPending && !d.tx.pullData)
  }

  lemma BitValues()
    ensures Bit(0) == 0x01 && Bit(1) == 0x02 && Bit(2) == 0x04 && Bit(3) == 0x08
    ensures Bit(4) == 0x10 && Bit(5) == 0x20 && Bit(6) == 0x40 && Bit(7) == 0x80
  {
  }

  lemma SampleFillsBitAtCount(rx: Receiver, data: bool)
    requires ReceiverOk(rx)
    ensures var rx' := Sample(rx, data);
            rx'.count == rx.count + 1 && (rx'.count < 8 ==> rx'.shift < Bit(rx'.count))
  {
    BitValues();
  }

  lemma FrameKeepsReceiverOk(d: Drive, next: Mode)
    requires ReceiverOk(d.rx)
    ensures ReceiverOk(FrameReceiver(d, next))
    ensures next == Command && (d.mode == Command ==> d.rx.frameSync) ==> FrameReceiver(d, next).frameSync
  {
    assert Bit(0) == 1;
    hide Bit;
  }

  lemma ClockKeepsReceiverOk(d: Drive, next: Mode)
    requires ReceiverOk(d.rx)
    ensures var rx := ClockReceiver(d, next);
            (!Completes(d, next) ==> ReceiverOk(rx)) && rx.frameSync == FrameReceiver(d, next).frameSync
  {
    FrameKeepsReceiverOk(d, next);
    SampleFillsBitAtCount(FrameReceiver(d, next), d.lines.data);
    hide Bit, FrameReceiver, EdgeQualified;
  }

  lemma ReceiveKeepsReceiverOk(hear: Hearing, d: Drive, next: Mode)
    requires ReceiverOk(d.rx)
    ensures ReceiverOk(Receive(hear, d, next).rx)
    ensures Receive(hear, d, next).rx.frameSync == FrameReceiver(d, next).frameSync
  {
    ClockKeepsReceiverOk(d, next);
    BitOfNone();
    hide Bit, FrameReceiver, EdgeQualified, ClockReceiver, SilentTransmitter;
  }

  lemma BitOfNone()
    ensures Bit(0) == 1
  {
  }

  lemma TimeoutKeepsOrClears(d: Drive, next: Mode)
    ensures var rx := TimedReceiver(d, next);
            rx == d.rx.(idle := rx.idle) || rx == d.rx.(shift := 0, count := 0, idle := 0)
  {
    hide ReceiverStalls, ClockEdge;
  }

  lemma TimeoutKeepsReceiverOk(d: Drive, next: Mode)
    requires ReceiverOk(d.rx)
    ensures ReceiverOk(TimedReceiver(d, next)) && TimedReceiver(d, next).frameSync == d.rx.frameSync
  {
    BitOfNone();
    TimeoutKeepsOrClears(d, next);
    hide Bit, TimedReceiver;
  }

  lemma ArmKeeps(d: Drive)
    ensures var t := ArmStart(d);
            t.count == d.tx.count && t.active == d.tx.active && t.armed == (d.tx.armed || d.mode != TalkData)
  {
  }

  lemma ClockKeeps(d: Drive, tx: Transmitter)
    requires tx.count < 8
    ensures var t := ClockTransmitter(d, tx); t.count < 8 && t.armed == tx.armed
  {
  }

  lemma DriveKeeps(d: Drive, tx: Transmitter)
    requires tx.count < 8
    ensures var t := DriveBit(d, tx); t.count < 8 && t.armed == tx.armed
  {
  }

  lemma TransmitBounds(d: Drive)
    requires d.tx.count < 8 && (d.mode == TalkData ==> d.tx.armed)
    ensures Transmit(d).tx.count < 8 && Transmit(d).tx.armed
  {
    ArmKeeps(d);
    var armed := Arm(d);
    ClockKeeps(armed, OpenFrame(armed, armed.tx));
    DriveKeeps(ClockTalk(armed), ClockTalk(armed).tx);
  }

  /** Between steps the bit counts stay below eight and no bit is set at or above the receive count:
      for every step, any bus lines and any DOS behind the receiver. */
  lemma TickKeepsDriveOk(hear: Hearing, d: Drive)
    requires DriveOk(d)
    ensures DriveOk(Tick(hear, d))
  {
    var next := NextMode(d);
    var d0 := Preempt(AbsenceCheck(d, next));
    ReceiveKeepsReceiverOk(hear, d0, next);
    FrameKeepsReceiverOk(d0, next);
    var d1 := Receive(hear, d0, next);
    TimeoutKeepsReceiverOk(d1, next);
    var d2 := ReceiveTimeout(d1, next);
    if next == TalkData {
      TransmitBounds(d2);
    }
    hide Transmit, TimedReceiver, ClockReceiver, Completes, ReceiverOk, EoiSeen, EoiTimed, Complain;
  }
}
