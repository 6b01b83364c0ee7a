/** The 6526 interface adapter: two interval timers, the deferred interrupt events, the serial shift
    register and the time-of-day clock, under half cycles interleaved with any register accesses. */
module Cia {

  type Byte = bv8

  datatype Profile = Profile(todReload: nat, outputNeedsHighPhase: bool, tenthsUnfreezes: bool,
                             hoursWriteStops: bool, flagImmediate: bool, shiftOnFalling: bool, shiftReload: nat)

  datatype Revision = R6526 | R6526A | R6526R4

  function ProfileOf(r: Revision): Profile {
    match r
    case R6526 => Profile(10, true, true, true, false, false, 8)
    case R6526A => Profile(12, true, false, false, true, true, 7)
    case R6526R4 => Profile(11, true, false, false, true, true, 7)
  }

  // ---- interrupts --------------------------------------------------------------------------------

  datatype Source = UnderflowA | UnderflowB | Alarm | SerialByte | Flag

  function Bit(s: Source): Byte {
    match s
    case UnderflowA => 0x01
    case UnderflowB => 0x02
    case Alarm => 0x04
    case SerialByte => 0x08
    case Flag => 0x10
  }

  predicate Has(mask: Byte, s: Source) {
    mask & Bit(s) != 0
  }

  /** `line` is the interrupt level last signalled to the processor. */
  datatype Interrupts = Interrupts(icr: Byte, ier: Byte, deferred: Byte, line: bool)

  function SetEvent(i: Interrupts, mask: Byte): Interrupts {
    var icr := i.icr | (mask & 0x1F) | (if i.ier & mask & 0x1F != 0 then 0x80 else 0);
    i.(icr := icr, line := icr & 0x80 != 0)
  }

  function Defer(i: Interrupts, mask: Byte): Interrupts {
    i.(deferred := i.deferred | (mask & 0x1F))
  }

  function Latch(i: Interrupts): Interrupts {
    if i.deferred != 0 then SetEvent(i, i.deferred).(deferred := 0) else i
  }

  function Summary(icr: Byte, ier: Byte): Byte {
    if icr & ier & 0x1F != 0 then icr | 0x80 else icr & 0x7F
  }

  function ClearMask(i: Interrupts, mask: Byte): Interrupts {
    var icr := Summary(i.icr & !(mask & 0x1F), i.ier);
    i.(icr := icr, line := icr & 0x80 != 0)
  }

  function Enable(i: Interrupts, val: Byte): Interrupts {
    var ier := if val & 0x80 != 0 then i.ier | (val & 0x7F) else i.ier & !(val & 0x7F);
    i.(ier := ier, icr := Summary(i.icr, ier))
  }

  function Signal(i: Interrupts): Interrupts {
    i.(line := i.icr & 0x80 != 0)
  }

  // ---- timers -------------------------------------------------------------------------------------

  datatype Timer = Timer(count: nat, latch: nat, started: bool, oneShot: bool, underflows: nat)

  predicate Underflows(t: Timer) {
    t.started && t.count == 0
  }

  function CountDown(t: Timer): Timer {
    var u := Underflows(t);
    t.(count := if u then t.latch else if t.started then t.count - 1 else t.count,
       underflows := if u then t.underflows + 1 else t.underflows,
       started := t.started && !(u && t.oneShot))
  }

  function LatchLow(t: Timer, val: Byte): Timer {
    t.(latch := t.latch / 256 * 256 + val as nat)
  }

  function LatchHigh(t: Timer, val: Byte): Timer {
    var latch := val as nat * 256 + t.latch % 256;
    t.(latch := latch, count := latch)
  }

  function Control(t: Timer, val: Byte): Timer {
    t.(oneShot := val & 0x08 != 0, started := val & 0x01 != 0,
       count := if val & 0x10 != 0 then t.latch else t.count)
  }

  // ---- time of day ----------------------------------------------------------------------------------

  /** Register contents: binary-coded decimal, and in the hours a PM flag worth 128. */
  datatype Time = Time(tenths: nat, seconds: nat, minutes: nat, hours: nat)

  datatype Clock = Clock(now: Time, alarm: Time, latched: Time, frozen: bool, running: bool, divider: nat, matches: nat)

  function BcdIncrement(v: nat, maxLow: nat, maxHigh: nat): (nat, bool) {
    var lo, hi := v % 16 + 1, v / 16 % 16;
    if lo <= maxLow then (hi * 16 + lo, false)
    else if hi + 1 <= maxHigh then ((hi + 1) * 16, false)
    else (0, true)
  }

  function NextHours(v: nat): nat {
    var current := v / 16 % 2 * 10 + v % 16;
    var next := if current + 1 > 12 then 1 else current + 1;
    var pm := if next == 12 then 1 - v / 128 % 2 else v / 128 % 2;
    pm * 128 + next / 10 * 16 + next % 10
  }

  function NextTime(t: Time): Time {
    var (tenths, c1) := BcdIncrement(t.tenths, 9, 0);
    var (seconds, c2) := BcdIncrement(t.seconds, 9, 5);
    var (minutes, c3) := BcdIncrement(t.minutes, 9, 5);
    Time(tenths,
         if c1 then seconds else t.seconds,
         if c1 && c2 then minutes else t.minutes,
         if c1 && c2 && c3 then NextHours(t.hours) else t.hours)
  }

  /** A half cycle in the high phase completes a tenth of a second. */
  predicate TenthPasses(p: Profile, c: Clock) {
    c.running && (c.divider + 1) % 65536 >= p.todReload
  }

  predicate AlarmMatches(p: Profile, c: Clock) {
    TenthPasses(p, c) && NextTime(c.now) == c.alarm
  }

  function TickClock(p: Profile, c: Clock): Clock {
    var passes := TenthPasses(p, c);
    c.(divider := if passes then 0 else (c.divider + 1) % 65536,
       now := if passes then NextTime(c.now) else c.now,
       matches := if AlarmMatches(p, c) then c.matches + 1 else c.matches)
  }

  function WithField(t: Time, reg: nat, val: nat): Time {
    if reg == 0x08 then t.(tenths := val)
    else if reg == 0x09 then t.(seconds := val)
    else if reg == 0x0A then t.(minutes := val)
    else t.(hours := val)
  }

  function WriteClock(p: Profile, c: Clock, setAlarm: bool, reg: nat, val: nat): Clock {
    c.(alarm := if setAlarm then WithField(c.alarm, reg, val) else c.alarm,
       now := if setAlarm then c.now else WithField(c.now, reg, val),
       running := if !setAlarm && p.hoursWriteStops && reg == 0x0B then false
                  else c.running || (!setAlarm && p.hoursWriteStops && reg == 0x08))
  }

  /** The time the registers below the hours show. */
  function Shown(c: Clock): Time {
    if c.frozen then c.latched else c.now
  }

  function ReadClock(p: Profile, c: Clock, reg: nat): Clock {
    c.(latched := if reg == 0x0B then c.now else c.latched,
       frozen := reg == 0x0B || (c.frozen && !(reg == 0x08 && p.tenthsUnfreezes)))
  }

  // ---- the serial register ----------------------------------------------------------------------------

  datatype Serial = Serial(data: nat, shift: nat, sending: bool, bitsIn: nat, bitsOut: nat, divider: nat,
                           cnt: bool, sp: bool, prevCnt: bool, received: nat, sent: nat)

  predicate ShiftsIn(p: Profile, s: Serial, output: bool) {
    !output && (if p.shiftOnFalling then s.prevCnt && !s.cnt else !s.prevCnt && s.cnt)
  }

  predicate CompletesIn(p: Profile, s: Serial, output: bool) {
    ShiftsIn(p, s, output) && (s.bitsIn + 1) % 256 >= 8
  }

  function ShiftIn(p: Profile, s: Serial, output: bool): Serial {
    var shifts, done := ShiftsIn(p, s, output), CompletesIn(p, s, output);
    var next := (s.shift * 2 + if s.sp then 1 else 0) % 256;
    s.(prevCnt := s.cnt,
       shift := if done then 0 else if shifts then next else s.shift,
       data := if done then next else s.data,
       bitsIn := if done then 0 else if shifts then (s.bitsIn + 1) % 256 else s.bitsIn,
       received := if done then s.received + 1 else s.received)
  }

  predicate ClocksOut(p: Profile, s: Serial, output: bool, phase: bool, timer: bool) {
    s.sending && output && timer && (p.outputNeedsHighPhase ==> phase)
  }

  predicate CompletesOut(p: Profile, s: Serial, output: bool, phase: bool, timer: bool) {
    ClocksOut(p, s, output, phase, timer) && s.divider == 0 && (s.bitsOut + 1) % 256 >= 8
  }

  function ShiftOut(p: Profile, s: Serial, output: bool, phase: bool, timer: bool): Serial {
    var clocked := ClocksOut(p, s, output, phase, timer);
    var shifts, done := clocked && s.divider == 0, CompletesOut(p, s, output, phase, timer);
    s.(divider := if shifts then p.shiftReload else if clocked then s.divider - 1 else s.divider,
       sp := if shifts then s.shift / 128 % 2 == 1 else s.sp,
       shift := if shifts then s.shift * 2 % 256 else s.shift,
       bitsOut := if done then 0 else if shifts then (s.bitsOut + 1) % 256 else s.bitsOut,
       sending := s.sending && !done,
       sent := if done then s.sent + 1 else s.sent)
  }

  function LoadSerial(p: Profile, s: Serial, val: nat): Serial {
    s.(data := val, shift := val, sending := true, bitsOut := 0, divider := p.shiftReload)
  }

  // ---- the chip -----------------------------------------------------------------------------------------

  /** `readMask` and `readBits` are the bus's override of what reading port A shows. */
  datatype Ports = Ports(pra: Byte, prb: Byte, ddra: Byte, ddrb: Byte, inputA: Byte, inputB: Byte,
                         readMask: Byte, readBits: Byte)

  datatype Pins = Pins(phase: bool, flag: bool, prevFlag: bool)

  datatype Chip = Chip(ports: Ports, timerA: Timer, timerB: Timer, clock: Clock, serial: Serial,
                       irq: Interrupts, controlA: Byte, controlB: Byte, pins: Pins)

  predicate Output(c: Chip) {
    c.controlA & 0x40 != 0
  }

  predicate FlagFalls(c: Chip) {
    c.pins.prevFlag && !c.pins.flag
  }

  /** The source raises an event during this half cycle. */
  predicate Raises(p: Profile, c: Chip, s: Source) {
    match s
    case UnderflowA => !c.pins.phase && Underflows(c.timerA)
    case UnderflowB => !c.pins.phase && Underflows(c.timerB)
    case Alarm => !c.pins.phase && AlarmMatches(p, c.clock)
    case SerialByte => CompletesIn(p, c.serial, Output(c))
                    || CompletesOut(p, ShiftIn(p, c.serial, Output(c)), Output(c), !c.pins.phase, TimerARuns(c))
    case Flag => FlagFalls(c)
  }

  /** Timer A still runs after this half cycle. */
  predicate TimerARuns(c: Chip) {
    if c.pins.phase then c.timerA.started else CountDown(c.timerA).started
  }

  function MaskIf(raised: bool, s: Source): Byte {
    if raised then Bit(s) else 0
  }

  function Masks(a: bool, b: bool, alarm: bool, serial: bool, flag: bool): Byte {
    MaskIf(a, UnderflowA) | MaskIf(b, UnderflowB) | MaskIf(alarm, Alarm) | MaskIf(serial, SerialByte)
    | MaskIf(flag, Flag)
  }

  /** The events a half cycle defers to the next one. */
  function DeferredNow(p: Profile, c: Chip): Byte {
    Masks(Raises(p, c, UnderflowA), Raises(p, c, UnderflowB), Raises(p, c, Alarm), Raises(p, c, SerialByte),
          FlagFalls(c) && !p.flagImmediate)
  }

  function TickIrq(p: Profile, c: Chip): Interrupts {
    var latched := Latch(c.irq);
    Defer(if FlagFalls(c) && p.flagImmediate then SetEvent(latched, Bit(Flag)) else latched, DeferredNow(p, c))
  }

  function TickHalf(p: Profile, c: Chip): Chip {
    var phase := !c.pins.phase;
    c.(pins := Pins(phase, c.pins.flag, c.pins.flag),
       timerA := if phase then CountDown(c.timerA) else c.timerA,
       timerB := if phase then CountDown(c.timerB) else c.timerB,
       clock := if phase then TickClock(p, c.clock) else c.clock,
       serial := ShiftOut(p, ShiftIn(p, c.serial, Output(c)), Output(c), phase, TimerARuns(c)),
       irq := TickIrq(p, c))
  }

  function Combined(data: Byte, direction: Byte, input: Byte): Byte {
    (data & direction) | (input & !direction)
  }

  function PortA(ports: Ports): Byte {
    var combined := Combined(ports.pra, ports.ddra, ports.inputA);
    if ports.readMask != 0 then (combined & !ports.readMask) | (ports.readBits & ports.readMask) else combined
  }

  /** What a register read returns. */
  function ReadValue(c: Chip, address: nat, bus: Byte): nat {
    var reg := address % 16;
    if reg == 0x00 then PortA(c.ports) as nat
    else if reg == 0x01 then Combined(c.ports.prb, c.ports.ddrb, c.ports.inputB) as nat
    else if reg == 0x02 then c.ports.ddra as nat
    else if reg == 0x03 then c.ports.ddrb as nat
    else if reg == 0x04 then c.timerA.count % 256
    else if reg == 0x05 then c.timerA.count / 256 % 256
    else if reg == 0x06 then c.timerB.count % 256
    else if reg == 0x07 then c.timerB.count / 256 % 256
    else if reg == 0x08 then Shown(c.clock).tenths
    else if reg == 0x09 then Shown(c.clock).seconds
    else if reg == 0x0A then Shown(c.clock).minutes
    else if reg == 0x0B then c.clock.now.hours
    else if reg == 0x0C then c.serial.data
    else if reg == 0x0D then c.irq.icr as nat
    else if reg == 0x0E then c.controlA as nat
    else c.controlB as nat
  }

  /** What a register read changes. */
  function Read(p: Profile, c: Chip, address: nat): Chip {
    var reg := address % 16;
    c.(clock := if 0x08 <= reg <= 0x0B then ReadClock(p, c.clock, reg) else c.clock,
       irq := if reg == 0x0D then ClearMask(c.irq, 0x1F) else c.irq)
  }

  function WritePorts(ports: Ports, reg: nat, val: Byte): Ports {
    if reg == 0x00 then ports.(pra := val)
    else if reg == 0x01 then ports.(prb := val)
    else if reg == 0x02 then ports.(ddra := val)
    else if reg == 0x03 then ports.(ddrb := val)
    else ports
  }

  function WriteTimer(t: Timer, low: nat, control: nat, reg: nat, val: Byte): Timer {
    if reg == low then LatchLow(t, val)
    else if reg == low + 1 then LatchHigh(t, val)
    else if reg == control then Control(t, val)
    else t
  }

  function WriteIrq(i: Interrupts, reg: nat, val: Byte): Interrupts {
    Signal(if reg == 0x0D then Enable(i, val) else i)
  }

  function Write(p: Profile, c: Chip, address: nat, val: Byte): Chip {
    var reg := address % 16;
    c.(ports := WritePorts(c.ports, reg, val),
       timerA := WriteTimer(c.timerA, 0x04, 0x0E, reg, val),
       timerB := WriteTimer(c.timerB, 0x06, 0x0F, reg, val),
       clock := if 0x08 <= reg <= 0x0B then WriteClock(p, c.clock, c.controlB & 0x80 != 0, reg, val as nat)
           else c.clock,
       serial := if reg == 0x0C then LoadSerial(p, c.serial, val as nat) else c.serial,
       irq := WriteIrq(c.irq, reg, val),
       controlA := if reg == 0x0E then val else c.controlA,
       controlB := if reg == 0x0F then val else c.controlB)
  }

  // ---- runs ------------------------------------------------------------------------------------------------

  datatype Op =
    | HalfCycle
    | ReadReg(address: nat)
    | WriteReg(address: nat, val: Byte)
    | SerialPins(cnt: bool, sp: bool)
    | FlagPin(level: bool)
    | PortPins(inputA: Byte, inputB: Byte, readMask: Byte, readBits: Byte)

  function Step(p: Profile, c: Chip, op: Op): Chip {
    match op
    case HalfCycle => TickHalf(p, c)
    case ReadReg(address) => Read(p, c, address)
    case WriteReg(address, val) => Write(p, c, address, val)
    case SerialPins(cnt, sp) => c.(serial := c.serial.(cnt := cnt, sp := sp))
    case FlagPin(level) => c.(pins := c.pins.(flag := level))
    case PortPins(a, b, mask, bits) =>
      c.(ports := c.ports.(inputA := a, inputB := b, readMask := mask, readBits := bits))
  }

  function Run(p: Profile, c: Chip, ops: seq<Op>): Chip {
    if ops == [] then c else Step(p, Run(p, c, ops[..|ops| - 1]), ops[|ops| - 1])
  }

  function PowerOn(): Chip {
    Chip(Ports(0, 0, 0, 0, 0xFF, 0xFF, 0, 0), Timer(65535, 65535, false, false, 0),
         Timer(65535, 65535, false, false, 0),
         Clock(Time(0, 0, 0, 1), Time(0, 0, 0, 0), Time(0, 0, 0, 0), false, true, 0, 0),
         Serial(0, 0, false, 0, 0, 0, true, true, true, 0, 0),
         Interrupts(0, 0, 0, false), 0, 0, Pins(false, true, true))
  }
}
