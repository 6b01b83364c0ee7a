/** The interface adapter as an object: half cycles and register accesses update its fields in place. */
module CiaChip {
  import opened Cia

  class CiaChip {
    const profile: Profile

    var ports: Ports
    var timerA: Timer
    var timerB: Timer
    var clock: Clock
    var serial: Serial
    var irq: Interrupts
    var controlA: Byte
    var controlB: Byte
    var pins: Pins

    ghost function Model(): Chip
      reads this
    {
      Chip(ports, timerA, timerB, clock, serial, irq, controlA, controlB, pins)
    }

    constructor (revision: Revision)
      ensures profile == ProfileOf(revision) && Model() == PowerOn()
    {
      profile := ProfileOf(revision);
      ports := Ports(0, 0, 0, 0, 0xFF, 0xFF, 0, 0);
      timerA, timerB := Timer(65535, 65535, false, false, 0), Timer(65535, 65535, false, false, 0);
      clock := Clock(Time(0, 0, 0, 1), Time(0, 0, 0, 0), Time(0, 0, 0, 0), false, true, 0, 0);
      serial := Serial(0, 0, false, 0, 0, 0, true, true, true, 0, 0);
      irq := Interrupts(0, 0, 0, false);
      controlA, controlB := 0, 0;
      pins := Pins(false, true, true);
    }

    // ---- interrupt events -------------------------------------------------------------------------

    method UpdateIrqLine()
      modifies this`irq
      ensures irq == Signal(old(irq))
    {
      irq := irq.(line := irq.icr & 0x80 != 0);
    }

    method SetIcrEvent(bitMask: Byte)
      modifies this`irq
      ensures irq == SetEvent(old(irq), bitMask)
    {
      var mask := bitMask & 0x1F;
      irq := irq.(icr := irq.icr | mask);
      if irq.ier & mask != 0 {
        irq := irq.(icr := irq.icr | 0x80);
      }
      UpdateIrqLine();
      OrZero(old(irq).icr | mask);
      AndAssociates(irq.ier, bitMask);
    }

    method DeferIcrEvent(bitMask: Byte)
      modifies this`irq
      ensures irq == Defer(old(irq), bitMask)
    {
      irq := irq.(deferred := irq.deferred | (bitMask & 0x1F));
    }

    method ClearIcrMask(bitMask: Byte)
      modifies this`irq
      ensures irq == ClearMask(old(irq), bitMask)
    {
      hide Summary;
      var icr := Summarise(irq.icr & !(bitMask & 0x1F), irq.ier);
      irq := irq.(icr := icr);
      UpdateIrqLine();
    }

    method DeliverDeferredEvents()
      modifies this`irq
      ensures irq == Latch(old(irq))
    {
      if irq.deferred != 0 {
        SetIcrEvent(irq.deferred);
        irq := irq.(deferred := 0);
      }
    }

    /** The falling edge of the flag pin, signalled at once or one half cycle later. */
    method SampleFlagPin()
      modifies this`irq, this`pins
      ensures pins == old(pins).(prevFlag := old(pins).flag)
      ensures var falls := old(pins).prevFlag && !old(pins).flag;
              irq == Defer(if falls && profile.flagImmediate then SetEvent(old(irq), Bit(Flag)) else old(irq),
                           MaskIf(falls && !profile.flagImmediate, Flag))
    {
      var flagFalling := pins.prevFlag && !pins.flag;
      pins := pins.(prevFlag := pins.flag);
      if flagFalling {
        if profile.flagImmediate {
          SetIcrEvent(0x10);
        } else {
          DeferIcrEvent(0x10);
        }
      }
      DeferNothing(irq);
      hide SetEvent;
    }

    // ---- timers ---------------------------------------------------------------------------------------

    method TickTimerA()
      modifies this`timerA, this`irq
      ensures timerA == CountDown(old(timerA))
      ensures irq == Defer(old(irq), MaskIf(Underflows(old(timerA)), UnderflowA))
    {
      DeferNothing(irq);
      if timerA.started {
        if timerA.count == 0 {
          timerA := timerA.(count := timerA.latch, underflows := timerA.underflows + 1);
          DeferIcrEvent(0x01);
          if timerA.oneShot {
            timerA := timerA.(started := false);
          }
        } else {
          timerA := timerA.(count := timerA.count - 1);
        }
      }
    }

    method TickTimerB()
      modifies this`timerB, this`irq
      ensures timerB == CountDown(old(timerB))
      ensures irq == Defer(old(irq), MaskIf(Underflows(old(timerB)), UnderflowB))
    {
      DeferNothing(irq);
      if timerB.started {
        if timerB.count == 0 {
          timerB := timerB.(count := timerB.latch, underflows := timerB.underflows + 1);
          DeferIcrEvent(0x02);
          if timerB.oneShot {
            timerB := timerB.(started := false);
          }
        } else {
          timerB := timerB.(count := timerB.count - 1);
        }
      }
    }

    // ---- time of day ------------------------------------------------------------------------------------

    method IncrementTodClock()
      modifies this`clock
      ensures clock == old(clock).(now := NextTime(old(clock).now))
    {
      var now := clock.now;
      var tenths, carry := Increment(now.tenths, 9, 0);
      now := now.(tenths := tenths);
      if carry {
        var seconds, carry2 := Increment(now.seconds, 9, 5);
        now := now.(seconds := seconds);
        if carry2 {
          var minutes, carry3 := Increment(now.minutes, 9, 5);
          now := now.(minutes := minutes);
          if carry3 {
            var hours := IncrementHours(now.hours);
            now := now.(hours := hours);
          }
        }
      }
      clock := clock.(now := now);
      hide BcdIncrement, NextHours;
    }

    method EvaluateTodAlarm()
      modifies this`clock, this`irq
      ensures var match' := old(clock).now == old(clock).alarm;
              && clock == old(clock).(matches := if match' then old(clock).matches + 1 else old(clock).matches)
              && irq == Defer(old(irq), MaskIf(match', Alarm))
    {
      DeferNothing(irq);
      if clock.now == clock.alarm {
        clock := clock.(matches := clock.matches + 1);
        DeferIcrEvent(0x04);
      }
    }

    method TickTod()
      modifies this`clock, this`irq
      ensures clock == TickClock(profile, old(clock))
      ensures irq == Defer(old(irq), MaskIf(AlarmMatches(profile, old(clock)), Alarm))
    {
      DeferNothing(irq);
      hide NextTime, Defer;
      clock := clock.(divider := (clock.divider + 1) % 65536);
      if clock.running && clock.divider >= profile.todReload {
        clock := clock.(divider := 0);
        IncrementTodClock();
        EvaluateTodAlarm();
      } else {
        assert irq == Defer(irq, MaskIf(false, Alarm));
      }
    }

    // ---- the serial register --------------------------------------------------------------------------------

    method ShiftSerialIn()
      modifies this`serial, this`irq
      ensures serial == ShiftIn(profile, old(serial), controlA & 0x40 != 0)
      ensures irq == Defer(old(irq), MaskIf(CompletesIn(profile, old(serial), controlA & 0x40 != 0), SerialByte))
    {
      DeferNothing(irq);
      var rising, falling := !serial.prevCnt && serial.cnt, serial.prevCnt && !serial.cnt;
      serial := serial.(prevCnt := serial.cnt);
      var edge := if profile.shiftOnFalling then falling else rising;
      if controlA & 0x40 == 0 && edge {
        serial := serial.(shift := (serial.shift * 2 + if serial.sp then 1 else 0) % 256,
                          bitsIn := (serial.bitsIn + 1) % 256);
        if serial.bitsIn >= 8 {
          serial := serial.(data := serial.shift, shift := 0, bitsIn := 0, received := serial.received + 1);
          DeferIcrEvent(0x08);
        }
      }
    }

    method ShiftSerialOut()
      modifies this`serial, this`irq
      ensures var output, timer := controlA & 0x40 != 0, timerA.started;
              && serial == ShiftOut(profile, old(serial), output, pins.phase, timer)
              && irq == Defer(old(irq), MaskIf(CompletesOut(profile, old(serial), output, pins.phase, timer),
                                               SerialByte))
    {
      DeferNothing(irq);
      if serial.sending {
        var phaseOk := if profile.outputNeedsHighPhase then pins.phase else true;
        if controlA & 0x40 != 0 && timerA.started && phaseOk {
          if serial.divider == 0 {
            ShiftOneOut();
          } else {
            serial := serial.(divider := serial.divider - 1);
          }
        }
      }
    }

    method ShiftOneOut()
      requires ClocksOut(profile, serial, controlA & 0x40 != 0, pins.phase, timerA.started) && serial.divider == 0
      modifies this`serial, this`irq
      ensures var output, timer := controlA & 0x40 != 0, timerA.started;
              && serial == ShiftOut(profile, old(serial), output, pins.phase, timer)
              && irq == Defer(old(irq), MaskIf(CompletesOut(profile, old(serial), output, pins.phase, timer),
                                               SerialByte))
    {
      DeferNothing(irq);
      var s := serial;
      hide ClocksOut;
      s := s.(divider := profile.shiftReload, sp := s.shift / 128 % 2 == 1,
              shift := s.shift * 2 % 256, bitsOut := (s.bitsOut + 1) % 256);
      if s.bitsOut >= 8 {
        s := s.(sending := false, bitsOut := 0, sent := s.sent + 1);
        DeferIcrEvent(0x08);
      }
      serial := s;
    }

    // ---- the half cycle -----------------------------------------------------------------------------------------

    /** Timers and clock, in the high phase. */
    method CountCycle()
      modifies this`timerA, this`timerB, this`clock, this`irq
      ensures timerA == CountDown(old(timerA)) && timerB == CountDown(old(timerB))
      ensures clock == TickClock(profile, old(clock))
      ensures irq == Defer(Defer(Defer(old(irq), MaskIf(Underflows(old(timerA)), UnderflowA)),
                                 MaskIf(Underflows(old(timerB)), UnderflowB)),
                           MaskIf(AlarmMatches(profile, old(clock)), Alarm))
    {
      hide CountDown, TickClock, Underflows, AlarmMatches, Defer, MaskIf;
      TickTimerA();
      TickTimerB();
      TickTod();
    }

    method TickHalfCycle()
      modifies this
      ensures Model() == TickHalf(profile, old(Model()))
    {
      ghost var before := Model();
      hide CountDown, TickClock, ShiftIn, ShiftOut, Underflows, AlarmMatches, CompletesIn, CompletesOut, Defer, MaskIf,
           Latch, SetEvent;
      pins := pins.(phase := !pins.phase);
      DeliverDeferredEvents();
      SampleFlagPin();
      ghost var flagged := irq;
      if pins.phase {
        CountCycle();
      }
      ghost var counted := irq;
      ShiftSerialIn();
      ShiftSerialOut();
      IrqComposes(profile, before, flagged, counted, irq);
      hide TickIrq;
    }

    // ---- register accesses -----------------------------------------------------------------------------------------

    method ReadRegister(address: nat, bus: Byte) returns (value: nat)
      modifies this`clock, this`irq
      ensures value == ReadValue(old(Model()), address, bus)
      ensures Model() == Read(profile, old(Model()), address)
    {
      value := ReadValue(Chip(ports, timerA, timerB, clock, serial, irq, controlA, controlB, pins), address, bus);
      hide ReadValue, ClearMask;
      var reg := address % 16;
      if reg == 0x08 {
        if profile.tenthsUnfreezes {
          clock := clock.(frozen := false);
        }
      } else if reg == 0x0B {
        clock := clock.(latched := clock.now, frozen := true);
      } else if reg == 0x0D {
        ClearIcrMask(0x1F);
      }
    }

    method WriteTod(reg: nat, val: nat)
      requires 0x08 <= reg <= 0x0B
      modifies this`clock
      ensures clock == WriteClock(profile, old(clock), controlB & 0x80 != 0, reg, val)
    {
      if controlB & 0x80 != 0 {
        clock := clock.(alarm := WithField(clock.alarm, reg, val));
      } else {
        clock := clock.(now := WithField(clock.now, reg, val));
        if reg == 0x0B && profile.hoursWriteStops {
          clock := clock.(running := false);
        }
        if reg == 0x08 && profile.hoursWriteStops {
          clock := clock.(running := true);
        }
      }
    }

    method WriteTimers(reg: nat, val: Byte)
      modifies this`timerA, this`timerB
      ensures timerA == WriteTimer(old(timerA), 0x04, 0x0E, reg, val)
      ensures timerB == WriteTimer(old(timerB), 0x06, 0x0F, reg, val)
    {
      hide LatchLow, LatchHigh, Control;
      if reg == 0x04 { timerA := LatchLow(timerA, val); }
      else if reg == 0x05 { timerA := LatchHigh(timerA, val); }
      else if reg == 0x06 { timerB := LatchLow(timerB, val); }
      else if reg == 0x07 { timerB := LatchHigh(timerB, val); }
      else if reg == 0x0E { timerA := Control(timerA, val); }
      else if reg == 0x0F { timerB := Control(timerB, val); }
    }

    method EnableEvents(val: Byte)
      modifies this`irq
      ensures irq == Enable(old(irq), val)
    {
      hide Summary;
      if val & 0x80 != 0 {
        irq := irq.(ier := irq.ier | (val & 0x7F));
      } else {
        irq := irq.(ier := irq.ier & !(val & 0x7F));
      }
      var icr := Summarise(irq.icr, irq.ier);
      irq := irq.(icr := icr);
    }

    method WriteRegister(address: nat, val: Byte)
      modifies this
      ensures Model() == Write(profile, old(Model()), address, val)
    {
      hide WriteClock, WriteTimer, LoadSerial, Enable, Signal;
      var reg := address % 16;
      ports := WritePorts(ports, reg, val);
      WriteTimers(reg, val);
      if 0x08 <= reg <= 0x0B {
        WriteTod(reg, val as nat);
      } else if reg == 0x0C {
        serial := LoadSerial(profile, serial, val as nat);
      } else if reg == 0x0D {
        EnableEvents(val);
      } else if reg == 0x0E {
        controlA := val;
      } else if reg == 0x0F {
        controlB := val;
      }
      UpdateIrqLine();
    }
  }

  /** The register with its summary bit brought up to date. */
  method Summarise(icr: Byte, ier: Byte) returns (r: Byte)
    ensures r == Summary(icr, ier)
  {
    if icr & ier & 0x1F != 0 {
      r := icr | 0x80;
    } else {
      r := icr & 0x7F;
    }
  }

  method Increment(v: nat, maxLow: nat, maxHigh: nat) returns (r: nat, carry: bool)
    ensures (r, carry) == BcdIncrement(v, maxLow, maxHigh)
  {
    var lo, hi := v % 16, v / 16 % 16;
    lo := lo + 1;
    carry := false;
    if lo > maxLow {
      lo, hi := 0, hi + 1;
      if hi > maxHigh {
        hi, carry := 0, true;
      }
    }
    r := hi * 16 + lo;
  }

  method IncrementHours(v: nat) returns (r: nat)
    ensures r == NextHours(v)
  {
    var pm := v / 128 % 2;
    var next := v / 16 % 2 * 10 + v % 16 + 1;
    if next > 12 {
      next := 1;
    }
    if next == 12 {
      pm := 1 - pm;
    }
    r := pm * 128 + next / 10 * 16 + next % 10;
  }

  lemma OrZero(a: Byte)
    ensures a | 0 == a
  {
  }

  lemma AndAssociates(a: Byte, b: Byte)
    ensures a & b & 0x1F == a & (b & 0x1F)
  {
  }

  lemma DeferNothing(i: Interrupts)
    ensures Defer(i, 0) == i
  {
    assert i.deferred | (0 & 0x1F) == i.deferred;
  }

  lemma DeferTwice(i: Interrupts, a: Byte, b: Byte)
    ensures Defer(Defer(i, a), b) == Defer(i, a | b)
  {
    assert i.deferred | (a & 0x1F) | (b & 0x1F) == i.deferred | ((a | b) & 0x1F);
  }

  lemma MasksReorder(a: Byte, b: Byte, d: Byte, e: Byte, f: Byte)
    ensures f | a | b | d | e == a | b | d | e | f
  {
  }

  /** Events deferred one by one are the half cycle's deferred events. */
  lemma IrqComposes(p: Profile, c: Chip, flagged: Interrupts, counted: Interrupts, after: Interrupts)
    requires flagged == Defer(if FlagFalls(c) && p.flagImmediate then SetEvent(Latch(c.irq), Bit(Flag))
                              else Latch(c.irq),
                              MaskIf(FlagFalls(c) && !p.flagImmediate, Flag))
    requires counted == if c.pins.phase then flagged
                        else Defer(Defer(Defer(flagged, MaskIf(Underflows(c.timerA), UnderflowA)),
                                         MaskIf(Underflows(c.timerB), UnderflowB)),
                                   MaskIf(AlarmMatches(p, c.clock), Alarm))
    requires var shifted := ShiftIn(p, c.serial, Output(c));
             after == Defer(Defer(counted, MaskIf(CompletesIn(p, c.serial, Output(c)), SerialByte)),
                            MaskIf(CompletesOut(p, shifted, Output(c), !c.pins.phase, TimerARuns(c)), SerialByte))
    ensures after == TickIrq(p, c)
  {
    var base := if FlagFalls(c) && p.flagImmediate then SetEvent(Latch(c.irq), Bit(Flag)) else Latch(c.irq);
    var a, b := MaskIf(Raises(p, c, UnderflowA), UnderflowA), MaskIf(Raises(p, c, UnderflowB), UnderflowB);
    var d, e := MaskIf(Raises(p, c, Alarm), Alarm), MaskIf(Raises(p, c, SerialByte), SerialByte);
    var f := MaskIf(FlagFalls(c) && !p.flagImmediate, Flag);
    DirectionsExclude(p, c);
    hide Underflows, AlarmMatches, CompletesIn, CompletesOut, ShiftIn, TimerARuns, FlagFalls, SetEvent, Latch, Output,
         Defer;
    DeferNothing(counted);
    DeferNothing(flagged);
    DeferNothing(Defer(counted, e));
    DeferTwice(base, f, a);
    DeferTwice(base, f | a, b);
    DeferTwice(base, f | a | b, d);
    DeferTwice(base, f | a | b | d, e);
    MasksReorder(a, b, d, e, f);
  }

  /** A byte cannot complete in both directions in one half cycle. */
  lemma DirectionsExclude(p: Profile, c: Chip)
    ensures var shifted := ShiftIn(p, c.serial, Output(c));
            !(CompletesIn(p, c.serial, Output(c)) && CompletesOut(p, shifted, Output(c), !c.pins.phase, TimerARuns(c)))
  {
  }
}
