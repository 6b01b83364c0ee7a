/** A drive whose VIA holds CLK: it hears commands, loses every data byte, and falls out of step with the
    host at the next command, so a directory request never makes it talk. */
module HeldClock {
  import opened IecLines
  import opened DosNames
  import opened DosCommands
  import opened DriveDos
  import opened DriveSerial
  import opened DriveRuns
  import opened IecHost
  import opened IecTalk
  import opened HeldBus

  // ---- data past a held clock ---------------------------------------------------------------------

  /** A listener waiting for a clock that it holds itself. */
  predicate Waits(dos: Dos) {
    dos.listening && !dos.talking && HoldsClk(dos.disk.memory)
  }

  predicate Stuck(d: Drive) {
    !d.prev.clk && d.pullsClk && d.rx.count == 0 && d.rx.shift == 0 && d.mode != Command
  }

  lemma StuckTick(hear: Hearing, d: Drive)
    requires Waits(d.dos) && d.rx.count == 0 && d.rx.shift == 0 && d.lines.atn && !d.lines.clk && !d.prev.clk
    ensures Stuck(Tick(hear, d)) && Tick(hear, d).dos == d.dos
  {
    hide HoldsClk, HoldsData;
    assert !Samples(Preempt(AbsenceCheck(d, ListenData)), ListenData);
  }

  /** The first low half of the clock is seen, and with it the clock stays low. */
  lemma FallingTickSticks(hear: Hearing, d: Drive)
    requires Waits(d.dos) && Aligned(d) && d.lines.atn && !d.lines.clk
    ensures Stuck(Tick(hear, d)) && Tick(hear, d).dos == d.dos
  {
    hide HoldsClk, HoldsData;
    TickAfterReceive(hear, d, true);
    ReceiveOnFall(hear, Preempt(d.(absentWait := 0)), true, 0, 0);
  }

  lemma StuckClock(hear: Hearing, w: Wire, host: Lines)
    requires Waits(w.drive.dos) && host.atn && (Stuck(w.drive) || (Aligned(w.drive) && !host.clk))
    ensures Stuck(Clock(hear, w, host).drive) && Clock(hear, w, host).drive.dos == w.drive.dos
  {
    hide HoldsClk, HoldsData, Tick;
    ClockIsPulse(hear, w, host);
    if Stuck(w.drive) {
      StuckTick(hear, Settle(w.drive, host));
    } else {
      FallingTickSticks(hear, Settle(w.drive, host));
    }
    hide Clock;
  }

  lemma StuckBit(hear: Hearing, w: Wire, bit: bool)
    requires Waits(w.drive.dos) && (Stuck(w.drive) || Aligned(w.drive))
    ensures var v := SendBit(hear, w, true, bit); Stuck(v.drive) && v.drive.dos == w.drive.dos
  {
    hide Clock, Stuck, Aligned, HoldsClk;
    StuckClock(hear, w, Lines(true, false, bit));
    StuckClock(hear, Clock(hear, w, Lines(true, false, bit)), Lines(true, true, bit));
  }

  lemma {:induction false} StuckBits(hear: Hearing, w: Wire, byte: Byte, k: nat)
    requires k <= 8 && Waits(w.drive.dos) && (Stuck(w.drive) || (Aligned(w.drive) && k < 8))
    ensures var v := SendBits(hear, w, true, byte, k); Stuck(v.drive) && v.drive.dos == w.drive.dos
    decreases 8 - k
  {
    hide SendBit, HasBit, Waits, Stuck, Aligned;
    if k < 8 {
      StuckBit(hear, w, HasBit(byte, k));
      StuckBits(hear, SendBit(hear, w, true, HasBit(byte, k)), byte, k + 1);
    }
  }

  /** Data bytes sent to such a listener are lost, all of them. */
  lemma {:induction false} StuckData(hear: Hearing, w: Wire, ms: seq<Message>)
    requires Waits(w.drive.dos) && (Stuck(w.drive) || (Aligned(w.drive) && ms != []))
    requires forall i :: 0 <= i < |ms| ==> !ms[i].command
    ensures var v := SendAll(hear, w, ms); Stuck(v.drive) && v.drive.dos == w.drive.dos
    decreases |ms|
  {
    hide SendBits, Waits, Stuck, Aligned;
    if ms != [] {
      StuckBits(hear, w, ms[0].byte, 0);
      StuckData(hear, SendByte(hear, w, true, ms[0].byte), ms[1..]);
    }
  }

  // ---- commands out of step -----------------------------------------------------------------------

  /** ATN falls while the clock is low: the drive lets the clock go, but has seen no edge. */
  lemma AttentionTick(hear: Hearing, d: Drive)
    requires Stuck(d) && !d.lines.atn && !d.lines.clk
    ensures var d' := Tick(hear, d);
            && d'.dos == d.dos && d'.mode == Command && !d'.prev.clk && d'.rx.count == 0 && d'.rx.shift == 0
            && d'.rx.frameSync && !d'.rx.sawStart && !d'.pullsClk
  {
    hide HoldsClk, HoldsData;
    assert !Samples(Preempt(AbsenceCheck(d, Command)), Command);
  }

  lemma LostTick(hear: Hearing, d: Drive)
    requires d.mode == Command && !d.prev.clk && d.rx.count == 0 && d.rx.shift == 0 && d.rx.frameSync && !d.rx.sawStart
    requires !d.lines.atn && d.lines.clk
    ensures At(Tick(hear, d), false, 0, 0) && Tick(hear, d).dos == d.dos
  {
    hide HoldsClk, HoldsData;
    assert !Samples(Preempt(AbsenceCheck(d, Command)), Command);
  }

  /** The first bit of the next command is lost. */
  lemma LostBit(hear: Hearing, w: Wire, bit: bool)
    requires Stuck(w.drive)
    ensures var v := SendBit(hear, w, false, bit); At(v.drive, false, 0, 0) && v.drive.dos == w.drive.dos
  {
    hide HoldsClk, HoldsData, Tick;
    var falling, rising := Lines(false, false, bit), Lines(false, true, bit);
    var w1 := Clock(hear, w, falling);
    ClockIsPulse(hear, w, falling);
    AttentionTick(hear, Settle(w.drive, falling));
    ClockIsPulse(hear, w1, rising);
    LostTick(hear, Settle(w1.drive, rising));
    hide Clock;
  }

  /** Bits 1..7 of a command arrive as bits 0..6. */
  lemma {:induction false} ShiftedBits(hear: Hearing, w: Wire, byte: Byte, k: nat)
    requires k <= 7 && At(w.drive, false, k, LowBits(byte >> 1, k))
    ensures var v := SendBits(hear, w, false, byte, k + 1);
            At(v.drive, false, 7, LowBits(byte >> 1, 7)) && v.drive.dos == w.drive.dos
    decreases 7 - k
  {
    hide SendBit, At;
    if k < 7 {
      ShiftedBit(byte, k);
      LowBitsGrow(byte >> 1, k);
      hide HasBit, LowBits, WithBit;
      SendBitDelivers(hear, w, false, HasBit(byte, k + 1), k, LowBits(byte >> 1, k));
      ShiftedBits(hear, SendBit(hear, w, false, HasBit(byte, k + 1)), byte, k + 1);
    }
  }

  lemma ShiftedBit(byte: Byte, k: nat)
    requires k < 7
    ensures HasBit(byte, k + 1) == HasBit(byte >> 1, k)
  {
    BitValues();
    assert Bit(k + 1) == Bit(k) << 1;
  }

  /** A command heard one bit out of step: seven bits of one and the first of the next. */
  function Straddling(byte: Byte, next: Byte): Byte {
    WithBit(byte >> 1, HasBit(next, 0), 7)
  }

  lemma ShiftedByte(hear: Hearing, w: Wire, byte: Byte, next: Byte)
    requires At(w.drive, false, 7, LowBits(byte >> 1, 7))
    ensures var v := SendByte(hear, w, false, next);
            && At(v.drive, false, 7, LowBits(next >> 1, 7))
            && v.drive.dos == hear(w.drive.dos, Message(Straddling(byte, next), true))
  {
    SevenBits(byte);
    hide HasBit, LowBits, WithBit, SendBit, At;
    SendBitDelivers(hear, w, false, HasBit(next, 0), 7, byte >> 1);
    var v := SendBit(hear, w, false, HasBit(next, 0));
    JustHeardIsAt(v.drive, next);
    ShiftedBits(hear, v, next, 0);
  }

  lemma SevenBits(byte: Byte)
    ensures LowBits(byte >> 1, 7) == byte >> 1
  {
    BitValues();
  }

  lemma JustHeardIsAt(d: Drive, next: Byte)
    requires JustHeard(d, false)
    ensures At(d, false, 0, LowBits(next >> 1, 0))
  {
    LowBitsGrow(next >> 1, 0);
    hide LowBits;
  }

  /** Three commands sent to a stuck drive arrive as two others. */
  lemma OutOfStep(hear: Hearing, w: Wire, a: Byte, b: Byte, c: Byte)
    requires Stuck(w.drive)
    ensures var v := SendAll(hear, w, [Message(a, true), Message(b, true), Message(c, true)]);
            v.drive.dos == hear(hear(w.drive.dos, Message(Straddling(a, b), true)), Message(Straddling(b, c), true))
  {
    LostByte(hear, w, a);
    var w1 := SendByte(hear, w, false, a);
    ShiftedByte(hear, w1, a, b);
    var w2 := SendByte(hear, w1, false, b);
    ShiftedByte(hear, w2, b, c);
    hide *;
    ThreeCommands(hear, w, a, b, c);
  }

  lemma ThreeCommands(hear: Hearing, w: Wire, a: Byte, b: Byte, c: Byte)
    ensures SendAll(hear, w, [Message(a, true), Message(b, true), Message(c, true)])
         == SendByte(hear, SendByte(hear, SendByte(hear, w, false, a), false, b), false, c)
  {
    hide SendBits;
    var ms := [Message(a, true), Message(b, true), Message(c, true)];
    assert ms[1..] == [ms[1], ms[2]] && ms[1..][1..] == [ms[2]] && ms[1..][1..][1..] == [];
    var w2 := SendByte(hear, SendByte(hear, w, false, a), false, b);
    assert SendAll(hear, w2, [ms[2]]) == SendByte(hear, w2, false, c);
  }

  lemma {:induction false} SendAllJoins(hear: Hearing, w: Wire, a: seq<Message>, b: seq<Message>)
    ensures SendAll(hear, w, a + b) == SendAll(hear, SendAll(hear, w, a), b)
    decreases |a|
  {
    hide SendByte;
    if a == [] {
      assert a + b == b;
    } else {
      assert (a + b)[0] == a[0] && (a + b)[1..] == a[1..] + b;
      SendAllJoins(hear, SendByte(hear, w, !a[0].command, a[0].byte), a[1..], b);
    }
  }

  lemma LostByte(hear: Hearing, w: Wire, byte: Byte)
    requires Stuck(w.drive)
    ensures var v := SendByte(hear, w, false, byte);
            At(v.drive, false, 7, LowBits(byte >> 1, 7)) && v.drive.dos == w.drive.dos
  {
    hide SendBit, Stuck, HasBit;
    LostBit(hear, w, HasBit(byte, 0));
    LowBitsGrow(byte >> 1, 0);
    ShiftedBits(hear, SendBit(hear, w, false, HasBit(byte, 0)), byte, 0);
    hide LowBits, At;
  }

  // ---- reading from a drive that does not talk --------------------------------------------------------

  lemma DataKeepsSilence(dos: Dos, m: Message)
    requires !m.command && !dos.talking
    ensures !Consume(dos, m).talking
  {
  }

  /** With ATN released a drive that does not talk pulls DATA exactly by its VIA, and stays silent. */
  lemma SilentTick(d: Drive)
    requires d.lines.atn && !d.dos.talking
    ensures var d' := Tick(Consume, d);
            && d'.dos.disk.memory == d.dos.disk.memory && !d'.dos.talking
            && d'.pullsData == HoldsData(d.dos.disk.memory)
  {
    DataTickKeepsMemory(d);
    SilentReceive(d);
    var next := NextMode(d);
    var d1 := ReceiveTimeout(Receive(Consume, Preempt(AbsenceCheck(d, next)), next), next);
    assert next == ListenData || next == Idle;
    hide HoldsClk, HoldsData, Consume, Receive, ReceiveTimeout, Preempt, AbsenceCheck, NextMode;
    assert Tick(Consume, d) == Outputs(NotTalking(d1).(mode := next, prev := d.lines));
  }

  lemma SilentReceive(d: Drive)
    requires d.lines.atn && !d.dos.talking
    ensures var next := NextMode(d);
            !ReceiveTimeout(Receive(Consume, Preempt(AbsenceCheck(d, next)), next), next).dos.talking
  {
    var next := NextMode(d);
    var d0 := Preempt(AbsenceCheck(d, next));
    assert !d0.dos.talking && next != Command;
    DataKeepsSilence(d0.dos, Received(d0, next));
    hide Consume, Completes, ClockReceiver, SilentTransmitter, NoEoi, Preempt, AbsenceCheck, NextMode;
  }

  /** Silent, and DATA released. */
  predicate Silent(w: Wire) {
    !w.drive.dos.talking && !HoldsData(w.drive.dos.disk.memory) && w.port.ddra & 0x80 == 0
  }

  lemma SilentClock(w: Wire, host: Lines)
    requires Silent(w) && host.atn && host.data
    ensures var v := Clock(Consume, w, host); Silent(v) && DataInHigh(v.port)
  {
    ClockIsPulse(Consume, w, host);
    SilentTick(Settle(w.drive, host));
    hide Tick, Clock, HoldsData, DataInHigh;
  }

  lemma SilentBit(w: Wire)
    requires Silent(w)
    ensures ReadBit(Consume, w).bit && Silent(ReadBit(Consume, w).wire)
  {
    hide Clock, HoldsData, DataInHigh;
    SilentClock(w, Lines(true, false, true));
    SilentClock(Clock(Consume, w, Lines(true, false, true)), RELEASED);
  }

  lemma AllBitsSet(i: nat)
    requires i < 8
    ensures HasBit(0xFF, i)
  {
    BitValues();
  }

  lemma SilentByte(w: Wire)
    requires Silent(w)
    ensures ReadByte(Consume, w).value == 0xFF && Silent(ReadByte(Consume, w).wire)
  {
    hide ReadBit, Silent, HasBit;
    var readBit := v => ReadBit(Consume, v);
    var holds := (i: nat, v: Wire) => Silent(v);
    forall i: nat, v: Wire | i < 8 && holds(i, v)
      ensures readBit(v).bit == HasBit(0xFF, i) && holds(i + 1, readBit(v).wire) {
      SilentBit(v);
      AllBitsSet(i);
    }
    LowBitsGrow(0xFF, 0);
    GatheredBits(readBit, holds, 0xFF, w, 0);
  }

  lemma {:induction false} SilentIdle(w: Wire, n: nat)
    requires Silent(w)
    ensures Silent(IdleFor(Consume, w, n))
    decreases n
  {
    hide Clock, Silent;
    if n > 0 {
      SilentClock(w, RELEASED);
      SilentIdle(Clock(Consume, w, RELEASED), n - 1);
    }
  }

  function Ones(n: nat): (r: seq<Byte>)
    ensures |r| == n && forall i :: 0 <= i < n ==> r[i] == 0xFF
  {
    seq(n, _ => 0xFF)
  }

  /** Whoever reads from a drive that does not talk reads nothing but set bits. */
  lemma SilentReadsOnes(w: Wire, gaps: seq<nat>)
    requires Silent(w)
    ensures ReadAll(Consume, w, gaps).bytes == Ones(|gaps|)
  {
    hide ReadByte, IdleFor, Silent;
    var read := (v: Wire, gap: nat) => ReadByte(Consume, IdleFor(Consume, v, gap));
    var holds := (i: nat, v: Wire) => Silent(v);
    var q := Ones(|gaps|);
    forall i: nat, v: Wire, gap: nat | i < |q| && holds(i, v)
      ensures read(v, gap).value == q[i] && holds(i + 1, read(v, gap).wire) {
      SilentIdle(v, gap);
      SilentByte(IdleFor(Consume, v, gap));
    }
    StreamedInOrder(read, holds, q, 0, w, gaps);
    assert q[0..0 + |gaps|] == q;
  }
}
