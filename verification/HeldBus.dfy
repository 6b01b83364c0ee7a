/** A drive whose VIA holds DATA: whatever it has to say, the host reads zeros. */
module HeldBus {
  import opened IecLines
  import opened DosNames
  import opened DosCommands
  import opened DriveDos
  import opened DriveSerial
  import opened DriveRuns
  import opened IecHost
  import opened IecTalk

  /** Data bytes store nothing: with ATN released memory and VIA stay as they are. */
  lemma DataTickKeepsMemory(d: Drive)
    requires d.lines.atn
    ensures Tick(Consume, d).dos.disk.memory == d.dos.disk.memory
  {
    TickStores(d);
    assert !ExecutesNow(d);
    hide Tick;
  }

  lemma HeldTick(d: Drive)
    requires d.lines.atn && HoldsData(d.dos.disk.memory)
    ensures Tick(Consume, d).pullsData && HoldsData(Tick(Consume, d).dos.disk.memory)
  {
    DataTickKeepsMemory(d);
    TickRemembersLines(d);
    hide StepSerial, HoldsClk, HoldsData;
  }

  /** With ATN released the line stays low, and so does the host's input. */
  lemma HeldClock(w: Wire, host: Lines)
    requires host.atn && HoldsData(w.drive.dos.disk.memory) && w.port.ddra & 0x80 == 0
    ensures var w' := Clock(Consume, w, host);
            HoldsData(w'.drive.dos.disk.memory) && !DataInHigh(w'.port) && w'.port.ddra & 0x80 == 0
  {
    ClockIsPulse(Consume, w, host);
    HeldTick(Settle(w.drive, host));
    hide Tick, Clock, HoldsData, DataInHigh;
  }

  predicate Held(w: Wire) {
    HoldsData(w.drive.dos.disk.memory) && w.port.ddra & 0x80 == 0
  }

  lemma HeldBit(w: Wire)
    requires Held(w)
    ensures !ReadBit(Consume, w).bit && Held(ReadBit(Consume, w).wire)
  {
    HeldClock(w, Lines(true, false, true));
    HeldClock(Clock(Consume, w, Lines(true, false, true)), RELEASED);
    hide Clock, HoldsData, DataInHigh;
  }

  lemma HeldByte(w: Wire)
    requires Held(w)
    ensures ReadByte(Consume, w).value == 0 && Held(ReadByte(Consume, w).wire)
  {
    hide ReadBit, HoldsData;
    var readBit := v => ReadBit(Consume, v);
    var holds := (i: nat, v: Wire) => Held(v);
    forall i: nat, v: Wire | i < 8 && holds(i, v)
      ensures readBit(v).bit == HasBit(0, i) && holds(i + 1, readBit(v).wire) {
      HeldBit(v);
    }
    GatheredBits(readBit, holds, 0, w, 0);
  }

  lemma {:induction false} HeldIdle(w: Wire, n: nat)
    requires Held(w)
    ensures Held(IdleFor(Consume, w, n))
    decreases n
  {
    hide Clock, HoldsData, Tick;
    if n > 0 {
      HeldClock(w, RELEASED);
      HeldIdle(Clock(Consume, w, RELEASED), n - 1);
    }
  }

  function Zeros(n: nat): (r: seq<Byte>)
    ensures |r| == n && forall i :: 0 <= i < n ==> r[i] == 0
  {
    seq(n, _ => 0)
  }

  /** Every byte read from a drive whose VIA holds DATA is zero, whatever the drive is doing and at any pace. */
  lemma HeldReadsZeros(w: Wire, gaps: seq<nat>)
    requires Held(w)
    ensures ReadAll(Consume, w, gaps).bytes == Zeros(|gaps|) && Held(ReadAll(Consume, w, gaps).wire)
  {
    hide ReadByte, IdleFor, Held;
    var read := (v: Wire, gap: nat) => ReadByte(Consume, IdleFor(Consume, v, gap));
    var holds := (i: nat, v: Wire) => Held(v);
    var q := Zeros(|gaps|);
    forall i: nat, v: Wire, gap: nat | i < |q| && holds(i, v)
      ensures read(v, gap).value == q[i] && holds(i + 1, read(v, gap).wire) {
      HeldIdle(v, gap);
      HeldByte(IdleFor(Consume, v, gap));
    }
    StreamedInOrder(read, holds, q, 0, w, gaps);
    assert q[0..0 + |gaps|] == q;
  }
}
