/** The adapter's serial register as a sender: one bit every divider period, most significant first. */
module CiaSending {
  import opened Cia
  import opened CiaSerial
  import opened CiaTime

  /** The shift register after `k` shifts. */
  function Shifted(val: nat, k: nat): nat {
    if k == 0 then val else Shifted(val, k - 1) * 2 % 256
  }

  /** The bit that the next shift puts on the pin. */
  predicate BitFromTop(val: nat, k: nat) {
    Shifted(val, k) / 128 % 2 == 1
  }

  /** The bits put on the pin by the first `k` shifts. */
  function Leading(val: nat, k: nat): (r: seq<bool>)
    ensures |r| == k
  {
    seq(k, i requires 0 <= i < k => BitFromTop(val, i))
  }

  /** The bits sent are the byte: a receiver that takes them in order assembles it again. */
  lemma LeadingBitsAreTheByte(val: nat)
    requires val < 256
    ensures Value(Leading(val, 8)) == val
  {
    NothingLost(val, 8);
  }

  /** The bits already out and those still in the register together are the byte. */
  lemma {:induction false} NothingLost(val: nat, k: nat)
    requires val < 256 && k <= 8
    ensures Shifted(val, k) < 256 && val * Limit(k) == Value(Leading(val, k)) * 256 + Shifted(val, k)
  {
    if k == 0 {
      EmptyValue();
    } else {
      NothingLost(val, k - 1);
      LeadingNext(val, k - 1);
      OneShift(val, k - 1);
      LimitDoubles(k);
      hide *;
      DoubledProduct(val, Limit(k - 1));
    }
  }

  lemma DoubledProduct(a: nat, b: nat)
    ensures a * (2 * b) == 2 * (a * b)
  {
  }

  lemma LimitDoubles(k: nat)
    requires 1 <= k <= 8
    ensures Limit(k) == 2 * Limit(k - 1)
  {
  }

  lemma {:induction false} LeadingNext(val: nat, k: nat)
    ensures Value(Leading(val, k + 1)) == Value(Leading(val, k)) * 2 + if BitFromTop(val, k) then 1 else 0
  {
    hide BitFromTop, Value;
    assert Leading(val, k + 1) == Leading(val, k) + [BitFromTop(val, k)];
    ValueOfAppend(Leading(val, k), BitFromTop(val, k));
  }

  lemma {:induction false} OneShift(val: nat, k: nat)
    requires Shifted(val, k) < 256
    ensures Shifted(val, k + 1) < 256
    ensures 2 * Shifted(val, k) == Shifted(val, k + 1) + if BitFromTop(val, k) then 256 else 0
  {
    var v := Shifted(val, k);
    assert Shifted(val, k + 1) == v * 2 % 256 && BitFromTop(val, k) == (v / 128 % 2 == 1);
    hide *;
    TopBit(v);
  }

  lemma TopBit(v: nat)
    requires v < 256
    ensures 2 * v == v * 2 % 256 + if v / 128 % 2 == 1 then 256 else 0
  {
  }

  // ---- the register after n clocked cycles -------------------------------------------------------

  function Period(p: Profile): nat {
    p.shiftReload + 1
  }

  /** `n` cycles into sending `val`. */
  predicate SentFor(p: Profile, s: Serial, val: nat, before: nat, n: nat) {
    var k := n / Period(p);
    if k < 8 then
      && s.sending && s.divider == p.shiftReload - n % Period(p) && s.bitsOut == k && s.sent == before
      && s.shift == Shifted(val, k) && (k > 0 ==> s.sp == BitFromTop(val, k - 1))
    else !s.sending && s.sent == before + 1 && s.sp == BitFromTop(val, 7)
  }

  lemma OneCycle(p: Profile, s: Serial, val: nat, before: nat, n: nat)
    requires val < 256 && SentFor(p, s, val, before, n)
    ensures SentFor(p, ShiftOut(p, s, true, true, true), val, before, n + 1)
  {
    DivNext(n, Period(p));
    var k := n / Period(p);
    assert Shifted(val, k + 1) == Shifted(val, k) * 2 % 256;
    hide Shifted;
  }

  /** The step lets the sending go on: no new byte, no word on the timer or the direction, no level forced
      onto the data pin. */
  predicate LetsSend(op: Op) {
    !op.SerialPins? && LeavesTimer(op, 0x04, 0x0E) && (op.WriteReg? ==> op.address % 16 != 0x0C)
  }

  predicate AllLetSend(ops: seq<Op>) {
    forall i :: 0 <= i < |ops| ==> LetsSend(ops[i])
  }

  predicate CanSend(c: Chip) {
    Output(c) && c.timerA.started && !c.timerA.oneShot
  }

  lemma StepSending(p: Profile, c: Chip, op: Op)
    requires CanSend(c) && LetsSend(op) && p.outputNeedsHighPhase
    ensures var d, s := Step(p, c, op), c.serial;
            && CanSend(d)
            && (if op.HalfCycle? && !c.pins.phase
                then d.serial == ShiftOut(p, s.(prevCnt := s.cnt), true, true, true)
                else d.serial == s.(prevCnt := d.serial.prevCnt))
  {
    hide TickIrq, TickClock, ClearMask, WritePorts, WriteIrq, WriteClock, LoadSerial, ReadClock, ShiftOut, LatchLow,
         LatchHigh, Control;
    if op.HalfCycle? && c.pins.phase {
      NotClocked(p, ShiftIn(p, c.serial, true));
    }
  }

  lemma NotClocked(p: Profile, s: Serial)
    requires p.outputNeedsHighPhase
    ensures forall timer :: ShiftOut(p, s, true, false, timer) == s
  {
  }

  lemma EdgeMemoryIsFree(p: Profile, s: Serial, val: nat, before: nat, n: nat, level: bool)
    ensures SentFor(p, s.(prevCnt := level), val, before, n) == SentFor(p, s, val, before, n)
  {
    hide BitFromTop, Shifted;
  }

  lemma {:induction false} SendingFor(p: Profile, c: Chip, ops: seq<Op>, val: nat)
    requires val < 256 && p.outputNeedsHighPhase && CanSend(c) && AllLetSend(ops)
    requires SentFor(p, c.serial, val, c.serial.sent, 0)
    ensures CanSend(Run(p, c, ops)) && SentFor(p, Run(p, c, ops).serial, val, c.serial.sent, Cycles(c, ops))
  {
    hide SentFor, CanSend, LetsSend, Step;
    if ops == [] {
      assert Cycles(c, ops) == 0;
    } else {
      var last := |ops| - 1;
      SendingFor(p, c, ops[..last], val);
      var d, n := Run(p, c, ops[..last]), Cycles(c, ops[..last]);
      assert LetsSend(ops[last]);
      CyclesNext(p, c, ops);
      StepSending(p, d, ops[last]);
      assert Run(p, c, ops) == Step(p, d, ops[last]);
      hide *;
      var e := Step(p, d, ops[last]);
      EdgeMemoryIsFree(p, d.serial, val, c.serial.sent, n, d.serial.cnt);
      EdgeMemoryIsFree(p, d.serial, val, c.serial.sent, n, e.serial.prevCnt);
      OneCycleIf(p, d.serial.(prevCnt := d.serial.cnt), val, c.serial.sent, n);
    }
  }

  lemma OneCycleIf(p: Profile, s: Serial, val: nat, before: nat, n: nat)
    requires val < 256
    ensures SentFor(p, s, val, before, n) ==> SentFor(p, ShiftOut(p, s, true, true, true), val, before, n + 1)
  {
    if SentFor(p, s, val, before, n) { OneCycle(p, s, val, before, n); }
  }

  /** A byte written to the register in output mode, with a continuous timer A running, appears on the data
      pin bit by bit: after n cycles of any run that lets it, the pin shows the bit numbered
      n / (reload + 1), from the top; after eight the byte is done, once. */
  lemma ByteSentMsbFirst(r: Revision, c: Chip, val: Byte, ops: seq<Op>)
    requires CanSend(c) && AllLetSend(ops)
    ensures var p := ProfileOf(r);
            var loaded := Write(p, c, 0x0C, val);
            var s, k := Run(p, loaded, ops).serial, Cycles(loaded, ops) / Period(p);
            && (1 <= k ==> s.sp == Leading(val as nat, 8)[if k < 8 then k - 1 else 7])
            && (s.sending <==> k < 8)
            && s.sent == c.serial.sent + (if k < 8 then 0 else 1)
  {
    var p := ProfileOf(r);
    var loaded := Write(p, c, 0x0C, val);
    hide WriteIrq, WritePorts, WriteTimer, WriteClock;
    assert loaded.serial == LoadSerial(p, c.serial, val as nat);
    assert loaded.timerA == c.timerA by { KeepsTimer(c.timerA, val); }
    var v := val as nat;
    SendingStarts(p, c.serial, v);
    hide Write, Run, Cycles, BitFromTop, Shifted, LoadSerial;
    SendingFor(p, loaded, ops, v);
    BitsOfLeading(v);
    hide *;
    PinShowsBit(p, Run(p, loaded, ops).serial, v, c.serial.sent, Cycles(loaded, ops));
  }

  lemma SendingStarts(p: Profile, s: Serial, val: nat)
    requires val < 256
    ensures var t := LoadSerial(p, s, val); SentFor(p, t, val, t.sent, 0) && t.sent == s.sent
  {
    DivNext(0, Period(p));
    assert Shifted(val, 0) == val;
    hide BitFromTop;
  }

  lemma PinShowsBit(p: Profile, s: Serial, val: nat, before: nat, n: nat)
    requires SentFor(p, s, val, before, n)
    ensures var k := n / Period(p);
            && (1 <= k ==> s.sp == BitFromTop(val, if k < 8 then k - 1 else 7))
            && (s.sending <==> k < 8)
            && s.sent == before + if k < 8 then 0 else 1
  {
    hide BitFromTop, Shifted;
  }

  lemma BitsOfLeading(val: nat)
    ensures forall i :: 0 <= i < 8 ==> Leading(val, 8)[i] == BitFromTop(val, i)
  {
    hide BitFromTop;
  }

  lemma KeepsTimer(t: Timer, val: Byte)
    ensures WriteTimer(t, 0x04, 0x0E, 0x0C, val) == t
  {
  }
}
