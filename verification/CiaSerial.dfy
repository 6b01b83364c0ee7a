/** The adapter's serial register as a receiver: every eight sampled levels make one byte. */
module CiaSerial {
  import opened Cia

  /** Most significant bit first. */
  function Value(bits: seq<bool>): nat {
    if bits == [] then 0 else Value(bits[..|bits| - 1]) * 2 + if bits[|bits| - 1] then 1 else 0
  }

  predicate Samples(p: Profile, c: Chip, op: Op) {
    op.HalfCycle? && ShiftsIn(p, c.serial, Output(c))
  }

  /** The levels on the data pin at the clock edges of a run. */
  function Sampled(p: Profile, c: Chip, ops: seq<Op>): seq<bool> {
    if ops == [] then [] else
      var last := |ops| - 1;
      var d := Run(p, c, ops[..last]);
      Sampled(p, c, ops[..last]) + if Samples(p, d, ops[last]) then [d.serial.sp] else []
  }

  /** The step leaves the register receiving. */
  predicate Receives(op: Op) {
    op.WriteReg? ==> op.address % 16 != 0x0C && (op.address % 16 == 0x0E ==> op.val & 0x40 == 0)
  }

  predicate AllReceive(ops: seq<Op>) {
    forall i :: 0 <= i < |ops| ==> Receives(ops[i])
  }

  lemma StepSerial(p: Profile, c: Chip, op: Op)
    requires !Output(c) && Receives(op)
    ensures var s, d := c.serial, Step(p, c, op);
            && !Output(d)
            && (if op.HalfCycle? then d.serial == ShiftIn(p, s, false)
                else d.serial.shift == s.shift && d.serial.bitsIn == s.bitsIn
                     && d.serial.data == s.data && d.serial.received == s.received)
  {
    hide TickIrq, CountDown, TickClock, ClearMask, WritePorts, WriteIrq, WriteTimer, WriteClock, LoadSerial, ReadClock,
         ShiftIn;
  }

  /** The bits of the byte being received, and the byte received last. */
  function Partial(bits: seq<bool>): seq<bool> {
    bits[|bits| / 8 * 8..]
  }

  function LastByte(bits: seq<bool>): seq<bool>
    requires |bits| >= 8
  {
    bits[|bits| / 8 * 8 - 8..|bits| / 8 * 8]
  }

  function Limit(n: nat): nat
    requires n <= 8
  {
    [1, 2, 4, 8, 16, 32, 64, 128, 256][n]
  }

  lemma {:induction false} ValueBound(bits: seq<bool>)
    requires |bits| <= 8
    ensures Value(bits) < Limit(|bits|)
  {
    if bits != [] { ValueBound(bits[..|bits| - 1]); }
  }

  lemma PartialNext(bits: seq<bool>, b: bool)
    ensures |bits| % 8 < 7 ==> Partial(bits + [b]) == Partial(bits) + [b]
    ensures |bits| % 8 < 7 && |bits| >= 8 ==> LastByte(bits + [b]) == LastByte(bits)
    ensures |bits| % 8 == 7 ==> Partial(bits + [b]) == [] && LastByte(bits + [b]) == Partial(bits) + [b]
    ensures |Partial(bits)| == |bits| % 8
  {
    var n := |bits|;
    assert n == n / 8 * 8 + n % 8;
    if n % 8 < 7 {
      assert (n + 1) / 8 == n / 8;
    } else {
      assert (n + 1) / 8 == n / 8 + 1;
    }
  }

  /** Over any run that keeps the register receiving, the bytes received are the sampled levels cut into
      groups of eight, most significant bit first, and no sample is dropped or taken twice. */
  lemma {:induction false} BytesAreSampledBits(p: Profile, c: Chip, ops: seq<Op>)
    requires !Output(c) && c.serial.bitsIn == 0 && c.serial.shift == 0 && AllReceive(ops)
    ensures var bits, s := Sampled(p, c, ops), Run(p, c, ops).serial;
            && !Output(Run(p, c, ops))
            && s.received == c.serial.received + |bits| / 8
            && s.bitsIn == |bits| % 8
            && s.shift == Value(Partial(bits))
            && s.data == if |bits| >= 8 then Value(LastByte(bits)) else c.serial.data
  {
    hide Step, Receives, ShiftIn;
    if ops == [] {
      EmptyValue();
    } else {
      var last := |ops| - 1;
      var d, bits := Run(p, c, ops[..last]), Sampled(p, c, ops[..last]);
      BytesAreSampledBits(p, c, ops[..last]);
      assert Receives(ops[last]);
      StepSerial(p, d, ops[last]);
      assert Run(p, c, ops) == Step(p, d, ops[last]);
      assert Sampled(p, c, ops) == bits + if Samples(p, d, ops[last]) then [d.serial.sp] else [];
      assert bits + [] == bits;
      hide Value, Partial, LastByte, ShiftsIn, Run;
      if Samples(p, d, ops[last]) {
        OneSample(p, d.serial, |bits| % 8);
        OneMoreBit(bits, d.serial.sp);
      } else if ops[last].HalfCycle? {
        NoSample(p, d.serial);
      }
    }
  }

  lemma NoSample(p: Profile, s: Serial)
    requires !ShiftsIn(p, s, false)
    ensures ShiftIn(p, s, false) == s.(prevCnt := s.cnt)
  {
  }

  lemma CountNext(n: nat)
    ensures n % 8 == 7 ==> (n + 1) / 8 == n / 8 + 1 && (n + 1) % 8 == 0
    ensures n % 8 < 7 ==> (n + 1) / 8 == n / 8 && (n + 1) % 8 == n % 8 + 1
  {
  }

  /** A sampled level is shifted in; the eighth makes a byte. */
  lemma OneSample(p: Profile, s: Serial, k: nat)
    requires ShiftsIn(p, s, false) && s.bitsIn == k < 8
    ensures var t, next := ShiftIn(p, s, false), (s.shift * 2 + if s.sp then 1 else 0) % 256;
            && t.received == s.received + (if k == 7 then 1 else 0)
            && t.bitsIn == (if k == 7 then 0 else k + 1)
            && t.shift == (if k == 7 then 0 else next)
            && t.data == if k == 7 then next else s.data
  {
    hide ShiftsIn;
    assert (s.bitsIn + 1) % 256 == s.bitsIn + 1;
  }

  /** One more bit in the byte being received, or the byte complete. */
  lemma {:induction false} OneMoreBit(bits: seq<bool>, b: bool)
    ensures var all, k := bits + [b], |bits| % 8;
            var next := (Value(Partial(bits)) * 2 + if b then 1 else 0) % 256;
            && |all| / 8 == |bits| / 8 + (if k == 7 then 1 else 0)
            && |all| % 8 == (if k == 7 then 0 else k + 1)
            && Value(Partial(all)) == (if k == 7 then 0 else next)
            && (k == 7 ==> |all| >= 8 && Value(LastByte(all)) == next)
            && (k < 7 ==> (|all| >= 8 <==> |bits| >= 8) && (|bits| >= 8 ==> LastByte(all) == LastByte(bits)))
  {
    hide Partial, LastByte, Value;
    PartialNext(bits, b);
    CountNext(|bits|);
    EmptyValue();
    AppendBit(Partial(bits), b);
  }

  lemma {:induction false} AppendBit(part: seq<bool>, b: bool)
    requires |part| < 8
    ensures Value(part + [b]) == (Value(part) * 2 + if b then 1 else 0) % 256
  {
    ValueOfAppend(part, b);
    ByteBound(part + [b]);
    hide Value;
  }

  lemma {:induction false} ByteBound(bits: seq<bool>)
    requires |bits| <= 8
    ensures Value(bits) < 256
  {
    ValueBound(bits);
    hide Value;
  }

  lemma {:induction false} ValueOfAppend(part: seq<bool>, b: bool)
    ensures Value(part + [b]) == Value(part) * 2 + if b then 1 else 0
  {
    var next := part + [b];
    assert next[..|next| - 1] == part;
  }

  lemma EmptyValue()
    ensures Value([]) == 0
  {
  }
}
