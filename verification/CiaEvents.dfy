/** Interrupt events over whole runs: the control register reports exactly the events that were raised,
    latched and not yet read, and the processor's line always shows its summary bit. */
module CiaEvents {
  import opened Cia

  // ---- the summary bit and the line ---------------------------------------------------------------

  predicate IrqOk(i: Interrupts) {
    && (i.icr & 0x80 != 0 <==> i.icr & i.ier & 0x1F != 0)
    && i.line == (i.icr & 0x80 != 0)
    && i.icr & 0x60 == 0 && i.deferred & 0xE0 == 0
  }

  lemma LatchKeeps(i: Interrupts)
    requires IrqOk(i)
    ensures IrqOk(Latch(i))
  {
  }

  lemma SetEventKeeps(i: Interrupts, s: Source)
    requires IrqOk(i)
    ensures IrqOk(SetEvent(i, Bit(s)))
  {
  }

  lemma DeferKeeps(i: Interrupts, mask: Byte)
    requires IrqOk(i)
    ensures IrqOk(Defer(i, mask))
  {
  }

  lemma WriteIrqKeeps(i: Interrupts, reg: nat, val: Byte)
    requires IrqOk(i)
    ensures IrqOk(WriteIrq(i, reg, val))
  {
    if reg == 0x0D {
      SummaryShows(i.icr, Enable(i, val).ier);
      hide Summary;
    }
  }

  lemma SummaryShows(icr: Byte, ier: Byte)
    ensures var r := Summary(icr, ier);
            (r & 0x80 != 0 <==> r & ier & 0x1F != 0) && r & 0x60 == icr & 0x60
  {
  }

  lemma ClearKeeps(i: Interrupts)
    requires IrqOk(i)
    ensures IrqOk(ClearMask(i, 0x1F)) && ClearMask(i, 0x1F).icr == 0
  {
  }

  lemma StepKeepsIrq(p: Profile, c: Chip, op: Op)
    requires IrqOk(c.irq)
    ensures IrqOk(Step(p, c, op).irq)
  {
    hide IrqOk;
    match op
    case HalfCycle =>
      LatchKeeps(c.irq);
      SetEventKeeps(Latch(c.irq), Flag);
      DeferKeeps(Latch(c.irq), DeferredNow(p, c));
      DeferKeeps(SetEvent(Latch(c.irq), Bit(Flag)), DeferredNow(p, c));
      hide Latch, SetEvent, Defer, DeferredNow;
    case ReadReg(address) => ClearKeeps(c.irq); hide ClearMask;
    case WriteReg(address, val) => WriteIrqKeeps(c.irq, address % 16, val); hide WriteIrq;
    case SerialPins(_, _) =>
    case FlagPin(_) =>
    case PortPins(_, _, _, _) =>
  }

  /** Over any run, bit 7 stands exactly while an enabled event does, and it is the level last signalled. */
  lemma {:induction false} LineShowsEnabledEvents(p: Profile, ops: seq<Op>)
    ensures IrqOk(Run(p, PowerOn(), ops).irq)
  {
    if ops != [] {
      var last := |ops| - 1;
      LineShowsEnabledEvents(p, ops[..last]);
      StepKeepsIrq(p, Run(p, PowerOn(), ops[..last]), ops[last]);
    }
  }

  // ---- one step, one source -------------------------------------------------------------------------

  predicate Immediate(p: Profile, s: Source) {
    s.Flag? && p.flagImmediate
  }

  predicate Reports(op: Op) {
    op.ReadReg? && op.address % 16 == 0x0D
  }

  lemma DeferredBits(p: Profile, c: Chip, s: Source)
    ensures Has(DeferredNow(p, c), s) <==> Raises(p, c, s) && !Immediate(p, s)
  {
    hide Underflows, AlarmMatches, CompletesIn, CompletesOut, FlagFalls, Has, Masks;
    OrOfMasks(Raises(p, c, UnderflowA), Raises(p, c, UnderflowB), Raises(p, c, Alarm), Raises(p, c, SerialByte),
              FlagFalls(c) && !p.flagImmediate, s);
  }

  lemma OrOfMasks(a: bool, b: bool, d: bool, e: bool, f: bool, s: Source)
    ensures Has(Masks(a, b, d, e, f), s) <==>
            match s
            case UnderflowA => a
            case UnderflowB => b
            case Alarm => d
            case SerialByte => e
            case Flag => f
  {
  }

  lemma LatchBits(i: Interrupts, s: Source)
    ensures Has(Latch(i).icr, s) <==> Has(i.icr, s) || Has(i.deferred, s)
    ensures Latch(i).deferred == 0
  {
  }

  lemma SetFlagBits(i: Interrupts, s: Source)
    ensures Has(SetEvent(i, Bit(Flag)).icr, s) <==> Has(i.icr, s) || s.Flag?
    ensures SetEvent(i, Bit(Flag)).deferred == i.deferred
  {
    OrFlag(i.icr, 0, s);
    OrFlag(i.icr, 0x80, s);
    assert Bit(Flag) & 0x1F == Bit(Flag);
    hide Has;
  }

  lemma OrFlag(icr: Byte, summary: Byte, s: Source)
    requires summary in {0, 0x80}
    ensures Has(icr | Bit(Flag) | summary, s) <==> Has(icr, s) || s.Flag?
  {
  }

  lemma DeferBits(i: Interrupts, mask: Byte, s: Source)
    requires i.deferred == 0
    ensures Defer(i, mask).icr == i.icr && (Has(Defer(i, mask).deferred, s) <==> Has(mask, s))
  {
  }

  lemma TickBits(p: Profile, c: Chip, s: Source)
    ensures Has(TickIrq(p, c).icr, s) <==>
            Has(c.irq.icr, s) || Has(c.irq.deferred, s) || (Immediate(p, s) && Raises(p, c, s))
    ensures Has(TickIrq(p, c).deferred, s) <==> Raises(p, c, s) && !Immediate(p, s)
  {
    hide *;
    var latched := Latch(c.irq);
    TickIrqParts(p, c);
    LatchBits(c.irq, s);
    SetFlagBits(latched, s);
    DeferredBits(p, c, s);
    DeferBits(latched, DeferredNow(p, c), s);
    DeferBits(SetEvent(latched, Bit(Flag)), DeferredNow(p, c), s);
    FlagRaises(p, c, s);
  }

  lemma TickIrqParts(p: Profile, c: Chip)
    ensures var latched := Latch(c.irq);
            TickIrq(p, c) == Defer(if FlagFalls(c) && p.flagImmediate then SetEvent(latched, Bit(Flag)) else latched,
                                   DeferredNow(p, c))
  {
    hide Latch, Defer, SetEvent, DeferredNow, FlagFalls;
  }

  lemma FlagRaises(p: Profile, c: Chip, s: Source)
    ensures Immediate(p, s) && Raises(p, c, s) <==> s.Flag? && p.flagImmediate && FlagFalls(c)
  {
    hide FlagFalls;
  }

  lemma EnableBits(i: Interrupts, reg: nat, val: Byte, s: Source)
    ensures Has(WriteIrq(i, reg, val).icr, s) <==> Has(i.icr, s)
    ensures WriteIrq(i, reg, val).deferred == i.deferred
  {
  }

  lemma ClearBits(i: Interrupts, s: Source)
    ensures !Has(ClearMask(i, 0x1F).icr, s) && ClearMask(i, 0x1F).deferred == i.deferred
  {
  }

  lemma StepBits(p: Profile, c: Chip, op: Op, s: Source)
    ensures var i, j := c.irq, Step(p, c, op).irq;
            && (Has(j.icr, s) <==>
                !Reports(op) && (Has(i.icr, s)
                                 || (op.HalfCycle? && (Has(i.deferred, s) || (Immediate(p, s) && Raises(p, c, s))))))
            && (Has(j.deferred, s) <==>
                if op.HalfCycle? then Raises(p, c, s) && !Immediate(p, s) else Has(i.deferred, s))
  {
    match op
    case HalfCycle => TickBits(p, c, s); hide TickIrq, Has;
    case ReadReg(_) => ClearBits(c.irq, s); hide ClearMask, Has;
    case WriteReg(address, val) => EnableBits(c.irq, address % 16, val, s); hide WriteIrq, Has;
    case SerialPins(_, _) =>
    case FlagPin(_) =>
    case PortPins(_, _, _, _) =>
  }

  // ---- what a run raised, latched and reported --------------------------------------------------------

  ghost function At(p: Profile, ops: seq<Op>, n: nat): Chip
    requires n <= |ops|
  {
    Run(p, PowerOn(), ops[..n])
  }

  lemma AtNext(p: Profile, ops: seq<Op>, n: nat)
    requires n < |ops|
    ensures At(p, ops, n + 1) == Step(p, At(p, ops, n), ops[n])
  {
    hide Step;
    assert ops[..n + 1][..n] == ops[..n];
  }

  ghost predicate RaisedAt(p: Profile, ops: seq<Op>, i: nat, s: Source)
    requires i < |ops|
  {
    ops[i].HalfCycle? && Raises(p, At(p, ops, i), s)
  }

  predicate NoHalfCycle(ops: seq<Op>, lo: nat, hi: nat)
    requires hi <= |ops|
  {
    forall i :: lo <= i < hi ==> !ops[i].HalfCycle?
  }

  predicate NoReport(ops: seq<Op>, lo: nat, hi: nat)
    requires hi <= |ops|
  {
    forall i :: lo <= i < hi ==> !Reports(ops[i])
  }

  /** Raised before step m, and no half cycle has come since. */
  ghost predicate Waiting(p: Profile, ops: seq<Op>, m: nat, s: Source)
    requires m <= |ops|
  {
    !Immediate(p, s) && exists i :: 0 <= i < m && RaisedAt(p, ops, i, s) && NoHalfCycle(ops, i + 1, m)
  }

  /** Step m is the half cycle that makes a raised event visible. */
  ghost predicate LatchedAt(p: Profile, ops: seq<Op>, m: nat, s: Source)
    requires m < |ops|
  {
    ops[m].HalfCycle? && (Waiting(p, ops, m, s) || (Immediate(p, s) && RaisedAt(p, ops, m, s)))
  }

  /** Some event of this source became visible and has not been read since. */
  ghost predicate Standing(p: Profile, ops: seq<Op>, n: nat, s: Source)
    requires n <= |ops|
  {
    exists m :: 0 <= m < n && LatchedAt(p, ops, m, s) && NoReport(ops, m + 1, n)
  }

  lemma WaitingNext(p: Profile, ops: seq<Op>, n: nat, s: Source)
    requires n < |ops|
    ensures Waiting(p, ops, n + 1, s) <==>
            if ops[n].HalfCycle? then RaisedAt(p, ops, n, s) && !Immediate(p, s) else Waiting(p, ops, n, s)
  {
    hide RaisedAt;
    assert RaisedAt(p, ops, n, s) ==> ops[n].HalfCycle? by { NotRaisedElsewhere(p, ops, n, s); }
    if !Immediate(p, s) {
      if Waiting(p, ops, n + 1, s) {
        var i :| 0 <= i < n + 1 && RaisedAt(p, ops, i, s) && NoHalfCycle(ops, i + 1, n + 1);
        assert i == n || (NoHalfCycle(ops, i + 1, n) && !ops[n].HalfCycle?);
      }
      if ops[n].HalfCycle? && RaisedAt(p, ops, n, s) {
        assert NoHalfCycle(ops, n + 1, n + 1);
      }
      if !ops[n].HalfCycle? && Waiting(p, ops, n, s) {
        var i :| 0 <= i < n && RaisedAt(p, ops, i, s) && NoHalfCycle(ops, i + 1, n);
        assert NoHalfCycle(ops, i + 1, n + 1);
      }
    }
  }

  lemma NotRaisedElsewhere(p: Profile, ops: seq<Op>, n: nat, s: Source)
    requires n < |ops|
    ensures RaisedAt(p, ops, n, s) ==> ops[n].HalfCycle?
  {
  }

  lemma StandingNext(p: Profile, ops: seq<Op>, n: nat, s: Source)
    requires n < |ops|
    ensures Standing(p, ops, n + 1, s) <==> !Reports(ops[n]) && (Standing(p, ops, n, s) || LatchedAt(p, ops, n, s))
  {
    LatchIsNoReport(p, ops, n, s);
    NoReportNext(ops, n + 1, n);
    if Standing(p, ops, n + 1, s) {
      StandingBefore(p, ops, n, s);
    }
    if !Reports(ops[n]) && Standing(p, ops, n, s) {
      StandingAfter(p, ops, n, s);
    }
    hide LatchedAt, Reports, NoReport;
  }

  lemma StandingBefore(p: Profile, ops: seq<Op>, n: nat, s: Source)
    requires n < |ops| && Standing(p, ops, n + 1, s)
    ensures LatchedAt(p, ops, n, s) || (Standing(p, ops, n, s) && !Reports(ops[n]))
  {
    hide LatchedAt, Reports, NoReport;
    var m :| 0 <= m < n + 1 && LatchedAt(p, ops, m, s) && NoReport(ops, m + 1, n + 1);
    NoReportNext(ops, m + 1, n);
  }

  lemma StandingAfter(p: Profile, ops: seq<Op>, n: nat, s: Source)
    requires n < |ops| && Standing(p, ops, n, s) && !Reports(ops[n])
    ensures Standing(p, ops, n + 1, s)
  {
    hide LatchedAt, Reports, NoReport;
    var m :| 0 <= m < n && LatchedAt(p, ops, m, s) && NoReport(ops, m + 1, n);
    NoReportNext(ops, m + 1, n);
  }

  lemma LatchIsNoReport(p: Profile, ops: seq<Op>, n: nat, s: Source)
    requires n < |ops|
    ensures LatchedAt(p, ops, n, s) ==> !Reports(ops[n])
  {
    hide Waiting, RaisedAt;
  }

  lemma NoReportNext(ops: seq<Op>, lo: nat, n: nat)
    requires n < |ops|
    ensures NoReport(ops, lo, n + 1) <==> lo > n || (NoReport(ops, lo, n) && !Reports(ops[n]))
  {
    hide Reports;
  }

  lemma NothingYet(p: Profile, ops: seq<Op>, s: Source)
    ensures !Has(At(p, ops, 0).irq.deferred, s) && !Waiting(p, ops, 0, s)
    ensures !Has(At(p, ops, 0).irq.icr, s) && !Standing(p, ops, 0, s)
  {
  }

  /** At every point of every run: an event waits exactly if it was raised in the current half cycle, and
      the control register shows exactly the events that became visible after its last read. */
  lemma {:induction false} RegisterShowsUnreadEvents(p: Profile, ops: seq<Op>, n: nat, s: Source)
    requires n <= |ops|
    ensures Has(At(p, ops, n).irq.deferred, s) <==> Waiting(p, ops, n, s)
    ensures Has(At(p, ops, n).irq.icr, s) <==> Standing(p, ops, n, s)
  {
    hide Has, Raises, Waiting, Standing, Reports, Step;
    if n > 0 {
      var m := n - 1;
      RegisterShowsUnreadEvents(p, ops, m, s);
      AtNext(p, ops, m);
      StepBits(p, At(p, ops, m), ops[m], s);
      WaitingNext(p, ops, m, s);
      StandingNext(p, ops, m, s);
    } else {
      NothingYet(p, ops, s);
    }
  }

  /** No event is lost: once raised, the first control-register read after the next half cycle (after
      the same one, if the revision signals the flag pin at once) reports it and takes it away, whatever
      else happens in between. */
  lemma RaisedEventIsReported(p: Profile, ops: seq<Op>, i: nat, m: nat, r: nat, s: Source)
    requires i <= m < r < |ops| && RaisedAt(p, ops, i, s)
    requires if Immediate(p, s) then m == i else i < m && ops[m].HalfCycle? && NoHalfCycle(ops, i + 1, m)
    requires Reports(ops[r]) && NoReport(ops, m + 1, r)
    ensures Has(At(p, ops, r).irq.icr, s) && !Has(At(p, ops, r + 1).irq.icr, s)
  {
    hide RaisedAt, Has, At, Immediate, Reports, NoReport, NoHalfCycle;
    NotRaisedElsewhere(p, ops, i, s);
    RegisterShowsUnreadEvents(p, ops, r, s);
    RegisterShowsUnreadEvents(p, ops, r + 1, s);
    StandingNext(p, ops, r, s);
    assert !Immediate(p, s) ==> Waiting(p, ops, m, s);
    assert LatchedAt(p, ops, m, s);
    hide LatchedAt, Waiting;
    assert Standing(p, ops, r, s);
  }
}
