/** The adapter's timers and clock over whole runs: exact underflow counts, a clock that is a counter of
    tenths modulo one day, and the reads that freeze it. */
module CiaTime {
  import opened Cia
  import opened Division

  // ---- full cycles of a run ---------------------------------------------------------------------

  function HalfCycles(ops: seq<Op>): nat {
    if ops == [] then 0 else HalfCycles(ops[..|ops| - 1]) + if ops[|ops| - 1].HalfCycle? then 1 else 0
  }

  /** The half cycles of a run that fall in the high phase, where timers and clock count. */
  function Cycles(c: Chip, ops: seq<Op>): nat {
    (HalfCycles(ops) + if c.pins.phase then 0 else 1) / 2
  }

  lemma {:induction false} PhaseAlternates(p: Profile, c: Chip, ops: seq<Op>)
    ensures Run(p, c, ops).pins.phase == (c.pins.phase == (HalfCycles(ops) % 2 == 0))
  {
    hide TickIrq, Write, CountDown, TickClock, ShiftOut, ShiftIn, ClearMask;
    if ops != [] {
      var last := |ops| - 1;
      PhaseAlternates(p, c, ops[..last]);
      StepPhase(p, Run(p, c, ops[..last]), ops[last]);
      hide Step;
    }
  }

  lemma StepPhase(p: Profile, c: Chip, op: Op)
    ensures Step(p, c, op).pins.phase == if op.HalfCycle? then !c.pins.phase else c.pins.phase
  {
    hide TickIrq, CountDown, TickClock, ShiftOut, ShiftIn, ClearMask, ReadClock, WritePorts, WriteTimer, WriteIrq,
         WriteClock;
  }

  /** Cycles over a run and one more step. */
  lemma CyclesNext(p: Profile, c: Chip, ops: seq<Op>)
    requires ops != []
    ensures var last := |ops| - 1;
            Cycles(c, ops) == Cycles(c, ops[..last])
                              + if ops[last].HalfCycle? && !Run(p, c, ops[..last]).pins.phase then 1 else 0
  {
    PhaseAlternates(p, c, ops[..|ops| - 1]);
    hide Run;
  }

  // ---- timers -------------------------------------------------------------------------------------

  function CountDowns(t: Timer, n: nat): Timer {
    if n == 0 then t else CountDown(CountDowns(t, n - 1))
  }

  /** The step does not address the timer's latch or control register. */
  predicate LeavesTimer(op: Op, low: nat, control: nat) {
    op.WriteReg? ==> op.address % 16 !in {low, low + 1, control}
  }

  predicate LeaveTimer(ops: seq<Op>, low: nat, control: nat) {
    forall i :: 0 <= i < |ops| ==> LeavesTimer(ops[i], low, control)
  }

  lemma StepTimers(p: Profile, c: Chip, op: Op)
    ensures var d, high := Step(p, c, op), op.HalfCycle? && !c.pins.phase;
            && (LeavesTimer(op, 0x04, 0x0E) ==> d.timerA == if high then CountDown(c.timerA) else c.timerA)
            && (LeavesTimer(op, 0x06, 0x0F) ==> d.timerB == if high then CountDown(c.timerB) else c.timerB)
  {
    hide TickIrq, CountDown, TickClock, ShiftOut, ShiftIn, ClearMask, ReadClock, WritePorts, WriteIrq, WriteClock,
         LatchLow, LatchHigh, Control, LoadSerial;
  }

  lemma {:induction false} TimersCountCycles(p: Profile, c: Chip, ops: seq<Op>)
    ensures LeaveTimer(ops, 0x04, 0x0E) ==> Run(p, c, ops).timerA == CountDowns(c.timerA, Cycles(c, ops))
    ensures LeaveTimer(ops, 0x06, 0x0F) ==> Run(p, c, ops).timerB == CountDowns(c.timerB, Cycles(c, ops))
  {
    hide CountDown, Step, LeavesTimer;
    if ops != [] {
      var last := |ops| - 1;
      TimersCountCycles(p, c, ops[..last]);
      CyclesNext(p, c, ops);
      StepTimers(p, Run(p, c, ops[..last]), ops[last]);
      hide Cycles;
    }
  }

  /** A continuous timer counts down once from where it stands and then sweeps its latch period. */
  function Swept(t: Timer, n: nat): Timer {
    if n <= t.count then t.(count := t.count - n)
    else
      var m, period := n - t.count - 1, t.latch + 1;
      t.(underflows := t.underflows + 1 + m / period, count := t.latch - m % period)
  }

  lemma {:induction false} ContinuousSweep(t: Timer, n: nat)
    requires t.started && !t.oneShot
    ensures CountDowns(t, n) == Swept(t, n)
  {
    if n > 0 {
      ContinuousSweep(t, n - 1);
      if n == t.count + 1 {
        DivNext(0, t.latch + 1);
      } else if n > t.count {
        DivNext(n - t.count - 2, t.latch + 1);
      }
    }
  }

  /** From a count within the latch the sweep is one division: one underflow every latch + 1 cycles. */
  lemma SweepDivides(t: Timer, n: nat)
    requires t.count <= t.latch
    ensures var position, period := t.latch - t.count + n, t.latch + 1;
            Swept(t, n) == t.(underflows := t.underflows + position / period, count := t.latch - position % period)
  {
    var position, period := t.latch - t.count + n, t.latch + 1;
    if n <= t.count {
      DivNext(position, period);
    } else {
      var m := n - t.count - 1;
      assert position == m + period;
      assert (m / period + 1) * period + m % period == position;
      QuotientUnique(position, period, m / period + 1, m % period);
    }
  }

  lemma DivNext(a: nat, d: nat)
    requires d > 0
    ensures a < d ==> a / d == 0 && a % d == a
    ensures a % d == d - 1 ==> (a + 1) / d == a / d + 1 && (a + 1) % d == 0
    ensures a % d != d - 1 ==> (a + 1) / d == a / d && (a + 1) % d == a % d + 1
  {
    var q, r := a / d, a % d;
    if a < d { QuotientUnique(a, d, 0, a); }
    if r == d - 1 {
      assert a + 1 == (q + 1) * d;
      QuotientUnique(a + 1, d, q + 1, 0);
    } else {
      QuotientUnique(a + 1, d, q, r + 1);
    }
  }

  /** A one-shot timer stops at its first underflow. */
  lemma {:induction false} OneShotStops(t: Timer, n: nat)
    requires t.started && t.oneShot
    ensures CountDowns(t, n) == if n <= t.count then t.(count := t.count - n)
                                else t.(count := t.latch, started := false, underflows := t.underflows + 1)
  {
    if n > 0 { OneShotStops(t, n - 1); }
  }

  /** Over any run that leaves timer A's registers alone, a continuous timer underflows once every
      latch + 1 cycles after its first count-down, whatever else the run does. */
  lemma ContinuousTimerA(p: Profile, c: Chip, ops: seq<Op>)
    requires c.timerA.started && !c.timerA.oneShot && LeaveTimer(ops, 0x04, 0x0E)
    ensures var t, n := c.timerA, Cycles(c, ops);
            && Run(p, c, ops).timerA == Swept(t, n)
            && (t.count <= t.latch ==>
                  var position, period := t.latch - t.count + n, t.latch + 1;
                  && Run(p, c, ops).timerA.underflows - t.underflows == position / period
                  && Run(p, c, ops).timerA.count == t.latch - position % period)
  {
    hide Run, CountDowns, Cycles;
    var t, n := c.timerA, Cycles(c, ops);
    TimersCountCycles(p, c, ops);
    ContinuousSweep(t, n);
    if t.count <= t.latch {
      SweepDivides(t, n);
    }
    hide Swept;
  }

  lemma ContinuousTimerB(p: Profile, c: Chip, ops: seq<Op>)
    requires c.timerB.started && !c.timerB.oneShot && LeaveTimer(ops, 0x06, 0x0F)
    ensures var t, n := c.timerB, Cycles(c, ops);
            && Run(p, c, ops).timerB == Swept(t, n)
            && (t.count <= t.latch ==>
                  var position, period := t.latch - t.count + n, t.latch + 1;
                  && Run(p, c, ops).timerB.underflows - t.underflows == position / period
                  && Run(p, c, ops).timerB.count == t.latch - position % period)
  {
    hide Run, CountDowns, Cycles;
    var t, n := c.timerB, Cycles(c, ops);
    TimersCountCycles(p, c, ops);
    ContinuousSweep(t, n);
    if t.count <= t.latch {
      SweepDivides(t, n);
    }
    hide Swept;
  }

  // ---- time of day ----------------------------------------------------------------------------------

  const DAY := 864000

  predicate ValidBcd(v: nat, maxHigh: nat) {
    v % 16 <= 9 && v / 16 <= maxHigh
  }

  predicate ValidHours(v: nat) {
    v < 256 && (1 <= v % 128 <= 9 || 16 <= v % 128 <= 18)
  }

  predicate ValidTime(t: Time) {
    t.tenths <= 9 && ValidBcd(t.seconds, 5) && ValidBcd(t.minutes, 5) && ValidHours(t.hours)
  }

  function Digits(v: nat): nat {
    v / 16 * 10 + v % 16
  }

  /** Hours since midnight: twelve counts as zero, and the flag adds twelve. */
  function HourOfDay(v: nat): nat {
    Digits(v % 128) % 12 + v / 128 * 12
  }

  function TenthOfDay(t: Time): nat {
    ((HourOfDay(t.hours) * 60 + Digits(t.minutes)) * 60 + Digits(t.seconds)) * 10 + t.tenths
  }

  lemma BcdStep(v: nat, maxHigh: nat)
    requires ValidBcd(v, maxHigh) && maxHigh <= 9
    ensures var (w, carry) := BcdIncrement(v, 9, maxHigh);
            && ValidBcd(w, maxHigh)
            && (carry <==> Digits(v) == maxHigh * 10 + 9)
            && Digits(w) == if carry then 0 else Digits(v) + 1
  {
    var hi, lo := v / 16, v % 16;
    BcdDigits(hi, lo);
    BcdDigits(hi, lo + 1);
    BcdDigits(hi + 1, 0);
    BcdDigits(0, 0);
    SmallMod(hi, 16);
    hide Digits;
  }

  lemma BcdDigits(hi: nat, lo: nat)
    requires lo < 16
    ensures var v := hi * 16 + lo; v / 16 == hi && v % 16 == lo && Digits(v) == hi * 10 + lo
  {
  }

  lemma HoursStep(v: nat)
    requires ValidHours(v)
    ensures ValidHours(NextHours(v)) && HourOfDay(NextHours(v)) == (HourOfDay(v) + 1) % 24
  {
    ClockFace(v);
    var pm, n := v / 128, Digits(v % 128);
    var n' := if n == 12 then 1 else n + 1;
    var pm' := if n' == 12 then 1 - pm else pm;
    NextFace(pm, n);
    Face(pm, n);
    Face(pm', n');
    hide NextHours, HourOfDay, Hours, ValidHours, Digits;
    NextOnFace(pm, n);
  }

  lemma NextOnFace(pm: nat, n: nat)
    requires pm <= 1 && 1 <= n <= 12
    ensures var n' := if n == 12 then 1 else n + 1;
            n' % 12 + 12 * (if n' == 12 then 1 - pm else pm) == (n % 12 + 12 * pm + 1) % 24
  {
  }

  lemma FaceUnique(pm: nat, n: nat, pm': nat, n': nat)
    requires pm <= 1 && 1 <= n <= 12 && pm' <= 1 && 1 <= n' <= 12
    requires n % 12 + 12 * pm == n' % 12 + 12 * pm'
    ensures pm == pm' && n == n'
  {
  }

  /** The register for an hour of the clock face and its half of the day. */
  function Hours(pm: nat, n: nat): nat {
    pm * 128 + if n <= 9 then n else n + 6
  }

  lemma ClockFace(v: nat)
    requires ValidHours(v)
    ensures v / 128 <= 1 && 1 <= Digits(v % 128) <= 12 && v == Hours(v / 128, Digits(v % 128))
  {
  }

  lemma Face(pm: nat, n: nat)
    requires pm <= 1 && 1 <= n <= 12
    ensures ValidHours(Hours(pm, n)) && HourOfDay(Hours(pm, n)) == n % 12 + 12 * pm
  {
    var h := if n <= 9 then n else n + 6;
    assert Hours(pm, n) % 128 == h && Hours(pm, n) / 128 == pm;
    assert Digits(h) == n;
    hide Hours, Digits;
  }

  lemma NextFace(pm: nat, n: nat)
    requires pm <= 1 && 1 <= n <= 12
    ensures var n' := if n == 12 then 1 else n + 1;
            NextHours(Hours(pm, n)) == Hours(if n' == 12 then 1 - pm else pm, n')
  {
    var n' := if n == 12 then 1 else n + 1;
    FaceDigits(pm, n);
    FaceRegister(n');
  }

  lemma FaceDigits(pm: nat, n: nat)
    requires pm <= 1 && 1 <= n <= 12
    ensures var v := Hours(pm, n); v / 128 % 2 == pm && v / 16 % 2 * 10 + v % 16 == n
  {
  }

  lemma FaceRegister(n: nat)
    requires 1 <= n <= 12
    ensures n / 10 * 16 + n % 10 == if n <= 9 then n else n + 6
  {
  }

  /** Counting hours, minutes, seconds and tenths with their carries adds one modulo a day. */
  lemma CarriesAddOne(h: nat, m: nat, s: nat, t: nat)
    requires h < 24 && m < 60 && s < 60 && t < 10
    ensures var x := ((h * 60 + m) * 60 + s) * 10 + t;
            var c1, c2, c3 := t == 9, t == 9 && s == 59, t == 9 && s == 59 && m == 59;
            var h' := if c3 then (h + 1) % 24 else h;
            var m', s' := if c3 then 0 else if c2 then m + 1 else m, if c2 then 0 else if c1 then s + 1 else s;
            ((h' * 60 + m') * 60 + s') * 10 + (if c1 then 0 else t + 1) == (x + 1) % DAY
  {
    var x := ((h * 60 + m) * 60 + s) * 10 + t;
    assert x + 1 <= DAY;
    assert x + 1 < DAY ==> (x + 1) % DAY == x + 1;
    if h == 23 {
    }
  }

  lemma PartsUnique(m: nat, s: nat, t: nat, h: nat, m': nat, s': nat, t': nat, h': nat)
    requires m < 60 && s < 60 && t < 10 && m' < 60 && s' < 60 && t' < 10
    requires ((h * 60 + m) * 60 + s) * 10 + t == ((h' * 60 + m') * 60 + s') * 10 + t'
    ensures h == h' && m == m' && s == s' && t == t'
  {
  }

  lemma ValidHoursUnique(v: nat, w: nat)
    requires ValidHours(v) && ValidHours(w)
    ensures HourOfDay(v) == HourOfDay(w) ==> v == w
  {
    ClockFace(v);
    ClockFace(w);
    var pm, n, pm', n' := v / 128, Digits(v % 128), w / 128, Digits(w % 128);
    Face(pm, n);
    Face(pm', n');
    hide ValidHours, HourOfDay, Digits, Hours;
    if n % 12 + 12 * pm == n' % 12 + 12 * pm' {
      FaceUnique(pm, n, pm', n');
    }
  }

  lemma HourInDay(v: nat)
    requires ValidHours(v)
    ensures HourOfDay(v) < 24
  {
    ClockFace(v);
    Face(v / 128, Digits(v % 128));
    hide ValidHours, HourOfDay, Digits, Hours;
  }

  lemma BcdUnique(v: nat, w: nat, maxHigh: nat)
    requires ValidBcd(v, maxHigh) && ValidBcd(w, maxHigh) && Digits(v) == Digits(w)
    ensures v == w
  {
  }

  lemma DigitsBound(v: nat, maxHigh: nat)
    requires ValidBcd(v, maxHigh)
    ensures Digits(v) <= maxHigh * 10 + 9
  {
  }

  /** The clock's four registers stay valid and count tenths of a second modulo one day, with the AM/PM
      flag turning at twelve. */
  lemma ClockIsDayCounter(t: Time)
    requires ValidTime(t)
    ensures ValidTime(NextTime(t)) && TenthOfDay(NextTime(t)) == (TenthOfDay(t) + 1) % DAY
  {
    hide NextTime, HourOfDay, Digits, ValidHours, ValidBcd;
    NextTimeParts(t);
    HourInDay(t.hours);
    DigitsBound(t.seconds, 5);
    DigitsBound(t.minutes, 5);
    var h, m, s, u := HourOfDay(t.hours), Digits(t.minutes), Digits(t.seconds), NextTime(t);
    assert TenthOfDay(t) == ((h * 60 + m) * 60 + s) * 10 + t.tenths;
    assert TenthOfDay(u) == ((HourOfDay(u.hours) * 60 + Digits(u.minutes)) * 60 + Digits(u.seconds)) * 10 + u.tenths;
    hide *;
    CarriesAddOne(h, m, s, t.tenths);
  }

  /** Each register of the clock's next moment. */
  lemma NextTimeParts(t: Time)
    requires ValidTime(t)
    ensures var u, c1 := NextTime(t), t.tenths == 9;
            var c2 := c1 && Digits(t.seconds) == 59;
            var c3 := c2 && Digits(t.minutes) == 59;
            && ValidTime(u)
            && u.tenths == (if c1 then 0 else t.tenths + 1)
            && Digits(u.seconds) == (if c2 then 0 else if c1 then Digits(t.seconds) + 1 else Digits(t.seconds))
            && Digits(u.minutes) == (if c3 then 0 else if c2 then Digits(t.minutes) + 1 else Digits(t.minutes))
            && HourOfDay(u.hours) == if c3 then (HourOfDay(t.hours) + 1) % 24 else HourOfDay(t.hours)
  {
    BcdStep(t.tenths, 0);
    BcdStep(t.seconds, 5);
    BcdStep(t.minutes, 5);
    HoursStep(t.hours);
    SmallDigits(t.tenths);
    SmallDigits(BcdIncrement(t.tenths, 9, 0).0);
    hide BcdIncrement, NextHours, HourOfDay, Digits, ValidHours, ValidBcd;
  }

  lemma SmallDigits(v: nat)
    ensures v <= 9 <==> ValidBcd(v, 0)
    ensures v <= 9 ==> Digits(v) == v
  {
  }

  /** No two valid settings stand for the same moment. */
  lemma TenthOfDayInjective(a: Time, b: Time)
    requires ValidTime(a) && ValidTime(b)
    ensures TenthOfDay(a) == TenthOfDay(b) ==> a == b
  {
    DigitsBound(a.seconds, 5);
    DigitsBound(a.minutes, 5);
    DigitsBound(b.seconds, 5);
    DigitsBound(b.minutes, 5);
    hide Digits, HourOfDay, ValidHours, ValidBcd;
    if TenthOfDay(a) == TenthOfDay(b) {
      PartsUnique(Digits(a.minutes), Digits(a.seconds), a.tenths, HourOfDay(a.hours),
                  Digits(b.minutes), Digits(b.seconds), b.tenths, HourOfDay(b.hours));
      BcdUnique(a.minutes, b.minutes, 5);
      BcdUnique(a.seconds, b.seconds, 5);
      ValidHoursUnique(a.hours, b.hours);
    }
  }

  predicate LeavesClock(op: Op) {
    op.WriteReg? ==> !(0x08 <= op.address % 16 <= 0x0B)
  }

  predicate LeaveClock(ops: seq<Op>) {
    forall i :: 0 <= i < |ops| ==> LeavesClock(ops[i])
  }

  predicate ClockRuns(p: Profile, c: Clock) {
    c.running && ValidTime(c.now) && 0 < p.todReload < 65536 && c.divider < 65536
  }

  /** The tenths that pass in `n` cycles from a divider. A clock restarted late, with its divider past the
      reload, passes one at once, unless the divider's sixteen bits run over first. */
  function TenthsPassed(p: Profile, divider: nat, n: nat): int
    requires p.todReload > 0
  {
    if n == 0 then 0
    else if divider < p.todReload then (divider + n) / p.todReload
    else (if divider < 65535 then 1 else 0) + (n - 1) / p.todReload
  }

  function DividerAfter(p: Profile, divider: nat, n: nat): nat
    requires p.todReload > 0
  {
    if n == 0 then divider
    else if divider < p.todReload then (divider + n) % p.todReload
    else (n - 1) % p.todReload
  }

  lemma StepClock(p: Profile, c: Chip, op: Op)
    requires LeavesClock(op)
    ensures var d, e := c.clock, Step(p, c, op).clock;
            var high := op.HalfCycle? && !c.pins.phase;
            && e.running == d.running
            && e.now == (if high then TickClock(p, d) else d).now
            && e.divider == (if high then TickClock(p, d) else d).divider
  {
    hide TickIrq, CountDown, ShiftOut, ShiftIn, ClearMask, WritePorts, WriteIrq, WriteClock, WriteTimer, LoadSerial,
         NextTime, TenthPasses, AlarmMatches;
  }

  /** Over any run without clock writes, the clock advances one tenth every `todReload` cycles, from
      whatever count its divider stood at. */
  lemma {:induction false} ClockKeepsTime(p: Profile, c: Chip, ops: seq<Op>)
    requires ClockRuns(p, c.clock) && LeaveClock(ops)
    ensures var d, e, n := c.clock, Run(p, c, ops).clock, Cycles(c, ops);
            && ClockRuns(p, e)
            && TenthOfDay(e.now) == (TenthOfDay(d.now) + TenthsPassed(p, d.divider, n)) % DAY
            && e.divider == DividerAfter(p, d.divider, n)
  {
    hide TenthOfDay, ValidTime, Step, TenthsPassed, DividerAfter;
    if ops == [] {
      NoCycles(p, c.clock.divider);
      TenthInDay(c.clock.now);
    } else {
      var last := |ops| - 1;
      ClockKeepsTime(p, c, ops[..last]);
      CyclesNext(p, c, ops);
      var d := Run(p, c, ops[..last]);
      assert LeavesClock(ops[last]);
      StepClock(p, d, ops[last]);
      assert Run(p, c, ops) == Step(p, d, ops[last]);
      hide *;
      ClockStep(p, d.clock, Run(p, c, ops).clock, ops[last].HalfCycle? && !d.pins.phase,
                TenthOfDay(c.clock.now), c.clock.divider, Cycles(c, ops[..last]));
    }
  }

  lemma NoCycles(p: Profile, divider: nat)
    requires p.todReload > 0
    ensures TenthsPassed(p, divider, 0) == 0 && DividerAfter(p, divider, 0) == divider
  {
  }

  /** One more cycle for the divider. */
  lemma DividerStep(p: Profile, divider: nat, n: nat)
    requires 0 < p.todReload < 65536 && divider < 65536
    ensures var d, passed := DividerAfter(p, divider, n), TenthsPassed(p, divider, n);
            var passes := (d + 1) % 65536 >= p.todReload;
            && d < 65536
            && DividerAfter(p, divider, n + 1) == (if passes then 0 else (d + 1) % 65536)
            && TenthsPassed(p, divider, n + 1) == passed + (if passes then 1 else 0)
  {
    if divider < p.todReload {
      EarlyDividerStep(p.todReload, divider, n);
    } else if n == 0 {
      SmallQuotient(0, p.todReload);
      if divider < 65535 { SmallMod(divider + 1, 65536); }
    } else {
      PeriodStep(p.todReload, n - 1);
    }
  }

  lemma EarlyDividerStep(reload: nat, divider: nat, n: nat)
    requires divider < reload < 65536
    ensures n == 0 ==> (divider + n) / reload == 0 && (divider + n) % reload == divider
    ensures var d := (divider + n) % reload;
            var passes := (d + 1) % 65536 >= reload;
            && d < reload
            && (divider + n + 1) % reload == (if passes then 0 else (d + 1) % 65536)
            && (divider + n + 1) / reload == (divider + n) / reload + if passes then 1 else 0
  {
    SmallQuotient(divider, reload);
    PeriodStep(reload, divider + n);
  }

  lemma PeriodStep(reload: nat, position: nat)
    requires 0 < reload < 65536
    ensures var d := position % reload;
            var passes := (d + 1) % 65536 >= reload;
            && d < reload
            && (position + 1) % reload == (if passes then 0 else (d + 1) % 65536)
            && (position + 1) / reload == position / reload + if passes then 1 else 0
  {
    DivNext(position, reload);
    SmallMod(position % reload + 1, 65536);
  }

  lemma SmallQuotient(a: nat, d: nat)
    requires a < d
    ensures a / d == 0 && a % d == a
  {
    DivNext(a, d);
  }

  /** The clock's state stands for a count of cycles since `start`; one more cycle goes on from there. */
  lemma ClockStep(p: Profile, d: Clock, e: Clock, high: bool, start: nat, divider: nat, n: nat)
    requires ClockRuns(p, d) && divider < 65536 && e.running == d.running
    requires e.now == (if high then TickClock(p, d) else d).now
             && e.divider == (if high then TickClock(p, d) else d).divider
    requires TenthOfDay(d.now) == (start + TenthsPassed(p, divider, n)) % DAY
             && d.divider == DividerAfter(p, divider, n)
    ensures var total := n + if high then 1 else 0;
            && ClockRuns(p, e)
            && TenthOfDay(e.now) == (start + TenthsPassed(p, divider, total)) % DAY
            && e.divider == DividerAfter(p, divider, total)
  {
    hide TenthOfDay, ValidTime, NextTime, TenthsPassed, DividerAfter;
    if high {
      ClockIsDayCounter(d.now);
      DividerStep(p, divider, n);
      DayNext(start + TenthsPassed(p, divider, n));
      TenthInDay(d.now);
    }
  }

  lemma SmallMod(a: nat, d: nat)
    requires a < d
    ensures a % d == a
  {
  }

  lemma DayNext(x: int)
    ensures (x % DAY + 1) % DAY == (x + 1) % DAY
  {
  }

  lemma TenthInDay(t: Time)
    requires ValidTime(t)
    ensures TenthOfDay(t) < DAY
  {
    HourInDay(t.hours);
    DigitsBound(t.seconds, 5);
    DigitsBound(t.minutes, 5);
    hide Digits, ValidBcd, HourOfDay, ValidHours;
  }

  // ---- freezing reads -----------------------------------------------------------------------------------

  predicate ReadsClockAt(op: Op, reg: nat) {
    op.ReadReg? && op.address % 16 == reg
  }

  predicate NeverReads(ops: seq<Op>, reg: nat) {
    forall i :: 0 <= i < |ops| ==> !ReadsClockAt(ops[i], reg)
  }

  lemma StepFreeze(p: Profile, c: Chip, op: Op)
    requires !ReadsClockAt(op, 0x0B)
    ensures var d, e := c.clock, Step(p, c, op).clock;
            && e.latched == d.latched
            && (e.frozen <==> d.frozen && !(ReadsClockAt(op, 0x08) && p.tenthsUnfreezes))
  {
    hide TickIrq, CountDown, ShiftOut, ShiftIn, ClearMask, WritePorts, WriteIrq, WriteTimer, LoadSerial,
         NextTime, TenthPasses, AlarmMatches, WithField;
  }

  /** After a read of the hours, and until the next one, the other three registers show the moment of that
      read across any ticks and writes; on the base revision a read of the tenths sets the clock free,
      and on the later ones nothing but another hours read does. */
  lemma {:induction false} HoursReadFreezes(r: Revision, c: Chip, ops: seq<Op>)
    requires NeverReads(ops, 0x0B)
    ensures var p := ProfileOf(r);
            var w := Run(p, Read(p, c, 0x0B), ops).clock;
            && w.latched == c.clock.now
            && (w.frozen <==> r != R6526 || NeverReads(ops, 0x08))
            && Shown(w) == if r != R6526 || NeverReads(ops, 0x08) then c.clock.now else w.now
  {
    hide Step;
    var p := ProfileOf(r);
    if ops != [] {
      var last := |ops| - 1;
      HoursReadFreezes(r, c, ops[..last]);
      StepFreeze(p, Run(p, Read(p, c, 0x0B), ops[..last]), ops[last]);
      assert NeverReads(ops, 0x08) <==> NeverReads(ops[..last], 0x08) && !ReadsClockAt(ops[last], 0x08);
      hide ReadsClockAt, Read;
    }
  }
}
