/** Lines over time: every run of the bus is a sequence of small moves, and along it a line's fall is
    remembered and its rise comes at one exact unit. */
module IecBusTimeline {
  import opened IecBus
  import opened IecBusConvergence

  // ---- moves -------------------------------------------------------------------------------------

  /** Time moves on, but not past anything pending. */
  ghost predicate Idles(b: Bus, b': Bus) {
    !Due(b) && b.t.now <= b'.t.now && b' == b.(t := b.t.(now := b'.t.now))
  }

  /** An event runs, time moves on, or one of the clocks ticks. */
  ghost predicate Moves(cfg: Config, w: World, b: Bus, b': Bus)
    requires cfg.driveRate > 0
  {
    || (Due(b) && b' == RunNext(cfg, b))
    || Idles(b, b')
    || b' == TickDrive(cfg, w, b)
    || b' == TickC64(cfg, w, b)
  }

  ghost predicate Timeline(cfg: Config, w: World, bs: seq<Bus>)
    requires cfg.driveRate > 0
  {
    && bs != []
    && (forall i :: 0 <= i < |bs| ==> Inv(cfg, bs[i]) && WakeUpsOk(bs[i]))
    && (forall i, j :: 0 <= i && j == i + 1 < |bs| ==> Moves(cfg, w, bs[i], bs[j]))
  }

  // ---- one move, one line ----------------------------------------------------------------------------

  /** The line is looked at once, by the event that runs, or left as it is. */
  ghost predicate LookedAt(cfg: Config, b: Bus, b': Bus, id: LineId) {
    var line := LineOf(b.model, id);
    || LineOf(b'.model, id) == NextLine(cfg, line, id, Wanted(b', id), b.t.now, b.settles)
    || LineOf(b'.model, id) == NextLine(cfg, line.(pending := false), id, Wanted(b', id), b.t.now, b.settles)
  }

  lemma SettleLooks(cfg: Config, b: Bus, m: Bus, id: LineId)
    requires WakeUpsOk(m) && m.t == b.t && m.settles == b.settles
    requires LineOf(m.model, id) == LineOf(b.model, id) || LineOf(m.model, id) == LineOf(b.model, id).(pending := false)
    ensures Settle(cfg, m).t == b.t && LookedAt(cfg, b, Settle(cfg, m), id)
  {
    SettleWakes(cfg, m);
    hide Settle, NextLine, WakeUpsOk, Replay;
  }

  /** An event either leaves the line alone or looks at it once. */
  ghost predicate LeftOrLookedAt(cfg: Config, b: Bus, b': Bus, id: LineId) {
    && b'.t == b.t
    && ((LineOf(b'.model, id) == LineOf(b.model, id) && Wanted(b', id) == Wanted(b, id)) || LookedAt(cfg, b, b', id))
  }

  lemma WakeUpLooks(cfg: Config, b: Bus, i: LineId, g: nat, id: LineId)
    requires WakeUpsOk(b) && b.agenda.events != [] && b.agenda.events[0].action == RiseReeval(i, g)
    ensures LeftOrLookedAt(cfg, b, RunNext(cfg, b), id)
  {
    var p := Popped(b);
    PoppedWakes(b);
    hide Settle, LookedAt, Resolve;
    if LineOf(p.model, i).pending && LineOf(p.model, i).generation == g {
      var line := LineOf(p.model, i).(pending := false);
      SetLineWakes(p, i, line);
      hide WakeUpsOk, Notices;
      SettleLooks(cfg, b, SetLine(p, i, line), id);
    }
  }

  lemma PullsLook(cfg: Config, b: Bus, id: LineId)
    requires WakeUpsOk(b) && b.agenda.events != []
    requires b.agenda.events[0].action.C64Settle? || b.agenda.events[0].action.DriveSettle?
    ensures LeftOrLookedAt(cfg, b, RunNext(cfg, b), id)
  {
    var p, a := Popped(b), b.agenda.events[0].action;
    PoppedWakes(b);
    hide Settle, LookedAt;
    var m := if a.C64Settle? then p.(host := a.host) else p.(drive := a.drive);
    assert WakeUpsOk(m);
    hide WakeUpsOk;
    SettleLooks(cfg, b, m, id);
  }

  lemma RunNextLooks(cfg: Config, b: Bus, id: LineId)
    requires WakeUpsOk(b) && b.agenda.events != []
    ensures LeftOrLookedAt(cfg, b, RunNext(cfg, b), id)
  {
    hide WakeUpsOk, Settle, Resolve, LookedAt;
    match b.agenda.events[0].action
    case C64Settle(_) => PullsLook(cfg, b, id);
    case DriveSettle(_) => PullsLook(cfg, b, id);
    case Propagate =>
    case HostApply =>
    case RiseReeval(i, g) => WakeUpLooks(cfg, b, i, g, id);
  }

  lemma MoveLooks(cfg: Config, w: World, b: Bus, b': Bus, id: LineId)
    requires cfg.driveRate > 0 && Inv(cfg, b) && WakeUpsOk(b) && Moves(cfg, w, b, b')
    ensures (LineOf(b'.model, id) == LineOf(b.model, id) && Wanted(b', id) == Wanted(b, id))
         || (LookedAt(cfg, b, b', id) && b' == RunNext(cfg, b) && Due(b) && b'.t == b.t)
  {
    hide LookedAt, RunNext, Inv, WakeUpsOk, TickDrive, TickC64;
    TicksLeaveLines(cfg, w, b);
    if Due(b) && b' == RunNext(cfg, b) {
      RunNextLooks(cfg, b, id);
    }
  }

  /** The clocks' ticks look at no line. */
  lemma TicksLeaveLines(cfg: Config, w: World, b: Bus)
    requires cfg.driveRate > 0
    ensures var d, c := TickDrive(cfg, w, b), TickC64(cfg, w, b);
            && d.model == b.model && d.host == b.host && d.drive == b.drive
            && c.model == b.model && c.host == b.host && c.drive == b.drive
  {
    hide DrivePeriod, Inserted;
  }

  lemma LookKeepsFall(cfg: Config, b: Bus, b': Bus, id: LineId)
    requires cfg.modelled && LookedAt(cfg, b, b', id) && !LineOf(b'.model, id).high
    ensures LineOf(b'.model, id).lowSince == if LineOf(b.model, id).high then b.t.now else LineOf(b.model, id).lowSince
    ensures Wanted(b', id) && !cfg.solver ==> b.t.now < Earliest(cfg, LineOf(b'.model, id), id)
  {
    hide Resolve;
  }

  // ---- the last fall ------------------------------------------------------------------------------------

  /** High at `k`, and low ever since. */
  ghost predicate LowSince(bs: seq<Bus>, k: nat, n: nat, id: LineId)
    requires k < n < |bs|
  {
    LineOf(bs[k].model, id).high && forall i :: k < i <= n ==> !LineOf(bs[i].model, id).high
  }

  /** A low line remembers the unit of its last fall. */
  lemma {:induction false} FallIsRemembered(cfg: Config, w: World, bs: seq<Bus>, k: nat, n: nat, id: LineId)
    requires cfg.driveRate > 0 && cfg.modelled && Timeline(cfg, w, bs) && k < n < |bs| && LowSince(bs, k, n, id)
    ensures LineOf(bs[n].model, id).lowSince == bs[k + 1].t.now
    decreases n
  {
    hide Inv, WakeUpsOk, Moves, LookedAt;
    if n > k + 1 {
      FallIsRemembered(cfg, w, bs, k, n - 1, id);
    }
    assert Moves(cfg, w, bs[n - 1], bs[n]);
    MoveLooks(cfg, w, bs[n - 1], bs[n], id);
    if LookedAt(cfg, bs[n - 1], bs[n], id) {
      LookKeepsFall(cfg, bs[n - 1], bs[n], id);
    }
  }

  // ---- the rise -------------------------------------------------------------------------------------------

  /** Released at `r` and wanted high ever since. */
  ghost predicate ReleasedSince(bs: seq<Bus>, r: nat, n: nat, id: LineId)
    requires 0 < r <= n < |bs|
  {
    !Wanted(bs[r - 1], id) && forall i :: r <= i <= n ==> Wanted(bs[i], id)
  }

  function Later(a: nat, b: nat): nat {
    if a < b then b else a
  }

  lemma LineFacts(cfg: Config, b: Bus, id: LineId)
    requires Inv(cfg, b)
    ensures var line := LineOf(b.model, id);
            && (line.high ==> Wanted(b, id))
            && (Wanted(b, id) && !line.high && !cfg.solver ==> b.t.now <= Earliest(cfg, line, id))
  {
    assert LineOk(cfg, b, id);
    hide Resolve;
    if Wanted(b, id) && !LineOf(b.model, id).high && !cfg.solver {
      NoLostWakeUp(cfg, b, id);
    }
  }

  /** Without the analog solver a released line that is not pulled again rises exactly when both its release
      has reached the bus and its minimum pulse and release delay since the fall are over. */
  lemma RisesExactly(cfg: Config, w: World, bs: seq<Bus>, k: nat, r: nat, n: nat, id: LineId)
    requires cfg.driveRate > 0 && cfg.modelled && !cfg.solver && Timeline(cfg, w, bs)
    requires k + 1 < n < |bs| && LowSince(bs, k, n - 1, id) && LineOf(bs[n].model, id).high
    requires k < r <= n && ReleasedSince(bs, r, n, id)
    ensures bs[n].t.now == Later(bs[r].t.now, bs[k + 1].t.now + cfg.minLow(id) + cfg.release(id))
  {
    hide Inv, WakeUpsOk, Moves;
    FallIsRemembered(cfg, w, bs, k, n - 1, id);
    assert Moves(cfg, w, bs[n - 1], bs[n]);
    RiseStep(cfg, w, bs[n - 1], bs[n], id);
    if n > r {
      ReleaseWaits(cfg, w, bs, k, r, n, id);
    }
  }

  /** The move that raises a line. */
  lemma RiseStep(cfg: Config, w: World, b: Bus, b': Bus, id: LineId)
    requires cfg.driveRate > 0 && cfg.modelled && !cfg.solver && Inv(cfg, b) && WakeUpsOk(b) && Moves(cfg, w, b, b')
    requires !LineOf(b.model, id).high && LineOf(b'.model, id).high
    ensures b'.t == b.t && Earliest(cfg, LineOf(b.model, id), id) <= b.t.now
    ensures Wanted(b, id) ==> b.t.now == Earliest(cfg, LineOf(b.model, id), id)
  {
    MoveLooks(cfg, w, b, b', id);
    hide LookedAt, WakeUpsOk, Moves, RunNext, Inv;
    RiseIsExact(cfg, b, id);
  }

  /** Released too early to rise at once, the line is still held by its times. */
  lemma ReleaseWaits(cfg: Config, w: World, bs: seq<Bus>, k: nat, r: nat, n: nat, id: LineId)
    requires cfg.driveRate > 0 && cfg.modelled && !cfg.solver && Timeline(cfg, w, bs)
    requires k < r < n < |bs| && LowSince(bs, k, n - 1, id) && ReleasedSince(bs, r, n, id)
    ensures bs[r].t.now < bs[k + 1].t.now + cfg.minLow(id) + cfg.release(id)
  {
    FallIsRemembered(cfg, w, bs, k, r, id);
    assert Moves(cfg, w, bs[r - 1], bs[r]);
    MoveLooks(cfg, w, bs[r - 1], bs[r], id);
    hide Inv, WakeUpsOk, Moves, LookedAt, RunNext;
    LookKeepsFall(cfg, bs[r - 1], bs[r], id);
  }

  /** It is never late: while a released line is low, its time has not passed. */
  lemma NeverLate(cfg: Config, w: World, bs: seq<Bus>, k: nat, n: nat, id: LineId)
    requires cfg.driveRate > 0 && cfg.modelled && !cfg.solver && Timeline(cfg, w, bs)
    requires k < n < |bs| && LowSince(bs, k, n, id) && Wanted(bs[n], id)
    ensures bs[n].t.now <= bs[k + 1].t.now + cfg.minLow(id) + cfg.release(id)
  {
    FallIsRemembered(cfg, w, bs, k, n, id);
    LineFacts(cfg, bs[n], id);
    hide Inv, WakeUpsOk, Moves;
  }

  // ---- the main loop is such a run --------------------------------------------------------------------------

  ghost predicate Connected(cfg: Config, w: World, b: Bus, b': Bus)
    requires cfg.driveRate > 0
  {
    exists bs: seq<Bus> :: Timeline(cfg, w, bs) && bs[0] == b && bs[|bs| - 1] == b'
  }

  lemma StayConnects(cfg: Config, w: World, b: Bus)
    requires cfg.driveRate > 0 && Inv(cfg, b) && WakeUpsOk(b)
    ensures Connected(cfg, w, b, b)
  {
    hide Inv, WakeUpsOk;
    assert Timeline(cfg, w, [b]);
    assert [b][0] == b;
  }

  /** Two runs in a row, or a run and one more move. */
  lemma MoveConnects(cfg: Config, w: World, a: Bus, b: Bus, c: Bus)
    requires cfg.driveRate > 0 && Connected(cfg, w, a, b) && Moves(cfg, w, b, c) && Inv(cfg, c) && WakeUpsOk(c)
    ensures Connected(cfg, w, a, c)
  {
    hide Inv, WakeUpsOk, Moves;
    var bs: seq<Bus> :| Timeline(cfg, w, bs) && bs[0] == a && bs[|bs| - 1] == b;
    var cs := bs + [c];
    forall i, j | 0 <= i && j == i + 1 < |cs| ensures Moves(cfg, w, cs[i], cs[j]) {
      if j < |bs| { assert cs[i] == bs[i] && cs[j] == bs[j]; }
    }
    assert Timeline(cfg, w, cs);
    assert cs[0] == a && cs[|cs| - 1] == c;
  }

  lemma {:induction false} DrainConnects(cfg: Config, w: World, a: Bus, b: Bus)
    requires cfg.driveRate > 0 && Inv(cfg, b) && WakeUpsOk(b) && Connected(cfg, w, a, b)
    ensures Connected(cfg, w, a, Drain(cfg, b))
    decreases DueSet(b)
  {
    hide Inv, RunNext, WakeUpsOk, Connected;
    if Due(b) {
      RunNextOk(cfg, b);
      RunNextShrinksDue(cfg, b);
      RunNextKeepsWakes(cfg, b);
      assert Moves(cfg, w, b, RunNext(cfg, b));
      MoveConnects(cfg, w, a, b, RunNext(cfg, b));
      DrainConnects(cfg, w, a, RunNext(cfg, b));
    }
  }

  lemma TimeConnects(cfg: Config, w: World, a: Bus, b: Bus)
    requires cfg.driveRate > 0 && LoopInv(cfg, b) && WakeUpsOk(b) && Connected(cfg, w, a, b)
    ensures var b' := b.(t := b.t.(now := NextTime(b)));
            Inv(cfg, b') && WakeUpsOk(b') && Connected(cfg, w, a, b')
  {
    AdvanceOk(cfg, b);
    var b' := b.(t := b.t.(now := NextTime(b)));
    assert WakeUpsOk(b');
    hide Inv, WakeUpsOk, Connected;
    if b.t.now == NextTime(b) {
      assert b' == b;
    } else {
      assert Idles(b, b') by { NothingDueBefore(cfg, b); }
      MoveConnects(cfg, w, a, b, b');
    }
  }

  lemma NothingDueBefore(cfg: Config, b: Bus)
    requires LoopInv(cfg, b) && b.t.now < NextTime(b)
    ensures !Due(b)
  {
    hide Inv;
  }

  lemma PassConnects(cfg: Config, w: World, a: Bus, b: Bus)
    requires cfg.driveRate > 0 && LoopInv(cfg, b) && WakeUpsOk(b) && Connected(cfg, w, a, b)
    ensures Connected(cfg, w, a, Pass(cfg, w, b))
  {
    TimeConnects(cfg, w, a, b);
    var b0 := b.(t := b.t.(now := NextTime(b)));
    hide Inv, WakeUpsOk, Connected, Drain, TickDrive, TickC64, DrivePeriod, NextTime, Moves;
    DrainKeepsWakes(cfg, b0);
    DrainConnects(cfg, w, a, b0);
    var b1 := Drain(cfg, b0);
    DriveTickConnects(cfg, w, a, b1);
    var b2 := if b1.t.nextDrive == b1.t.now then Drain(cfg, TickDrive(cfg, w, b1)) else b1;
    HostTickConnects(cfg, w, a, b2);
  }

  lemma DriveTickConnects(cfg: Config, w: World, a: Bus, b: Bus)
    requires cfg.driveRate > 0 && Inv(cfg, b) && !Due(b) && WakeUpsOk(b) && Connected(cfg, w, a, b)
    ensures var c := TickDrive(cfg, w, b);
            && Inv(cfg, c) && WakeUpsOk(c) && WakeUpsOk(Drain(cfg, c)) && Connected(cfg, w, a, Drain(cfg, c))
  {
    TickDriveOk(cfg, w, b);
    DeviceTicksKeepWakes(cfg, w, b);
    var c := TickDrive(cfg, w, b);
    assert Moves(cfg, w, b, c);
    hide Inv, WakeUpsOk, Connected, TickDrive, TickC64, Moves;
    MoveConnects(cfg, w, a, b, c);
    DrainKeepsWakes(cfg, c);
    DrainConnects(cfg, w, a, c);
  }

  lemma HostTickConnects(cfg: Config, w: World, a: Bus, b: Bus)
    requires cfg.driveRate > 0 && Inv(cfg, b) && !Due(b) && WakeUpsOk(b) && Connected(cfg, w, a, b)
    ensures var c := TickC64(cfg, w, b);
            Inv(cfg, c) && WakeUpsOk(c) && WakeUpsOk(Drain(cfg, c)) && Connected(cfg, w, a, Drain(cfg, c))
  {
    TickC64Ok(cfg, w, b);
    DeviceTicksKeepWakes(cfg, w, b);
    var c := TickC64(cfg, w, b);
    assert Moves(cfg, w, b, c);
    hide Inv, WakeUpsOk, Connected, TickDrive, TickC64, Moves;
    MoveConnects(cfg, w, a, b, c);
    DrainKeepsWakes(cfg, c);
    DrainConnects(cfg, w, a, c);
  }

  lemma {:induction false} PassesConnect(cfg: Config, w: World, a: Bus, b: Bus, target: nat)
    requires cfg.driveRate > 0 && LoopInv(cfg, b) && b.t.c64Ticks <= target && WakeUpsOk(b) && Connected(cfg, w, a, b)
    ensures Connected(cfg, w, a, Passes(cfg, w, b, target))
    decreases target - b.t.c64Ticks, b.t.nextC64 - NextTime(b)
  {
    hide Inv, WakeUpsOk, Connected;
    if b.t.c64Ticks != target {
      PassConnects(cfg, w, a, b);
      PassKeepsWakes(cfg, w, b);
      var b' := Pass(cfg, w, b);
      PassedMovesOn(cfg, b');
      PassesConnect(cfg, w, a, b', target);
    }
  }

  lemma {:induction false} TicksConnect(cfg: Config, w: World, b: Bus, n: nat)
    requires cfg.driveRate > 0 && LoopInv(cfg, b) && WakeUpsOk(b)
    ensures Connected(cfg, w, b, Ticks(cfg, w, b, n)) && WakeUpsOk(Ticks(cfg, w, b, n))
  {
    hide LoopInv, WakeUpsOk, Connected, TickHalfCycle, Passed;
    if n == 0 {
      assert Inv(cfg, b) by { LoopIsGood(cfg, b); }
      StayConnects(cfg, w, b);
    } else {
      TicksConnect(cfg, w, b, n - 1);
      HalfCycleConnects(cfg, w, b, Ticks(cfg, w, b, n - 1));
    }
  }

  lemma LoopIsGood(cfg: Config, b: Bus)
    requires LoopInv(cfg, b)
    ensures Inv(cfg, b)
  {
  }

  /** From power-on, any number of ticks of any host and devices is one such run. */
  lemma TicksAreATimeline(cfg: Config, w: World, host: HostPulls, devices: DrivePulls, n: nat)
    requires cfg.driveRate > 0
    ensures LoopInv(cfg, Boot(host, devices))
    ensures Connected(cfg, w, Boot(host, devices), Ticks(cfg, w, Boot(host, devices), n))
  {
    BootOk(cfg, host, devices);
    assert WakeUpsOk(Boot(host, devices));
    hide *;
    TicksConnect(cfg, w, Boot(host, devices), n);
  }

  lemma HalfCycleConnects(cfg: Config, w: World, a: Bus, b: Bus)
    requires cfg.driveRate > 0 && LoopInv(cfg, b) && WakeUpsOk(b) && Connected(cfg, w, a, b)
    ensures Connected(cfg, w, a, TickHalfCycle(cfg, w, b)) && WakeUpsOk(TickHalfCycle(cfg, w, b))
  {
    hide LoopInv, WakeUpsOk, Connected, Passes, Passed;
    PassesConnect(cfg, w, a, b, b.t.c64Ticks + 1);
    PassesKeepWakes(cfg, w, b, b.t.c64Ticks + 1);
  }
}
