/** The bus left to itself: when neither clock ticks any more, what is pending runs out, and the bus ends
    at the wired AND of the pulls that were under way. */
module IecBusConvergence {
  import opened IecBus
  import opened Subsets

  // ---- wake-ups of one generation --------------------------------------------------------------------

  /** No wake-up carries a generation its line has not reached, and the wake-up of a waiting line's
      current generation is the one it waits for. */
  ghost predicate WakeUpsOk(b: Bus) {
    forall e :: e in b.agenda.events && e.action.RiseReeval? ==> WakeUpOk(b.model, e)
  }

  predicate WakeUpOk(m: LineSet, e: Event)
    requires e.action.RiseReeval?
  {
    var line := LineOf(m, e.action.line);
    e.action.generation <= line.generation
        && (line.pending && e.action.generation == line.generation ==> e.when == line.when)
  }

  predicate IsSettle(a: Action) {
    a.C64Settle? || a.DriveSettle?
  }

  /** The host pulls after everything under way has arrived. */
  function Replay(events: seq<Event>, host: HostPulls): HostPulls {
    if events == [] then host
    else Replay(events[1..], if events[0].action.C64Settle? then events[0].action.host else host)
  }

  /** From `b` to `b'` only notices and wake-ups are posted. */
  ghost predicate Notices(b: Bus, b': Bus) {
    && b'.host == b.host && b'.drive == b.drive && b'.t == b.t
    && (forall e: Event :: IsSettle(e.action) ==> (e in b'.agenda.events <==> e in b.agenda.events))
    && (forall h: HostPulls :: Replay(b'.agenda.events, h) == Replay(b.agenda.events, h))
  }

  lemma {:induction false} InsertedNotice(events: seq<Event>, e: Event, h: HostPulls)
    ensures forall d :: d in Inserted(events, e) <==> d in events || d == e
    ensures !e.action.C64Settle? ==> Replay(Inserted(events, e), h) == Replay(events, h)
  {
    var r := Inserted(events, e);
    if events == [] || Before(e, events[0]) {
      assert r[1..] == events;
    } else {
      InsertedNotice(events[1..], e, if events[0].action.C64Settle? then events[0].action.host else h);
      assert r[1..] == Inserted(events[1..], e);
      assert events == [events[0]] + events[1..];
    }
  }

  lemma PostNotice(b: Bus, when: nat, action: Action)
    requires !IsSettle(action)
    ensures Notices(b, Post(b, when, action))
    ensures forall d :: d in Post(b, when, action).agenda.events <==>
              d in b.agenda.events || d == Event(when, b.agenda.nextSerial, action)
  {
    forall h ensures Replay(Post(b, when, action).agenda.events, h) == Replay(b.agenda.events, h) {
      InsertedNotice(b.agenda.events, Event(when, b.agenda.nextSerial, action), h);
    }
    InsertedNotice(b.agenda.events, Event(when, b.agenda.nextSerial, action), b.host);
  }

  // ---- one look at one line ----------------------------------------------------------------------------

  function NextLine(cfg: Config, line: Line, id: LineId, desired: bool, now: nat, settles: nat): Line {
    if !cfg.modelled then line.(high := desired, lowSince := if desired then line.lowSince else now)
    else if !desired then Lowered(line, now)
    else if line.high then line
    else if now < Earliest(cfg, line, id) then Waiting(line, Earliest(cfg, line, id), 0)
    else if Slew(cfg, line, id, now, settles) > 0
    then Waiting(line, now + Slew(cfg, line, id, now, settles), Elapsed(line, now) + 1)
    else Raised(line)
  }

  function Waiting(line: Line, when: nat, granted: nat): Line {
    if line.pending && line.when == when then line
    else line.(pending := true, when := when, generation := line.generation + 1, granted := granted)
  }

  lemma ScheduleRiseWakes(b: Bus, id: LineId, when: nat, granted: nat)
    requires WakeUpsOk(b)
    ensures var b' := ScheduleRise(b, id, when, granted);
            && WakeUpsOk(b') && Notices(b, b') && b'.settles == b.settles
            && b'.model == WithLine(b.model, id, Waiting(LineOf(b.model, id), when, granted))
  {
    hide Replay, Post;
    var line := LineOf(b.model, id);
    if !(line.pending && line.when == when) {
      var line' := Waiting(line, when, granted);
      PostNotice(SetLine(b, id, line'), when, RiseReeval(id, line'.generation));
      PostLeaves(SetLine(b, id, line'), when, RiseReeval(id, line'.generation));
    }
  }

  lemma PostLeaves(b: Bus, when: nat, action: Action)
    ensures Post(b, when, action) == b.(agenda := Post(b, when, action).agenda)
  {
  }

  lemma SetLineWakes(b: Bus, id: LineId, line: Line)
    requires WakeUpsOk(b) && line.generation >= LineOf(b.model, id).generation
    requires line.pending ==> line.generation == LineOf(b.model, id).generation && line.when == LineOf(b.model, id).when
                              && LineOf(b.model, id).pending
    ensures WakeUpsOk(SetLine(b, id, line)) && Notices(b, SetLine(b, id, line))
  {
    hide Replay;
  }

  lemma ApplyModelWakes(cfg: Config, b: Bus, id: LineId, desired: bool)
    requires WakeUpsOk(b)
    ensures var b' := ApplyModel(cfg, b, id, desired);
            && WakeUpsOk(b') && Notices(b, b') && b'.settles == b.settles
            && b'.model == WithLine(b.model, id, NextLine(cfg, LineOf(b.model, id), id, desired, b.t.now, b.settles))
  {
    hide WakeUpsOk, Notices, ScheduleRise, Waiting;
    var line, now := LineOf(b.model, id), b.t.now;
    if cfg.modelled && desired && !line.high && now < Earliest(cfg, line, id) {
      ScheduleRiseWakes(b, id, Earliest(cfg, line, id), 0);
    } else if cfg.modelled && desired && !line.high && Slew(cfg, line, id, now, b.settles) > 0 {
      ScheduleRiseWakes(b, id, now + Slew(cfg, line, id, now, b.settles), Elapsed(line, now) + 1);
    } else {
      SetLineWakes(b, id, NextLine(cfg, line, id, desired, now, b.settles));
      NoticesNothing(b);
    }
    hide Earliest;
  }

  lemma NoticesNothing(b: Bus)
    ensures Notices(b, b)
  {
    hide Replay;
  }

  lemma NoticesTwice(a: Bus, b: Bus, c: Bus)
    requires Notices(a, b) && Notices(b, c)
    ensures Notices(a, c)
  {
    hide Replay, IsSettle;
  }

  lemma ModelAllWakes(cfg: Config, b: Bus)
    requires WakeUpsOk(b)
    ensures var b' := ModelAll(cfg, b);
            && WakeUpsOk(b') && Notices(b, b') && b'.settles == b.settles
            && forall i :: LineOf(b'.model, i) == NextLine(cfg, LineOf(b.model, i), i, Wanted(b, i), b.t.now, b.settles)
  {
    var want := Resolve(b.host, b.drive);
    var b1 := ApplyModel(cfg, b, Atn, want.atn);
    ApplyModelWakes(cfg, b, Atn, want.atn);
    var b2 := ApplyModel(cfg, b1, Clk, want.clk);
    ApplyModelWakes(cfg, b1, Clk, want.clk);
    var b3 := ApplyModel(cfg, b2, Data, want.data);
    ApplyModelWakes(cfg, b2, Data, want.data);
    NoticesTwice(b, b1, b2);
    NoticesTwice(b, b2, b3);
    assert b1.t == b.t && b2.t == b.t by { hide Replay; }
    hide ApplyModel, WakeUpsOk, Notices, NextLine;
  }

  lemma CommitWakes(cfg: Config, b: Bus)
    requires WakeUpsOk(b)
    ensures var b' := Commit(cfg, b);
            WakeUpsOk(b') && Notices(b, b') && b'.model == b.model && b'.settles == b.settles
  {
    hide Replay;
    if ModelLevels(b.model) != b.levels {
      var b0 := b.(levels := ModelLevels(b.model));
      var b1 := PostAfter(b0, cfg.busToDrive, Propagate);
      PostNotice(b0, b0.t.now + AtLeastOne(cfg.busToDrive), Propagate);
      PostNotice(b1, b1.t.now + AtLeastOne(cfg.busToC64), HostApply);
    }
  }

  /** A settle moves every line as the timing model says and posts nothing but notices and wake-ups. */
  lemma SettleWakes(cfg: Config, b: Bus)
    requires WakeUpsOk(b)
    ensures var b' := Settle(cfg, b);
            && WakeUpsOk(b') && Notices(b, b') && b'.settles == b.settles + 1
            && forall i :: LineOf(b'.model, i) == NextLine(cfg, LineOf(b.model, i), i, Wanted(b, i), b.t.now, b.settles)
  {
    ModelAllWakes(cfg, b);
    var m := ModelAll(cfg, b);
    var m' := m.(settles := m.settles + 1);
    assert WakeUpsOk(m') && Notices(m, m') by { hide Replay; }
    CommitWakes(cfg, m');
    NoticesTwice(b, m, m');
    NoticesTwice(b, m', Settle(cfg, b));
    hide ModelAll, Commit, WakeUpsOk, Notices, NextLine;
  }

  // ---- what an event uses up -----------------------------------------------------------------------------

  ghost function Settles(b: Bus): set<Event> {
    set e | e in b.agenda.events && IsSettle(e.action)
  }

  /** The solver is content after `patience` waits in a row for one rise: it then lets the line rise. */
  ghost predicate Content(cfg: Config, patience: nat) {
    !cfg.solver || forall id: LineId, k: nat, waits: nat :: waits >= patience ==> cfg.slew(id, k, waits) == 0
  }

  /** The looks a line may still wait for. */
  function LooksLeft(line: Line, patience: nat): nat {
    if !line.pending then 0 else if line.granted < patience then 1 + patience - line.granted else 1
  }

  function AllLooksLeft(m: LineSet, patience: nat): nat {
    LooksLeft(m.atn, patience) + LooksLeft(m.clk, patience) + LooksLeft(m.data, patience)
  }

  ghost function Size(b: Bus, patience: nat): (nat, nat, nat) {
    (|Settles(b)|, AllLooksLeft(b.model, patience), |b.agenda.events|)
  }

  predicate Less(a: (nat, nat, nat), b: (nat, nat, nat)) {
    a.0 < b.0 || (a.0 == b.0 && (a.1 < b.1 || (a.1 == b.1 && a.2 < b.2)))
  }

  /** An event brings the end nearer: it is a settle and none is posted; or it is a wake-up, and its line
      rises or has one wait less to go while none begins to wait; or it is gone without trace. */
  ghost predicate Nearer(b: Bus, b': Bus, patience: nat) {
    Less(Size(b', patience), Size(b, patience))
  }

  lemma PoppedReplay(b: Bus)
    requires b.agenda.events != []
    ensures var a := b.agenda.events[0].action;
            forall h: HostPulls :: Replay(b.agenda.events, h)
                == Replay(Popped(b).agenda.events, if a.C64Settle? then a.host else h)
  {
  }

  lemma PoppedWakes(b: Bus)
    requires WakeUpsOk(b) && b.agenda.events != []
    ensures WakeUpsOk(Popped(b))
  {
  }

  lemma PoppedSettles(cfg: Config, b: Bus, b': Bus)
    requires Inv(cfg, b) && Due(b) && Notices(Popped(b), b')
    ensures Settles(b') == Settles(b) - {b.agenda.events[0]}
    ensures b.agenda.events[0] in b.agenda.events
  {
    hide Replay;
    PopKeepsAgendaOk(b);
  }

  lemma SettleEventNearer(cfg: Config, b: Bus, m: Bus, patience: nat)
    requires Inv(cfg, b) && WakeUpsOk(b) && Due(b)
    requires var a := b.agenda.events[0].action;
             IsSettle(a) && m == (if a.C64Settle? then Popped(b).(host := a.host) else Popped(b).(drive := a.drive))
    ensures var b' := Settle(cfg, m);
            WakeUpsOk(b') && Nearer(b, b', patience)
                && Replay(b'.agenda.events, b'.host) == Replay(b.agenda.events, b.host)
  {
    PoppedWakes(b);
    assert WakeUpsOk(m);
    SettleWakes(cfg, m);
    PoppedReplay(b);
    hide Settle, WakeUpsOk, Replay;
    var b' := Settle(cfg, m);
    var s := Popped(b).(agenda := b'.agenda);
    assert Notices(Popped(b), s);
    PoppedSettles(cfg, b, s);
    assert Settles(b') == Settles(s);
    assert b.agenda.events[0] in Settles(b);
    ProperSubsetIsSmaller(Settles(b'), Settles(b));
  }

  /** The wake-up a line waits for comes when its time has come; the line then rises, or the solver puts
      the rise off once more. */
  lemma LiveWakeUpNearer(cfg: Config, b: Bus, id: LineId, g: nat, patience: nat)
    requires Inv(cfg, b) && WakeUpsOk(b) && Due(b) && Content(cfg, patience)
    requires b.agenda.events[0].action == RiseReeval(id, g)
    requires LineOf(b.model, id).pending && LineOf(b.model, id).generation == g
    ensures var b' := RunNext(cfg, b);
            && WakeUpsOk(b') && Nearer(b, b', patience)
            && Replay(b'.agenda.events, b'.host) == Replay(b.agenda.events, b.host)
  {
    var line, p := LineOf(b.model, id), Popped(b);
    var m := SetLine(p, id, line.(pending := false));
    PoppedWakes(b);
    SetLineWakes(p, id, line.(pending := false));
    SettleWakes(cfg, m);
    PoppedReplay(b);
    var b' := RunNext(cfg, b);
    assert b' == Settle(cfg, m);
    NoticesTwice(p, m, b');
    PoppedSettles(cfg, b, b');
    LiveLineAdvances(cfg, b, id, b', patience);
    hide Settle, WakeUpsOk, Replay, Notices, NextLine;
    assert Settles(b') == Settles(b);
    assert Notices(p, b');
    NoticesReplay(p, b');
  }

  lemma NoticesReplay(b: Bus, b': Bus)
    requires Notices(b, b')
    ensures b'.host == b.host && Replay(b'.agenda.events, b.host) == Replay(b.agenda.events, b.host)
  {
    hide Replay;
  }

  /** Its line then rises, or the solver puts the rise off once more; no other line starts to wait or gets
      more time. */
  lemma LiveLineAdvances(cfg: Config, b: Bus, id: LineId, b': Bus, patience: nat)
    requires Inv(cfg, b) && WakeUpsOk(b) && Due(b) && Content(cfg, patience)
    requires b.agenda.events[0].action == RiseReeval(id, LineOf(b.model, id).generation) && LineOf(b.model, id).pending
    requires forall i :: var line := if i == id then LineOf(b.model, i).(pending := false) else LineOf(b.model, i);
                         LineOf(b'.model, i) == NextLine(cfg, line, i, Wanted(b, i), b.t.now, b.settles)
    ensures AllLooksLeft(b'.model, patience) < AllLooksLeft(b.model, patience)
  {
    PopKeepsAgendaOk(b);
    assert b.agenda.events[0] in b.agenda.events;
    assert WakeUpOk(b.model, b.agenda.events[0]);
    hide Resolve, LooksLeft;
    forall i ensures i != id ==> LooksLeft(LineOf(b'.model, i), patience) <= LooksLeft(LineOf(b.model, i), patience) {
      assert LineOk(cfg, b, i);
      if i != id { OtherLine(cfg, b, i, LineOf(b'.model, i), patience); }
    }
    assert LineOk(cfg, b, id);
    OwnLine(cfg, b, id, LineOf(b'.model, id), patience);
    hide Inv, WakeUpsOk, NextLine, LineOk;
    LinesAddUp(b.model, b'.model, id, patience);
  }

  lemma LinesAddUp(m: LineSet, m': LineSet, id: LineId, patience: nat)
    requires forall i :: i != id ==> LooksLeft(LineOf(m', i), patience) <= LooksLeft(LineOf(m, i), patience)
    requires LooksLeft(LineOf(m', id), patience) < LooksLeft(LineOf(m, id), patience)
    ensures AllLooksLeft(m', patience) < AllLooksLeft(m, patience)
  {
    hide LooksLeft;
    assert LineOf(m, Atn) == m.atn && LineOf(m, Clk) == m.clk && LineOf(m, Data) == m.data;
    assert LineOf(m', Atn) == m'.atn && LineOf(m', Clk) == m'.clk && LineOf(m', Data) == m'.data;
  }

  lemma OtherLine(cfg: Config, b: Bus, i: LineId, line': Line, patience: nat)
    requires LineOk(cfg, b, i) && line' == NextLine(cfg, LineOf(b.model, i), i, Wanted(b, i), b.t.now, b.settles)
    ensures LooksLeft(line', patience) <= LooksLeft(LineOf(b.model, i), patience)
  {
    hide Live, Resolve;
  }

  lemma OwnLine(cfg: Config, b: Bus, id: LineId, line': Line, patience: nat)
    requires LineOk(cfg, b, id) && Content(cfg, patience)
    requires LineOf(b.model, id).pending && LineOf(b.model, id).when == b.t.now
    requires line' == NextLine(cfg, LineOf(b.model, id).(pending := false), id, Wanted(b, id), b.t.now, b.settles)
    ensures LooksLeft(line', patience) < LooksLeft(LineOf(b.model, id), patience)
  {
    hide Live, Resolve;
  }

  lemma GoneWithoutTrace(cfg: Config, b: Bus, b': Bus, patience: nat)
    requires Inv(cfg, b) && WakeUpsOk(b) && Due(b) && !IsSettle(b.agenda.events[0].action)
    requires b' == Popped(b).(deviceSees := b'.deviceSees, hostSees := b'.hostSees)
    ensures WakeUpsOk(b') && Nearer(b, b', patience)
    ensures Replay(b'.agenda.events, b'.host) == Replay(b.agenda.events, b.host)
  {
    PoppedWakes(b);
    PoppedReplay(b);
    hide Replay;
    assert Notices(Popped(b), b');
    PoppedSettles(cfg, b, b');
    assert b.agenda.events[0] !in Settles(b);
    assert b'.model == b.model;
  }

  lemma RunNextNearer(cfg: Config, b: Bus, patience: nat)
    requires Inv(cfg, b) && WakeUpsOk(b) && Due(b) && Content(cfg, patience)
    ensures var b' := RunNext(cfg, b);
            && WakeUpsOk(b') && Nearer(b, b', patience)
            && Replay(b'.agenda.events, b'.host) == Replay(b.agenda.events, b.host)
  {
    var p, a := Popped(b), b.agenda.events[0].action;
    hide Nearer, WakeUpsOk, Replay, Inv, Settle;
    match a
    case C64Settle(host) => SettleEventNearer(cfg, b, p.(host := host), patience);
    case DriveSettle(drive) => SettleEventNearer(cfg, b, p.(drive := drive), patience);
    case Propagate => GoneWithoutTrace(cfg, b, RunNext(cfg, b), patience);
    case HostApply => GoneWithoutTrace(cfg, b, RunNext(cfg, b), patience);
    case RiseReeval(id, g) =>
      if LineOf(b.model, id).pending && LineOf(b.model, id).generation == g {
        LiveWakeUpNearer(cfg, b, id, g, patience);
      } else {
        GoneWithoutTrace(cfg, b, RunNext(cfg, b), patience);
      }
  }

  // ---- running out -------------------------------------------------------------------------------------------

  /** Time moves to the next event. */
  function Jumped(b: Bus): Bus
    requires b.agenda.events != []
  {
    b.(t := b.t.(now := b.agenda.events[0].when))
  }

  lemma JumpKeeps(cfg: Config, b: Bus)
    requires Inv(cfg, b) && b.agenda.events != []
    ensures Inv(cfg, Jumped(b)) && Due(Jumped(b)) && (WakeUpsOk(b) ==> WakeUpsOk(Jumped(b)))
  {
    var head := b.agenda.events[0];
    var far := b.(t := b.t.(nextC64 := b.t.now + head.when, nextDrive := b.t.now + head.when));
    InvIgnoresTicks(cfg, b, far);
    assert head in b.agenda.events;
    hide Inv;
    assert b.t.now <= head.when by { AgendaAhead(cfg, b); }
    AdvanceOk(cfg, far);
    assert NextTime(far) == head.when;
    InvIgnoresTicks(cfg, far.(t := far.t.(now := head.when)), Jumped(b));
  }

  lemma AgendaAhead(cfg: Config, b: Bus)
    requires Inv(cfg, b) && b.agenda.events != []
    ensures b.t.now <= b.agenda.events[0].when
  {
    assert b.agenda.events[0] in b.agenda.events;
  }

  lemma JumpedSize(b: Bus, patience: nat)
    requires b.agenda.events != []
    ensures Size(Jumped(b), patience) == Size(b, patience)
  {
  }

  /** Runs everything pending, moving time from event to event. It ends although events post events: only
      a settle can make lines wait, no event posts a settle, and of the wake-ups that count each line takes
      at most one more than the solver's patience. */
  ghost function LeftAlone(cfg: Config, b: Bus, patience: nat): (r: Bus)
    requires Inv(cfg, b) && WakeUpsOk(b) && Content(cfg, patience)
    ensures Inv(cfg, r) && r.agenda.events == [] && r.devices == b.devices
    ensures r.host == Replay(b.agenda.events, b.host)
    decreases Size(b, patience).0, Size(b, patience).1, Size(b, patience).2
  {
    if b.agenda.events == [] then b
    else
      JumpKeeps(cfg, b);
      JumpedSize(b, patience);
      RunNextOk(cfg, Jumped(b));
      RunNextNearer(cfg, Jumped(b), patience);
      LeftAlone(cfg, RunNext(cfg, Jumped(b)), patience)
  }

  // ---- reachable states ------------------------------------------------------------------------------------------

  lemma RunNextKeepsWakes(cfg: Config, b: Bus)
    requires Inv(cfg, b) && WakeUpsOk(b) && Due(b)
    ensures WakeUpsOk(RunNext(cfg, b))
  {
    var p, a := Popped(b), b.agenda.events[0].action;
    PoppedWakes(b);
    match a
    case C64Settle(host) => assert WakeUpsOk(p.(host := host)); SettleWakes(cfg, p.(host := host)); hide Settle;
    case DriveSettle(drive) => assert WakeUpsOk(p.(drive := drive)); SettleWakes(cfg, p.(drive := drive)); hide Settle;
    case Propagate =>
    case HostApply =>
    case RiseReeval(id, g) =>
      var line := LineOf(p.model, id);
      SetLineWakes(p, id, line.(pending := false));
      SettleWakes(cfg, SetLine(p, id, line.(pending := false)));
      hide Settle;
  }

  lemma {:induction false} DrainKeepsWakes(cfg: Config, b: Bus)
    requires Inv(cfg, b) && WakeUpsOk(b)
    ensures WakeUpsOk(Drain(cfg, b))
    decreases DueSet(b)
  {
    hide Inv, RunNext, WakeUpsOk;
    if Due(b) {
      RunNextOk(cfg, b);
      RunNextShrinksDue(cfg, b);
      RunNextKeepsWakes(cfg, b);
      DrainKeepsWakes(cfg, RunNext(cfg, b));
    }
  }

  lemma {:induction false} InsertedMembers(events: seq<Event>, e: Event)
    ensures forall d :: d in Inserted(events, e) <==> d in events || d == e
  {
    InsertedNotice(events, e, HostPulls(false, false, false));
  }

  lemma DeviceTicksKeepWakes(cfg: Config, w: World, b: Bus)
    requires WakeUpsOk(b) && cfg.driveRate > 0
    ensures WakeUpsOk(TickDrive(cfg, w, b)) && WakeUpsOk(TickC64(cfg, w, b))
  {
    hide DrivePeriod;
    var pulls, post := w.devicePulls(b.t.driveTicks), w.after(b.t.c64Ticks);
    InsertedMembers(b.agenda.events, Event(b.t.now + AtLeastOne(cfg.driveToBus), b.agenda.nextSerial,
                                           DriveSettle(pulls)));
    InsertedMembers(b.agenda.events, Event(b.t.now + AtLeastOne(cfg.c64ToBus), b.agenda.nextSerial, C64Settle(post)));
  }

  lemma PassKeepsWakes(cfg: Config, w: World, b: Bus)
    requires LoopInv(cfg, b) && cfg.driveRate > 0 && WakeUpsOk(b)
    ensures WakeUpsOk(Pass(cfg, w, b))
  {
    AdvanceOk(cfg, b);
    var b0 := b.(t := b.t.(now := NextTime(b)));
    assert WakeUpsOk(b0);
    DrainKeepsWakes(cfg, b0);
    var b1 := Drain(cfg, b0);
    TickDriveOk(cfg, w, b1);
    DeviceTicksKeepWakes(cfg, w, b1);
    DrainKeepsWakes(cfg, TickDrive(cfg, w, b1));
    var b2 := if b1.t.nextDrive == b1.t.now then Drain(cfg, TickDrive(cfg, w, b1)) else b1;
    TickC64Ok(cfg, w, b2);
    DeviceTicksKeepWakes(cfg, w, b2);
    DrainKeepsWakes(cfg, TickC64(cfg, w, b2));
    hide Inv, WakeUpsOk, Drain, TickDrive, TickC64, DrivePeriod;
  }

  lemma {:induction false} PassesKeepWakes(cfg: Config, w: World, b: Bus, target: nat)
    requires LoopInv(cfg, b) && cfg.driveRate > 0 && b.t.c64Ticks <= target && WakeUpsOk(b)
    ensures WakeUpsOk(Passes(cfg, w, b, target))
    decreases target - b.t.c64Ticks, b.t.nextC64 - NextTime(b)
  {
    hide Inv, WakeUpsOk;
    if b.t.c64Ticks != target {
      PassKeepsWakes(cfg, w, b);
      var b' := Pass(cfg, w, b);
      PassedMovesOn(cfg, b');
      PassesKeepWakes(cfg, w, b', target);
    }
  }

  lemma {:induction false} TicksKeepWakes(cfg: Config, w: World, b: Bus, n: nat)
    requires LoopInv(cfg, b) && cfg.driveRate > 0 && WakeUpsOk(b)
    ensures WakeUpsOk(Ticks(cfg, w, b, n))
  {
    hide LoopInv, WakeUpsOk, Passed, TickHalfCycle;
    if n > 0 {
      TicksKeepWakes(cfg, w, b, n - 1);
      HalfCycleKeepsWakes(cfg, w, Ticks(cfg, w, b, n - 1));
    }
  }

  lemma HalfCycleKeepsWakes(cfg: Config, w: World, b: Bus)
    requires LoopInv(cfg, b) && cfg.driveRate > 0 && WakeUpsOk(b)
    ensures WakeUpsOk(TickHalfCycle(cfg, w, b))
  {
    hide LoopInv, WakeUpsOk, Passed, Passes;
    PassesKeepWakes(cfg, w, b, b.t.c64Ticks + 1);
  }

  /** Convergence: stop both clocks after any number of ticks of any host and devices. If the analog solver
      is off, or content after some number of waits in a row, however many, what is under way runs out after
      finitely many events, and leaves every line at the wired AND of the devices' current pulls and the host
      pulls last sent, with both ends seeing it. */
  lemma BusConverges(cfg: Config, w: World, host: HostPulls, devices: DrivePulls, n: nat, patience: nat)
    requires cfg.driveRate > 0 && Content(cfg, patience)
    ensures LoopInv(cfg, Boot(host, devices))
    ensures var b := Ticks(cfg, w, Boot(host, devices), n);
            && Inv(cfg, b) && WakeUpsOk(b)
            && var r := LeftAlone(cfg, b, patience);
               && r.agenda.events == []
               && r.levels == Resolve(Replay(b.agenda.events, b.host), b.devices)
               && r.deviceSees == r.levels && r.hostSees == r.levels
  {
    BootOk(cfg, host, devices);
    assert WakeUpsOk(Boot(host, devices));
    TicksKeepWakes(cfg, w, Boot(host, devices), n);
    var b := Ticks(cfg, w, Boot(host, devices), n);
    hide Ticks, Boot, WakeUpsOk, LeftAlone;
    QuietBusHasConverged(cfg, LeftAlone(cfg, b, patience));
  }
}
