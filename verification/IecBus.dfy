/** The serial bus as a discrete-event simulation: two clock domains, link delays, wired-AND lines and a
    timing model per line whose wake-ups are invalidated by a generation counter. */
module IecBus {
  import opened Division

  const C64_HALF_PERIOD := 1_000_000

  datatype LineId = Atn | Clk | Data

  datatype Levels = Levels(atn: bool, clk: bool, data: bool)

  datatype HostPulls = HostPulls(atn: bool, clk: bool, data: bool)

  datatype DrivePulls = DrivePulls(clk: bool, data: bool)

  /** The timing model's view of one line. `granted` counts the waits the analog solver has asked for since
      the minimum pulse and the release delay were over. */
  datatype Line = Line(high: bool, lowSince: nat, pending: bool, when: nat, generation: nat, granted: nat)

  datatype LineSet = LineSet(atn: Line, clk: Line, data: Line)

  datatype Action =
    | C64Settle(host: HostPulls)
    | DriveSettle(drive: DrivePulls)
    | Propagate
    | HostApply
    | RiseReeval(line: LineId, generation: nat)

  datatype Event = Event(when: nat, serial: nat, action: Action)

  datatype Clocks = Clocks(now: nat, nextC64: nat, nextDrive: nat, c64Ticks: nat, driveTicks: nat)

  /** Pending events in the order they are due, and, as history, those already run. */
  datatype Agenda = Agenda(events: seq<Event>, nextSerial: nat, ran: seq<Event>)

  datatype Bus = Bus(
    t: Clocks, agenda: Agenda, host: HostPulls, drive: DrivePulls, levels: Levels, model: LineSet,
    settles: nat, deviceSees: Levels, hostSees: Levels, devices: DrivePulls, hostPins: Levels)

  /** Rates, delays and line model. `slew` stands for the analog solver: the extra wait, if any, it asks
      for a line at a given settle; it is told how many waits it asked for have run out. */
  datatype Config = Config(
    c64Rate: nat, driveRate: nat,
    c64ToBus: nat, driveToBus: nat, busToC64: nat, busToDrive: nat,
    modelled: bool, minLow: LineId -> nat, release: LineId -> nat,
    solver: bool, slew: (LineId, nat, nat) -> nat)

  /** What the devices and the host do at each of their ticks. */
  datatype World = World(devicePulls: nat -> DrivePulls, before: nat -> HostPulls, after: nat -> HostPulls)

  // ---- events ------------------------------------------------------------------------------------

  predicate Before(a: Event, b: Event) {
    a.when < b.when || (a.when == b.when && a.serial < b.serial)
  }

  function Inserted(events: seq<Event>, e: Event): seq<Event> {
    if events == [] || Before(e, events[0]) then [e] + events
    else [events[0]] + Inserted(events[1..], e)
  }

  function Post(b: Bus, when: nat, action: Action): Bus {
    var e := Event(when, b.agenda.nextSerial, action);
    b.(agenda := b.agenda.(events := Inserted(b.agenda.events, e), nextSerial := b.agenda.nextSerial + 1))
  }

  function AtLeastOne(delay: nat): nat {
    if delay == 0 then 1 else delay
  }

  function PostAfter(b: Bus, delay: nat, action: Action): Bus {
    Post(b, b.t.now + AtLeastOne(delay), action)
  }

  // ---- lines -------------------------------------------------------------------------------------

  function LineOf(m: LineSet, id: LineId): Line {
    match id case Atn => m.atn case Clk => m.clk case Data => m.data
  }

  function WithLine(m: LineSet, id: LineId, line: Line): LineSet {
    match id case Atn => m.(atn := line) case Clk => m.(clk := line) case Data => m.(data := line)
  }

  function SetLine(b: Bus, id: LineId, line: Line): Bus {
    b.(model := WithLine(b.model, id, line))
  }

  /** A line is high when nobody pulls it; only the host drives ATN. */
  function Resolve(host: HostPulls, drive: DrivePulls): Levels {
    Levels(!host.atn, !(host.clk || drive.clk), !(host.data || drive.data))
  }

  function LevelOf(l: Levels, id: LineId): bool {
    match id case Atn => l.atn case Clk => l.clk case Data => l.data
  }

  function Wanted(b: Bus, id: LineId): bool {
    LevelOf(Resolve(b.host, b.drive), id)
  }

  function Earliest(cfg: Config, line: Line, id: LineId): nat {
    line.lowSince + cfg.minLow(id) + cfg.release(id)
  }

  /** Arranges for the line to be looked at again, unless that very look is already arranged. */
  function ScheduleRise(b: Bus, id: LineId, when: nat, granted: nat): Bus {
    var line := LineOf(b.model, id);
    if line.pending && line.when == when then b
    else
      var line' := line.(pending := true, when := when, generation := line.generation + 1, granted := granted);
      Post(SetLine(b, id, line'), when, RiseReeval(id, line'.generation))
  }

  function Lowered(line: Line, now: nat): Line {
    Line(false, if line.high then now else line.lowSince, false, line.when, line.generation + 1, 0)
  }

  function Raised(line: Line): Line {
    line.(high := true, pending := false, granted := 0)
  }

  /** The waits the solver asked for that have run out. */
  function Elapsed(line: Line, now: nat): nat {
    if line.granted > 0 && now < line.when then line.granted - 1 else line.granted
  }

  /** The further wait the solver asks for at this look. */
  function Slew(cfg: Config, line: Line, id: LineId, now: nat, settles: nat): nat {
    if cfg.solver then cfg.slew(id, settles, Elapsed(line, now)) else 0
  }

  /** One look of the timing model at one line. */
  function ApplyModel(cfg: Config, b: Bus, id: LineId, desired: bool): Bus {
    var line, now := LineOf(b.model, id), b.t.now;
    if !cfg.modelled then SetLine(b, id, line.(high := desired, lowSince := if desired then line.lowSince else now))
    else if !desired then SetLine(b, id, Lowered(line, now))
    else if line.high then b
    else if now < Earliest(cfg, line, id) then ScheduleRise(b, id, Earliest(cfg, line, id), 0)
    else if Slew(cfg, line, id, now, b.settles) > 0
    then ScheduleRise(b, id, now + Slew(cfg, line, id, now, b.settles), Elapsed(line, now) + 1)
    else SetLine(b, id, Raised(line))
  }

  function ModelLevels(m: LineSet): Levels {
    Levels(m.atn.high, m.clk.high, m.data.high)
  }

  /** New levels are committed and sent on to both ends. */
  function Commit(cfg: Config, b: Bus): Bus {
    var levels := ModelLevels(b.model);
    if levels == b.levels then b
    else PostAfter(PostAfter(b.(levels := levels), cfg.busToDrive, Propagate), cfg.busToC64, HostApply)
  }

  function ModelAll(cfg: Config, b: Bus): Bus {
    var want := Resolve(b.host, b.drive);
    ApplyModel(cfg, ApplyModel(cfg, ApplyModel(cfg, b, Atn, want.atn), Clk, want.clk), Data, want.data)
  }

  function Settle(cfg: Config, b: Bus): Bus {
    var m := ModelAll(cfg, b);
    Commit(cfg, m.(settles := m.settles + 1))
  }

  // ---- running events -----------------------------------------------------------------------------

  function Fire(cfg: Config, b: Bus, action: Action): Bus {
    match action
    case C64Settle(p) => Settle(cfg, b.(host := p))
    case DriveSettle(p) => Settle(cfg, b.(drive := p))
    case Propagate => b.(deviceSees := b.levels)
    case HostApply => b.(hostSees := b.levels)
    case RiseReeval(id, g) =>
      var line := LineOf(b.model, id);
      if !line.pending || line.generation != g then b
      else Settle(cfg, SetLine(b, id, line.(pending := false)))
  }

  predicate Due(b: Bus) {
    b.agenda.events != [] && b.agenda.events[0].when <= b.t.now
  }

  function Popped(b: Bus): Bus
    requires b.agenda.events != []
  {
    b.(agenda := b.agenda.(events := b.agenda.events[1..], ran := b.agenda.ran + [b.agenda.events[0]]))
  }

  function RunNext(cfg: Config, b: Bus): Bus
    requires b.agenda.events != []
  {
    Fire(cfg, Popped(b), b.agenda.events[0].action)
  }

  // ---- what is kept about the agenda ----------------------------------------------------------------

  ghost predicate Ordered(events: seq<Event>) {
    forall i, j :: 0 <= i < j < |events| ==> Before(events[i], events[j])
  }

  /** Everything pending lies at or after `now`, everything run before or at it; serials are unique. */
  ghost predicate AgendaOk(b: Bus) {
    && Ordered(b.agenda.events) && Ordered(b.agenda.ran)
    && (forall e :: e in b.agenda.events ==> b.t.now <= e.when && e.serial < b.agenda.nextSerial)
    && (forall e :: e in b.agenda.ran ==> e.when <= b.t.now)
    && (forall d, e :: d in b.agenda.ran && e in b.agenda.events ==> Before(d, e))
  }

  lemma {:induction false} InsertedOrdered(events: seq<Event>, e: Event)
    requires Ordered(events) && forall d :: d in events ==> d.serial < e.serial
    ensures Ordered(Inserted(events, e))
    ensures forall d :: d in Inserted(events, e) <==> d in events || d == e
  {
    if events != [] && !Before(e, events[0]) {
      var rest := Inserted(events[1..], e);
      InsertedOrdered(events[1..], e);
      assert events == [events[0]] + events[1..];
      forall d | d in rest ensures Before(events[0], d) {
        if d != e { var k :| 0 <= k < |events[1..]| && events[1..][k] == d; assert events[k + 1] == d; }
      }
    } else if events != [] {
      forall d | d in events ensures Before(e, d) {
        var k :| 0 <= k < |events| && events[k] == d;
        assert k > 0 ==> Before(events[0], events[k]);
      }
    }
  }

  lemma PostKeepsAgendaOk(b: Bus, when: nat, action: Action)
    requires AgendaOk(b) && when > b.t.now
    ensures var b' := Post(b, when, action);
            && AgendaOk(b') && b' == b.(agenda := b'.agenda)
            && (forall d ::
                  d in b'.agenda.events <==> d in b.agenda.events || d == Event(when, b.agenda.nextSerial, action))
  {
    InsertedOrdered(b.agenda.events, Event(when, b.agenda.nextSerial, action));
  }

  lemma PopKeepsAgendaOk(b: Bus)
    requires AgendaOk(b) && Due(b)
    ensures AgendaOk(Popped(b))
    ensures forall e :: e in Popped(b).agenda.events <==> e in b.agenda.events && e != b.agenda.events[0]
    ensures b.agenda.events[0].when == b.t.now
  {
    var events := b.agenda.events;
    assert events == [events[0]] + events[1..];
    assert events[0] in events;
    forall e | e in events[1..] ensures Before(events[0], e) {
      var k :| 0 <= k < |events[1..]| && events[1..][k] == e;
      assert events[k + 1] == e;
    }
  }

  // ---- what is kept about the lines -------------------------------------------------------------------

  /** The wake-up a line is counting on is really pending. */
  ghost predicate Live(b: Bus, id: LineId) {
    exists e :: e in b.agenda.events && e.when == LineOf(b.model, id).when
             && e.action == RiseReeval(id, LineOf(b.model, id).generation)
  }

  ghost predicate PendingOk(cfg: Config, b: Bus, id: LineId) {
    var line := LineOf(b.model, id);
    && line.lowSince <= b.t.now
    && (line.pending ==> Live(b, id) && !line.high && cfg.modelled && Earliest(cfg, line, id) <= line.when)
    && (line.pending && !cfg.solver ==> line.when == Earliest(cfg, line, id))
    && (line.granted > 0 ==> cfg.modelled && !line.high && Earliest(cfg, line, id) <= b.t.now)
  }

  /** A line is high only if wanted, and if wanted but low it is counting on a wake-up. */
  ghost predicate Follows(cfg: Config, b: Bus, id: LineId, desired: bool) {
    var line := LineOf(b.model, id);
    && (line.high ==> desired)
    && (line.pending <==> desired && !line.high)
  }

  ghost predicate LineOk(cfg: Config, b: Bus, id: LineId) {
    PendingOk(cfg, b, id) && Follows(cfg, b, id, Wanted(b, id)) && LevelOf(b.levels, id) == LineOf(b.model, id).high
  }

  /** `b'` is `b` with lines looked at: nothing but the model and new wake-ups, all in the future. */
  ghost predicate Looked(b: Bus, b': Bus) {
    && b' == b.(agenda := b'.agenda, model := b'.model)
    && b'.agenda.ran == b.agenda.ran
    && (forall e :: e in b.agenda.events ==> e in b'.agenda.events)
    && (forall e :: e in b'.agenda.events ==> e in b.agenda.events || (e.action.RiseReeval? && e.when > b.t.now))
  }

  lemma ScheduleRiseOk(cfg: Config, b: Bus, id: LineId, when: nat, granted: nat)
    requires AgendaOk(b) && when > b.t.now && cfg.modelled
    requires forall i :: PendingOk(cfg, b, i)
    requires var line := LineOf(b.model, id);
             && !line.high && Earliest(cfg, line, id) <= when && (!cfg.solver ==> when == Earliest(cfg, line, id))
             && (granted > 0 ==> Earliest(cfg, line, id) <= b.t.now)
    ensures var b' := ScheduleRise(b, id, when, granted);
            && AgendaOk(b') && Looked(b, b') && (forall i :: PendingOk(cfg, b', i))
            && b'.model == WithLine(b.model, id, LineOf(b'.model, id))
            && LineOf(b'.model, id).pending && !LineOf(b'.model, id).high
  {
    var line := LineOf(b.model, id);
    if !(line.pending && line.when == when) {
      var line' := line.(pending := true, when := when, generation := line.generation + 1, granted := granted);
      var m := SetLine(b, id, line');
      PostKeepsAgendaOk(m, when, RiseReeval(id, line'.generation));
      hide AgendaOk, Post, PendingOk;
      forall i ensures PendingOk(cfg, ScheduleRise(b, id, when, granted), i) {
        ScheduledKeepsPending(cfg, b, id, when, granted, i);
      }
    }
  }

  lemma ScheduledKeepsPending(cfg: Config, b: Bus, id: LineId, when: nat, granted: nat, i: LineId)
    requires AgendaOk(b) && when > b.t.now && cfg.modelled && PendingOk(cfg, b, id) && PendingOk(cfg, b, i)
    requires var line := LineOf(b.model, id);
             && !line.high && Earliest(cfg, line, id) <= when && (!cfg.solver ==> when == Earliest(cfg, line, id))
             && (granted > 0 ==> Earliest(cfg, line, id) <= b.t.now)
             && !(line.pending && line.when == when)
    ensures PendingOk(cfg, ScheduleRise(b, id, when, granted), i)
  {
    EarliestOfSame(cfg, id);
    hide Earliest;
    var line := LineOf(b.model, id);
    var line' := line.(pending := true, when := when, generation := line.generation + 1, granted := granted);
    var m := SetLine(b, id, line');
    PostKeepsAgendaOk(m, when, RiseReeval(id, line'.generation));
    var b' := ScheduleRise(b, id, when, granted);
    assert b' == Post(m, when, RiseReeval(id, line'.generation));
    hide Post, Live, AgendaOk, ScheduleRise;
    if i == id {
      NewWakeUpIsLive(b', Event(when, b.agenda.nextSerial, RiseReeval(id, line'.generation)), id);
    } else {
      if Live(b, i) { LiveStays(b, b', i); }
      SameLinePending(cfg, b, b', i);
    }
  }

  lemma SameLinePending(cfg: Config, b: Bus, b': Bus, i: LineId)
    requires PendingOk(cfg, b, i) && LineOf(b'.model, i) == LineOf(b.model, i) && b'.t == b.t
    requires Live(b, i) ==> Live(b', i)
    ensures PendingOk(cfg, b', i)
  {
    hide Live, Earliest;
  }

  lemma EarliestOfSame(cfg: Config, id: LineId)
    ensures forall l: Line, m: Line :: l.lowSince == m.lowSince ==> Earliest(cfg, l, id) == Earliest(cfg, m, id)
  {
  }

  lemma NewWakeUpIsLive(b: Bus, e: Event, id: LineId)
    requires e in b.agenda.events && e.when == LineOf(b.model, id).when
    requires e.action == RiseReeval(id, LineOf(b.model, id).generation)
    ensures Live(b, id)
  {
  }

  lemma LiveStays(b: Bus, b': Bus, id: LineId)
    requires Live(b, id) && LineOf(b'.model, id) == LineOf(b.model, id)
    requires forall e :: e in b.agenda.events ==> e in b'.agenda.events
    ensures Live(b', id)
  {
  }

  /** Setting a line to a state that counts on nothing leaves everybody's wake-ups in place. */
  lemma QuietLineKeepsPending(cfg: Config, b: Bus, id: LineId, line: Line)
    requires forall i :: PendingOk(cfg, b, i)
    requires line.lowSince <= b.t.now && ((!line.pending && line.granted == 0) || line == LineOf(b.model, id))
    ensures forall i :: PendingOk(cfg, SetLine(b, id, line), i)
  {
    var b' := SetLine(b, id, line);
    forall i ensures PendingOk(cfg, b', i) {
      assert PendingOk(cfg, b, i);
      assert i != id ==> LineOf(b'.model, i) == LineOf(b.model, i);
    }
  }

  /** What one look does: the line follows what is desired, and rises only when its time has come. */
  lemma ApplyModelOk(cfg: Config, b: Bus, id: LineId, desired: bool)
    requires AgendaOk(b) && forall i :: PendingOk(cfg, b, i)
    ensures var b' := ApplyModel(cfg, b, id, desired);
            && AgendaOk(b') && Looked(b, b') && (forall i :: PendingOk(cfg, b', i))
            && b'.model == WithLine(b.model, id, LineOf(b'.model, id))
            && Follows(cfg, b', id, desired)
            && (cfg.modelled && !LineOf(b.model, id).high && LineOf(b'.model, id).high
                ==> Earliest(cfg, LineOf(b.model, id), id) <= b.t.now)
  {
    hide AgendaOk, Looked, PendingOk, Follows;
    if Waits(cfg, b, id, desired) {
      WaitingLookOk(cfg, b, id, desired);
    } else {
      QuietLookOk(cfg, b, id, desired);
    }
  }

  /** The look leaves the line low to be looked at again. */
  predicate Waits(cfg: Config, b: Bus, id: LineId, desired: bool) {
    var line, now := LineOf(b.model, id), b.t.now;
    && cfg.modelled && desired && !line.high
    && (now < Earliest(cfg, line, id) || Slew(cfg, line, id, now, b.settles) > 0)
  }

  lemma WaitingLookOk(cfg: Config, b: Bus, id: LineId, desired: bool)
    requires AgendaOk(b) && (forall i :: PendingOk(cfg, b, i)) && Waits(cfg, b, id, desired)
    ensures var b' := ApplyModel(cfg, b, id, desired);
            && AgendaOk(b') && Looked(b, b') && (forall i :: PendingOk(cfg, b', i))
            && b'.model == WithLine(b.model, id, LineOf(b'.model, id))
            && Follows(cfg, b', id, desired) && !LineOf(b'.model, id).high
  {
    var line, now := LineOf(b.model, id), b.t.now;
    if now < Earliest(cfg, line, id) {
      ScheduleRiseOk(cfg, b, id, Earliest(cfg, line, id), 0);
    } else {
      ScheduleRiseOk(cfg, b, id, now + Slew(cfg, line, id, now, b.settles), Elapsed(line, now) + 1);
    }
    hide AgendaOk, Looked, PendingOk, ScheduleRise;
  }

  lemma QuietLookOk(cfg: Config, b: Bus, id: LineId, desired: bool)
    requires AgendaOk(b) && (forall i :: PendingOk(cfg, b, i)) && !Waits(cfg, b, id, desired)
    ensures var b' := ApplyModel(cfg, b, id, desired);
            && AgendaOk(b') && Looked(b, b') && (forall i :: PendingOk(cfg, b', i))
            && b'.model == WithLine(b.model, id, LineOf(b'.model, id))
            && Follows(cfg, b', id, desired)
            && (cfg.modelled && !LineOf(b.model, id).high && LineOf(b'.model, id).high
                ==> Earliest(cfg, LineOf(b.model, id), id) <= b.t.now)
  {
    assert PendingOk(cfg, b, id);
    var b' := ApplyModel(cfg, b, id, desired);
    assert b' == SetLine(b, id, LineOf(b'.model, id));
    QuietLineKeepsPending(cfg, b, id, LineOf(b'.model, id));
    hide Live, Ordered;
  }

  lemma LookedTwice(a: Bus, b: Bus, c: Bus)
    requires Looked(a, b) && Looked(b, c)
    ensures Looked(a, c)
  {
  }

  ghost predicate RiseAllowed(cfg: Config, before: Line, after: Line, id: LineId, now: nat) {
    cfg.modelled && !before.high && after.high ==> Earliest(cfg, before, id) <= now
  }

  lemma ModelAllOk(cfg: Config, b: Bus)
    requires AgendaOk(b) && forall i :: PendingOk(cfg, b, i)
    ensures var b' := ModelAll(cfg, b);
            && AgendaOk(b') && Looked(b, b') && (forall i :: PendingOk(cfg, b', i))
            && (forall i :: Follows(cfg, b', i, Wanted(b, i)))
            && (forall i :: RiseAllowed(cfg, LineOf(b.model, i), LineOf(b'.model, i), i, b.t.now))
  {
    hide ApplyModel, PendingOk, AgendaOk, Looked;
    var want := Resolve(b.host, b.drive);
    var b1 := ApplyModel(cfg, b, Atn, want.atn);
    ApplyModelOk(cfg, b, Atn, want.atn);
    var b2 := ApplyModel(cfg, b1, Clk, want.clk);
    ApplyModelOk(cfg, b1, Clk, want.clk);
    var b3 := ApplyModel(cfg, b2, Data, want.data);
    ApplyModelOk(cfg, b2, Data, want.data);
    LookedTwice(b, b1, b2);
    LookedTwice(b, b2, b3);
    LookedKeeps(b, b3);
    LookedKeeps(b, b1);
    LookedKeeps(b, b2);
    assert b3.model.atn == b1.model.atn && b3.model.clk == b2.model.clk;
    assert b1.model.clk == b.model.clk && b2.model.data == b.model.data;
  }

  lemma LookedKeeps(b: Bus, b': Bus)
    requires Looked(b, b')
    ensures b'.t == b.t && b'.host == b.host && b'.drive == b.drive && b'.levels == b.levels && b'.settles == b.settles
    ensures b'.deviceSees == b.deviceSees && b'.hostSees == b.hostSees && b'.devices == b.devices
  {
  }

  // ---- what is kept about the two ends ------------------------------------------------------------

  ghost predicate LatestDriveSettle(events: seq<Event>, e: Event) {
    e in events && e.action.DriveSettle? && forall d :: d in events && d.action.DriveSettle? ==> d == e || Before(d, e)
  }

  /** Replaying what is pending ends at the devices' current pulls. */
  ghost predicate DriveOk(cfg: Config, b: Bus) {
    && (forall e :: e in b.agenda.events && e.action.DriveSettle? ==> e.when <= b.t.now + AtLeastOne(cfg.driveToBus))
    && (forall e :: LatestDriveSettle(b.agenda.events, e) ==> e.action.drive == b.devices)
    && ((forall e :: e in b.agenda.events ==> !e.action.DriveSettle?) ==> b.drive == b.devices)
  }

  ghost predicate Pending(b: Bus, action: Action) {
    exists e :: e in b.agenda.events && e.action == action
  }

  /** Whoever does not see the bus as it is will be told. */
  ghost predicate SeenOk(b: Bus) {
    && (b.deviceSees == b.levels || Pending(b, Propagate))
    && (b.hostSees == b.levels || Pending(b, HostApply))
  }

  ghost predicate Inv(cfg: Config, b: Bus) {
    AgendaOk(b) && DriveOk(cfg, b) && SeenOk(b) && forall i :: LineOk(cfg, b, i)
  }

  /** Events other than drive settles do not matter to the replay. */
  lemma DriveOkIgnores(cfg: Config, b: Bus, b': Bus)
    requires DriveOk(cfg, b) && b'.devices == b.devices && b'.drive == b.drive && b'.t.now >= b.t.now
    requires forall e: Event :: e.action.DriveSettle? ==> (e in b'.agenda.events <==> e in b.agenda.events)
    ensures DriveOk(cfg, b')
  {
    forall e | LatestDriveSettle(b'.agenda.events, e) ensures e.action.drive == b'.devices {
      assert LatestDriveSettle(b.agenda.events, e);
    }
  }

  lemma LookedKeepsEnds(cfg: Config, b: Bus, b': Bus)
    requires Looked(b, b') && DriveOk(cfg, b) && SeenOk(b)
    ensures DriveOk(cfg, b') && SeenOk(b')
  {
    DriveOkIgnores(cfg, b, b');
    if Pending(b, Propagate) {
      var e :| e in b.agenda.events && e.action == Propagate;
      assert e in b'.agenda.events;
    }
    if Pending(b, HostApply) {
      var e :| e in b.agenda.events && e.action == HostApply;
      assert e in b'.agenda.events;
    }
  }

  /** Posting a message between the ends disturbs nothing and makes it pending. */
  lemma PostAfterOk(cfg: Config, b: Bus, delay: nat, action: Action)
    requires AgendaOk(b) && DriveOk(cfg, b) && !action.DriveSettle?
    requires forall i :: PendingOk(cfg, b, i)
    ensures var b' := PostAfter(b, delay, action);
            && AgendaOk(b') && DriveOk(cfg, b') && (forall i :: PendingOk(cfg, b', i))
            && Pending(b', action) && (forall a :: Pending(b, a) ==> Pending(b', a))
            && b' == b.(agenda := b'.agenda) && b'.agenda.ran == b.agenda.ran
            && (forall e :: e in b'.agenda.events ==> e in b.agenda.events || e.when > b.t.now)
  {
    var when := b.t.now + AtLeastOne(delay);
    PostKeepsAgendaOk(b, when, action);
    var b' := PostAfter(b, delay, action);
    DriveOkIgnores(cfg, b, b');
    assert Event(when, b.agenda.nextSerial, action) in b'.agenda.events;
    forall i ensures PendingOk(cfg, b', i) {
      PendingSurvives(cfg, b, b', i);
    }
    forall a | Pending(b, a) ensures Pending(b', a) {
      var e :| e in b.agenda.events && e.action == a;
      assert e in b'.agenda.events;
    }
  }

  lemma PendingSurvives(cfg: Config, b: Bus, b': Bus, id: LineId)
    requires PendingOk(cfg, b, id) && LineOf(b'.model, id) == LineOf(b.model, id) && b'.t.now >= b.t.now
    requires forall e :: e in b.agenda.events && e.action.RiseReeval? ==> e in b'.agenda.events
    ensures PendingOk(cfg, b', id)
  {
    if LineOf(b.model, id).pending {
      var e :| e in b.agenda.events && e.when == LineOf(b.model, id).when
            && e.action == RiseReeval(id, LineOf(b.model, id).generation);
      assert e in b'.agenda.events;
    }
  }

  /** Everything except the levels is in order; a commit settles those. */
  lemma CommitOk(cfg: Config, b: Bus)
    requires AgendaOk(b) && DriveOk(cfg, b) && SeenOk(b)
    requires forall i :: PendingOk(cfg, b, i) && Follows(cfg, b, i, Wanted(b, i))
    ensures var b' := Commit(cfg, b);
            && Inv(cfg, b') && b'.model == b.model && b'.t == b.t && b'.host == b.host && b'.drive == b.drive
            && b'.devices == b.devices && b'.agenda.ran == b.agenda.ran
            && (forall e :: e in b'.agenda.events ==> e in b.agenda.events || e.when > b.t.now)
  {
    hide PendingOk, AgendaOk, DriveOk, PostAfter;
    if ModelLevels(b.model) != b.levels {
      var b1 := b.(levels := ModelLevels(b.model));
      RelabelKeeps(cfg, b, b1);
      PostAfterOk(cfg, b1, cfg.busToDrive, Propagate);
      PostAfterOk(cfg, PostAfter(b1, cfg.busToDrive, Propagate), cfg.busToC64, HostApply);
    }
    var b' := Commit(cfg, b);
    forall i ensures LineOk(cfg, b', i) {
      assert Follows(cfg, b, i, Wanted(b, i));
    }
  }

  lemma RelabelKeeps(cfg: Config, b: Bus, b': Bus)
    requires b' == b.(levels := b'.levels, settles := b'.settles, deviceSees := b'.deviceSees, hostSees := b'.hostSees)
    ensures AgendaOk(b) ==> AgendaOk(b')
    ensures DriveOk(cfg, b) ==> DriveOk(cfg, b')
    ensures SeenOk(b) && b'.levels == b.levels && b'.deviceSees == b.deviceSees && b'.hostSees == b.hostSees
            ==> SeenOk(b')
    ensures forall i :: PendingOk(cfg, b, i) ==> PendingOk(cfg, b', i)
  {
  }

  /** Settling the bus restores the whole invariant, and raises no line before its time. */
  lemma SettleOk(cfg: Config, b: Bus)
    requires AgendaOk(b) && DriveOk(cfg, b) && SeenOk(b)
    requires forall i :: PendingOk(cfg, b, i)
    ensures var b' := Settle(cfg, b);
            && Inv(cfg, b') && b'.t == b.t && b'.host == b.host && b'.drive == b.drive && b'.devices == b.devices
            && b'.agenda.ran == b.agenda.ran
            && (forall e :: e in b'.agenda.events ==> e in b.agenda.events || e.when > b.t.now)
            && (forall i :: RiseAllowed(cfg, LineOf(b.model, i), LineOf(b'.model, i), i, b.t.now))
  {
    hide PendingOk, AgendaOk, DriveOk, ModelAll, Commit, RiseAllowed, Inv, SeenOk;
    ModelAllOk(cfg, b);
    var m := ModelAll(cfg, b);
    LookedKeepsEnds(cfg, b, m);
    var m' := m.(settles := m.settles + 1);
    RelabelKeeps(cfg, m, m');
    LookedKeeps(b, m);
    forall i ensures PendingOk(cfg, m', i) && Follows(cfg, m', i, Wanted(m', i)) {
      assert Follows(cfg, m, i, Wanted(b, i));
    }
    CommitOk(cfg, m');
  }

  // ---- running one event ----------------------------------------------------------------------------

  /** Taking an event off the agenda keeps every wake-up except possibly that event itself. */
  lemma PopKeepsPending(cfg: Config, b: Bus, id: LineId)
    requires AgendaOk(b) && Due(b) && PendingOk(cfg, b, id)
    requires b.agenda.events[0].action != RiseReeval(id, LineOf(b.model, id).generation)
    ensures PendingOk(cfg, Popped(b), id)
  {
    PopKeepsAgendaOk(b);
    if LineOf(b.model, id).pending {
      var e :| e in b.agenda.events && e.when == LineOf(b.model, id).when
            && e.action == RiseReeval(id, LineOf(b.model, id).generation);
      assert e in Popped(b).agenda.events;
    }
  }

  lemma PopKeepsSeen(b: Bus)
    requires AgendaOk(b) && Due(b) && SeenOk(b)
    ensures var a, b' := b.agenda.events[0].action, Popped(b);
            && (a != Propagate ==> b'.deviceSees == b'.levels || Pending(b', Propagate))
            && (a != HostApply ==> b'.hostSees == b'.levels || Pending(b', HostApply))
  {
    PopKeepsAgendaOk(b);
    if Pending(b, Propagate) {
      var e :| e in b.agenda.events && e.action == Propagate;
      assert e != b.agenda.events[0] ==> e in Popped(b).agenda.events;
    }
    if Pending(b, HostApply) {
      var e :| e in b.agenda.events && e.action == HostApply;
      assert e != b.agenda.events[0] ==> e in Popped(b).agenda.events;
    }
  }

  /** The replay ends where it ended before once the popped drive settle has been applied. */
  lemma PopKeepsDriveOk(cfg: Config, b: Bus)
    requires AgendaOk(b) && Due(b) && DriveOk(cfg, b)
    ensures var a := b.agenda.events[0].action;
            DriveOk(cfg, Popped(b).(drive := if a.DriveSettle? then a.drive else b.drive))
  {
    PopKeepsAgendaOk(b);
    var head, a := b.agenda.events[0], b.agenda.events[0].action;
    var b' := Popped(b).(drive := if a.DriveSettle? then a.drive else b.drive);
    forall e | LatestDriveSettle(b'.agenda.events, e) ensures e.action.drive == b'.devices {
      HeadIsFirst(b, e);
      assert LatestDriveSettle(b.agenda.events, e);
    }
    if (forall e :: e in b'.agenda.events ==> !e.action.DriveSettle?) && a.DriveSettle? {
      assert LatestDriveSettle(b.agenda.events, head);
    }
  }

  lemma HeadIsFirst(b: Bus, e: Event)
    requires AgendaOk(b) && Due(b) && e in Popped(b).agenda.events
    ensures e in b.agenda.events && Before(b.agenda.events[0], e)
  {
    var k :| 0 <= k < |b.agenda.events[1..]| && b.agenda.events[1..][k] == e;
    assert b.agenda.events[k + 1] == e;
  }

  /** What an event leaves untouched, and that whatever it posts lies ahead. */
  ghost predicate Ahead(b: Bus, b': Bus)
    requires b.agenda.events != []
  {
    && b'.t == b.t && b'.devices == b.devices
    && b'.agenda.ran == b.agenda.ran + [b.agenda.events[0]]
    && (forall e :: e in b'.agenda.events ==> (e in b.agenda.events && e != b.agenda.events[0]) || e.when > b.t.now)
  }

  lemma SettlingEventOk(cfg: Config, b: Bus, m: Bus)
    requires Inv(cfg, b) && Due(b)
    requires m == Popped(b).(host := m.host, drive := m.drive, model := m.model)
    requires var a := b.agenda.events[0].action;
             m.drive == (if a.DriveSettle? then a.drive else b.drive) && a != Propagate && a != HostApply
    requires forall i :: PendingOk(cfg, m, i)
    ensures Inv(cfg, Settle(cfg, m)) && Ahead(b, Settle(cfg, m))
    ensures forall i :: RiseAllowed(cfg, LineOf(m.model, i), LineOf(Settle(cfg, m).model, i), i, b.t.now)
    ensures Settle(cfg, m).host == m.host && Settle(cfg, m).drive == m.drive
  {
    PoppedIsReady(cfg, b, m);
    PopKeepsAgendaOk(b);
    hide Settle, PendingOk, LineOk, RiseAllowed, DriveOk, SeenOk, AgendaOk, Inv;
    SettleOk(cfg, m);
  }

  lemma PoppedIsReady(cfg: Config, b: Bus, m: Bus)
    requires Inv(cfg, b) && Due(b)
    requires m == Popped(b).(host := m.host, drive := m.drive, model := m.model)
    requires var a := b.agenda.events[0].action;
             m.drive == (if a.DriveSettle? then a.drive else b.drive) && a != Propagate && a != HostApply
    ensures AgendaOk(m) && DriveOk(cfg, m) && SeenOk(m)
  {
    hide LineOk, DriveOk, AgendaOk, SeenOk;
    PopKeepsAgendaOk(b);
    PopKeepsDriveOk(cfg, b);
    PopKeepsSeen(b);
    hide Inv;
    assert Popped(b).(drive := m.drive).agenda == m.agenda;
    DriveOkIgnores(cfg, Popped(b).(drive := m.drive), m);
    PoppedParts(b, m);
  }

  /** The line models and the host's pulls do not matter to the agenda or to what both ends see. */
  lemma PoppedParts(b: Bus, m: Bus)
    requires b.agenda.events != [] && AgendaOk(Popped(b))
    requires m == Popped(b).(host := m.host, drive := m.drive, model := m.model)
    requires Popped(b).deviceSees == Popped(b).levels || Pending(Popped(b), Propagate)
    requires Popped(b).hostSees == Popped(b).levels || Pending(Popped(b), HostApply)
    ensures AgendaOk(m) && SeenOk(m)
  {
  }

  lemma RunNextOk(cfg: Config, b: Bus)
    requires Inv(cfg, b) && Due(b)
    ensures var b' := RunNext(cfg, b);
            && Inv(cfg, b') && Ahead(b, b')
            && (forall i :: RiseAllowed(cfg, LineOf(b.model, i), LineOf(b'.model, i), i, b.t.now))
  {
    hide Settle, PendingOk, Follows;
    var p, a := Popped(b), b.agenda.events[0].action;
    PopKeepsAgendaOk(b);
    match a
    case C64Settle(pulls) =>
      forall i ensures PendingOk(cfg, p.(host := pulls), i) {
        assert LineOk(cfg, b, i);
        PopKeepsPending(cfg, b, i);
        PendingIgnoresPulls(cfg, p, p.(host := pulls), i);
      }
      SettlingEventOk(cfg, b, p.(host := pulls));
    case DriveSettle(pulls) =>
      forall i ensures PendingOk(cfg, p.(drive := pulls), i) {
        assert LineOk(cfg, b, i);
        PopKeepsPending(cfg, b, i);
        PendingIgnoresPulls(cfg, p, p.(drive := pulls), i);
      }
      SettlingEventOk(cfg, b, p.(drive := pulls));
    case RiseReeval(id, g) => RunRiseReevalOk(cfg, b, id, g);
    case Propagate => RunTellOk(cfg, b);
    case HostApply => RunTellOk(cfg, b);
  }

  lemma PendingIgnoresPulls(cfg: Config, b: Bus, b': Bus, id: LineId)
    requires PendingOk(cfg, b, id) && b' == b.(host := b'.host, drive := b'.drive)
    ensures PendingOk(cfg, b', id)
  {
  }

  lemma RunTellOk(cfg: Config, b: Bus)
    requires Inv(cfg, b) && Due(b) && b.agenda.events[0].action in {Propagate, HostApply}
    ensures Inv(cfg, RunNext(cfg, b)) && Ahead(b, RunNext(cfg, b)) && RunNext(cfg, b).model == b.model
  {
    hide PendingOk;
    var b' := RunNext(cfg, b);
    PopKeepsAgendaOk(b);
    PopKeepsDriveOk(cfg, b);
    PopKeepsSeen(b);
    RelabelKeeps(cfg, Popped(b), b');
    assert SeenOk(b') by {
      if Pending(Popped(b), Propagate) {
        var e :| e in Popped(b).agenda.events && e.action == Propagate;
        assert e in b'.agenda.events;
      }
      if Pending(Popped(b), HostApply) {
        var e :| e in Popped(b).agenda.events && e.action == HostApply;
        assert e in b'.agenda.events;
      }
    }
    forall i ensures LineOk(cfg, b', i) {
      assert LineOk(cfg, b, i);
      PopKeepsPending(cfg, b, i);
    }
  }

  /** A wake-up whose line still counts on it. */
  lemma RunLiveReevalOk(cfg: Config, b: Bus, id: LineId, g: nat)
    requires Inv(cfg, b) && Due(b) && b.agenda.events[0].action == RiseReeval(id, g)
    requires LineOf(b.model, id).pending && LineOf(b.model, id).generation == g
    ensures var b' := RunNext(cfg, b);
            && Inv(cfg, b') && Ahead(b, b')
            && (forall i :: RiseAllowed(cfg, LineOf(b.model, i), LineOf(b'.model, i), i, b.t.now))
  {
    hide Settle, Live, Ahead;
    var line, p := LineOf(b.model, id), Popped(b);
    assert LineOk(cfg, b, id);
    var m := SetLine(p, id, line.(pending := false));
    forall i ensures PendingOk(cfg, m, i) {
      assert LineOk(cfg, b, i);
      if i != id {
        PopKeepsPending(cfg, b, i);
        PendingSurvives(cfg, p, m, i);
      }
    }
    hide PendingOk, LineOk, Inv, RiseAllowed;
    SettlingEventOk(cfg, b, m);
    ForgottenWait(cfg, b, m, id);
  }

  lemma ForgottenWait(cfg: Config, b: Bus, m: Bus, id: LineId)
    requires m.model == WithLine(b.model, id, LineOf(b.model, id).(pending := false))
    ensures forall i, after: Line, now ::
              RiseAllowed(cfg, LineOf(m.model, i), after, i, now) ==>
              RiseAllowed(cfg, LineOf(b.model, i), after, i, now)
  {
  }

  /** A wake-up that has been overtaken. */
  lemma RunStaleReevalOk(cfg: Config, b: Bus, id: LineId, g: nat)
    requires Inv(cfg, b) && Due(b) && b.agenda.events[0].action == RiseReeval(id, g)
    requires !(LineOf(b.model, id).pending && LineOf(b.model, id).generation == g)
    ensures RunNext(cfg, b) == Popped(b) && Inv(cfg, Popped(b)) && Ahead(b, Popped(b))
  {
    hide Settle, Live, Resolve;
    var p := Popped(b);
    PopKeepsAgendaOk(b);
    forall i ensures LineOk(cfg, p, i) {
      assert LineOk(cfg, b, i);
      if i != id || LineOf(b.model, id).pending {
        PopKeepsPending(cfg, b, i);
      }
    }
    PopKeepsDriveOk(cfg, b);
    PopKeepsSeen(b);
    hide AgendaOk, DriveOk, SeenOk, LineOk, Pending;
  }

  lemma RunRiseReevalOk(cfg: Config, b: Bus, id: LineId, g: nat)
    requires Inv(cfg, b) && Due(b) && b.agenda.events[0].action == RiseReeval(id, g)
    ensures var b' := RunNext(cfg, b);
            && Inv(cfg, b') && Ahead(b, b')
            && (forall i :: RiseAllowed(cfg, LineOf(b.model, i), LineOf(b'.model, i), i, b.t.now))
  {
    hide Inv, Ahead, RunNext;
    if LineOf(b.model, id).pending && LineOf(b.model, id).generation == g {
      RunLiveReevalOk(cfg, b, id, g);
    } else {
      RunStaleReevalOk(cfg, b, id, g);
    }
  }

  // ---- timing of the lines ----------------------------------------------------------------------------

  /** A rise is never early and never while the line is pulled; without the analog solver a line that was
      already waiting rises at the very unit its minimum pulse and release delay are over. */
  lemma RiseIsExact(cfg: Config, b: Bus, id: LineId)
    requires Inv(cfg, b) && Due(b)
    ensures cfg.modelled && !LineOf(b.model, id).high && LineOf(RunNext(cfg, b).model, id).high ==>
            && Earliest(cfg, LineOf(b.model, id), id) <= b.t.now
            && Wanted(RunNext(cfg, b), id)
            && (!cfg.solver && Wanted(b, id) ==> b.t.now == Earliest(cfg, LineOf(b.model, id), id))
  {
    hide RunNext;
    RunNextOk(cfg, b);
    assert LineOk(cfg, b, id) && LineOk(cfg, RunNext(cfg, b), id);
    assert RiseAllowed(cfg, LineOf(b.model, id), LineOf(RunNext(cfg, b).model, id), id, b.t.now);
  }

  /** No wake-up is lost: whenever a line is wanted high but still low, the event that will look at it
      again is on the agenda. */
  lemma NoLostWakeUp(cfg: Config, b: Bus, id: LineId)
    requires Inv(cfg, b) && Wanted(b, id) && !LevelOf(b.levels, id)
    ensures exists e :: e in b.agenda.events && b.t.now <= e.when
                     && Earliest(cfg, LineOf(b.model, id), id) <= e.when
                     && (!cfg.solver ==> e.when == Earliest(cfg, LineOf(b.model, id), id))
                     && e.action == RiseReeval(id, LineOf(b.model, id).generation)
  {
    assert LineOk(cfg, b, id);
    var e :| e in b.agenda.events && e.when == LineOf(b.model, id).when
          && e.action == RiseReeval(id, LineOf(b.model, id).generation);
  }

  /** With nothing left to run, the lines are the wired AND of the host's and the devices' current pulls,
      and both ends see them. */
  lemma QuietBusHasConverged(cfg: Config, b: Bus)
    requires Inv(cfg, b) && b.agenda.events == []
    ensures b.levels == Resolve(b.host, b.devices)
    ensures b.deviceSees == b.levels && b.hostSees == b.levels
  {
    forall id ensures LevelOf(b.levels, id) == Wanted(b, id) {
      assert LineOk(cfg, b, id);
      if Wanted(b, id) && !LevelOf(b.levels, id) {
        NoLostWakeUp(cfg, b, id);
      }
    }
    assert LevelOf(b.levels, Atn) == b.levels.atn && LevelOf(b.levels, Clk) == b.levels.clk
        && LevelOf(b.levels, Data) == b.levels.data;
  }

  // ---- draining ---------------------------------------------------------------------------------------

  ghost function DueSet(b: Bus): set<Event> {
    set e | e in b.agenda.events && e.when <= b.t.now
  }

  lemma RunNextShrinksDue(cfg: Config, b: Bus)
    requires Inv(cfg, b) && Due(b)
    ensures DueSet(RunNext(cfg, b)) < DueSet(b)
  {
    hide RunNext, Inv;
    RunNextOk(cfg, b);
    assert b.agenda.events[0] in DueSet(b);
  }

  /** Runs everything that is due. It ends because whatever an event posts lies at least a unit ahead. */
  ghost function Drain(cfg: Config, b: Bus): (r: Bus)
    requires Inv(cfg, b)
    ensures Inv(cfg, r) && !Due(r) && r.t == b.t && r.devices == b.devices
    ensures !Due(b) ==> r == b
    decreases DueSet(b)
  {
    if !Due(b) then b
    else
      RunNextOk(cfg, b);
      RunNextShrinksDue(cfg, b);
      Drain(cfg, RunNext(cfg, b))
  }

  // ---- the clocks -----------------------------------------------------------------------------------

  /** The drive's period in units, rounded to nearest, without dither. */
  function DrivePeriod(cfg: Config): nat
    requires cfg.driveRate > 0
  {
    AtLeastOne((C64_HALF_PERIOD * cfg.c64Rate + cfg.driveRate / 2) / cfg.driveRate)
  }

  function TickDrive(cfg: Config, w: World, b: Bus): Bus
    requires cfg.driveRate > 0
  {
    var pulls := w.devicePulls(b.t.driveTicks);
    var b1 := b.(devices := pulls, t := b.t.(driveTicks := b.t.driveTicks + 1));
    var b2 := if pulls != b.devices then PostAfter(b1, cfg.driveToBus, DriveSettle(pulls)) else b1;
    b2.(t := b2.t.(nextDrive := b2.t.nextDrive + DrivePeriod(cfg)))
  }

  function TickC64(cfg: Config, w: World, b: Bus): Bus {
    var pre, post := w.before(b.t.c64Ticks), w.after(b.t.c64Ticks);
    var b1 := if post != pre then PostAfter(b, cfg.c64ToBus, C64Settle(post)) else b;
    b1.(t := b1.t.(c64Ticks := b1.t.c64Ticks + 1, nextC64 := b1.t.nextC64 + C64_HALF_PERIOD), hostPins := b.levels)
  }

  function NextTime(b: Bus): nat {
    var clocks := if b.t.nextDrive < b.t.nextC64 then b.t.nextDrive else b.t.nextC64;
    if b.agenda.events != [] && b.agenda.events[0].when < clocks then b.agenda.events[0].when else clocks
  }

  /** Between passes of the main loop: the invariant, and neither clock is behind. */
  ghost predicate LoopInv(cfg: Config, b: Bus) {
    Inv(cfg, b) && b.t.now <= b.t.nextC64 && b.t.now <= b.t.nextDrive
  }

  lemma AdvanceOk(cfg: Config, b: Bus)
    requires LoopInv(cfg, b)
    ensures b.t.now <= NextTime(b) && LoopInv(cfg, b.(t := b.t.(now := NextTime(b))))
  {
    var b' := b.(t := b.t.(now := NextTime(b)));
    if b.agenda.events != [] {
      assert b.agenda.events[0] in b.agenda.events;
      forall e | e in b.agenda.events ensures NextTime(b) <= e.when {
        var k :| 0 <= k < |b.agenda.events| && b.agenda.events[k] == e;
        assert k > 0 ==> Before(b.agenda.events[0], b.agenda.events[k]);
      }
    }
    DriveOkIgnores(cfg, b, b');
    forall i ensures LineOk(cfg, b', i) {
      assert LineOk(cfg, b, i);
    }
    assert SeenOk(b') by {
      if Pending(b, Propagate) { var e :| e in b.agenda.events && e.action == Propagate; assert e in b'.agenda.events; }
      if Pending(b, HostApply) { var e :| e in b.agenda.events && e.action == HostApply; assert e in b'.agenda.events; }
    }
  }

  lemma NothingDueMeansAllAhead(b: Bus)
    requires AgendaOk(b) && !Due(b)
    ensures forall e :: e in b.agenda.events ==> e.when > b.t.now
  {
    forall e | e in b.agenda.events ensures e.when > b.t.now {
      var k :| 0 <= k < |b.agenda.events| && b.agenda.events[k] == e;
      assert k > 0 ==> Before(b.agenda.events[0], b.agenda.events[k]);
    }
  }

  lemma AllAheadMeansNothingDue(b: Bus)
    requires forall e :: e in b.agenda.events ==> e.when > b.t.now
    ensures !Due(b)
  {
    if b.agenda.events != [] {
      assert b.agenda.events[0] in b.agenda.events;
    }
  }

  /** Clock bookkeeping that leaves `now` alone changes nothing the invariant speaks of. */
  lemma InvIgnoresTicks(cfg: Config, b: Bus, b': Bus)
    requires Inv(cfg, b) && b' == b.(t := b'.t, hostPins := b'.hostPins) && b'.t.now == b.t.now
    ensures Inv(cfg, b')
  {
    forall i ensures LineOk(cfg, b', i) {
      assert LineOk(cfg, b, i);
    }
    DriveOkIgnores(cfg, b, b');
    assert SeenOk(b') by {
      if Pending(b, Propagate) { var e :| e in b.agenda.events && e.action == Propagate; assert e in b'.agenda.events; }
      if Pending(b, HostApply) { var e :| e in b.agenda.events && e.action == HostApply; assert e in b'.agenda.events; }
    }
  }

  /** Posting a settle keeps the lines, the ends and the order; only the replay needs more. */
  lemma PostSettleKeeps(cfg: Config, b: Bus, delay: nat, action: Action)
    requires Inv(cfg, b)
    ensures var b' := PostAfter(b, delay, action);
            && AgendaOk(b') && SeenOk(b') && (forall i :: LineOk(cfg, b', i))
            && b' == b.(agenda := b'.agenda)
            && (forall e :: e in b'.agenda.events <==>
                  e in b.agenda.events || e == Event(b.t.now + AtLeastOne(delay), b.agenda.nextSerial, action))
  {
    var b' := PostAfter(b, delay, action);
    PostKeepsAgendaOk(b, b.t.now + AtLeastOne(delay), action);
    forall i ensures LineOk(cfg, b', i) {
      assert LineOk(cfg, b, i);
      PendingSurvives(cfg, b, b', i);
    }
    if Pending(b, Propagate) { var e :| e in b.agenda.events && e.action == Propagate; assert e in b'.agenda.events; }
    if Pending(b, HostApply) { var e :| e in b.agenda.events && e.action == HostApply; assert e in b'.agenda.events; }
  }

  /** A drive settle posted now lands behind every other, so the replay ends at the new pulls. */
  lemma PostDriveSettleOk(cfg: Config, b: Bus, pulls: DrivePulls)
    requires Inv(cfg, b)
    ensures Inv(cfg, PostAfter(b.(devices := pulls), cfg.driveToBus, DriveSettle(pulls)))
  {
    var b' := PostAfter(b, cfg.driveToBus, DriveSettle(pulls));
    PostSettleKeeps(cfg, b, cfg.driveToBus, DriveSettle(pulls));
    var posted := Event(b.t.now + AtLeastOne(cfg.driveToBus), b.agenda.nextSerial, DriveSettle(pulls));
    var r := b'.(devices := pulls);
    assert r == PostAfter(b.(devices := pulls), cfg.driveToBus, DriveSettle(pulls));
    assert DriveOk(cfg, r) by {
      hide LineOk, SeenOk;
      forall e | LatestDriveSettle(r.agenda.events, e) ensures e.action.drive == r.devices {
        assert posted in r.agenda.events;
        assert e != posted ==> !Before(posted, e) && e.when <= posted.when;
      }
      assert posted in r.agenda.events;
    }
    NewDevicesKeep(cfg, b', r);
  }

  lemma NewDevicesKeep(cfg: Config, b: Bus, b': Bus)
    requires AgendaOk(b) && SeenOk(b) && (forall i :: LineOk(cfg, b, i)) && b' == b.(devices := b'.devices)
    ensures AgendaOk(b') && SeenOk(b') && forall i :: LineOk(cfg, b', i)
  {
    forall i ensures LineOk(cfg, b', i) {
      assert LineOk(cfg, b, i);
    }
    if Pending(b, Propagate) { var e :| e in b.agenda.events && e.action == Propagate; assert e in b'.agenda.events; }
    if Pending(b, HostApply) { var e :| e in b.agenda.events && e.action == HostApply; assert e in b'.agenda.events; }
  }

  lemma PostC64SettleOk(cfg: Config, b: Bus, pulls: HostPulls)
    requires Inv(cfg, b)
    ensures Inv(cfg, PostAfter(b, cfg.c64ToBus, C64Settle(pulls)))
  {
    PostSettleKeeps(cfg, b, cfg.c64ToBus, C64Settle(pulls));
    DriveOkIgnores(cfg, b, PostAfter(b, cfg.c64ToBus, C64Settle(pulls)));
  }

  lemma DevicePullsPosted(cfg: Config, b: Bus, pulls: DrivePulls)
    requires Inv(cfg, b) && !Due(b)
    ensures var c := PostAfter(b.(devices := pulls), cfg.driveToBus, DriveSettle(pulls));
            Inv(cfg, c) && c == b.(devices := pulls, agenda := c.agenda)
            && forall e :: e in c.agenda.events ==> e.when > b.t.now
  {
    NothingDueMeansAllAhead(b);
    PostDriveSettleOk(cfg, b, pulls);
    PostSettleKeeps(cfg, b, cfg.driveToBus, DriveSettle(pulls));
    hide Inv, PostAfter;
    assert PostAfter(b.(devices := pulls), cfg.driveToBus, DriveSettle(pulls)).agenda
        == PostAfter(b, cfg.driveToBus, DriveSettle(pulls)).agenda by {
          PostIgnoresDevices(b, pulls, cfg.driveToBus, DriveSettle(pulls));
        }
    PostIgnoresDevices(b, pulls, cfg.driveToBus, DriveSettle(pulls));
  }

  lemma PostIgnoresDevices(b: Bus, pulls: DrivePulls, delay: nat, action: Action)
    ensures PostAfter(b.(devices := pulls), delay, action) == PostAfter(b, delay, action).(devices := pulls)
  {
  }

  lemma TickDriveOk(cfg: Config, w: World, b: Bus)
    requires Inv(cfg, b) && !Due(b) && cfg.driveRate > 0
    ensures var b' := TickDrive(cfg, w, b);
            && Inv(cfg, b') && !Due(b') && b'.devices == w.devicePulls(b.t.driveTicks)
            && b'.t == b.t.(driveTicks := b.t.driveTicks + 1, nextDrive := b.t.nextDrive + DrivePeriod(cfg))
  {
    hide DrivePeriod, AgendaOk, DriveOk, SeenOk, LineOk;
    NothingDueMeansAllAhead(b);
    var c, b' := DevicesPosted(cfg, b, w.devicePulls(b.t.driveTicks)), TickDrive(cfg, w, b);
    DevicePullsPosted(cfg, b, w.devicePulls(b.t.driveTicks));
    hide Inv, PostAfter;
    TickDriveShape(cfg, w, b);
    hide *;
    InvIgnoresTicks(cfg, c, b');
    AllAheadMeansNothingDue(b');
  }

  /** The bus with the drive's new pulls noted, and their settle posted if they changed. */
  function DevicesPosted(cfg: Config, b: Bus, pulls: DrivePulls): Bus {
    if pulls != b.devices then PostAfter(b.(devices := pulls), cfg.driveToBus, DriveSettle(pulls)) else b
  }

  lemma TickDriveShape(cfg: Config, w: World, b: Bus)
    requires cfg.driveRate > 0
    ensures var pulls := w.devicePulls(b.t.driveTicks);
            var c, b' := DevicesPosted(cfg, b, pulls), TickDrive(cfg, w, b);
            && b' == c.(t := b'.t) && c.t == b.t
            && b'.t == b.t.(driveTicks := b.t.driveTicks + 1, nextDrive := b.t.nextDrive + DrivePeriod(cfg))
            && b'.devices == pulls
  {
    hide DrivePeriod;
  }

  lemma TickC64Ok(cfg: Config, w: World, b: Bus)
    requires Inv(cfg, b) && !Due(b)
    ensures var b' := TickC64(cfg, w, b);
            && Inv(cfg, b') && !Due(b') && b'.devices == b.devices
            && b'.t == b.t.(c64Ticks := b.t.c64Ticks + 1, nextC64 := b.t.nextC64 + C64_HALF_PERIOD)
            && b'.hostPins == b.levels
  {
    var pre, post := w.before(b.t.c64Ticks), w.after(b.t.c64Ticks);
    hide AgendaOk, DriveOk, SeenOk, LineOk;
    NothingDueMeansAllAhead(b);
    HostPullsPosted(cfg, b, post);
    hide Inv;
    var c := if post != pre then PostAfter(b, cfg.c64ToBus, C64Settle(post)) else b;
    var b' := TickC64(cfg, w, b);
    assert b' == c.(t := b'.t, hostPins := b'.hostPins);
    hide TickC64, PostAfter;
    InvIgnoresTicks(cfg, c, b');
    AllAheadMeansNothingDue(b');
  }

  lemma HostPullsPosted(cfg: Config, b: Bus, pulls: HostPulls)
    requires Inv(cfg, b) && !Due(b)
    ensures var c := PostAfter(b, cfg.c64ToBus, C64Settle(pulls));
            Inv(cfg, c) && c == b.(agenda := c.agenda) && forall e :: e in c.agenda.events ==> e.when > b.t.now
  {
    NothingDueMeansAllAhead(b);
    PostC64SettleOk(cfg, b, pulls);
    PostSettleKeeps(cfg, b, cfg.c64ToBus, C64Settle(pulls));
    hide Inv, PostAfter, AgendaOk, SeenOk, LineOk;
  }

  /** Between passes everything left to do lies strictly ahead. */
  ghost predicate Passed(cfg: Config, b: Bus) {
    Inv(cfg, b) && !Due(b) && b.t.now < b.t.nextC64 && b.t.now < b.t.nextDrive
  }

  /** The drive's tick, if its time has come, and what it causes. */
  ghost function DriveTurn(cfg: Config, w: World, b: Bus): (r: Bus)
    requires Inv(cfg, b) && !Due(b) && cfg.driveRate > 0
    ensures var ticks := b.t.nextDrive == b.t.now;
            && Inv(cfg, r) && !Due(r)
            && r.t == b.t.(driveTicks := if ticks then b.t.driveTicks + 1 else b.t.driveTicks,
                           nextDrive := if ticks then b.t.nextDrive + DrivePeriod(cfg) else b.t.nextDrive)
  {
    TickDriveOk(cfg, w, b);
    if b.t.nextDrive == b.t.now then Drain(cfg, TickDrive(cfg, w, b)) else b
  }

  /** The host's tick, if its time has come, and what it causes. */
  ghost function C64Turn(cfg: Config, w: World, b: Bus): (r: Bus)
    requires Inv(cfg, b) && !Due(b)
    ensures var ticks := b.t.nextC64 == b.t.now;
            && Inv(cfg, r) && !Due(r)
            && r.t == b.t.(c64Ticks := if ticks then b.t.c64Ticks + 1 else b.t.c64Ticks,
                           nextC64 := if ticks then b.t.nextC64 + C64_HALF_PERIOD else b.t.nextC64)
  {
    TickC64Ok(cfg, w, b);
    if b.t.nextC64 == b.t.now then Drain(cfg, TickC64(cfg, w, b)) else b
  }

  /** One pass of the main loop: go to the next time anything happens and do all of it. */
  ghost function Pass(cfg: Config, w: World, b: Bus): (r: Bus)
    requires LoopInv(cfg, b) && cfg.driveRate > 0
    ensures Passed(cfg, r) && r.t.now == NextTime(b)
    ensures r.t.c64Ticks == b.t.c64Ticks + (if b.t.nextC64 == NextTime(b) then 1 else 0)
    ensures r.t.nextC64 == b.t.nextC64 + (if b.t.nextC64 == NextTime(b) then C64_HALF_PERIOD else 0)
    ensures r.t.driveTicks == b.t.driveTicks + (if b.t.nextDrive == NextTime(b) then 1 else 0)
    ensures r.t.nextDrive == b.t.nextDrive + (if b.t.nextDrive == NextTime(b) then DrivePeriod(cfg) else 0)
  {
    AdvanceOk(cfg, b);
    var b1 := Drain(cfg, b.(t := b.t.(now := NextTime(b))));
    C64Turn(cfg, w, DriveTurn(cfg, w, b1))
  }

  lemma PassedMovesOn(cfg: Config, b: Bus)
    requires Passed(cfg, b)
    ensures LoopInv(cfg, b) && NextTime(b) > b.t.now
  {
  }

  /** One call of the half-cycle tick: passes until the host's clock has ticked once. */
  ghost function Passes(cfg: Config, w: World, b: Bus, target: nat): (r: Bus)
    requires LoopInv(cfg, b) && cfg.driveRate > 0 && b.t.c64Ticks <= target
    ensures LoopInv(cfg, r) && r.t.c64Ticks == target && (b.t.c64Ticks < target ==> Passed(cfg, r))
    decreases target - b.t.c64Ticks, b.t.nextC64 - NextTime(b)
  {
    if b.t.c64Ticks == target then b
    else
      var b' := Pass(cfg, w, b);
      PassedMovesOn(cfg, b');
      Passes(cfg, w, b', target)
  }

  ghost function TickHalfCycle(cfg: Config, w: World, b: Bus): (r: Bus)
    requires LoopInv(cfg, b) && cfg.driveRate > 0
    ensures Passed(cfg, r) && LoopInv(cfg, r)
  {
    Passes(cfg, w, b, b.t.c64Ticks + 1)
  }

  // ---- the two-clock schedule ---------------------------------------------------------------------------

  ghost predicate OnSchedule(cfg: Config, b: Bus)
    requires cfg.driveRate > 0
  {
    && b.t.nextC64 == b.t.c64Ticks * C64_HALF_PERIOD
    && b.t.nextDrive == b.t.driveTicks * DrivePeriod(cfg)
    && (b.t.driveTicks > 0 ==> (b.t.driveTicks - 1) * DrivePeriod(cfg) <= b.t.now)
    && (b.t.c64Ticks > 0 ==> b.t.now >= (b.t.c64Ticks - 1) * C64_HALF_PERIOD)
  }

  lemma Distributes(n: nat, p: nat)
    ensures n * p + p == (n + 1) * p
  {
  }

  lemma PassKeepsSchedule(cfg: Config, w: World, b: Bus)
    requires LoopInv(cfg, b) && cfg.driveRate > 0 && OnSchedule(cfg, b)
    ensures OnSchedule(cfg, Pass(cfg, w, b))
  {
    hide DrivePeriod, Inv, LoopInv;
    Distributes(b.t.driveTicks, DrivePeriod(cfg));
    AdvanceOk(cfg, b);
    assert b.t.now <= NextTime(b);
  }

  lemma {:induction false} PassesKeepSchedule(cfg: Config, w: World, b: Bus, target: nat)
    requires LoopInv(cfg, b) && cfg.driveRate > 0 && OnSchedule(cfg, b) && b.t.c64Ticks < target == b.t.c64Ticks + 1
    ensures var r := Passes(cfg, w, b, target);
            OnSchedule(cfg, r) && r.t.now == b.t.c64Ticks * C64_HALF_PERIOD
    decreases b.t.nextC64 - NextTime(b)
  {
    hide Inv, DrivePeriod;
    PassKeepsSchedule(cfg, w, b);
    var b' := Pass(cfg, w, b);
    PassedMovesOn(cfg, b');
    if b'.t.c64Ticks == b.t.c64Ticks {
      PassesKeepSchedule(cfg, w, b', target);
    }
  }

  // ---- from power-up on --------------------------------------------------------------------------------

  function NewLine(high: bool): Line {
    Line(high, 0, false, 0, 0, 0)
  }

  function Boot(host: HostPulls, devices: DrivePulls): Bus {
    var levels := Resolve(host, devices);
    Bus(Clocks(0, 0, 0, 0, 0), Agenda([], 0, []), host, devices, levels,
        LineSet(NewLine(levels.atn), NewLine(levels.clk), NewLine(levels.data)),
        0, levels, levels, devices, Levels(true, true, true))
  }

  lemma BootOk(cfg: Config, host: HostPulls, devices: DrivePulls)
    requires cfg.driveRate > 0
    ensures LoopInv(cfg, Boot(host, devices)) && OnSchedule(cfg, Boot(host, devices))
  {
    var b := Boot(host, devices);
    forall i ensures LineOk(cfg, b, i) {
    }
  }

  ghost function Ticks(cfg: Config, w: World, b: Bus, n: nat): (r: Bus)
    requires LoopInv(cfg, b) && cfg.driveRate > 0
    ensures LoopInv(cfg, r) && (n > 0 ==> Passed(cfg, r))
  {
    if n == 0 then b else TickHalfCycle(cfg, w, Ticks(cfg, w, b, n - 1))
  }

  lemma {:induction false} TicksStayOnSchedule(cfg: Config, w: World, b: Bus, n: nat)
    requires LoopInv(cfg, b) && cfg.driveRate > 0 && OnSchedule(cfg, b) && b.t.c64Ticks == 0
    ensures var r := Ticks(cfg, w, b, n);
            && OnSchedule(cfg, r) && r.t.c64Ticks == n
            && (n > 0 ==> r.t.now == (n - 1) * C64_HALF_PERIOD)
  {
    hide LoopInv, OnSchedule, Passed, TickHalfCycle;
    if n > 0 {
      TicksStayOnSchedule(cfg, w, b, n - 1);
      HalfCycleKeepsSchedule(cfg, w, Ticks(cfg, w, b, n - 1));
    }
  }

  lemma HalfCycleKeepsSchedule(cfg: Config, w: World, b: Bus)
    requires LoopInv(cfg, b) && cfg.driveRate > 0 && OnSchedule(cfg, b)
    ensures var r := TickHalfCycle(cfg, w, b);
            OnSchedule(cfg, r) && r.t.c64Ticks == b.t.c64Ticks + 1 && r.t.now == b.t.c64Ticks * C64_HALF_PERIOD
  {
    hide LoopInv, OnSchedule, Passed, Passes;
    PassesKeepSchedule(cfg, w, b, b.t.c64Ticks + 1);
  }

  /** The two-clock schedule: after n calls the host has ticked n times, time stands at the n-th host
      tick, the drive has ticked once per whole period since the start, and what ran was run in order. */
  lemma ScheduleAfter(cfg: Config, w: World, host: HostPulls, devices: DrivePulls, n: nat)
    requires cfg.driveRate > 0 && n > 0
    ensures LoopInv(cfg, Boot(host, devices))
    ensures var r := Ticks(cfg, w, Boot(host, devices), n);
            && r.t.c64Ticks == n
            && r.t.now == (n - 1) * C64_HALF_PERIOD
            && r.t.driveTicks == r.t.now / DrivePeriod(cfg) + 1
            && Ordered(r.agenda.ran)
            && (r.agenda.events == [] ==> r.levels == r.deviceSees == r.hostSees == Resolve(r.host, r.devices))
  {
    hide DrivePeriod, Ticks;
    var b := Boot(host, devices);
    BootOk(cfg, host, devices);
    TicksStayOnSchedule(cfg, w, b, n);
    var r := Ticks(cfg, w, b, n);
    var p := DrivePeriod(cfg);
    assert p > 0 by { PeriodPositive(cfg); }
    assert r.t.driveTicks > 0 && (r.t.driveTicks - 1) * p <= r.t.now < r.t.driveTicks * p;
    QuotientUnique(r.t.now, p, r.t.driveTicks - 1, r.t.now - (r.t.driveTicks - 1) * p);
    if r.agenda.events == [] {
      QuietBusHasConverged(cfg, r);
    }
  }

  lemma PeriodPositive(cfg: Config)
    requires cfg.driveRate > 0
    ensures DrivePeriod(cfg) > 0
  {
  }
}
