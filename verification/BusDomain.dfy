/** The bus domain as an object: the event loop, the settle path and the two domain ticks update its
    fields in place. Device and host behaviour at each tick is given by a world. */
module BusDomain {
  import opened IecBus

  class BusDomain {
    const cfg: Config
    const world: World

    var t: Clocks
    var events: seq<Event>
    var nextSerial: nat
    ghost var ran: seq<Event>
    var host: HostPulls
    var drive: DrivePulls
    var levels: Levels
    var model: LineSet
    var settles: nat
    var deviceSees: Levels
    var hostSees: Levels
    var devices: DrivePulls
    var hostPins: Levels

    ghost function Model(): Bus
      reads this
    {
      Bus(t, Agenda(events, nextSerial, ran), host, drive, levels, model, settles, deviceSees, hostSees, devices,
          hostPins)
    }

    constructor (cfg: Config, world: World, hostPulls: HostPulls, devicePulls: DrivePulls)
      requires cfg.driveRate > 0
      ensures this.cfg == cfg && this.world == world
      ensures Model() == Boot(hostPulls, devicePulls) && LoopInv(cfg, Model())
    {
      this.cfg, this.world := cfg, world;
      t := Clocks(0, 0, 0, 0, 0);
      events, nextSerial, ran := [], 0, [];
      host, drive, devices := hostPulls, devicePulls, devicePulls;
      var l := Resolve(hostPulls, devicePulls);
      levels, deviceSees, hostSees, settles := l, l, l, 0;
      hostPins := Levels(true, true, true);
      model := LineSet(NewLine(l.atn), NewLine(l.clk), NewLine(l.data));
      new;
      BootOk(cfg, hostPulls, devicePulls);
    }

    method ScheduleEventAtAbsolute(when: nat, action: Action)
      modifies this
      ensures Model() == Post(old(Model()), when, action)
    {
      events := Inserted(events, Event(when, nextSerial, action));
      nextSerial := nextSerial + 1;
    }

    method ScheduleEventAfter(delay: nat, action: Action)
      modifies this
      ensures Model() == PostAfter(old(Model()), delay, action)
    {
      ScheduleEventAtAbsolute(t.now + AtLeastOne(delay), action);
    }

    method ScheduleRiseReeval(id: LineId, when: nat, granted: nat)
      modifies this
      ensures Model() == ScheduleRise(old(Model()), id, when, granted)
    {
      hide Post;
      var line := LineOf(model, id);
      if line.pending && line.when == when {
        return;
      }
      line := line.(pending := true, when := when, granted := granted);
      line := line.(generation := line.generation + 1);
      model := WithLine(model, id, line);
      ScheduleEventAtAbsolute(when, RiseReeval(id, line.generation));
    }

    method ApplyLineTimingModel(id: LineId, desiredHigh: bool) returns (level: bool)
      modifies this
      ensures Model() == ApplyModel(cfg, old(Model()), id, desiredHigh)
      ensures level == LineOf(model, id).high
    {
      hide ScheduleRise;
      ScheduleRiseKeepsLevel(Model(), id);
      var line := LineOf(model, id);
      if !cfg.modelled {
        line := line.(high := desiredHigh);
        if !desiredHigh {
          line := line.(lowSince := t.now);
        }
        model := WithLine(model, id, line);
        return desiredHigh;
      }
      if !desiredHigh {
        line := line.(pending := false, generation := line.generation + 1, granted := 0);
        if line.high {
          line := line.(high := false, lowSince := t.now);
        }
        model := WithLine(model, id, line);
        return false;
      }
      if line.high {
        return true;
      }
      var earliest := line.lowSince + cfg.minLow(id) + cfg.release(id);
      if t.now < earliest {
        ScheduleRiseReeval(id, earliest, 0);
        return false;
      }
      var wait := Slew(cfg, line, id, t.now, settles);
      if wait > 0 {
        ScheduleRiseReeval(id, t.now + wait, Elapsed(line, t.now) + 1);
        return false;
      }
      model := WithLine(model, id, line.(high := true, pending := false, granted := 0));
      return true;
    }

    method ApplyTemporalBusContract()
      modifies this
      ensures Model() == Commit(cfg, old(Model()))
    {
      hide PostAfter;
      if ModelLevels(model) == levels {
        return;
      }
      levels := ModelLevels(model);
      ScheduleEventAfter(cfg.busToDrive, Propagate);
      ScheduleEventAfter(cfg.busToC64, HostApply);
    }

    method SettleBusAndPropagateSamples()
      modifies this
      ensures Model() == Settle(cfg, old(Model()))
    {
      hide ApplyModel, Commit;
      var want := Resolve(host, drive);
      var atnHigh := ApplyLineTimingModel(Atn, want.atn);
      var clkHigh := ApplyLineTimingModel(Clk, want.clk);
      var dataHigh := ApplyLineTimingModel(Data, want.data);
      settles := settles + 1;
      ApplyTemporalBusContract();
    }

    method RunCallback(action: Action)
      modifies this
      ensures Model() == Fire(cfg, old(Model()), action)
    {
      hide Settle;
      match action
      case C64Settle(p) =>
        host := p;
        SettleBusAndPropagateSamples();
      case DriveSettle(p) =>
        drive := p;
        SettleBusAndPropagateSamples();
      case Propagate => deviceSees := levels;
      case HostApply => hostSees := levels;
      case RiseReeval(id, g) =>
        var line := LineOf(model, id);
        if line.pending && line.generation == g {
          model := WithLine(model, id, line.(pending := false));
          SettleBusAndPropagateSamples();
        }
    }

    method ExecuteTimedEventsAtNow()
      requires Inv(cfg, Model())
      modifies this
      ensures Inv(cfg, old(Model())) && Model() == Drain(cfg, old(Model()))
    {
      hide Inv, Fire;
      ghost var before := Model();
      while events != [] && events[0].when <= t.now
        invariant Inv(cfg, Model()) && Drain(cfg, Model()) == Drain(cfg, before)
        decreases DueSet(Model())
      {
        ghost var b := Model();
        RunNextOk(cfg, b);
        RunNextShrinksDue(cfg, b);
        var ev := events[0];
        events, ran := events[1..], ran + [ev];
        RunCallback(ev.action);
      }
    }

    method TickDriveDomainOnce()
      requires cfg.driveRate > 0
      modifies this
      ensures Model() == TickDrive(cfg, world, old(Model()))
    {
      hide PostAfter, DrivePeriod;
      var prev := devices;
      devices := world.devicePulls(t.driveTicks);
      t := t.(driveTicks := t.driveTicks + 1);
      if devices != prev {
        ScheduleEventAfter(cfg.driveToBus, DriveSettle(devices));
      }
      PostAfterKeepsClocks(Model(), cfg.driveToBus, DriveSettle(devices));
      t := t.(nextDrive := t.nextDrive + DrivePeriod(cfg));
    }

    method TickC64DomainOnce()
      modifies this
      ensures Model() == TickC64(cfg, world, old(Model()))
    {
      PostIgnoresPins(Model(), levels);
      hide PostAfter;
      hostPins := levels;
      var pre, post := world.before(t.c64Ticks), world.after(t.c64Ticks);
      if post != pre {
        ScheduleEventAfter(cfg.c64ToBus, C64Settle(post));
      }
      t := t.(c64Ticks := t.c64Ticks + 1);
      t := t.(nextC64 := t.nextC64 + C64_HALF_PERIOD);
    }

    /** One pass of the main loop. */
    method AdvanceToNextTime()
      requires LoopInv(cfg, Model()) && cfg.driveRate > 0
      modifies this
      ensures LoopInv(cfg, old(Model())) && Model() == Pass(cfg, world, old(Model()))
    {
      hide Inv, Drain, TickDrive, TickC64, DrivePeriod;
      var nextTime := t.nextC64;
      if t.nextDrive < nextTime {
        nextTime := t.nextDrive;
      }
      if events != [] && events[0].when < nextTime {
        nextTime := events[0].when;
      }
      AdvanceOk(cfg, Model());
      t := t.(now := nextTime);
      ExecuteTimedEventsAtNow();
      TickDriveOk(cfg, world, Model());
      if t.nextDrive == t.now {
        TickDriveDomainOnce();
        ExecuteTimedEventsAtNow();
      }
      TickC64Ok(cfg, world, Model());
      if t.nextC64 == t.now {
        TickC64DomainOnce();
        ExecuteTimedEventsAtNow();
      }
    }

    /** One half cycle of the host; it always returns. */
    method TickHalfCycleOnce()
      requires LoopInv(cfg, Model()) && cfg.driveRate > 0
      modifies this
      ensures LoopInv(cfg, old(Model())) && Model() == TickHalfCycle(cfg, world, old(Model()))
      ensures LoopInv(cfg, Model())
    {
      hide Inv, Pass, DrivePeriod;
      ghost var before := Model();
      ghost var target := t.c64Ticks + 1;
      var targetTick := t.c64Ticks + 1;
      while t.c64Ticks < targetTick
        invariant LoopInv(cfg, Model()) && t.c64Ticks <= targetTick
        invariant Passes(cfg, world, Model(), targetTick) == Passes(cfg, world, before, targetTick)
        decreases targetTick - t.c64Ticks, t.nextC64 - NextTime(Model())
      {
        AdvanceToNextTime();
        PassedMovesOn(cfg, Model());
      }
    }
  }

  lemma PostIgnoresPins(b: Bus, pins: Levels)
    ensures forall delay, action ::
              PostAfter(b.(hostPins := pins), delay, action) == PostAfter(b, delay, action).(hostPins := pins)
  {
  }

  lemma ScheduleRiseKeepsLevel(b: Bus, id: LineId)
    ensures forall when, granted ::
              LineOf(ScheduleRise(b, id, when, granted).model, id).high == LineOf(b.model, id).high
  {
  }

  lemma PostAfterKeepsClocks(b: Bus, delay: nat, action: Action)
    ensures PostAfter(b, delay, action).t == b.t
  {
  }
}
