/** The video chip as an object: half ticks and register writes update its fields in place. */
module VicChip {
  import opened Vic

  datatype Sprites = Sprites(enable: seq<bool>, y: seq<nat>, dma: seq<bool>)

  datatype Bus = Bus(locked: bool, badline: bool, ba: bool, aec: bool)

  datatype RasterIrq = RasterIrq(pending: bool, maskEdgeArmed: bool)

  datatype Glitches = Glitches(fld: bool, vsp: bool)

  class VicChip {
    const profile: Profile

    var beam: Beam
    var regs: Registers
    var sprites: Sprites
    var bus: Bus
    var raster: RasterIrq
    var glitches: Glitches

    function Model(): Chip
      reads this
    {
      Chip(beam, regs, sprites.enable, sprites.y, sprites.dma, bus.locked, bus.badline, bus.ba, bus.aec,
           raster.pending, raster.maskEdgeArmed, glitches.fld, glitches.vsp)
    }

    constructor (revision: Revision, sprY: seq<nat>)
      requires |sprY| == SPRITES && forall s :: 0 <= s < SPRITES ==> sprY[s] < 256
      ensures profile == ProfileOf(revision) && Model() == PowerOn(sprY) && Ok(Model())
    {
      profile := ProfileOf(revision);
      beam, regs := Beam(false, 0, 0, 0), Registers(0, 0, 0, 0, 0);
      sprites := Sprites(seq(SPRITES, _ => false), sprY, seq(SPRITES, _ => false));
      bus, raster, glitches := Bus(false, false, true, true), RasterIrq(false, false), Glitches(false, false);
      new;
      PowerOnOk(sprY);
    }

    method UpdateBaAec()
      modifies this`bus
      ensures Model() == BusLines(old(Model()))
    {
      hide BusWindow;
      var locked := bus.locked && beam.cycle >= 12 && beam.cycle <= 54;
      var vicOwnsBus := BusWindow(Model()) || locked;
      bus := bus.(ba := !vicOwnsBus, aec := !vicOwnsBus);
    }

    /** The DMA flags, sprite by sprite. */
    method UpdateSpriteDma()
      requires SpritesOk(Model())
      modifies this`sprites
      ensures Model() == old(Model()).(dma := DmaUpdated(profile, old(Model())))
    {
      ghost var before := Model();
      var display := regs.ctrl1 & 0x10 != 0;
      assert display == DisplayEnabled(before);
      hide DisplayEnabled, StopLine, DmaUpdated;
      var mask := sprites.dma;
      for s := 0 to SPRITES
        invariant |mask| == SPRITES
        invariant forall i :: 0 <= i < s ==> mask[i] == DmaAfter(profile, before, i)
        invariant forall i :: s <= i < SPRITES ==> mask[i] == before.dma[i]
      {
        var enabled, active := sprites.enable[s], mask[s];
        if enabled && !active && beam.line == sprites.y[s] && (!profile.dmaNeedsDisplay || display) {
          mask := mask[s := true];
        }
        if active && (beam.line >= StopLine(profile, sprites.y[s]) || !enabled) {
          mask := mask[s := false];
        }
      }
      assert mask == DmaUpdated(profile, before);
      sprites := sprites.(dma := mask);
    }

    method ExecuteTickActions(action: TickAction)
      requires SpritesOk(Model()) && action == ActionAt(Model())
      modifies this`sprites, this`bus
      ensures Model() == Act(profile, old(Model()))
    {
      ActWith(profile, Model(), action);
      hide Act, DmaUpdated, ActionAt, DmaAfter;
      match action
      case Nothing =>
      case LatchBadline => bus := bus.(locked := true, badline := true);
      case UpdateDma => UpdateSpriteDma();
      case ReleaseBadline => bus := bus.(locked := false, badline := false);
    }

    method CompareRasterLine()
      modifies this`regs, this`raster
      ensures Model() == CompareRaster(profile, old(Model()))
    {
      hide CompareValue, RasterEnabled, Flagged;
      if beam.line == CompareValue(regs) {
        var allow := RasterEnabled(regs) && (!profile.irqNeedsMaskEdge || raster.maskEdgeArmed);
        if allow && !raster.pending {
          regs := Flagged(regs);
          raster := RasterIrq(true, false);
        }
      } else {
        raster := raster.(pending := false);
      }
    }

    method TickHalfCycle()
      requires SpritesOk(Model()) && BeamOk(beam)
      modifies this
      ensures Model() == TickHalf(profile, old(Model()))
    {
      ghost var before := Model();
      var action := ActionAt(Model());
      ActionIgnoresBusLines(before);
      TickParts(profile, before);
      hide *;
      UpdateBaAec();
      ExecuteTickActions(action);
      var lineDone := AdvanceBeam();
      if lineDone {
        CompareRasterLine();
      }
    }

    method AdvanceBeam() returns (lineDone: bool)
      requires BeamOk(beam)
      modifies this`beam
      ensures beam == Advance(old(beam)) && lineDone == EndsLine(old(beam))
    {
      lineDone := false;
      var b := beam;
      if !b.phi2 {
        b := b.(phi2 := true);
      } else {
        b := b.(phi2 := false, pixel := b.pixel + 1);
        if b.pixel >= 8 {
          b := b.(pixel := 0, cycle := b.cycle + 1);
          if b.cycle >= CYCLES_PER_LINE {
            b := b.(cycle := 0, line := b.line + 1);
            if b.line >= LINES_PER_FRAME {
              b := b.(line := 0);
            }
            lineDone := true;
          }
        }
      }
      beam := b;
    }

    method WriteControl1(val: Byte)
      modifies this`regs, this`glitches
      ensures Model() == Write(profile, old(Model()), 0x11, val)
    {
      Control1Effect(profile, Model(), val);
      var scrolled := Scrolls(regs, val);
      regs := regs.(ctrl1 := val);
      hide Write, Scrolls;
      if scrolled && beam.cycle >= 14 && beam.cycle <= 18 && (!profile.fldNeedsCarry || bus.badline) {
        glitches := glitches.(fld := true);
      }
    }

    method WriteControl2(val: Byte)
      modifies this`regs, this`glitches
      ensures Model() == Write(profile, old(Model()), 0x16, val)
    {
      Control2Effect(profile, Model(), val);
      var toggled := Toggles(regs, val);
      regs := regs.(ctrl2 := val);
      hide Write, Toggles;
      if toggled && beam.cycle == 14 && beam.pixel <= 1 && profile.vspSensitive {
        glitches := glitches.(vsp := true);
      }
    }

    method WriteIrqMask(val: Byte)
      modifies this`regs, this`raster
      ensures Model() == Write(profile, old(Model()), 0x1A, val)
    {
      MaskEffect(profile, Model(), val);
      hide Write, Enabling, EnablesRaster;
      var mask := Enabling(val);
      regs := regs.(irqMask := mask);
      if EnablesRaster(mask) {
        raster := raster.(maskEdgeArmed := true);
      }
    }

    method WriteOther(reg: nat, val: Byte)
      requires reg < 64 && reg !in {0x11, 0x16, 0x1A}
      modifies this`regs
      ensures Model() == Write(profile, old(Model()), reg, val)
    {
      hide Write, Acknowledged;
      if reg == 0x12 {
        RasterEffect(profile, Model(), val);
        regs := regs.(raster := val);
      } else if reg == 0x19 {
        FlagsEffect(profile, Model(), val);
        regs := regs.(irqFlags := Acknowledged(regs.irqFlags, val));
      } else {
        NoEffect(profile, Model(), reg, val);
      }
    }

    method WriteRegister(address: nat, val: Byte)
      modifies this`regs, this`glitches, this`raster
      ensures Model() == Write(profile, old(Model()), address, val)
    {
      var reg := address % 64;
      hide Write;
      WriteMirrors(profile, Model(), address, val);
      if reg == 0x11 {
        WriteControl1(val);
      } else if reg == 0x16 {
        WriteControl2(val);
      } else if reg == 0x1A {
        WriteIrqMask(val);
      } else {
        WriteOther(reg, val);
      }
    }
  }

  lemma ActWith(p: Profile, v: Chip, a: TickAction)
    requires SpritesOk(v) && a == ActionAt(v)
    ensures Act(p, v) ==
            match a
            case Nothing => v
            case LatchBadline => v.(busLocked := true, badlineActive := true)
            case UpdateDma => v.(dma := DmaUpdated(p, v))
            case ReleaseBadline => v.(busLocked := false, badlineActive := false)
  {
    hide ActionAt, DmaUpdated;
  }

  /** A half tick: bus lines, action, beam, and at the end of a line the comparison. */
  lemma TickParts(p: Profile, v: Chip)
    requires SpritesOk(v)
    ensures SpritesOk(BusLines(v)) && BusLines(v).beam == v.beam && Act(p, BusLines(v)).beam == v.beam
    ensures var v2 := Act(p, BusLines(v)).(beam := Advance(v.beam));
            TickHalf(p, v) == if EndsLine(v.beam) then CompareRaster(p, v2) else v2
  {
    hide ActionAt, BusWindow, CompareRaster, Advance, EndsLine, DmaUpdated;
  }

  /** The registers repeat every 64 addresses. */
  lemma WriteMirrors(p: Profile, v: Chip, address: nat, val: Byte)
    ensures Write(p, v, address, val) == Write(p, v, address % 64, val)
  {
    hide Written, TriggersFld, TriggersVsp, EnablesRaster;
  }

  lemma LowBit(val: Byte)
    ensures EnablesRaster(Enabling(val)) == EnablesRaster(val)
  {
  }

  lemma Control1Effect(p: Profile, v: Chip, val: Byte)
    ensures Write(p, v, 0x11, val)
         == v.(regs := v.regs.(ctrl1 := val),
               fld := v.fld || (Scrolls(v.regs, val) && 14 <= v.beam.cycle <= 18
                                && (p.fldNeedsCarry ==> v.badlineActive)))
  {
    hide Scrolls, EnablesRaster;
  }

  lemma Control2Effect(p: Profile, v: Chip, val: Byte)
    ensures Write(p, v, 0x16, val)
         == v.(regs := v.regs.(ctrl2 := val),
               vsp := v.vsp || (Toggles(v.regs, val) && v.beam.cycle == 14 && v.beam.pixel <= 1 && p.vspSensitive))
  {
    hide Toggles, EnablesRaster;
  }

  lemma RasterEffect(p: Profile, v: Chip, val: Byte)
    ensures Write(p, v, 0x12, val) == v.(regs := v.regs.(raster := val))
  {
    hide Scrolls, Toggles, EnablesRaster;
  }

  lemma FlagsEffect(p: Profile, v: Chip, val: Byte)
    ensures Write(p, v, 0x19, val) == v.(regs := v.regs.(irqFlags := Acknowledged(v.regs.irqFlags, val)))
  {
    hide Scrolls, Toggles, EnablesRaster, Acknowledged;
  }

  lemma MaskEffect(p: Profile, v: Chip, val: Byte)
    ensures Write(p, v, 0x1A, val)
         == v.(regs := v.regs.(irqMask := Enabling(val)),
               maskEdgeArmed := v.maskEdgeArmed || EnablesRaster(Enabling(val)))
  {
    LowBit(val);
    hide Scrolls, Toggles, EnablesRaster, Enabling;
  }

  lemma NoEffect(p: Profile, v: Chip, reg: nat, val: Byte)
    requires reg < 64 && reg !in {0x11, 0x12, 0x16, 0x19, 0x1A}
    ensures Write(p, v, reg, val) == v
  {
    hide Scrolls, Toggles, EnablesRaster;
  }
}
