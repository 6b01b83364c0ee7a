/** The video chip's half-cycle machine: beam counter, badline bus lock, sprite DMA and raster
    interrupt, under half ticks interleaved with any register writes. */
module Vic {

  const CYCLES_PER_LINE := 63
  const LINES_PER_FRAME := 312
  const HALVES_PER_LINE := 1008
  const LATCH := 192
  const DMA_UPDATE := 880
  const RELEASE := 881
  const SPRITES := 8

  type Byte = bv8

  datatype Profile = Profile(irqNeedsMaskEdge: bool, dmaNeedsDisplay: bool, vspSensitive: bool,
                             fldNeedsCarry: bool, extraStopLine: nat)

  datatype Revision = R6569 | R8565 | R6569R3 | R8565R2

  function ProfileOf(r: Revision): Profile {
    match r
    case R6569 => Profile(false, false, true, false, 1)
    case R6569R3 => Profile(false, false, true, false, 0)
    case R8565 => Profile(true, true, false, true, 0)
    case R8565R2 => Profile(true, true, false, true, 0)
  }

  datatype Beam = Beam(phi2: bool, pixel: nat, cycle: nat, line: nat)

  datatype Registers = Registers(ctrl1: Byte, raster: Byte, ctrl2: Byte, irqFlags: Byte, irqMask: Byte)

  datatype Chip = Chip(
    beam: Beam, regs: Registers, sprEnable: seq<bool>, sprY: seq<nat>, dma: seq<bool>,
    busLocked: bool, badlineActive: bool, ba: bool, aec: bool,
    irqPending: bool, maskEdgeArmed: bool, fld: bool, vsp: bool)

  // ---- the beam ------------------------------------------------------------------------------------

  /** The half cycle within the line, 0..1007. */
  function Half(b: Beam): nat {
    b.cycle * 16 + b.pixel * 2 + if b.phi2 then 1 else 0
  }

  predicate BeamOk(b: Beam) {
    b.pixel < 8 && b.cycle < CYCLES_PER_LINE && b.line < LINES_PER_FRAME
  }

  /** The half cycle within the frame. */
  function Position(b: Beam): nat {
    b.line * HALVES_PER_LINE + Half(b)
  }

  predicate EndsLine(b: Beam) {
    b.phi2 && b.pixel == 7 && b.cycle == CYCLES_PER_LINE - 1
  }

  function Advance(b: Beam): Beam {
    if !b.phi2 then b.(phi2 := true)
    else if b.pixel + 1 < 8 then b.(phi2 := false, pixel := b.pixel + 1)
    else if b.cycle + 1 < CYCLES_PER_LINE then b.(phi2 := false, pixel := 0, cycle := b.cycle + 1)
    else Beam(false, 0, 0, if b.line + 1 >= LINES_PER_FRAME then 0 else b.line + 1)
  }

  // ---- one half tick -----------------------------------------------------------------------------------

  predicate DisplayEnabled(v: Chip) {
    v.regs.ctrl1 & 0x10 != 0
  }

  predicate Badline(v: Chip) {
    DisplayEnabled(v) && 48 <= v.beam.line <= 247 && v.beam.line % 8 == (v.regs.ctrl1 & 0x07) as int
  }

  datatype Operation = Refresh | Video | Sprite

  function OperationOf(cycle: nat): Operation {
    if 8 <= cycle <= 14 || 57 <= cycle <= 62 then Sprite
    else if 15 <= cycle <= 54 then Video
    else Refresh
  }

  predicate AnyDma(v: Chip) {
    true in v.dma
  }

  /** The chip needs the bus for a fetch in this half cycle. */
  predicate BusWindow(v: Chip) {
    v.beam.phi2 &&
    match OperationOf(v.beam.cycle)
    case Video => v.beam.pixel < 3
    case Sprite => v.beam.pixel < 4 && AnyDma(v)
    case Refresh => false
  }

  datatype TickAction = Nothing | LatchBadline | UpdateDma | ReleaseBadline

  /** What the step table prescribes, after its predicates. */
  function ActionAt(v: Chip): TickAction {
    var b := v.beam;
    if b.pixel == 0 && !b.phi2 && b.cycle == 12 then if Badline(v) then LatchBadline else Nothing
    else if b.pixel == 0 && !b.phi2 && b.cycle == 55 then UpdateDma
    else if b.pixel == 0 && b.phi2 && b.cycle == 55 then if v.busLocked then ReleaseBadline else Nothing
    else Nothing
  }

  function BusLines(v: Chip): Chip {
    var locked := v.busLocked && 12 <= v.beam.cycle <= 54;
    var owned := BusWindow(v) || locked;
    v.(ba := !owned, aec := !owned)
  }

  function StopLine(p: Profile, y: nat): nat {
    y + 21 + p.extraStopLine
  }

  predicate SpritesOk(v: Chip) {
    && |v.sprEnable| == SPRITES && |v.sprY| == SPRITES && |v.dma| == SPRITES
    && forall s :: 0 <= s < SPRITES ==> v.sprY[s] < 256
  }

  /** The DMA flag of one sprite after the update at cycle 55. */
  predicate DmaAfter(p: Profile, v: Chip, s: nat)
    requires SpritesOk(v) && s < SPRITES
  {
    if v.dma[s] then v.sprEnable[s] && v.beam.line < StopLine(p, v.sprY[s])
    else v.sprEnable[s] && v.beam.line == v.sprY[s] && (p.dmaNeedsDisplay ==> DisplayEnabled(v))
  }

  function DmaUpdated(p: Profile, v: Chip): (r: seq<bool>)
    requires SpritesOk(v)
    ensures |r| == SPRITES && forall s :: 0 <= s < SPRITES ==> r[s] == DmaAfter(p, v, s)
  {
    seq(SPRITES, s requires 0 <= s < SPRITES => DmaAfter(p, v, s))
  }

  function Act(p: Profile, v: Chip): Chip
    requires SpritesOk(v)
  {
    var a := ActionAt(v);
    v.(busLocked := a.LatchBadline? || (v.busLocked && !a.ReleaseBadline?),
       badlineActive := a.LatchBadline? || (v.badlineActive && !a.ReleaseBadline?),
       dma := if a.UpdateDma? then DmaUpdated(p, v) else v.dma)
  }

  function CompareValue(r: Registers): nat {
    (if r.ctrl1 & 0x80 != 0 then 256 else 0) + r.raster as int
  }

  predicate RasterEnabled(r: Registers) {
    r.irqMask & 0x01 != 0
  }

  function Flagged(r: Registers): Registers {
    r.(irqFlags := r.irqFlags | 0x01)
  }

  predicate IrqAllowed(p: Profile, v: Chip) {
    RasterEnabled(v.regs) && (p.irqNeedsMaskEdge ==> v.maskEdgeArmed)
  }

  /** The raster comparison at the start of a line raises its interrupt. */
  predicate RaisesIrq(p: Profile, v: Chip) {
    v.beam.line == CompareValue(v.regs) && IrqAllowed(p, v) && !v.irqPending
  }

  function CompareRaster(p: Profile, v: Chip): Chip {
    var raises := RaisesIrq(p, v);
    v.(regs := if raises then Flagged(v.regs) else v.regs,
       irqPending := v.beam.line == CompareValue(v.regs) && (raises || v.irqPending),
       maskEdgeArmed := !raises && v.maskEdgeArmed)
  }

  function TickHalf(p: Profile, v: Chip): Chip
    requires SpritesOk(v)
  {
    var v1 := Act(p, BusLines(v));
    var v2 := v1.(beam := Advance(v1.beam));
    if EndsLine(v1.beam) then CompareRaster(p, v2) else v2
  }

  // ---- register writes -----------------------------------------------------------------------------------

  /** Flags are acknowledged by writing ones. */
  function Acknowledged(flags: Byte, val: Byte): Byte {
    flags & !(val & 0x0F)
  }

  function Enabling(val: Byte): Byte {
    val & 0x0F
  }

  function Written(r: Registers, reg: nat, val: Byte): Registers {
    if reg == 0x11 then r.(ctrl1 := val)
    else if reg == 0x12 then r.(raster := val)
    else if reg == 0x16 then r.(ctrl2 := val)
    else if reg == 0x19 then r.(irqFlags := Acknowledged(r.irqFlags, val))
    else if reg == 0x1A then r.(irqMask := Enabling(val))
    else r
  }

  predicate Scrolls(r: Registers, val: Byte) {
    (r.ctrl1 ^ val) & 0x07 != 0
  }

  predicate Toggles(r: Registers, val: Byte) {
    (r.ctrl2 ^ val) & 0x08 != 0
  }

  predicate TriggersFld(p: Profile, v: Chip, reg: nat, val: Byte) {
    reg == 0x11 && Scrolls(v.regs, val) && 14 <= v.beam.cycle <= 18 && (p.fldNeedsCarry ==> v.badlineActive)
  }

  predicate TriggersVsp(p: Profile, v: Chip, reg: nat, val: Byte) {
    reg == 0x16 && Toggles(v.regs, val) && v.beam.cycle == 14 && v.beam.pixel <= 1 && p.vspSensitive
  }

  predicate EnablesRaster(val: Byte) {
    val & 0x01 != 0
  }

  function Write(p: Profile, v: Chip, address: nat, val: Byte): Chip {
    var reg := address % 64;
    v.(regs := Written(v.regs, reg, val),
       maskEdgeArmed := v.maskEdgeArmed || (reg == 0x1A && EnablesRaster(val)),
       fld := v.fld || TriggersFld(p, v, reg, val),
       vsp := v.vsp || TriggersVsp(p, v, reg, val))
  }

  // ---- runs ------------------------------------------------------------------------------------------------

  datatype Op = HalfTick | WriteReg(address: nat, val: Byte) | EnableSprites(enable: seq<bool>)

  predicate OpOk(op: Op) {
    op.EnableSprites? ==> |op.enable| == SPRITES
  }

  predicate OpsOk(ops: seq<Op>) {
    forall i :: 0 <= i < |ops| ==> OpOk(ops[i])
  }

  function Step(p: Profile, v: Chip, op: Op): Chip
    requires SpritesOk(v) && OpOk(op)
  {
    match op
    case HalfTick => TickHalf(p, v)
    case WriteReg(address, val) => Write(p, v, address, val)
    case EnableSprites(enable) => v.(sprEnable := enable)
  }

  function HalfTicks(ops: seq<Op>): nat {
    if ops == [] then 0 else HalfTicks(ops[1..]) + if ops[0].HalfTick? then 1 else 0
  }

  function PowerOn(sprY: seq<nat>): Chip {
    Chip(Beam(false, 0, 0, 0), Registers(0, 0, 0, 0, 0), seq(SPRITES, _ => false), sprY, seq(SPRITES, _ => false),
        false, false, true, true, false, false, false, false)
  }

  // ---- what every step keeps ---------------------------------------------------------------------------------

  /** Lock and badline flag agree, and a lock lies between its latch and its release in one line. */
  predicate LockOk(v: Chip) {
    v.busLocked == v.badlineActive && (v.busLocked ==> LATCH < Half(v.beam) <= RELEASE)
  }

  predicate Ok(v: Chip) {
    SpritesOk(v) && BeamOk(v.beam) && LockOk(v)
  }

  lemma AdvanceMovesOne(b: Beam)
    requires BeamOk(b)
    ensures BeamOk(Advance(b))
    ensures Position(Advance(b)) == (Position(b) + 1) % (LINES_PER_FRAME * HALVES_PER_LINE)
    ensures Half(Advance(b)) == if EndsLine(b) then 0 else Half(b) + 1
    ensures EndsLine(b) <==> Half(b) == HALVES_PER_LINE - 1
    ensures !EndsLine(b) ==> Advance(b).line == b.line
  {
  }

  lemma CompareKeeps(p: Profile, v: Chip)
    ensures var w := CompareRaster(p, v);
            w == v.(regs := w.regs, irqPending := w.irqPending, maskEdgeArmed := w.maskEdgeArmed)
  {
    hide RaisesIrq, CompareValue;
  }

  lemma WriteKeeps(p: Profile, v: Chip, address: nat, val: Byte)
    ensures var w := Write(p, v, address, val);
            w == v.(regs := w.regs, maskEdgeArmed := w.maskEdgeArmed, fld := w.fld, vsp := w.vsp)
  {
    hide Written, TriggersFld, TriggersVsp;
  }

  lemma ActionAtHalf(v: Chip)
    requires BeamOk(v.beam)
    ensures ActionAt(v).LatchBadline? <==> Half(v.beam) == LATCH && Badline(v)
    ensures ActionAt(v).UpdateDma? <==> Half(v.beam) == DMA_UPDATE
    ensures ActionAt(v).ReleaseBadline? <==> Half(v.beam) == RELEASE && v.busLocked
  {
    hide Badline;
  }

  /** A half tick in terms of the half cycle it falls on. */
  lemma TickEffect(p: Profile, v: Chip)
    requires SpritesOk(v) && BeamOk(v.beam)
    ensures var h, w := Half(v.beam), TickHalf(p, v);
            && w.beam == Advance(v.beam) && w.sprY == v.sprY && w.sprEnable == v.sprEnable && SpritesOk(w)
            && w.busLocked == (if h == LATCH && Badline(v) then true else if h == RELEASE then false else v.busLocked)
            && w.badlineActive == (if h == LATCH && Badline(v) then true
                                   else if h == RELEASE && v.busLocked then false else v.badlineActive)
            && (h != DMA_UPDATE ==> w.dma == v.dma)
            && (h == DMA_UPDATE ==> forall s :: 0 <= s < SPRITES ==> w.dma[s] == DmaAfter(p, v, s))
            && w.ba == w.aec == !(BusWindow(v) || (v.busLocked && 12 <= v.beam.cycle <= 54))
  {
    hide Badline, CompareRaster, DmaAfter, Half, BusWindow, EndsLine, Advance, ActionAt, Act;
    ActionAtHalf(v);
    ActionIgnoresBusLines(v);
    DmaIgnoresBusLines(p, v);
    var v1 := Act(p, BusLines(v));
    ActEffect(p, BusLines(v));
    CompareKeeps(p, v1.(beam := Advance(v1.beam)));
  }

  lemma ActEffect(p: Profile, v: Chip)
    requires SpritesOk(v)
    ensures var a, w := ActionAt(v), Act(p, v);
            && w == v.(busLocked := w.busLocked, badlineActive := w.badlineActive, dma := w.dma)
            && w.busLocked == (a.LatchBadline? || (v.busLocked && !a.ReleaseBadline?))
            && w.badlineActive == (a.LatchBadline? || (v.badlineActive && !a.ReleaseBadline?))
            && |w.dma| == SPRITES
            && (!a.UpdateDma? ==> w.dma == v.dma)
            && (a.UpdateDma? ==> forall s :: 0 <= s < SPRITES ==> w.dma[s] == DmaAfter(p, v, s))
  {
    hide ActionAt, DmaAfter;
  }

  lemma ActionIgnoresBusLines(v: Chip)
    ensures ActionAt(BusLines(v)) == ActionAt(v)
  {
    hide BusWindow;
  }

  lemma DmaIgnoresBusLines(p: Profile, v: Chip)
    requires SpritesOk(v)
    ensures forall s :: 0 <= s < SPRITES ==> DmaAfter(p, BusLines(v), s) == DmaAfter(p, v, s)
  {
    hide BusWindow;
  }

  lemma StepKeepsOk(p: Profile, v: Chip, op: Op)
    requires Ok(v) && OpOk(op)
    ensures var w := Step(p, v, op);
            && Ok(w) && w.sprY == v.sprY
            && w.beam == (if op.HalfTick? then Advance(v.beam) else v.beam)
  {
    hide TickHalf, Write, Badline;
    match op
    case HalfTick =>
      AdvanceMovesOne(v.beam);
      TickEffect(p, v);
      hide Half, Advance;
    case WriteReg(address, val) => WriteKeeps(p, v, address, val);
    case EnableSprites(_) =>
  }

  ghost function Run(p: Profile, v: Chip, ops: seq<Op>): (r: Chip)
    requires Ok(v) && OpsOk(ops)
    ensures Ok(r) && r.sprY == v.sprY
    decreases |ops|
  {
    if ops == [] then v else StepKeepsOk(p, v, ops[0]); Run(p, Step(p, v, ops[0]), ops[1..])
  }

  lemma PowerOnOk(sprY: seq<nat>)
    requires |sprY| == SPRITES && forall s :: 0 <= s < SPRITES ==> sprY[s] < 256
    ensures Ok(PowerOn(sprY))
  {
  }

  // ---- the badline lock --------------------------------------------------------------------------------------

  lemma StepWithinLine(p: Profile, v: Chip, op: Op)
    requires Ok(v) && OpOk(op) && LATCH < Half(v.beam) && (op.HalfTick? ==> Half(v.beam) + 1 < HALVES_PER_LINE)
    ensures var w := Step(p, v, op);
            && w.beam.line == v.beam.line
            && Half(w.beam) == Half(v.beam) + (if op.HalfTick? then 1 else 0)
            && (w.busLocked <==> v.busLocked && Half(w.beam) <= RELEASE)
  {
    hide TickHalf, Write, Badline;
    match op
    case HalfTick =>
      AdvanceMovesOne(v.beam);
      TickEffect(p, v);
      hide Half, Advance;
    case WriteReg(address, val) => WriteKeeps(p, v, address, val);
    case EnableSprites(_) =>
  }

  /** Past the latch, a lock stands until the release and none begins. */
  lemma {:induction false} RunWithinLine(p: Profile, v: Chip, ops: seq<Op>)
    requires Ok(v) && OpsOk(ops) && LATCH < Half(v.beam) && Half(v.beam) + HalfTicks(ops) < HALVES_PER_LINE
    ensures var r := Run(p, v, ops);
            && r.beam.line == v.beam.line
            && Half(r.beam) == Half(v.beam) + HalfTicks(ops)
            && (r.busLocked <==> v.busLocked && Half(r.beam) <= RELEASE)
    decreases |ops|
  {
    hide Step, Half;
    if ops != [] {
      StepWithinLine(p, v, ops[0]);
      StepKeepsOk(p, v, ops[0]);
      RunWithinLine(p, Step(p, v, ops[0]), ops[1..]);
    }
  }

  /** A lock begins exactly at a badline's latch cycle and lasts exactly 689 half ticks, within one line,
      whatever registers are written meanwhile. */
  lemma LockWindow(p: Profile, v: Chip, ops: seq<Op>)
    requires Ok(v) && OpsOk(ops) && Half(v.beam) == LATCH
    requires ops != [] && ops[0].HalfTick? && LATCH + HalfTicks(ops) < HALVES_PER_LINE
    ensures var r := Run(p, v, ops);
            && r.beam.line == v.beam.line
            && (r.busLocked <==> Badline(v) && HalfTicks(ops) <= 689)
            && r.badlineActive == r.busLocked
  {
    hide Badline, TickHalf, Half, Advance;
    StepKeepsOk(p, v, HalfTick);
    AdvanceMovesOne(v.beam);
    TickEffect(p, v);
    var w := Step(p, v, HalfTick);
    RunWithinLine(p, w, ops[1..]);
  }

  /** While a lock stands in the display cycles the chip holds the bus at every half tick. */
  lemma LockedHoldsBus(p: Profile, v: Chip)
    requires Ok(v) && v.busLocked && v.beam.cycle <= 54
    ensures !TickHalf(p, v).ba && !TickHalf(p, v).aec
  {
    hide TickHalf, Badline, BusWindow;
    TickEffect(p, v);
  }

  // ---- sprite DMA -----------------------------------------------------------------------------------------------

  /** From cycle 55 of the sprite's line to cycle 55 of its stop line. */
  predicate InDmaWindow(p: Profile, b: Beam, y: nat) {
    y * HALVES_PER_LINE + RELEASE <= Position(b) <= StopLine(p, y) * HALVES_PER_LINE + DMA_UPDATE
  }

  lemma WindowMoves(p: Profile, b: Beam, y: nat)
    requires BeamOk(b) && y < 256 && p.extraStopLine <= 1
    ensures Half(b) != DMA_UPDATE ==> (InDmaWindow(p, Advance(b), y) <==> InDmaWindow(p, b, y))
    ensures Half(b) == DMA_UPDATE ==>
            (InDmaWindow(p, Advance(b), y) <==> b.line == y || (InDmaWindow(p, b, y) && b.line < StopLine(p, y)))
    ensures Half(b) == DMA_UPDATE && b.line == y ==> !InDmaWindow(p, b, y)
  {
    AdvanceMovesOne(b);
    HalfInLine(b);
    HalfInLine(Advance(b));
    hide Advance, Half, EndsLine, BeamOk;
    var h := Half(b);
    assert Position(b) == b.line * HALVES_PER_LINE + h;
    assert StopLine(p, y) < LINES_PER_FRAME - 1;
    var line, stop, last := b.line, StopLine(p, y), b.line == LINES_PER_FRAME - 1 && h == HALVES_PER_LINE - 1;
    assert last ==> Position(Advance(b)) == 0;
    assert !last ==> Position(Advance(b)) == Position(b) + 1;
    if h == DMA_UPDATE {
      assert Position(b) + 1 == line * HALVES_PER_LINE + RELEASE;
    }
  }

  lemma HalfInLine(b: Beam)
    requires BeamOk(b)
    ensures 0 <= Half(b) < HALVES_PER_LINE
  {
  }

  predicate DmaOk(p: Profile, v: Chip, s: nat)
    requires SpritesOk(v) && s < SPRITES
  {
    v.dma[s] ==> InDmaWindow(p, v.beam, v.sprY[s])
  }

  /** The sprite stays enabled, and the display too where the revision asks for it. */
  predicate Nourished(p: Profile, v: Chip, s: nat)
    requires SpritesOk(v) && s < SPRITES
  {
    v.sprEnable[s] && (p.dmaNeedsDisplay ==> DisplayEnabled(v))
  }

  predicate Nourishes(p: Profile, op: Op, s: nat)
    requires OpOk(op) && s < SPRITES
  {
    match op
    case HalfTick => true
    case WriteReg(address, val) => p.dmaNeedsDisplay && address % 64 == 0x11 ==> val & 0x10 != 0
    case EnableSprites(enable) => enable[s]
  }

  lemma StepKeepsDma(p: Profile, v: Chip, op: Op, s: nat)
    requires Ok(v) && OpOk(op) && s < SPRITES && p.extraStopLine <= 1 && DmaOk(p, v, s)
    ensures StepKeepsOkFor(p, v, op) && DmaOk(p, Step(p, v, op), s)
    ensures Nourished(p, v, s) && (v.dma[s] <==> InDmaWindow(p, v.beam, v.sprY[s]))
            ==> (Step(p, v, op).dma[s] <==> InDmaWindow(p, Step(p, v, op).beam, v.sprY[s]))
  {
    hide TickHalf, Write, Badline, InDmaWindow, Half, DisplayEnabled;
    StepKeepsOk(p, v, op);
    match op
    case HalfTick =>
      TickEffect(p, v);
      WindowMoves(p, v.beam, v.sprY[s]);
    case WriteReg(address, val) => WriteKeeps(p, v, address, val);
    case EnableSprites(_) =>
  }

  predicate StepKeepsOkFor(p: Profile, v: Chip, op: Op)
    requires SpritesOk(v) && OpOk(op)
  {
    Ok(Step(p, v, op))
  }

  lemma StepKeepsNourished(p: Profile, v: Chip, op: Op, s: nat)
    requires Ok(v) && OpOk(op) && s < SPRITES && Nourished(p, v, s) && Nourishes(p, op, s)
    ensures StepKeepsOkFor(p, v, op) && Nourished(p, Step(p, v, op), s)
  {
    StepKeepsOk(p, v, op);
    hide Badline, Half, Position, TickHalf;
    match op
    case HalfTick =>
      TickEffect(p, v);
      TickKeepsControl(p, v);
    case WriteReg(address, val) => WriteKeeps(p, v, address, val);
    case EnableSprites(_) =>
  }

  lemma TickKeepsControl(p: Profile, v: Chip)
    requires SpritesOk(v)
    ensures TickHalf(p, v).regs.ctrl1 == v.regs.ctrl1
  {
    hide Badline, ActionAt, BusWindow, EndsLine, Advance, RaisesIrq, CompareValue, DmaUpdated;
  }

  /** A sprite fetches only inside its window, for every revision and any interleaving of register
      writes; if it stays enabled (and the display on, where needed) it fetches throughout the window. */
  lemma {:induction false} DmaWindow(r: Revision, v: Chip, ops: seq<Op>, s: nat)
    requires Ok(v) && OpsOk(ops) && s < SPRITES && DmaOk(ProfileOf(r), v, s)
    ensures var p, w := ProfileOf(r), Run(ProfileOf(r), v, ops);
            && DmaOk(p, w, s)
            && (Nourished(p, v, s) && (forall i :: 0 <= i < |ops| ==> Nourishes(p, ops[i], s))
                && (v.dma[s] <==> InDmaWindow(p, v.beam, v.sprY[s]))
                ==> (w.dma[s] <==> InDmaWindow(p, w.beam, w.sprY[s])))
    decreases |ops|
  {
    hide Step, InDmaWindow, Nourished, Nourishes;
    var p := ProfileOf(r);
    if ops != [] {
      StepKeepsOk(p, v, ops[0]);
      StepKeepsDma(p, v, ops[0], s);
      if Nourished(p, v, s) && Nourishes(p, ops[0], s) {
        StepKeepsNourished(p, v, ops[0], s);
      }
      DmaWindow(r, Step(p, v, ops[0]), ops[1..], s);
    }
  }

  // ---- the raster interrupt -----------------------------------------------------------------------------------

  lemma StepKeepsPendingInLine(p: Profile, v: Chip, op: Op)
    requires Ok(v) && OpOk(op) && (op.HalfTick? ==> !EndsLine(v.beam))
    ensures Step(p, v, op).irqPending == v.irqPending
  {
    hide Badline, Half, BusWindow, ActionAt, DmaUpdated, Written, TriggersFld, TriggersVsp, CompareRaster;
  }

  lemma {:induction false} PendingWithinLine(p: Profile, v: Chip, ops: seq<Op>)
    requires Ok(v) && OpsOk(ops) && Half(v.beam) + HalfTicks(ops) < HALVES_PER_LINE
    ensures var r := Run(p, v, ops);
            r.irqPending == v.irqPending && Half(r.beam) == Half(v.beam) + HalfTicks(ops) && r.beam.line == v.beam.line
    decreases |ops|
  {
    hide Step, Half;
    if ops != [] {
      AdvanceMovesOne(v.beam);
      StepKeepsOk(p, v, ops[0]);
      StepKeepsPendingInLine(p, v, ops[0]);
      PendingWithinLine(p, Step(p, v, ops[0]), ops[1..]);
    }
  }

  /** The half tick that ends a line raises the raster interrupt exactly if the new line is the one
      asked for, the interrupt is allowed, and the line just ended did not leave it pending. */
  lemma RasterIrqIff(p: Profile, v: Chip)
    requires Ok(v) && EndsLine(v.beam) && v.regs.irqFlags & 0x01 == 0
    ensures TickHalf(p, v).regs.irqFlags & 0x01 != 0
         <==> Advance(v.beam).line == CompareValue(v.regs) && IrqAllowed(p, v) && !v.irqPending
  {
    hide Badline, BusWindow, DmaUpdated, ActionAt, Half, CompareValue, Advance, EndsLine;
    var v1 := Act(p, BusLines(v));
    assert v1.regs == v.regs && v1.irqPending == v.irqPending && v1.maskEdgeArmed == v.maskEdgeArmed
        && v1.beam == v.beam;
  }

  /** A line that ends on an allowed match, whether it raises or is already pending, leaves the match
      pending at the start of the next line. */
  lemma MatchStaysPending(p: Profile, v: Chip)
    requires Ok(v) && EndsLine(v.beam) && Advance(v.beam).line == CompareValue(v.regs) && IrqAllowed(p, v)
    ensures var w := TickHalf(p, v); Ok(w) && Half(w.beam) == 0 && w.irqPending
  {
    StepKeepsOk(p, v, HalfTick);
    AdvanceMovesOne(v.beam);
    var v1 := Act(p, BusLines(v));
    assert v1.regs == v.regs && v1.irqPending == v.irqPending && v1.maskEdgeArmed == v.maskEdgeArmed
        && v1.beam == v.beam by {
      hide Badline, BusWindow, DmaUpdated, ActionAt;
    }
    hide Badline, BusWindow, DmaUpdated, ActionAt, Half, Act, BusLines, CompareValue, Advance, EndsLine, Ok;
  }

  /** From a pending match at the start of a line, the end of that line raises nothing. */
  lemma PendingLineNeverRaises(p: Profile, v: Chip, ops: seq<Op>)
    requires Ok(v) && Half(v.beam) == 0 && v.irqPending
    requires OpsOk(ops) && HalfTicks(ops) == HALVES_PER_LINE - 1
    ensures var r := Run(p, v, ops);
            EndsLine(r.beam) && (r.regs.irqFlags & 0x01 == 0 ==> TickHalf(p, r).regs.irqFlags & 0x01 == 0)
  {
    hide TickHalf, Half;
    PendingWithinLine(p, v, ops);
    var r := Run(p, v, ops);
    AdvanceMovesOne(r.beam);
    if r.regs.irqFlags & 0x01 == 0 {
      RasterIrqIff(p, r);
    }
  }

  /** An interrupt asked for on the line directly after one that raised is lost: whatever is written in
      between, acknowledging the first and asking for the next line, the end of that line raises nothing. */
  lemma NextLineNeverRaises(p: Profile, v: Chip, ops: seq<Op>)
    requires Ok(v) && EndsLine(v.beam) && v.regs.irqFlags & 0x01 == 0
    requires TickHalf(p, v).regs.irqFlags & 0x01 != 0
    requires OpsOk(ops) && HalfTicks(ops) == HALVES_PER_LINE - 1
    ensures Ok(TickHalf(p, v))
    ensures var r := Run(p, TickHalf(p, v), ops);
            EndsLine(r.beam) && (r.regs.irqFlags & 0x01 == 0 ==> TickHalf(p, r).regs.irqFlags & 0x01 == 0)
  {
    hide TickHalf, CompareValue, Half, IrqAllowed;
    RasterIrqIff(p, v);
    MatchStaysPending(p, v);
    PendingLineNeverRaises(p, TickHalf(p, v), ops);
  }
}
