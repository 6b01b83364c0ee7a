/** The read channel's phase-locked loop: its phase error stays bounded under every noise it can make. */
module Pll {

  const DEFAULT_SEED: bv32 := 0x15414A17
  const LOCK_LIMIT := 520
  const UINT32_MAX := 0xFFFF_FFFF

  datatype Calibration = Calibration(noiseFloor: nat, jitterScale: nat, lockGain: nat)

  datatype Loop = Loop(zone: nat, revision: nat, rng: bv32, lockTime: nat, phaseErr: int, calibration: Calibration)

  datatype Sample = Sample(lockTime: nat, phaseNoise: nat, jitterWindow: nat, locked: bool)

  const DEFAULTS := Calibration(22, 30, 250)

  function Reset(seed: bv32): Loop {
    Loop(0, 0, if seed == 0 then DEFAULT_SEED else seed, 0, 0, DEFAULTS)
  }

  /** Division that rounds toward zero. */
  function Quotient(a: int, d: int): int
    requires d > 0
  {
    if a >= 0 then a / d else -(-a / d)
  }

  function Abs(a: int): nat {
    if a < 0 then -a else a
  }

  // ---- noise ------------------------------------------------------------------------------------------

  function NextRandom(rng: bv32): bv32 {
    XorLeft5(XorRight17(XorLeft13(rng)))
  }

  function XorLeft13(x: bv32): bv32 {
    x ^ (x << 13)
  }

  function XorRight17(x: bv32): bv32 {
    x ^ (x >> 17)
  }

  function XorLeft5(x: bv32): bv32 {
    x ^ (x << 5)
  }

  lemma BucketFits(x: bv32)
    ensures (x >> 4) & 0x3F < 64
  {
  }

  /** Six bits of the generator. */
  function Bucket(x: bv32): bv6 {
    BucketFits(x);
    ((x >> 4) & 0x3F) as bv6
  }

  function RandomNoise(x: bv32, noiseFloor: nat): int {
    Quotient((Bucket(x) as int - 31) * noiseFloor, 8)
  }

  function ZoneNoise(zone: nat): nat {
    if zone % 4 == 0 then 6 else if zone % 4 == 1 then 11 else if zone % 4 == 2 then 17 else 23
  }

  function RevisionSlew(revision: nat): nat {
    if revision == 1 then 9 else if revision == 2 then 7 else 12
  }

  function Jitter(cellTicks: nat, jitterScale: nat): nat {
    cellTicks % 8 * jitterScale / 8
  }

  /** Everything that pushes the phase in one bit cell. */
  function DriveNoise(l: Loop, cellTicks: nat): int {
    RandomNoise(NextRandom(l.rng), l.calibration.noiseFloor) + ZoneNoise(l.zone) + RevisionSlew(l.revision)
    + Jitter(cellTicks, l.calibration.jitterScale)
  }

  // ---- the loop -----------------------------------------------------------------------------------------

  /** The phase error after a push and the correction by the lock gain. */
  function Corrected(error: int, noise: int, gain: nat): int {
    error + noise - Quotient((error + noise) * gain, 1000)
  }

  function Advance(l: Loop, cellTicks: nat): Loop {
    l.(rng := NextRandom(l.rng),
       phaseErr := Corrected(l.phaseErr, DriveNoise(l, cellTicks), l.calibration.lockGain),
       lockTime := if l.lockTime < UINT32_MAX then l.lockTime + 1 else l.lockTime)
  }

  /** What the channel reports; `l` is the loop after the step. */
  function Report(l: Loop): Sample {
    Sample(l.lockTime, l.calibration.noiseFloor + (Abs(l.phaseErr) + 2) / 5,
           l.calibration.jitterScale + Abs(RandomNoise(l.rng, l.calibration.noiseFloor)) / 4,
           Abs(l.phaseErr) <= LOCK_LIMIT)
  }

  // ---- the error bound -------------------------------------------------------------------------------------

  /** With a gain of at most 1000 the correction leaves the error's sign and shrinks it by the gain,
      rounding up. */
  lemma CorrectionShrinks(x: int, gain: nat)
    requires gain <= 1000
    ensures var r := x - Quotient(x * gain, 1000);
            && (x >= 0 ==> 0 <= r <= x) && (x <= 0 ==> x <= r <= 0)
            && 1000 * Abs(r) >= Abs(x) * (1000 - gain)
            && 1000 * Abs(r) < Abs(x) * (1000 - gain) + 1000
  {
    var y := Abs(x);
    assert 0 <= y * gain <= y * 1000;
    assert x < 0 ==> -(x * gain) == y * gain;
    assert y * (1000 - gain) == y * 1000 - y * gain;
  }

  predicate Within(e: int, bound: nat) {
    Abs(e) <= bound
  }

  ghost predicate KeepsBand(bound: nat, noiseBound: nat, gain: nat) {
    forall e: int, n: int :: Within(e, bound) && Within(n, noiseBound) ==> Within(Corrected(e, n, gain), bound)
  }

  lemma EdgeProduct(bound: nat, noiseBound: nat, gain: nat)
    requires gain <= 1000
    ensures (bound + noiseBound) * (1000 - gain) == bound * 1000 - gain * bound + noiseBound * (1000 - gain)
  {
  }

  lemma ProductGrows(a: nat, b: nat, f: nat)
    requires a <= b
    ensures a * f <= b * f
  {
  }

  lemma StaysInside(e: int, n: int, bound: nat, noiseBound: nat, gain: nat)
    requires gain <= 1000 && noiseBound * (1000 - gain) <= gain * bound && Within(e, bound) && Within(n, noiseBound)
    ensures Within(Corrected(e, n, gain), bound)
  {
    hide Quotient;
    EdgeProduct(bound, noiseBound, gain);
    CorrectionShrinks(e + n, gain);
    ProductGrows(Abs(e + n), bound + noiseBound, 1000 - gain);
  }

  lemma EdgeLeaves(bound: nat, noiseBound: nat, gain: nat)
    requires gain <= 1000 && noiseBound * (1000 - gain) > gain * bound
    ensures !Within(Corrected(bound, noiseBound, gain), bound)
  {
    hide Quotient;
    EdgeProduct(bound, noiseBound, gain);
    CorrectionShrinks(bound + noiseBound, gain);
  }

  /** The exact stability condition: a band of errors is kept under all noise up to a bound exactly if the
      gain takes back at least what the noise adds at the edge of the band. */
  lemma BandKeptIff(bound: nat, noiseBound: nat, gain: nat)
    requires gain <= 1000
    ensures KeepsBand(bound, noiseBound, gain) <==> noiseBound * (1000 - gain) <= gain * bound
  {
    if noiseBound * (1000 - gain) <= gain * bound {
      forall e: int, n: int | Within(e, bound) && Within(n, noiseBound) ensures Within(Corrected(e, n, gain), bound) {
        StaysInside(e, n, bound, noiseBound, gain);
      }
    } else {
      EdgeLeaves(bound, noiseBound, gain);
      assert Within(bound, bound) && Within(noiseBound, noiseBound);
    }
  }

  /** With a gain of 1000 or more the correction overshoots by the excess gain, rounding down. */
  lemma CorrectionOvershoots(x: int, gain: nat)
    requires gain >= 1000
    ensures Abs(x - Quotient(x * gain, 1000)) == Abs(x) * (gain - 1000) / 1000
  {
    var y := Abs(x);
    assert x < 0 ==> -(x * gain) == y * gain;
    assert y * gain == y * (gain - 1000) + 1000 * y;
    assert 0 <= y * (gain - 1000);
    assert x >= 0 ==> x * gain == y * gain;
    Shifted(y * (gain - 1000), y);
  }

  lemma Shifted(a: nat, y: nat)
    ensures (a + 1000 * y) / 1000 == a / 1000 + y
  {
  }

  lemma OvershootStaysInside(e: int, n: int, bound: nat, noiseBound: nat, gain: nat)
    requires gain >= 1000 && (bound + noiseBound) * (gain - 1000) < 1000 * (bound + 1)
    requires Within(e, bound) && Within(n, noiseBound)
    ensures Within(Corrected(e, n, gain), bound)
  {
    hide Quotient;
    CorrectionOvershoots(e + n, gain);
    ProductGrows(Abs(e + n), bound + noiseBound, gain - 1000);
  }

  /** The same for the gains that overshoot, up to any size. */
  lemma BandKeptByOvershootIff(bound: nat, noiseBound: nat, gain: nat)
    requires gain >= 1000
    ensures KeepsBand(bound, noiseBound, gain) <==> (bound + noiseBound) * (gain - 1000) < 1000 * (bound + 1)
  {
    if (bound + noiseBound) * (gain - 1000) < 1000 * (bound + 1) {
      forall e: int, n: int | Within(e, bound) && Within(n, noiseBound) ensures Within(Corrected(e, n, gain), bound) {
        OvershootStaysInside(e, n, bound, noiseBound, gain);
      }
    } else {
      hide Quotient;
      CorrectionOvershoots(bound + noiseBound, gain);
      assert Within(bound, bound) && Within(noiseBound, noiseBound);
      assert !Within(Corrected(bound, noiseBound, gain), bound);
    }
  }

  /** In particular the band (N * (1000 - g) + 1000) / g is kept under noise up to N, for any gain. */
  lemma GainBandIsKept(noiseBound: nat, gain: nat)
    requires 1 <= gain <= 1000
    ensures KeepsBand((noiseBound * (1000 - gain) + 1000) / gain, noiseBound, gain)
  {
    var total := noiseBound * (1000 - gain) + 1000;
    var bound := total / gain;
    assert total == gain * bound + total % gain;
    BandKeptIff(bound, noiseBound, gain);
  }

  // ---- the default calibration ---------------------------------------------------------------------------------

  /** The noise of the default calibration, for every generator state, zone, revision and cell time. */
  lemma DefaultNoise(l: Loop, cellTicks: nat)
    requires l.calibration == DEFAULTS
    ensures -72 <= DriveNoise(l, cellTicks) <= 149
  {
    assert -85 <= RandomNoise(NextRandom(l.rng), 22) <= 88 by {
      var b := Bucket(NextRandom(l.rng)) as int;
      assert 0 <= b <= 63;
      hide Bucket, NextRandom;
    }
    assert Jitter(cellTicks, 30) <= 26;
    hide RandomNoise, Jitter, NextRandom;
  }

  predicate Int32(v: int) {
    -0x8000_0000 <= v <= 0x7FFF_FFFF
  }

  /** The product the loop divides is the largest value it computes. */
  predicate NoOverflow(l: Loop, cellTicks: nat) {
    var pushed := l.phaseErr + DriveNoise(l, cellTicks);
    Int32(DriveNoise(l, cellTicks)) && Int32(pushed) && Int32(pushed * l.calibration.lockGain)
  }

  predicate DefaultOk(l: Loop) {
    l.calibration == DEFAULTS && -216 <= l.phaseErr <= 447
  }

  lemma AdvanceKeepsBounds(l: Loop, cellTicks: nat)
    requires DefaultOk(l)
    ensures DefaultOk(Advance(l, cellTicks)) && NoOverflow(l, cellTicks) && Report(Advance(l, cellTicks)).locked
  {
    DefaultNoise(l, cellTicks);
    hide DriveNoise, NextRandom, RandomNoise;
    assert DEFAULTS.lockGain == 250;
  }

  datatype Op = Cell(ticks: nat) | SetZone(zone: nat) | SetRevision(revision: nat)

  function Step(l: Loop, op: Op): Loop {
    match op
    case Cell(ticks) => Advance(l, ticks)
    case SetZone(zone) => l.(zone := zone % 4)
    case SetRevision(revision) => l.(revision := revision)
  }

  function Run(l: Loop, ops: seq<Op>): Loop {
    if ops == [] then l else Step(Run(l, ops[..|ops| - 1]), ops[|ops| - 1])
  }

  function Cells(ops: seq<Op>): nat {
    if ops == [] then 0 else Cells(ops[..|ops| - 1]) + if ops[|ops| - 1].Cell? then 1 else 0
  }

  /** From reset with any seed, over any run of bit cells, zone and revision changes, the phase error stays
      between -216 and 447, nothing overflows, every sample reports lock, and the lock time counts the
      cells up to its limit. */
  lemma {:induction false} AlwaysLocked(seed: bv32, ops: seq<Op>)
    ensures var l := Run(Reset(seed), ops);
            && DefaultOk(l)
            && l.lockTime == (if Cells(ops) < UINT32_MAX then Cells(ops) else UINT32_MAX)
            && forall ticks: nat :: NoOverflow(l, ticks) && Report(Advance(l, ticks)).locked
  {
    hide NextRandom, NoOverflow, Report, Corrected, DriveNoise;
    if ops != [] {
      var last := |ops| - 1;
      AlwaysLocked(seed, ops[..last]);
      if ops[last].Cell? {
        AdvanceKeepsBounds(Run(Reset(seed), ops[..last]), ops[last].ticks);
      }
    }
    forall ticks: nat ensures NoOverflow(Run(Reset(seed), ops), ticks)
        && Report(Advance(Run(Reset(seed), ops), ticks)).locked {
      AdvanceKeepsBounds(Run(Reset(seed), ops), ticks);
    }
  }

  method XorShift(rng: bv32) returns (x: bv32)
    ensures x == NextRandom(rng)
  {
    hide XorLeft13, XorRight17, XorLeft5;
    x := rng;
    x := XorLeft13(x);
    x := XorRight17(x);
    x := XorLeft5(x);
  }

  // ---- the loop as an object --------------------------------------------------------------------------------------

  class ReadChannelPll {
    var zone: nat
    var revision: nat
    var rng: bv32
    var lockTime: nat
    var phaseErr: int
    var calibration: Calibration

    ghost function Model(): Loop
      reads this
    {
      Loop(zone, revision, rng, lockTime, phaseErr, calibration)
    }

    constructor (seed: bv32)
      ensures Model() == Reset(seed)
    {
      zone, revision, lockTime, phaseErr := 0, 0, 0, 0;
      rng := if seed == 0 then DEFAULT_SEED else seed;
      calibration := Calibration(22, 30, 250);
    }

    method SetDriveZone(z: nat)
      modifies this
      ensures Model() == Step(old(Model()), SetZone(z))
    {
      zone := z % 4;
    }

    method SetDriveRevision(r: nat)
      modifies this
      ensures Model() == Step(old(Model()), SetRevision(r))
    {
      revision := r;
    }

    /** A calibration of zero counts as one. */
    method SetCalibration(noiseFloor: nat, jitterScale: nat, lockGain: nat)
      modifies this
      ensures Model() == old(Model()).(calibration := calibration)
      ensures calibration == Calibration(if noiseFloor > 0 then noiseFloor else 1,
                                         if jitterScale > 0 then jitterScale else 1,
                                         if lockGain > 0 then lockGain else 1)
    {
      calibration := Calibration(if noiseFloor == 0 then 1 else noiseFloor, if jitterScale == 0 then 1 else jitterScale,
                                 if lockGain == 0 then 1 else lockGain);
    }

    method NextNoise() returns (noise: int)
      modifies this`rng
      ensures rng == NextRandom(old(rng)) && noise == RandomNoise(rng, calibration.noiseFloor)
    {
      hide NextRandom, Bucket;
      var x := XorShift(rng);
      rng := x;
      var centered := Bucket(x) as int - 31;
      noise := Quotient(centered * calibration.noiseFloor, 8);
    }

    method AdvanceCell(cellTicks: nat) returns (sample: Sample)
      modifies this
      ensures Model() == Advance(old(Model()), cellTicks) && sample == Report(Model())
    {
      hide NextRandom, RandomNoise, Quotient;
      var noise := NextNoise();
      var driveNoise := noise + ZoneNoise(zone) + RevisionSlew(revision) + Jitter(cellTicks, calibration.jitterScale);
      phaseErr := phaseErr + driveNoise;
      var correction := Quotient(phaseErr * calibration.lockGain, 1000);
      phaseErr := phaseErr - correction;
      if lockTime < UINT32_MAX {
        lockTime := lockTime + 1;
      }
      var absErr := Abs(phaseErr);
      sample := Sample(lockTime, calibration.noiseFloor + (absErr + 2) / 5,
                       calibration.jitterScale + Abs(noise) / 4, absErr <= LOCK_LIMIT);
    }
  }
}
