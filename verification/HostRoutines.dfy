/** The host's bit-banging routines, run against the CIA port and the serial unit in place. */
module HostRoutines {
  import opened IecLines
  import opened DosNames
  import opened DosCommands
  import opened DriveDos
  import opened DriveSerial
  import opened IecHost
  import opened IecTalk
  import opened SerialUnit

  class PortA {
    var pra: Byte
    var ddra: Byte
    var input: Byte

    ghost function Model(): Port
      reads this
    {
      Port(pra, ddra, input)
    }

    constructor ()
      ensures Model() == Port(0, 0, 0xFF)
    {
      pra, ddra, input := 0, 0, 0xFF;
    }
  }

  ghost function WireOf(cia: PortA, unit: SerialUnit): Wire
    reads cia, unit
  {
    Wire(cia.Model(), unit.Model())
  }

  method SyncIecBus(cia: PortA, unit: SerialUnit)
    modifies cia, unit
    ensures WireOf(cia, unit) == Sync(old(WireOf(cia, unit)))
  {
    hide BusLines, SetBit;
    var lines := BusLines(Port(cia.pra, cia.ddra, cia.input), unit.pullsClk, unit.pullsData);
    unit.SetLines(lines.atn, lines.clk, lines.data);
    cia.input := SetBit(cia.input, 0x40, lines.clk);
    cia.input := SetBit(cia.input, 0x80, lines.data);
  }

  method IecHostDriveLines(cia: PortA, unit: SerialUnit, atnHigh: bool, clkHigh: bool, dataHigh: bool)
    modifies cia, unit
    ensures WireOf(cia, unit) == DriveLines(old(WireOf(cia, unit)), Lines(atnHigh, clkHigh, dataHigh))
  {
    hide Sync, SetBit;
    cia.ddra := cia.ddra | 0x38;
    cia.pra := SetBit(cia.pra, 0x08, !atnHigh);
    cia.pra := SetBit(cia.pra, 0x10, !clkHigh);
    cia.pra := SetBit(cia.pra, 0x20, !dataHigh);
    SyncIecBus(cia, unit);
  }

  method IecHostStep(cia: PortA, unit: SerialUnit)
    modifies cia, unit
    ensures WireOf(cia, unit) == HostStep(Consume, old(WireOf(cia, unit)))
  {
    hide Sync, Tick, Consume;
    unit.TickIecHalfCycle();
    SyncIecBus(cia, unit);
  }

  method IecHostSendBit(cia: PortA, unit: SerialUnit, atnHigh: bool, bit: bool)
    modifies cia, unit
    ensures WireOf(cia, unit) == SendBit(Consume, old(WireOf(cia, unit)), atnHigh, bit)
  {
    hide DriveLines, HostStep, Consume;
    IecHostDriveLines(cia, unit, atnHigh, false, bit);
    IecHostStep(cia, unit);
    IecHostDriveLines(cia, unit, atnHigh, true, bit);
    IecHostStep(cia, unit);
  }

  method IecHostSendByte(cia: PortA, unit: SerialUnit, atnHigh: bool, byte: Byte)
    modifies cia, unit
    ensures WireOf(cia, unit) == SendByte(Consume, old(WireOf(cia, unit)), atnHigh, byte)
  {
    hide SendBit, Consume, HasBit;
    ghost var before := WireOf(cia, unit);
    for i := 0 to 8
      invariant SendBits(Consume, WireOf(cia, unit), atnHigh, byte, i) == SendBits(Consume, before, atnHigh, byte, 0)
    {
      IecHostSendBit(cia, unit, atnHigh, HasBit(byte, i));
    }
  }

  method IecHostReadBit(cia: PortA, unit: SerialUnit) returns (dataInHigh: bool)
    modifies cia, unit
    ensures BitRead(WireOf(cia, unit), dataInHigh) == ReadBit(Consume, old(WireOf(cia, unit)))
  {
    hide DriveLines, HostStep, Consume, DataInHigh;
    IecHostDriveLines(cia, unit, true, false, true);
    IecHostStep(cia, unit);
    dataInHigh := DataInHigh(Port(cia.pra, cia.ddra, cia.input));
    IecHostDriveLines(cia, unit, true, true, true);
    IecHostStep(cia, unit);
  }

  method IecHostReadByte(cia: PortA, unit: SerialUnit) returns (value: Byte)
    modifies cia, unit
    ensures Read(WireOf(cia, unit), value) == ReadByte(Consume, old(WireOf(cia, unit)))
  {
    hide ReadBit, Consume, WithBit;
    ghost var before := WireOf(cia, unit);
    ghost var readBit := v => ReadBit(Consume, v);
    value := 0;
    for i := 0 to 8
      invariant GatherBits(readBit, WireOf(cia, unit), i, value) == GatherBits(readBit, before, 0, 0)
    {
      ghost var w := WireOf(cia, unit);
      var dataInHigh := IecHostReadBit(cia, unit);
      assert BitRead(WireOf(cia, unit), dataInHigh) == readBit(w);
      value := WithBit(value, dataInHigh, i);
    }
  }

  method IecHostEoiAckPulse(cia: PortA, unit: SerialUnit)
    modifies cia, unit
    ensures WireOf(cia, unit) == EoiAckPulse(Consume, old(WireOf(cia, unit)))
  {
    hide DriveLines, HostStep, Consume;
    IecHostDriveLines(cia, unit, true, true, false);
    IecHostStep(cia, unit);
    IecHostDriveLines(cia, unit, true, true, true);
    IecHostStep(cia, unit);
  }
}
