# Jemu64: the serial bus, the disk drive behind it, and the chips around it

Jemu64 emulates a Commodore 64 and its 1541 disk drive cycle by cycle. This project models the parts of it
that keep state over many steps, and proves what that state promises over whole runs: the drive's
serial and DOS logic against the bit-banging host, the serial bus as a discrete-event simulation, the
half-cycle machines of the VIC-II and the CIA 6526, and the drive's physical layer.

Where the original updates fields in place there is a class with those fields; each of its methods is
proved equal to a step function on a value, and the theorems are about runs of those step functions.

| module | what it models |
|---|---|
| `Glob` | the drive's file name matcher |
| `DriveSerial`, `DriveDos`, `DriveRuns`, `SerialUnit` | the drive's serial receiver and transmitter; the DOS behind them; whole runs of both; the same as an object |
| `DosNames` | what OPEN and the directory request make of a name: name, type, mode, filters |
| `DosCommands`, `CommandRunner`, `CommandLaws`, `CommandStores` | the command channel: memory, execute and block commands; the same as loops; what it promises; where a command stores, the VIA included |
| `IecHost`, `HostRoutines` | the host's CIA port, the wired-AND bus and the bit-banging send routines; the same as methods on objects |
| `IecTalk` | reading back from the drive, the end-of-stream handshake, the session reader |
| `BlockTables`, `BlockStore` | the virtual block allocator and its catalog; the same over arrays |
| `Directory`, `CatalogText` | the BASIC-link directory printer and a reader that follows its links; every reachable catalog lists back |
| `LoadSession`, `HeldBus`, `HeldClock` | a command sent and a directory loaded over the wire; the same from a drive whose VIA holds a line |
| `WireSessions`, `SessionResults` | whole sessions of commands, status readings and loads as runs of a plain state; what they come to |
| `IecBus`, `IecBusTimeline`, `IecBusConvergence`, `BusDomain` | the bus simulation: event queue, line timing, two clocks; falls and rises along whole runs; its convergence; the same as an object |
| `Vic`, `VicChip` | beam, badline lock, sprite DMA, raster interrupt; the same as an object |
| `Cia`, `CiaEvents`, `CiaTime`, `CiaSerial`, `CiaSending`, `CiaChip` | timers, interrupt events, time of day, serial register; runs of each; the same as an object |
| `Gcr` | the group-code codec and its resynchronisation |
| `EdgeQueue`, `IecPort` | the time-stamped edge queue and the port latch over it |
| `Scheduler` | the rational drive clock and its timed events |
| `Pll` | the read channel's phase-locked loop |
| `TimedQueue` | what the edge queue and the scheduler share: queues in order of time |
| `Options`, `IecLines`, `ByteValues`, `Division`, `Subsets` | small types and lemmas used in several places |

## What was found

- **File names with a star.** The matcher tests equality before the star, so a `*` in the pattern can be spent on a
  literal `*` in the name. It is exact for every pattern if and only if the name holds no `*`, and exact for
  every name if and only if the (upper-case) pattern holds no `*`. It never accepts wrongly.
- **End of stream.** After the last byte the drive's own pull can still be on DATA. Its release then counts as the
  host's acknowledge: the end signal stands for an idle host if and only if the last byte has its top bit set.
- **The session reader** samples DATA after the clock has risen again. It reads every byte shifted right by one with
  the top bit doubled, which is the byte itself only for 0x00 and 0xFF.
- **LISTEN to devices above 15.** The command is recognised by its high nibble, so 0x30..0x3E are no LISTEN: a device
  is reached by its own LISTEN if and only if its number is below 16. The comment at drive_1541.hpp:4817 says
  0x20..0x3E.
- **Commands that hold the bus.** M-W and B-W store through the memory map, and at $1800 and $1802 that sets the VIA that
  pulls the drive's lines. A directory load works if and only if that VIA leaves both lines alone. After `M-W` of the byte
  $20 to $1802 the drive pulls DATA although nobody told it to talk, names arrive as zeros and a load brings zeros.
  That the drive pulls DATA only while told to talk, and CLK never, holds if and only if with ATN released its VIA holds
  neither line, or DATA only while it talks; a host that sends no command storing to the two registers keeps it so. A
  block written reaches them exactly from track $17, sector 1, to track $18, sector 2, and from the tracks 64 above.
- **Directory or block.** Once a block has been read or freed by command, loading `$` brings the block buffer from
  channel 0's position on, dressed up as a program, and no longer the directory. Exactly a successful B-R or B-F puts it
  there, and nothing but a reset takes it away.
- **Long directory names.** A name is cut at sixteen characters before it is split at commas: pattern, type and mode read
  back if and only if the whole name with its commas fits, and otherwise the mode is lost.
- **Reset while running** leaves the drive's pulls standing; from its next half cycle on it is exactly a drive just
  switched on.
- **Directory links** are 16 bits wide: the listing reads back if and only if no line ends beyond the address space.
- **Raster interrupt.** An interrupt asked for on the line after one that raised is lost, whatever is written in between,
  because the earlier match still counts as pending when that line ends.
- **Clock freeze.** Reading the hours freezes the other time registers. Only the base revision frees them when the tenths
  are read; on the two later revisions nothing but the next hours read does.
- **Late edges.** The port latch and the port stay in agreement if and only if every changed line is queued no earlier than the
  pending edges of that line.
- **A half pair before a mark** is dropped by the codec without being counted as an error.

## Model

| member | source | states |
|---|---|---|
| Glob.NormalizeUpperAscii | drive_1541.hpp:4095-4108 | the loop folds a..z to upper case and drops what is not printable ASCII |
| Glob.WildcardMatch | drive_1541.hpp:4223-4255 | the greedy loop terminates, never accepts a name the recursive meaning of ? and * rejects, and decides that meaning exactly when name or pattern holds no star |
| Glob.ScanSound | drive_1541.hpp:4236-4254 | from any cursor position a verdict of true means a match here or at a later restart of the remembered star |
| Glob.VerdictSound | drive_1541.hpp:4223-4255 | no pattern accepts a name that does not match it, with stars anywhere |
| Glob.NewStarSubsumesOld | drive_1541.hpp:4240-4242 | forgetting the older star on reaching a new one loses no match |
| Glob.NoRetryAtTheEnd | drive_1541.hpp:4236-4254 | when the text runs out no restart of the remembered star could still match |
| Glob.ScanComplete | drive_1541.hpp:4236-4254 | on text without a star the scan finds every match still open to it |
| Glob.VerdictExactWhenEitherSideIsStarFree | drive_1541.hpp:4223-4255 | the verdict is the recursive meaning when either side is free of stars |
| Glob.EveryStarredNameDefeatsTheScan | drive_1541.hpp:4237-4242 | for every name with a star, a pattern that matches it and is rejected |
| Glob.EveryStarredPatternIsDefeated | drive_1541.hpp:4237-4242 | for every upper-case pattern with a star, a name that matches it and is rejected |
| Glob.ExactForAllPatternsIff | drive_1541.hpp:4223-4255 | a name is matched correctly by every pattern iff it holds no star |
| Glob.ExactForAllNamesIff | drive_1541.hpp:4223-4255 | an upper-case pattern is applied correctly to every name iff it holds no star |
| DriveSerial.TickKeepsDriveOk | drive_1541.hpp:3206-3638 | after every step, for any bus lines and any DOS behind the receiver, both bit counts are below eight and no receive bit is set at or above the count |
| DriveRuns.CommandKeepsDosOk | drive_1541.hpp:4686-4886 | every command byte, with the names, commands and directories it completes, keeps the channels in order (no talk channel while not talking, a confirmed channel is channel 0, a name or command is collected only while listening on its channel) and keeps allocator, names and block buffer in order |
| DriveRuns.TickBehaves | drive_1541.hpp:3477-3638 | a byte under way, a start in waiting and an end signal exclude each other, and each needs its state |
| DriveRuns.DriveIsWellBehaved | drive_1541.hpp:3206-3638 | from power-on, whatever the bus lines do, and so whatever commands and names they spell: the counters stay in range, channels, allocator and names in order; while ATN is low the drive pulls nothing; with ATN released it pulls CLK exactly if its VIA holds it, and DATA exactly for a zero bit it was told to say or if its VIA holds it |
| DriveRuns.PullsOnlyToTalkIff | drive_1541.hpp:2814-2844 | in every state reached from power-on: the drive pulls DATA only while told to talk, and CLK never, iff with ATN released its VIA holds neither line, or DATA only while it talks |
| DriveRuns.TickStores | drive_1541.hpp:2808-2845 | a step changes memory, VIA, allocator and block buffer only by the one command it carries out |
| DriveRuns.HarmlessRunPullsOnlyToTalk | drive_1541.hpp:2706-2844 | from power-on over any run in which no command stores to the VIA's port or direction register, the drive never pulls CLK, and DATA only while told to talk with ATN released |
| DriveRuns.BufferStandsIff | drive_1541.hpp:3937-4006 | over any run the block buffer is there iff it was before or some step carried out a successful B-R or B-F |
| DriveRuns.ResetIsPowerOn | drive_1541.hpp:2520-2690 | a reset at any moment is, from the next half cycle on, a power-on with the memory kept and the VIA cleared |
| DriveRuns.TickIsReachable | drive_1541.hpp:2808-2845 | what a run from power-on leads to, seeing any lines, stays so under any further step |
| DosNames.SplitComma | drive_1541.hpp:3724-3737 | the loop cuts the text at every comma |
| DosNames.SplitIsExact | drive_1541.hpp:3724-3737 | the parts hold no comma and give the text again when joined by commas, for every text |
| DosNames.TrimAscii | drive_1541.hpp:3739-3749 | the two loops drop blanks at both ends |
| DosNames.TrimIsExact | drive_1541.hpp:3739-3749 | the result is a stretch of the text that neither begins nor ends with a blank; a text is left alone iff it is one already |
| DosNames.NormalizeOpenName | drive_1541.hpp:4072-4093 | the loop stops at a zero, a return or sixteen characters, drops quotes and unprintable bytes and folds case |
| DosNames.ParseOpenSpec | drive_1541.hpp:4110-4146 | name, type and mode that OPEN leaves for its channel |
| DosNames.SpecIsOk | drive_1541.hpp:4110-4154 | whatever bytes the host sends as a name, OPEN leaves at most sixteen printable characters, one of four types and one of four modes |
| DosNames.ExtractDirectoryFilters | drive_1541.hpp:4171-4221 | pattern, type and mode that the directory request sets |
| DosNames.FiltersReadBackIff | drive_1541.hpp:4072-4221 | a directory name spelled from pattern, type and mode is read back as those filters iff it is at most sixteen characters long |
| CommandRunner.ReadCommandText | drive_1541.hpp:3825-3838 | the loop folds the command bytes to text |
| CommandRunner.StoreParts | drive_1541.hpp:3907-3914 | the loop stores part after part, to the VIA behind memory too, and stops at the first malformed one, what came before staying stored |
| CommandRunner.LoadVirtualBlock | drive_1541.hpp:4365-4389 | the loop fills the block buffer from memory |
| CommandRunner.FlushVirtualBlock | drive_1541.hpp:4490-4522 | the loop writes the block buffer to memory and the VIA behind it, ROM staying as it is |
| CommandRunner.ProcessCommand | drive_1541.hpp:3825-4024 | memory, execute and block commands change exactly what the specification says, VIA and every syntax error included |
| CommandLaws.BlockCommandReads | drive_1541.hpp:3937-4006 | a block command written out in hexadecimal and sent as bytes does to allocator, buffer and memory what its three numbers say |
| CommandLaws.MemoryCommandsRoundTrip | drive_1541.hpp:3870-3920 | bytes stored by an M-W command come back in the response to an M-R command, for any address in RAM and up to 255 bytes |
| CommandLaws.BlockRoundTrip | drive_1541.hpp:3950-3967 | a buffer written to any block is what reading that block brings back |
| CommandLaws.ExecuteKeepsDiskOk | drive_1541.hpp:3825-4024 | no command, well-formed or not, upsets the allocator, its names or the block buffer |
| CommandStores.StoresNowhereElse | drive_1541.hpp:3890-3967 | a command changes memory and VIA at no address but those that its own text names |
| CommandStores.HarmlessKeepsHold | drive_1541.hpp:3890-3967 | a command whose text names neither of the VIA's two registers leaves the drive's hold on both lines as it was |
| CommandStores.DirectionHoldsLines | drive_1541.hpp:2814-2826 | a direction byte stored by an M-W command over a port at zero holds exactly the lines of its bits |
| CommandStores.BlockReachesViaIff | drive_1541.hpp:4509-4518 | a block written reaches the two registers iff it is at track $17 from sector 1 or track $18 up to sector 2, or 64 tracks above |
| CommandStores.FlushSetsVia | drive1541_physical/drive_dos_memory_map.hpp:55-68 | what a block leaves in the two registers, wherever it is written |
| CommandStores.BlockHoldsDataIff | drive_1541.hpp:2814-2826 | the first block of track $18 holds DATA iff its third byte has bit 5 set and its first has it clear |
| CommandStores.BufferFilledIff | drive_1541.hpp:3937-4006 | no command empties the block buffer, and exactly a B-R or B-F of a taken block fills it |
| SerialUnit.SerialUnit.constructor | drive_1541.hpp:2520-2690 | a unit as built and reset has released lines, an idle receiver and transmitter, no channel, an empty disk and a cleared VIA |
| SerialUnit.SerialUnit.Reset | drive_1541.hpp:2520-2690 | reset of a running unit: everything but the sampled lines, the standing pulls, address and memory starts over |
| SerialUnit.SerialUnit.ProcessIecCommandByte | drive_1541.hpp:4686-4886 | LISTEN, UNLISTEN, TALK, UNTALK, OPEN, CLOSE and secondary addresses change channels, names, queue and disk as the specification says |
| SerialUnit.SerialUnit.CommitReceivedName | drive_1541.hpp:4712-4735 | at UNLISTEN the collected name becomes the channel's, and a `$` on channel 0 builds the directory from the live catalog |
| SerialUnit.SerialUnit.ProcessCommandChannelBuffer | drive_1541.hpp:3825-3849 | a command collected on channel 15 is carried out once and its buffer emptied |
| SerialUnit.SerialUnit.OpenTalkChannel | drive_1541.hpp:4782-4815 | channel 0 rebuilds an empty queue from the last directory, channel 15 answers with response or status |
| SerialUnit.SerialUnit.ProcessIecDataByte | drive_1541.hpp:3658-3684 | a data byte joins the name or the command it belongs to |
| SerialUnit.SerialUnit.ConsumeReceivedByte | drive_1541.hpp:3192-3204 | a byte reaches the command or data handler according to its tag, unless a fresh command is awaited; UNLISTEN and UNTALK also silence receiver and transmitter |
| SerialUnit.SerialUnit.CheckAbsence | drive_1541.hpp:3264-3274 | a talker with nothing to say complains after the timeout |
| SerialUnit.SerialUnit.PreemptTalk | drive_1541.hpp:3276-3288 | ATN falling into a talk wipes the transmitter and the end signal |
| SerialUnit.SerialUnit.ReceiveClockedBit | drive_1541.hpp:3338-3442 | a qualified rising edge takes one bit, the eighth hands the byte on and starts over |
| SerialUnit.SerialUnit.TimeReceiver | drive_1541.hpp:3456-3475 | an unfinished data byte is dropped when the clock stops for too long, a command byte is not |
| SerialUnit.SerialUnit.WaitForEoiAck | drive_1541.hpp:3477-3502 | DATA low and high again acknowledges the end signal; without a low it expires with an error |
| SerialUnit.SerialUnit.ArmTalkStart | drive_1541.hpp:3515-3540 | entering talk and between bytes the next start is armed |
| SerialUnit.SerialUnit.FetchOnFallingClock | drive_1541.hpp:3548-3583 | a falling edge fetches the head of the queue and notes whether it is the last byte |
| SerialUnit.SerialUnit.AdvanceOnRisingClock | drive_1541.hpp:3585-3601 | a rising edge moves to the next bit; after the eighth the byte ends, the last one with the end signal |
| SerialUnit.SerialUnit.OutputBit | drive_1541.hpp:3603-3626 | a zero bit pulls DATA; a byte stalled too long is abandoned |
| SerialUnit.SerialUnit.StepIecSerial | drive_1541.hpp:3206-3638 | the method on fields is the step function, under default flags |
| SerialUnit.SerialUnit.TickIecHalfCycle | drive_1541.hpp:2808-2845 | one half cycle of a powered drive: the serial step, then the pulls of talker and VIA, the VIA's not while commands come in |
| IecHost.ClockIsPulse | iec_host_helpers.hpp:3-21 | whatever is on the port, driving the lines and stepping shows the drive exactly the wired AND of the host's levels and its own pulls on CLK and DATA, and shows the host the result |
| IecHost.SendBitDelivers | iec_host_helpers.hpp:23-29 | one bit sent lands at its place in the receiver and nowhere else, as a zero if it is data and the drive's VIA holds DATA |
| IecHost.SendByteDelivers | iec_host_helpers.hpp:31-36 | a byte clocked to a drive that hears it reaches the DOS once, tagged by ATN, unchanged or, if it is data and the VIA holds DATA, as zero |
| IecHost.SendByteIgnored | iec_host_helpers.hpp:31-36 | data clocked past a drive that neither listens nor talks, its clock released, changes nothing in it |
| IecHost.GatheredBits | iec_host_helpers.hpp:38-49 | eight bits read in order, least significant first, assemble the byte |
| IecHost.ListenRoundTrip | drive_1541.hpp:3338-3442 | any string of command and data bytes clocked out by the host is dispatched as exactly that string, byte for byte and tag for tag; data nobody listens to is not, and data through a line that the drive holds is zeros; commands need no released line at all |
| IecHost.SendAllKeepsDirection | iec_host_helpers.hpp:3-16 | sending never turns the host's DATA input into an output |
| HostRoutines.SyncIecBus | iec_bridge.hpp:544-559 | the bus passes the wired AND to the drive and to the port's input bits |
| HostRoutines.IecHostDriveLines | iec_host_helpers.hpp:3-16 | the three outputs follow the levels asked for |
| HostRoutines.IecHostStep | iec_host_helpers.hpp:18-21 | one drive half cycle, then the bus |
| HostRoutines.IecHostSendBit | iec_host_helpers.hpp:23-29 | low and high half of one clock pulse |
| HostRoutines.IecHostSendByte | iec_host_helpers.hpp:31-36 | the loop over eight bits is the send function of the round trip |
| HostRoutines.IecHostReadByte | iec_host_helpers.hpp:38-49 | the loop over eight samples is the read function of the round trip |
| HostRoutines.IecHostEoiAckPulse | iec_host_helpers.hpp:51-56 | the pulse is the one the end-of-stream lemmas speak of |
| IecTalk.ReadByteReturnsHead | drive_1541.hpp:3514-3606 | one byte read by the host is the head of the transmit queue, which is popped once |
| IecTalk.TalkRoundTrip | drive_1541.hpp:3514-3606 | from a confirmed talker whose VIA leaves the lines alone the host reads the queued bytes in order, each once, with any idle time between bytes; the end signal is pending exactly after the last |
| IecTalk.StreamedInOrder | iec_host_helpers.hpp:38-49 | reads that each return the next byte return the queue's slice in order |
| IecTalk.EoiAcknowledgesItself | drive_1541.hpp:3484-3492 | the release of the drive's own pull counts as the host's acknowledge |
| IecTalk.EoiStandsIff | drive_1541.hpp:3477-3502 | the end signal stands for an idle host up to the timeout iff the last byte has its top bit set |
| IecTalk.EoiTimesOut | drive_1541.hpp:3493-3502 | left alone, the signal is given up one tick after the timeout, with an error and no acknowledge |
| IecTalk.EoiAckPulseCompletes | iec_host_helpers.hpp:51-56 | the host's pulse ends the wait and is counted once, whatever the last byte |
| IecTalk.SessionReadShifts | iec_host_session.hpp:74-100 | the session reads every byte shifted right with its top bit doubled; right iff the byte is 0x00 or 0xFF |
| IecTalk.ReleasedClockReadsHigh | iec_host_session.hpp:33-45 | the session's wait for a released clock is over at once after every pulse iff the VIA does not hold the clock |
| HeldBus.HeldReadsZeros | iec_host_helpers.hpp:38-49 | every byte read from a drive whose VIA holds DATA is zero, whatever the drive is doing and at any pace |
| HeldClock.StuckData | drive_1541.hpp:3338-3442 | data bytes sent to a listener whose VIA holds CLK are lost, all of them |
| HeldClock.OutOfStep | drive_1541.hpp:3338-3442 | three commands sent to such a drive afterwards arrive as two others: the first bit is lost and every byte is put together from seven bits of one and the first of the next |
| HeldClock.SilentReadsOnes | iec_host_helpers.hpp:38-49 | whoever reads from a drive that does not talk and leaves DATA alone reads nothing but set bits |
| BlockStore.BlockStore.constructor | drive_1541.hpp:2679-2689 | reset empties all tables |
| BlockStore.BlockStore.FindFreeCatalogSlot | drive_1541.hpp:4257-4264 | the loop returns the first unused entry |
| BlockStore.BlockStore.EnsureCatalogEntryForChannel | drive_1541.hpp:4266-4297 | the channel's used entry is renamed if OPEN gave a name, else the first unused one is made |
| BlockStore.BlockStore.RemoveCatalogEntryByIndex | drive_1541.hpp:4299-4308 | the entry is cleared and its channel unmapped |
| BlockStore.BlockStore.AllocateVirtualBlock | drive_1541.hpp:4317-4333 | all four arrays and the count end as the specification says, on success and on failure |
| BlockStore.BlockStore.FreeVirtualBlock | drive_1541.hpp:4335-4358 | the same for freeing |
| BlockTables.FirstUnusedFinds | drive_1541.hpp:4257-4264 | the slot found is unused and every earlier one is used; none is found only if all are used |
| BlockTables.CatalogNeverFull | drive_1541.hpp:4281-4284 | with 16 channels and 32 entries an unused entry always exists |
| BlockTables.AllocateRefines | drive_1541.hpp:4317-4333 | allocation fails iff the slot is taken, never because the catalog is full, and otherwise adds that one block for that channel |
| BlockTables.FreeRefines | drive_1541.hpp:4335-4358 | freeing fails iff the slot is not taken, and otherwise removes just that block |
| BlockTables.Run | drive_1541.hpp:4257-4358 | over any run the three linked tables act as one map from taken block to channel, and their invariant holds |
| BlockTables.ResetOk | drive_1541.hpp:2679-2689 | the tables after reset satisfy the invariant and stand for the empty map |
| BlockTables.EntryCountsItsChannelsBlocks | drive_1541.hpp:4331-4354 | a used entry's block count is the number of blocks its channel holds |
| BlockTables.CatalogSumsToCount | drive_1541.hpp:4330-4331 | the entries' counts add up to the allocated total |
| BlockTables.FreeCountIsComplement | drive_1541.hpp:4310-4315 | the free figure is what the map leaves of 664 |
| BlockTables.FreeUndoesAllocate | drive_1541.hpp:4317-4358 | freeing a block just allocated for a channel that held none restores every table exactly |
| Directory.EnqueueBasicLine | drive_1541.hpp:4614-4625 | one more line is chained behind those already in the program |
| Directory.EnqueueEntries | drive_1541.hpp:4639-4664 | the loop appends a line for each entry that passes the filters, numbered in slot order |
| Directory.BuildDirectoryStubPayload | drive_1541.hpp:4627-4684 | the transmit queue is the program of exactly header, selected entries or placeholder, and free line |
| Directory.ListFollowsChain | drive_1541.hpp:4614-4625 | from any place in memory, following links recovers the lines exactly when they fit |
| Directory.ListingRoundTripIff | drive_1541.hpp:4614-4684 | the listing reads back iff no line ends beyond the 16-bit address space |
| Directory.ListingIsSelection | drive_1541.hpp:4639-4656 | an entry is shown iff it is used and passes name, type and mode filter |
| Directory.ListingIsInSlotOrder | drive_1541.hpp:4639-4656 | the lines shown are those of exactly the slots that pass, each once, in slot order |
| Directory.StubListsBack | drive_1541.hpp:4627-4684 | every directory of a catalog with presentable entries lists back as its own lines |
| CatalogText.EveryDirectoryListsBack | drive_1541.hpp:4257-4684 | from reset, after any allocations and frees under names OPEN can leave, every entry is presentable and the directory, under any filters, lists back as its own lines with the allocator's free count |
| LoadSession.ListenReachesDeviceIff | drive_1541.hpp:4817-4836 | a device is reached by its own LISTEN iff its number is below 16 |
| LoadSession.RequestHeard | drive_1541.hpp:4686-4886 | after UNTALK and the six-part load request, whatever the drive was doing, it talks on channel 0 with its own directory under the filters in that very name queued, or the block buffer if there is one, and nothing else has changed |
| LoadSession.CommandHeard | drive_1541.hpp:3825-4024 | a command sent to channel 15 is carried out once, behind what was already collected there, on the disk as it stands, and leaves its status and response; zeros are if the VIA holds DATA |
| LoadSession.ServedListsBack | drive_1541.hpp:4627-4684 | in every good state without a block buffer, following the links of what is sent yields the drive's own lines |
| LoadSession.SendingStaysReachable | drive_1541.hpp:2808-2845 | whatever the host sends, the drive stays in a state reachable from power-on |
| LoadSession.LoadDirectory | drive_1541.hpp:3206-4886 | end to end over the wire, in every state reachable from power-on: the host receives the drive's catalog under the filters of the name it sent, with the drive's free count, iff the VIA leaves both lines alone; the links then yield those lines and the last byte raises the end signal; with a valid block buffer it receives that; zeros come iff the VIA holds DATA, set bits iff it holds CLK alone |
| LoadSession.LoadServes | drive_1541.hpp:3206-4886 | after a load the drive lies ready for the next request, its stored content unchanged |
| LoadSession.FreshDirectory | drive_1541.hpp:2520-2690 | a drive just switched on lists an empty disk |
| WireSessions.SessionIsRun | drive_1541.hpp:3206-4886 | any string of commands, channel 15 readings and directory loads sent one after another over the wire does to the drive, and brings back to the host, exactly what the same string does to a plain state of disk, status and response |
| SessionResults.HarmlessSessionsArePlayable | drive_1541.hpp:2706-2844 | a host that sends no command storing to the VIA's two registers can play any session from a drive that leaves the bus alone |
| SessionResults.LoadAfterSession | drive_1541.hpp:3206-4886 | after any session from power-on without a block buffer, a load lists back as the catalog that the session left |
| SessionResults.ClaimsAreTaken | drive_1541.hpp:3990-3995 | any sequence of allocation commands is that run of the allocator |
| SessionResults.AllocationsAreListed | drive_1541.hpp:3206-4886 | from power-on: the host allocates any blocks by command, then loads the directory under any `$` name; what it reads lists back as the catalog those allocations make of an empty disk |
| SessionResults.StoredBytesComeBack | drive_1541.hpp:3870-3920 | bytes stored by one command over the wire and asked for by another come back over channel 15 |
| SessionResults.FreedBlockReplacesDirectory | drive_1541.hpp:3979-3989 | from power-on, allocate and free any block and load any `$` name: an empty block comes instead of the directory |
| SessionResults.StoredDirectionSilencesTheDrive | drive_1541.hpp:2814-2844 | from power-on, one M-W to $1802 is accepted without an error, the drive pulls DATA without being told to talk, and every load brings zeros |
| IecBus.ApplyModelOk | iec_bridge.hpp:1597-1692 | one look at a line lets it rise only when its time has come, and leaves it waiting on a live wake-up if wanted but low |
| IecBus.SettleOk | iec_bridge.hpp:1739-1789 | settling re-establishes the whole invariant over state and pending queue |
| IecBus.RunNextOk | iec_bridge.hpp:1791-1800 | running any one event keeps the invariant, posts only strictly later events, and raises no line early |
| IecBus.RiseIsExact | iec_bridge.hpp:1632-1691 | in every event a rise is never early and never while pulled; with the solver off a waiting line rises at the very unit its minimum pulse and release delay are over |
| IecBus.NoLostWakeUp | iec_bridge.hpp:1556-1575 | a line wanted high but low has a live wake-up of its current generation pending, at exactly that unit with the solver off |
| IecBus.QuietBusHasConverged | iec_bridge.hpp:1707-1789 | with nothing pending the lines are the wired AND of host pulls and current device pulls, and both ends see them |
| IecBusTimeline.TicksAreATimeline | iec_bridge.hpp:1849-1877 | from power-on any number of ticks of any host and devices is a chain of single moves: an event, a step of time, a clock tick |
| IecBusTimeline.FallIsRemembered | iec_bridge.hpp:1597-1631 | along any such chain a low line remembers the unit of its last fall |
| IecBusTimeline.RisesExactly | iec_bridge.hpp:1632-1691 | with the solver off a released line that is not pulled again rises exactly at the later of its release and its fall plus minimum pulse and release delay |
| IecBusTimeline.NeverLate | iec_bridge.hpp:1632-1691 | and no released line is low beyond that unit |
| IecBus.Drain | iec_bridge.hpp:1791-1800 | draining terminates with nothing due and the invariant kept |
| IecBus.Pass | iec_bridge.hpp:1849-1877 | one pass of the main loop goes to the next time anything happens and advances exactly the clocks due then |
| IecBus.Passes | iec_bridge.hpp:1849-1877 | the loop of one tick terminates after exactly one host tick |
| IecBus.ScheduleAfter | iec_bridge.hpp:1473-1504 | after n calls: n host ticks, time (n-1)*10^6, floor(time/period)+1 drive ticks, and everything run was run in (when, seq) order |
| IecBusConvergence.SettleWakes | iec_bridge.hpp:1739-1789 | a settle moves each line as the timing model says and posts nothing but notices and wake-ups |
| IecBusConvergence.LiveWakeUpNearer | iec_bridge.hpp:1565-1574 | a wake-up of the current generation ends its line's wait or uses up one of the waits the solver may still ask for, and starts no other |
| IecBusConvergence.RunNextNearer | iec_bridge.hpp:1791-1800 | every event brings the end nearer in one well-founded measure, and the pulls under way stay the same |
| IecBusConvergence.LeftAlone | iec_bridge.hpp:1791-1800 | left to itself the bus runs out of events and ends at the host pulls last sent |
| IecBusConvergence.BusConverges | iec_bridge.hpp:1694-1877 | stop both clocks after any number of ticks of any host and devices: after finitely many events every line is the wired AND of the latest pulls and both ends see it, as long as the analog solver, if on, lets a line rise after some number of waits in a row, however large |
| BusDomain.BusDomain.ScheduleRiseReeval | iec_bridge.hpp:1556-1575 | the same wake-up is not queued twice; a new one invalidates the old by its generation |
| BusDomain.BusDomain.ApplyLineTimingModel | iec_bridge.hpp:1597-1692 | the method on fields is the line model's step |
| BusDomain.BusDomain.ApplyTemporalBusContract | iec_bridge.hpp:1739-1776 | changed levels are committed and sent to both ends |
| BusDomain.BusDomain.SettleBusAndPropagateSamples | iec_bridge.hpp:1778-1789 | the three lines are looked at and committed |
| BusDomain.BusDomain.ExecuteTimedEventsAtNow | iec_bridge.hpp:1791-1800 | the loop is the terminating drain |
| BusDomain.BusDomain.TickDriveDomainOnce | iec_bridge.hpp:1802-1825 | a drive tick posts a settle exactly when the pulls changed |
| BusDomain.BusDomain.TickC64DomainOnce | iec_bridge.hpp:1827-1847 | the same for the host, whose serial pins are set to the levels of that moment |
| BusDomain.BusDomain.TickHalfCycleOnce | iec_bridge.hpp:1849-1877 | the whole loop is the tick of the schedule theorem and keeps its invariant |
| Vic.AdvanceMovesOne | vicii.hpp:1141-1185 | every half tick moves the beam by exactly one of 312*1008 positions, cyclically |
| Vic.TickEffect | vicii.hpp:1044-1187 | a half tick in terms of the half cycle it falls on: latch at 192, DMA update at 880, release at 881, bus lines |
| Vic.StepKeepsOk | vicii.hpp:1044-1274 | every half tick and every register write keeps lock and badline flag equal and the lock inside one line |
| Vic.LockWindow | vicii.hpp:351-358 | a lock begins exactly at a badline's latch and lasts exactly 689 half ticks in that line, whatever is written meanwhile |
| Vic.LockedHoldsBus | vicii.hpp:310-315 | BA and AEC are low at every locked half tick up to cycle 54 |
| Vic.DmaWindow | vicii.hpp:700-717 | under any interleaving a sprite fetches only from cycle 55 of its line to cycle 55 of its stop line, and throughout that window if it stays enabled |
| Vic.RasterIrqIff | vicii.hpp:1170-1182 | the interrupt is raised iff the new line is the one asked for, the interrupt is allowed and none is pending |
| Vic.NextLineNeverRaises | vicii.hpp:1170-1182 | after a raised interrupt, the end of the next line raises nothing, whatever is written meanwhile |
| Vic.MatchStaysPending | vicii.hpp:1170-1182 | a line that ends on an allowed match begins the next one with the match pending |
| VicChip.VicChip.constructor | vicii.hpp:43-51 | the chip starts at the top of the frame with its revision's profile and in a good state |
| VicChip.VicChip.UpdateBaAec | vicii.hpp:310-315 | both bus lines are released exactly when neither a fetch nor a lock needs the bus |
| VicChip.VicChip.UpdateSpriteDma | vicii.hpp:700-717 | the loop over sprites gives every flag its value after the update |
| VicChip.VicChip.CompareRasterLine | vicii.hpp:1170-1182 | flag, pending and mask-edge change as the comparison says |
| VicChip.VicChip.TickHalfCycle | vicii.hpp:1044-1187 | the method on fields is the half tick of the theorems |
| VicChip.VicChip.AdvanceBeam | vicii.hpp:1141-1169 | the nested counters are the beam's successor, and the end of a line is reported |
| VicChip.VicChip.WriteRegister | vicii.hpp:1235-1274 | each write changes its register and what hangs on it, and nothing else |
| CiaEvents.LineShowsEnabledEvents | cia6526.hpp:144-184 | over any run bit 7 holds iff an enabled event stands, and equals the level last signalled |
| CiaEvents.StepBits | cia6526.hpp:268-360 | what each step does to each source's latched and deferred bit |
| CiaEvents.RegisterShowsUnreadEvents | cia6526.hpp:268-360 | at every point of every run an event waits iff it was raised in the current half cycle, and the control register shows exactly those that became visible after its last read |
| CiaEvents.RaisedEventIsReported | cia6526.hpp:391-395 | a raised event is reported by the first register read after the next half cycle, and taken away by it |
| CiaTime.ContinuousTimerA | cia6526.hpp:287-298 | over any run that leaves its registers alone a continuous timer counts down from wherever it stands and then underflows every L + 1 cycles: loaded with L, floor(n/(L+1)) underflows after n cycles and count L - n mod (L+1) |
| CiaTime.ContinuousTimerB | cia6526.hpp:300-311 | the same for timer B |
| CiaTime.SweepDivides | cia6526.hpp:287-298 | from any count within the latch, count and underflows are remainder and quotient of one division |
| CiaTime.OneShotStops | cia6526.hpp:287-298 | a one-shot timer underflows once, reloads and stops |
| CiaTime.ClockIsDayCounter | cia6526.hpp:186-234 | an increment keeps all four registers valid and adds one tenth modulo 864000, with the AM/PM flag turning at twelve |
| CiaTime.TenthOfDayInjective | cia6526.hpp:203-234 | two valid settings of the clock never mean the same moment |
| CiaTime.ClockKeepsTime | cia6526.hpp:313-318 | over any run without clock writes, from any divider, the clock advances one tenth every divider period, with no cycle lost; a divider standing at or beyond the reload passes one tenth at once |
| CiaTime.HoursReadFreezes | cia6526.hpp:372-389 | from an hours read to the next, the other registers show that moment until tenths are read on the base revision, and throughout on the others |
| CiaSerial.BytesAreSampledBits | cia6526.hpp:321-337 | over any receiving run the bytes are the sampled levels in groups of eight, most significant first, none dropped or taken twice |
| CiaSending.LeadingBitsAreTheByte | cia6526.hpp:347-348 | the bits shifted out, taken in order, are the byte |
| CiaSending.ByteSentMsbFirst | cia6526.hpp:339-359 | a byte written in output mode in either phase with a continuous timer A appears on the data pin one bit every reload + 1 cycles, from the top, and is counted once after the eighth |
| CiaChip.CiaChip.constructor | cia6526.hpp:61-116 | the power-on state |
| CiaChip.CiaChip.SetIcrEvent | cia6526.hpp:144-151 | the event bits and, if enabled, the summary bit are set and the line follows |
| CiaChip.CiaChip.ClearIcrMask | cia6526.hpp:157-166 | the bits go, the summary bit is what the rest justifies |
| CiaChip.CiaChip.IncrementTodClock | cia6526.hpp:203-234 | the chain of carries is the successor time |
| CiaChip.CiaChip.TickHalfCycle | cia6526.hpp:268-360 | events deferred one by one, timers, clock and shift register together are the half cycle of the theorems |
| CiaChip.CiaChip.ReadRegister | cia6526.hpp:362-400 | the value read, the port A override included, and what reading changes |
| CiaChip.CiaChip.WriteRegister | cia6526.hpp:424-515 | what each register write changes, and that the rest stays |
| CiaChip.IrqComposes | cia6526.hpp:268-360 | deferring events one by one in program order is deferring their union |
| CiaChip.Increment | cia6526.hpp:186-201 | the digit carry of the clock |
| CiaChip.IncrementHours | cia6526.hpp:217-233 | the hour after twelve is one, and the PM flag turns on reaching twelve |
| Gcr.TablesInverse | drive1541_physical/gcr_codec.cpp:9-21 | the two tables are inverse and no symbol is a mark |
| Gcr.Encode4to5 | drive1541_physical/gcr_codec.cpp:25-40 | the loop writes two symbols a byte |
| Gcr.Decode5to4 | drive1541_physical/gcr_codec.cpp:42-114 | the loop with its early failure is the decoder of the theorems |
| Gcr.SplitJoins | drive1541_physical/gcr_codec.cpp:55-61 | every stream is its mark-free segments joined by marks |
| Gcr.DecodesExactly | drive1541_physical/gcr_codec.cpp:42-114 | for every stream: success iff not empty, readable strictly before the first mark and from the third pair on after each mark, with no dangling half pair except early after a mark; then the data are all segments' pairs and the errors counted are the unreadable pairs and a half pair at the very end, else nothing |
| Gcr.RoundTrip | drive1541_physical/gcr_codec.cpp:25-114 | encoded chunks with marks between them decode to the original bytes, one sync loss a mark, no relock |
| Gcr.MarkResynchronises | drive1541_physical/gcr_codec.cpp:55-61 | behind a mark an encoded message comes out whole whatever was read before |
| Gcr.OutputBound | drive1541_physical/gcr_codec.cpp:42-114 | failure means empty data, and the output is at most ceil(n/2) |
| Gcr.NeverThreeZeros | drive1541_physical/gcr_codec.cpp:9-14 | no encoded message has three zero bits in a row at any position |
| Gcr.NeverNineOnes | drive1541_physical/gcr_codec.cpp:9-14 | nor nine one bits |
| Gcr.EightOnesOccur | drive1541_physical/gcr_codec.cpp:9-14 | eight do occur, in 0x5E |
| EdgeQueue.InsertKeepsOrder | drive1541_physical/iec_edge_queue.hpp:35-57 | insertion at the lower bound keeps the strict order and adds exactly the new edge |
| EdgeQueue.DueEdgesLead | drive1541_physical/iec_edge_queue.hpp:59-66 | the leading due edges are all the due edges |
| TimedQueue.DueSplits | drive1541_physical/iec_edge_queue.hpp:59-66 | taking what is due at a and then at b takes the same edges in the same order as at b |
| EdgeQueue.EdgeQueue.LowerBound | drive1541_physical/iec_edge_queue.hpp:44-55 | the halving search finds the insertion place |
| EdgeQueue.EdgeQueue.Push | drive1541_physical/iec_edge_queue.hpp:35-57 | the queue is the old one with the edge in its place, still ordered |
| EdgeQueue.EdgeQueue.PopReady | drive1541_physical/iec_edge_queue.hpp:59-66 | the loop returns the due prefix and keeps the rest |
| IecPort.ChangeKeepsAgreementIff | drive1541_physical/drive_iec_port.hpp:86-97 | one queued change leaves other lines alone and keeps agreement on its own iff the level did not change or no pending edge of that line is later |
| IecPort.QueueKeepsAgreementIff | drive1541_physical/drive_iec_port.hpp:27-37 | queueing three lines keeps port and latch in agreement iff no changed line has a later pending edge |
| IecPort.ApplyKeeps | drive1541_physical/drive_iec_port.hpp:49-59 | applying keeps order, alternation and agreement; once all is due, port and latch are equal iff they agreed |
| IecPort.AgreementOverRuns | drive1541_physical/drive_iec_port.hpp:27-59 | over any interleaving, port and latch agree throughout iff every change comes in time, and then each line's pending edges alternate |
| IecPort.NonDecreasingIsInTime | drive1541_physical/drive_iec_port.hpp:27-37 | time stamps that never go back are in time |
| IecPort.PassesThrough | drive_1541.hpp:3132-3141 | queueing at the current time and applying at once passes every level through undelayed |
| IecPort.SetKeepsAgreementIff | drive1541_physical/drive_iec_port.hpp:39-47 | setting lines outright keeps agreement iff each line's last pending edge leads to the new level |
| IecPort.DropKeepsAgreementIff | drive1541_physical/drive_iec_port.hpp:77-83 | dropping pending edges leaves agreement iff the port had caught up |
| IecPort.IecPort.QueueHostLines | drive1541_physical/drive_iec_port.hpp:27-31 | the three lines are queued on the input side and the output side is untouched |
| IecPort.IecPort.QueueDriveLines | drive1541_physical/drive_iec_port.hpp:33-37 | the reverse |
| IecPort.IecPort.ApplyDue | drive1541_physical/drive_iec_port.hpp:49-59 | both sides are brought up to date, the output side only if allowed, and the edges applied are counted |
| IecPort.ApplyEvents | drive1541_physical/drive_iec_port.hpp:99-107 | the loop applies edges in order |
| Scheduler.ClockDoesNotDrift | drive1541_physical/drive_scheduler.hpp:37-42 | however host cycles are split and whatever runs in between, the drive clock is the exact quotient of all of them plus the jumps of the runs |
| Scheduler.SortedIsUnique | drive1541_physical/drive_scheduler.hpp:50-64 | ordered queues with the same events are equal, so any sort gives this result |
| Scheduler.RunSplits | drive1541_physical/drive_scheduler.hpp:70-80 | running to a and on to b delivers the same events and ends in the same state as running to b |
| Scheduler.EventsAreConserved | drive1541_physical/drive_scheduler.hpp:50-80 | every scheduled event is delivered once or still pending |
| Scheduler.DeliveryIsOrdered | drive1541_physical/drive_scheduler.hpp:50-80 | if nothing is scheduled into time already run, everything delivered over the run comes in order of time, first scheduled first |
| Scheduler.DriveScheduler.TickHostCycles | drive1541_physical/drive_scheduler.hpp:37-42 | ticks, drive cycles and remainder after the scaled division |
| Scheduler.DriveScheduler.SetRateRatio | drive1541_physical/drive_scheduler.hpp:44-48 | zero counts as one and the remainder starts over |
| Scheduler.DriveScheduler.ScheduleAt | drive1541_physical/drive_scheduler.hpp:50-64 | appending and sorting puts the event behind everything due no later than it |
| Scheduler.DriveScheduler.RunEventsUntil | drive1541_physical/drive_scheduler.hpp:70-80 | the loop delivers the due prefix and the clock never goes back |
| Scheduler.StableSort | drive1541_physical/drive_scheduler.hpp:58-63 | the result is ordered and has the same events |
| Pll.CorrectionShrinks | drive1541_physical/read_channel_pll.cpp:39-42 | the correction keeps the error's sign and shrinks it by the gain, rounding up |
| Pll.BandKeptIff | drive1541_physical/read_channel_pll.cpp:39-42 | for gains up to 1000 a band of errors is kept under all noise up to N iff N*(1000-g) <= g*band |
| Pll.BandKeptByOvershootIff | drive1541_physical/read_channel_pll.cpp:39-42 | for gains from 1000 up it is kept iff (band+N)*(g-1000) < 1000*(band+1) |
| Pll.GainBandIsKept | drive1541_physical/read_channel_pll.cpp:39-42 | the band (N*(1000-g)+1000)/g is kept for every gain from 1 to 1000 |
| Pll.DefaultNoise | drive1541_physical/read_channel_pll.cpp:32-39 | default calibration noise lies in [-72, 149] for every generator state, zone, revision and cell time |
| Pll.AlwaysLocked | drive1541_physical/read_channel_pll.cpp:32-55 | from reset over any run the error stays in [-216, 447], nothing overflows, every sample reports lock, and lock time counts cells up to its limit |
| Pll.ReadChannelPll.NextNoise | drive1541_physical/read_channel_pll.cpp:57-66 | the shift register steps and its six bits are scaled, rounding toward zero |
| Pll.ReadChannelPll.AdvanceCell | drive1541_physical/read_channel_pll.cpp:32-55 | the method on fields is the step of the theorems, and its sample reports the new state |
| Pll.ReadChannelPll.SetCalibration | drive1541_physical/read_channel_pll.cpp:24-30 | zero counts as one |

## Left out

- Kernal-compatibility flags, ATN and listener acknowledges, the receive timing window and the release-delay model of the serial step: all are off by default, and the model is the default-flag path.
- Mounted disk images: the disk is the virtual one, so reading a block never fails. Memory stores of the drive CPU are not modelled, nor are the VIA registers that do not drive the bus.
- Record of the last command, dispatch and error counters and the disk map bytes: written and never read by the modelled code.
- SerialUnit.SerialUnit.ProcessIecCommandByte: the DOS fields are one record that the methods reassign, so updates of single fields of the drive are not told apart.
- SerialUnit.SerialUnit.TickIecHalfCycle: drive CPU, power states and the queued receive burst (drive_1541.hpp:2866-2875) are left out; the drive is powered and bytes reach the DOS directly.
- The port's edge queue inside the drive's tick: the serial model reads and drives the bus lines directly, which `IecPort.PassesThrough` justifies.
- Related flags of one component are grouped into a record per field in the serial unit, the bus domain, the VIC and the CIA.
- Telemetry counters, tracing and edge owner and cause bookkeeping: nothing else reads them.
- BusDomain.BusDomain.ApplyLineTimingModel: the analog solver's voltage arithmetic is replaced by an arbitrary extra wait per line, settle count and number of waits run out before.
- IecBusConvergence.BusConverges: with the analog solver on, assumes some bound on the waits in a row it asks for at one rise, because its voltage is not modelled.
- The priority queue's container: a sequence kept in (when, seq) order.
- Link jitter, clock dither, domain enable switches and attaching devices while running: they break the bus invariants by design. Several devices are one pull each for CLK and DATA.
- Wrap-around of 64-bit time stamps, tick counts and sequence numbers, and of the codec's 32-bit counters: they are unbounded here.
- Host session retries and bus recovery: the wait before each bit is shown to be over at once, so they are not reached.
- VIC fetches, pixels, frame hashes and the legacy whole-cycle tick; register reads.
- Side-effect-free CIA peeks. The profile flags that are the same for all revisions are constants.
- The drive's block index collides for high tracks; properties are stated over slots.
- Overflow of the loop's 32-bit product under calibrations other than the default.
- SID, memory map, drive CPU, disk image backends, LED model and tools.
