# Altair simulator: models and proofs

The simulator runs S-100 bus cards one port access at a time. Between accesses nothing happens: a card
works out, when it is next touched, everything that should have happened since. This project models the
cards where that bargain is hardest to keep, and proves that they keep it.

Each card is written twice. A `datatype` with functions on it says what the card does, as a value; a
`class` with the card's own fields does it in place, with the source's loops and arrays, and every method
is proved to take the value where the function takes it. The lemmas about the functions then hold of the
class. Times are T-states of the CPU clock, handed in by the machine; files are the bytes in them; what is
on the far end of a serial line is an adversary bounded by what it may say.

| files | what they model |
|---|---|
| `FdcPlusHdfModel`, `FdcPlusHdfTime`, `FdcPlusHdfPorts`, `FdcPlusHdfTransfer`, `FdcPlusHdfCommands`, `FdcPlusHdfLayout`, `FdcPlusHdfHead`, `FdcPlusHdf` | the FDC+ drive type 5: a spinning high-density disk, simulated lazily |
| `SerialDriveModel`, `SerialDriveLink`, `SerialDriveCache`, `SerialDriveServer`, `SerialDriveWire`, `SerialDrivePanel`, `SerialDrive` | the FDC+ serial drive: a one-track write-back cache before a remote server |
| `SerialDriveScenes`, `SerialDriveFaults`, `SerialDrivePut` | runs of the serial drive that lose a track, and exactly when a byte is safe |
| `Xmodem`, `XmodemOutcome`, `Crc16` | the XMODEM file transfer and its check |
| `DiskImage`, `TrackStream`, `FloppyDrive` | a mounted diskette, the IBM 3740 track stream, and formatting |
| `DrawingClock` | the CADzilla's 2CLK clock and wake |
| `Card`, `IdeCard`, `IdeDriver`, `DualIde`, `SdCard`, `SdDriver`, `DualSd` | the two flash card boards and the card they share |
| `BankMem`, `BankMemCards`, `BankMemPages`, `MemBank` | bank-switched memory |
| `Disk1aMotor` | the CompuPro Disk 1A's motor timer |
| `Dazzler`, `Dazzler2`, `DazzlerBoard`, `DazzlerPlaces` | the Dazzler's repaint cache, and the Dazzler II's own copy |
| `Basics`, `Arithmetic` | what they share |

## What is proved

**The spinning disk.** `AdvanceSplits`: running the card to one moment and then to a later one is running
it to the later one, for every reachable state and both moments, through all six kinds of event and the
byte-by-byte transfer. So a guest that polls the card more often changes nothing (`PollsInvisible`). The
shortcut over long quiet stretches is the run that takes every index hole (`QuietStretch`,
`Engine.Advance`), and both end, by a measure over the holes left and then the timers running. A disk
changes only by whole tracks. A track put out in time is the track in the image, and a later read in time
returns it after one stale byte (`RoundTrip`), from the command bytes that begin each to the last byte
(`CommandedRoundTrip`); and where in the file it lies, by cylinder and track named, is given in plain numbers
for the read and for the write (`ReadReturnsSlice`, `WriteChangesSlice`). Steps take the head where they should
and the lines say so, whatever else the card is doing (`StepsGo`, `StepSettles`). The transfer moves all 10,240 bytes exactly when a stated
bound on the CPU's clock holds, met from 31,250 Hz and missed at 31,083 (`ReadMovesAll`, `ReadRateFrom`,
`SlowClockLosesAByte`).

**The serial drive.** The server answers in order. What it says is a first-in first-out line of bytes, and a
reply may be late by any time, cut short, lost, or damaged so long as the damage shows. The bytes the board
has for a request answer that request if and only if nothing older was on the line when it emptied its
receiver for it, at every moment of every run (`ReplyIsItsOwn`), and the board never looks. So the claims hold of some runs and not of
others, and both are proved. What goes the other way is pinned byte by byte: over every run, what the board puts
on the line is, message by message, what a server that knows only the letters and the low-byte-first words reads
as the turn's own request (`LineSays`). To the guest, sectors come round in order (`SectorsComeRound`), each gives
its 137 bytes (`SectorReadsOut`), and the TRACK 0 line is never wrong (`Track0IsTrue`).

Where no READ or WRIT goes while an older reply is on the line, and the guest enables a write and puts its
bytes only while the track under the head is in the buffer at rest, no write is lost that is not logged as
given up (`NothingIsLost`), a write taken for done is one the server has (`WriteAcknowledged`), and a sector
reads as the disk's as soon as it has come (`ReadsAsItComes`). A server none of whose replies outlives the
second it is waited for always leaves the line clear (`PromptIsClear`).

Where an older reply is on the line, a guest that keeps to all of that can lose a track without a word:
`LateWriteReply` is a run from power-on in which a write's two replies are the last write's, and its track
never reaches the server; `LateTrack` is one in which a track is taken for the next. Where the line is clear
and the guest breaks its discipline at one step, it can too: a write enabled while a track is coming
(`EnabledWhileReading`) or going (`EnabledWhileWriting`), or after a read that failed
(`EnabledAfterFailedRead`); a byte put with no write enabled (`PutWithoutEnable`) or too late
(`PutWhileWriting`). For one byte, in any state of any run so far all right, `PutLosesExactly`: the line and
the server can go on to lose it unlogged if and only if the discipline forbids it, unless the write under way
can by then only be given up and logged. (The server there may say "track written" of any track sent in the
write under way, an earlier try's included.)

**XMODEM.** Over lossy, damaging lines the receiver always holds a prefix of the file's blocks, and all of
them once either side declares success (`Delivered`); eight bits of block number are enough (`NoAlias`). A
clear line completes (`ClearLineCompletes`). One lost acknowledgement does not:
the receiver answers a repeated block with NAK. That is the only thing that is fatal: any one acknowledgement
of any file can be lost (`AckCanBeLost`), and of every state of every run, with both sides still going and a
try left, some continuation completes if and only if none has been (`OnlyAckLossIsFatal`; `CompletesExactly`
says which states of all can still complete). The check is the remainder
of polynomial division, linear, zero on exactly the frames that end in their own check, high byte first
(`FrameChecks`), and catches every burst of up to sixteen
bits.

**Formatting.** Reading an IBM 3740 track finds exactly the sectors printed on it (`ParsePrint`), and on any
bytes at all stays inside them (`WindowsApart`). On a medium that follows its format, reformatting a track, to
any size, changes no sector of any other track (`FormatKeepsOthers`). Every sector lies in the file where its side and
track's turn puts it, in either order and whatever the sizes (`StartIsOffset`, `PlaceIs`). A list of sector IDs is accepted exactly when it is uniform and its
numbers are a permutation of a range (`Shape`).

**The drawing clock.** No fraction of a 2CLK is lost however the accesses fall (`SyncSplits`, `RunIsExact`),
the wake is the first T-state at which a command is over (`DeadlineIsFirst`), and the wakes are enough: at
every moment the chip is drawing what it would be had the board been synced at every T-state
(`WakesSuffice`). All of it holds again after the CPU's clock is raised (`RaisedClockStaysExact`); after it is
lowered, exactly when the subtraction has an answer and the wake already set is not too late
(`SubtractionIsRight`, `ReclockedIsArmed`).

**The card boards.** Each refines a store of 512-byte blocks, from any state of the board and through the
port sequences a BIOS makes; a card written by either reads the same through the other (`IdeToSd`,
`SdToIde`, `BoardsAgree`). A strict driver and a lax one both read exactly what was queued (`Handshake`).

**Banked memory.** In every run no address is answered twice (`NoFight`), a byte written in a page is what
the page gives when it is in again (`PageRemembers`, `PageComesBack`), the byte out names the page by its low four
bits or its one bit (`SelectPicks`), and every layout the settings allow, the PROM maps of
the ExpandoRAM III included, carries exactly its pages (`PlanesLive`, `CellsCarry`).

**The motor timer and the Dazzler.** The alarm that is moved only when it rings stops the motors exactly
when one moved at every access would, at whatever rates, so long as no alarm is set for later than the access
at hand asks (`LazyIsEager`). When the Dazzler sees no change, what it would draw is
what is on the screen (`UnchangedIsShown`), and `RepaintsExactly` says when a change it sees is one of the
picture. Which bit or nibble of which address is which element, in what color, is `ScreenShowsMemory`, `NibblesShow`
and `BitsShow`, and so of the surface the loops paint (`SurfaceNibbles`, `SurfaceBits`).

## Where the code and its documentation differ

- `src/boards/farmtek-fdcplus.cpp:576-577` says a late reply can never be taken for a later command's. It can,
  exactly when it is still on its way once the receiver has been emptied (`ReplyIsItsOwn`): `LateWriteReply`
  and `LateTrack` lose a track by it.
- `src/boards/cadzilla.cpp:54-58` says that a change of rate syncs first. A change of the CPU's own clock does
  not: the deadline's subtraction, made with no time gone by since, is right exactly when what is left over is
  no more than what the command has still to run (`SubtractionIsRight`), and otherwise wraps
  (`LoweredClockCanWrap`); and a wake set before is in time exactly when it is no later than the new deadline
  (`WakeInTime`), which in the run of `LoweredClockWakesLate` it is not.
- `src/boards/compupro-disk1a.cpp:91-95` says the motors stop about 15 s after the last access. They do
  exactly when the alarm already set is for no later than that, and otherwise stop at that alarm
  (`StopsOnTimeExactly`), as in the run of `LoweredClockStopsLate`; a clock never lowered always meets it
  (`NeverSlowerIsGuarded`).
- `Testing/xmodem.py:113-118` reports a transfer as done even if the end of it is never acknowledged, and
  `Delivered` covers that: every block has been by then.
- `src/host/disk.h:114-119` says that every other track keeps its data when one changes size, on a medium
  that can be resized. On one that cannot, every sector of every later track is looked for as much further on
  as the track has grown, over bytes that have not moved (`FixedMediumShifts`).

## Model

| member | source | states |
|---|---|---|
| FdcPlusHdfModel.UsFloors | src/boards/farmtek-fdcplus-hdf.cpp:69-73 | microseconds in T-states, rounded down, and never less than one |
| FdcPlusHdfModel.TracksOneToOne | src/boards/farmtek-fdcplus-hdf.cpp:89-94 | every place of the head is one of the 149 tracks or none, no two share one, and every track has one; which is which is `FdcPlusHdfLayout.ReadReturnsSlice` |
| FdcPlusHdfModel.Next | src/boards/farmtek-fdcplus-hdf.cpp:160-178 | of the events due, the one taken is the earliest, and of two due at once the one considered first; none is taken only if none is due |
| FdcPlusHdfTransfer.FillGot | src/boards/farmtek-fdcplus-hdf.cpp:289-301 | what a read has put in the buffer is as much of the track as has come, from its first byte on, and the guest's place in it stays |
| FdcPlusHdfModel.PutTrack | src/boards/farmtek-fdcplus-hdf.cpp:343-345 | a committed track is the one written, and every other track of the image is as it was |
| FdcPlusHdfModel.HoleFindsNoTransfer | src/boards/farmtek-fdcplus-hdf.cpp:233-241 | in every reachable state an index hole finds neither a write nor a synced read in progress |
| FdcPlusHdfModel.WindowFindsSectorTrueOver | src/boards/farmtek-fdcplus-hdf.cpp:170-172 | the read-clear window ends after sector true has |
| FdcPlusHdfModel.HandleValid | src/boards/farmtek-fdcplus-hdf.cpp:180-224 | every event keeps the card well formed: image sizes whole tracks and at most 1,525,760 bytes, timers consistent |
| FdcPlusHdfModel.HandleDecreases | src/boards/farmtek-fdcplus-hdf.cpp:157-178 | every event leaves fewer holes to come, or as many holes and fewer timers: the loop ends |
| FdcPlusHdfModel.RunToValid | src/boards/farmtek-fdcplus-hdf.cpp:157-225 | when the loop stops nothing is due, and the card is well formed |
| FdcPlusHdfModel.AdvanceValid | src/boards/farmtek-fdcplus-hdf.cpp:157-228 | an advance leaves a well-formed card with every event in the future |
| FdcPlusHdfTime.RunToSplits | src/boards/farmtek-fdcplus-hdf.cpp:157-225 | taking the events due by an earlier moment first does not change those taken by a later one |
| FdcPlusHdfTime.FillTwice | src/boards/farmtek-fdcplus-hdf.cpp:293-300 | bytes read in two pieces are the bytes read in one |
| FdcPlusHdfTime.DrainTwice | src/boards/farmtek-fdcplus-hdf.cpp:326-329 | bytes written in two pieces are the bytes written in one, when the buffer did not change |
| FdcPlusHdfTime.CatchEarly | src/boards/farmtek-fdcplus-hdf.cpp:226-227 | bringing a transfer up to date early changes nothing that comes after |
| FdcPlusHdfTime.AdvanceSplits | src/boards/farmtek-fdcplus-hdf.cpp:157-228 | advance(t1) then advance(t2) is advance(t2): every register, timer, byte and disk |
| FdcPlusHdfTime.OneTurn | src/boards/farmtek-fdcplus-hdf.cpp:233-270 | a resting disk turns once from each hole to the next, whatever else is due by then |
| FdcPlusHdfTime.SkipIsTurns | src/boards/farmtek-fdcplus-hdf.cpp:213-216 | skipping m turns and fixing the parity of the sector shown is taking them, to within what the next turn forgets |
| FdcPlusHdfTime.QuietStretch | src/boards/farmtek-fdcplus-hdf.cpp:205-221 | the shortcut ends in the state of the run that takes every hole, for any stretch it may skip |
| FdcPlusHdfPorts.AccessValid | src/boards/farmtek-fdcplus-hdf.cpp:352-440 | every port access keeps the card well formed |
| FdcPlusHdfPorts.PollThenCall | src/boards/farmtek-fdcplus-hdf.cpp:352-356 | a poll before an access changes nothing the access leaves |
| FdcPlusHdfPorts.PollsInvisible | src/boards/farmtek-fdcplus-hdf.cpp:352-365 | dropping a poll from any run of accesses leaves the same card at its end |
| FdcPlusHdfPorts.AdvanceKeepsSpin | src/boards/farmtek-fdcplus-hdf.cpp:139-150 | only a motor start moves the moment the holes are counted from |
| FdcPlusHdf.TrackRam.FillUpTo | src/boards/farmtek-fdcplus-hdf.cpp:293-300 | the loop copies the track as the model says |
| FdcPlusHdf.TrackRam.DrainUpTo | src/boards/farmtek-fdcplus-hdf.cpp:326-329 | the loop takes the buffer as the model says |
| FdcPlusHdf.Engine.constructor | src/boards/farmtek-fdcplus-hdf.cpp:110-135 | a powered card: every register, flag and timer as the model's power-on has them, the disks in, every head at cylinder 0 |
| FdcPlusHdf.Engine.PickEvent | src/boards/farmtek-fdcplus-hdf.cpp:160-178 | the six considerations pick the event the model takes |
| FdcPlusHdf.Engine.Advance | src/boards/farmtek-fdcplus-hdf.cpp:157-228 | the loop, with its shortcut, leaves what taking every event one at a time leaves; it ends |
| FdcPlusHdf.Engine.Read | src/boards/farmtek-fdcplus-hdf.cpp:352-365 | the byte an IN returns, and the card it leaves |
| FdcPlusHdf.Engine.Write | src/boards/farmtek-fdcplus-hdf.cpp:367-377 | the card an OUT leaves |
| FdcPlusHdf.Engine.Select | src/boards/farmtek-fdcplus-hdf.cpp:381-395 | a drive select, whose spin-up throws the next hole away, leaves the card the model says |
| FdcPlusHdf.Engine.Command | src/boards/farmtek-fdcplus-hdf.cpp:399-440 | one command byte does one thing -- a step, a head command, or an enable -- and leaves the card the model says |
| FdcPlusHdfTransfer.ReadMovesAll | src/boards/farmtek-fdcplus-hdf.cpp:173-174 | a read's end has seen all 10,240 bytes exactly when the clock meets the read bound |
| FdcPlusHdfTransfer.WriteMovesAll | src/boards/farmtek-fdcplus-hdf.cpp:175-176 | a write's end has taken all 10,240 bytes exactly when the clock meets the write bound |
| FdcPlusHdfTransfer.ReadRateFrom | src/boards/farmtek-fdcplus-hdf.cpp:289-301 | every clock from 31,250 Hz meets the read bound |
| FdcPlusHdfTransfer.WriteRateFrom | src/boards/farmtek-fdcplus-hdf.cpp:322-330 | every clock from 10,417 Hz meets the write bound |
| FdcPlusHdfTransfer.SlowClockLosesAByte | src/boards/farmtek-fdcplus-hdf.cpp:69-73 | 31,083 Hz does not meet the read bound, nor 10,277 Hz the write bound |
| FdcPlusHdfTransfer.ReclockedEndsFirst | src/boards/farmtek-fdcplus-hdf.cpp:157-178 | after a change of the CPU's clock in mid-transfer its end comes no later than the hole set at the old rate if and only if it does by the two rates; so whenever the clock is not raised |
| FdcPlusHdfTransfer.DoubledClockMeetsHole | src/boards/farmtek-fdcplus-hdf.cpp:233-270 | a clock at least doubled in mid-write never meets that, and the hole then begins a new turn in place of the write, no disk changed |
| FdcPlusHdfTransfer.RunDuringTransfer | src/boards/farmtek-fdcplus-hdf.cpp:157-228 | until a transfer ends, time changes only the head timers and their status lines |
| FdcPlusHdfTransfer.OnlyWholeTracks | src/boards/farmtek-fdcplus-hdf.cpp:335-347 | no event changes a disk but the end of a write, and that by one whole track |
| FdcPlusHdfTransfer.SendByte | src/boards/farmtek-fdcplus-hdf.cpp:367-376 | a byte put out before the disk comes to it is the byte the disk takes |
| FdcPlusHdfTransfer.WriteLands | src/boards/farmtek-fdcplus-hdf.cpp:311-347 | bytes put out in time are the track in the image once the write is over, and no other disk or track changes |
| FdcPlusHdfTransfer.DisarmedPlay | src/boards/farmtek-fdcplus-hdf.cpp:352-440 | a run with no write enable in it changes no disk |
| FdcPlusHdfTransfer.TakeOne | src/boards/farmtek-fdcplus-hdf.cpp:357-362 | a byte taken after it has arrived is the track's, one behind |
| FdcPlusHdfTransfer.ReadsReturn | src/boards/farmtek-fdcplus-hdf.cpp:273-307 | a read whose INs each come after their byte returns one stale byte and then the track |
| FdcPlusHdfTransfer.RoundTrip | src/boards/farmtek-fdcplus-hdf.cpp:273-377 | a track written in time is what a later read in time returns, whatever the run between did short of another write |
| FdcPlusHdfCommands.WriteEnableStarts | src/boards/farmtek-fdcplus-hdf.cpp:433-440 | 80H in the window and past sector true begins a write of the track under the head, nothing sent yet |
| FdcPlusHdfCommands.WaitingWriteStarts | src/boards/farmtek-fdcplus-hdf.cpp:170-172 | given earlier it waits, and the write begins when sector true ends |
| FdcPlusHdfCommands.ReadEnableStarts | src/boards/farmtek-fdcplus-hdf.cpp:428-432 | 10H in the window of a formatted track begins a read of it: from the window's end, every byte due by any moment of the turn is in the buffer, and until the read's end the card is reading that track of that drive |
| FdcPlusHdfCommands.CommandedRoundTrip | src/boards/farmtek-fdcplus-hdf.cpp:273-440 | a track written in time after 80H is what a read begun by 10H and taken in time returns, after one stale byte, whatever the run between did short of another write |
| FdcPlusHdfLayout.ReadReturnsSlice | src/boards/farmtek-fdcplus-hdf.cpp:89-100 | a read begun by 10H returns, after the stale byte, the 10,240 bytes of the file from 2c tracks in at cylinder c below 72 with an even track named, or one from 144 up; from 2c+1 with an odd one below 144; and from c+72 on the bottom of cylinders 72 to 76 |
| FdcPlusHdfLayout.NothingToRead | src/boards/farmtek-fdcplus-hdf.cpp:273-291 | anywhere else 10H brings nothing into the buffer |
| FdcPlusHdfLayout.NothingFoundIsReported | src/boards/farmtek-fdcplus-hdf.cpp:233-241 | and at the next hole the read is reported done, with an error |
| FdcPlusHdfLayout.PutTrackReplaces | src/boards/farmtek-fdcplus-hdf.cpp:343-345 | a track committed is its slice of the file, every other byte stays, and a file that had to grow grew by zeros |
| FdcPlusHdfLayout.WriteChangesSlice | src/boards/farmtek-fdcplus-hdf.cpp:335-347 | a write begun by 80H and made in time changes that slice of that drive's file and no other byte of any, or nothing when the disk will not take it |
| FdcPlusHdfLayout.NothingIsWritten | src/boards/farmtek-fdcplus-hdf.cpp:335-341 | a write off the tracks changes no disk |
| FdcPlusHdfHead.StatusReads | src/boards/farmtek-fdcplus-hdf.cpp:14-21 | the status port: each line in its own bit, by number, LOW when asserted |
| FdcPlusHdfHead.SectorReads | src/boards/farmtek-fdcplus-hdf.cpp:262-266 | the sector port: FF, or sector 0 or 15 with bit 0 LOW while sector true lasts |
| FdcPlusHdfHead.IoStatusReads | src/boards/farmtek-fdcplus-hdf.cpp:24-26 | the I/O status port: bits 1, 2 and 7, HIGH when asserted |
| FdcPlusHdfHead.StepsGo | src/boards/farmtek-fdcplus-hdf.cpp:405-412 | n commands with bit 1 set take the head n cylinders towards 0, and with bit 0 alone n towards 79, or to the stop; no other drive's head moves |
| FdcPlusHdfHead.StepSettles | src/boards/farmtek-fdcplus-hdf.cpp:413-416 | three milliseconds after a step MOVE HEAD is asserted, and TRACK 0 exactly over cylinder 0, and eighteen after it HEAD exactly if loaded, whatever else the card was doing |
| FdcPlusHdfHead.SelectReads | src/boards/farmtek-fdcplus-hdf.cpp:381-396 | a select of another of the four drives reads F5, less TRACK 0 over cylinder 0 and WRITE PROTECT with a protected disk; any but of them leaves every port inactive |
| FdcPlusHdfHead.CommandBitsMean | src/boards/farmtek-fdcplus-hdf.cpp:399-440 | with no step: bit 2 loads the head and starts the motor, else bit 3 unloads it, else bit 4 asks for a read, else bit 7 for a write; and nothing with no drive selected |
| FdcPlusHdfHead.OtherOuts | src/boards/farmtek-fdcplus-hdf.cpp:367-377 | port 3 names the track, and port 2 takes a byte unless a read is in hand or the buffer full |
| FdcPlusHdfHead.HoleShows | src/boards/farmtek-fdcplus-hdf.cpp:247-270 | a turn shows sector 0 and sector 15 in turn when the head is settled, stops the motor on the thirty-second with the head up, and with no read asked for has the boot sector waiting |
| FdcPlusHdfHead.OtherHoles | src/boards/farmtek-fdcplus-hdf.cpp:233-245 | a hole that finds a read with nothing under its head ends it in an error; the first after a motor start is thrown away |
| FdcPlusHdfHead.TransferTells | src/boards/farmtek-fdcplus-hdf.cpp:273-347 | a transfer begins with no error shown, a write with ENWD asserted, and ends with DONE |
| FdcPlusHdfHead.ReadTells | src/boards/farmtek-fdcplus-hdf.cpp:289-301 | a TRACK error from the sync byte on when the low seven bits of the track differ from those named, and NRDA from the fifth byte on |
| FdcPlusHdfHead.PowerReads | src/boards/farmtek-fdcplus-hdf.cpp:110-135 | at power-on every port is inactive, every head over cylinder 0, and the disks stay in |
| FdcPlusHdfHead.TurnTimes | src/boards/farmtek-fdcplus-hdf.cpp:29-34 | when sector true, the window, a read, a write and the turn end, in microseconds after the hole |
| FdcPlusHdfHead.ByteTimes | src/boards/farmtek-fdcplus-hdf.cpp:289-327 | when each byte of a track has come, and when the disk has taken it |
| SerialDriveModel.StatusTells | src/boards/farmtek-fdcplus.cpp:42-48 | each status line is one bit of what port 0 reads; FF with no drive, E5 with one just selected |
| SerialDrive.SumOf | src/boards/farmtek-fdcplus.cpp:35-39 | the loop's sum is the sum of the bytes in sixteen bits |
| SerialDriveCache.TurnKeeps | src/boards/farmtek-fdcplus.cpp:439-574 | a turn of the link keeps the cache invariant, whatever comes, so long as a good track is the one asked for and "track written" is said of a track of this write that the server holds |
| SerialDriveCache.ServerKeeps | src/boards/farmtek-fdcplus.cpp:439-574 | so does the server, taking any track of the write under way or just ended, at any time |
| SerialDriveCache.EnableKeeps | src/boards/farmtek-fdcplus.cpp:239-287 | a write enable at rest keeps the invariant |
| SerialDriveCache.EnableKeepsExactly | src/boards/farmtek-fdcplus.cpp:239-287 | and any keeps it exactly when no track is on the line and the buffer is the disk's own track |
| SerialDriveCache.PutKeeps | src/boards/farmtek-fdcplus.cpp:339-343 | a byte put in the track at rest keeps the invariant |
| SerialDriveCache.PutKeepsExactly | src/boards/farmtek-fdcplus.cpp:339-343 | a byte that changes the disk keeps the invariant exactly when the discipline allows it |
| SerialDriveCache.StepKeeps | src/boards/farmtek-fdcplus.cpp:216-343 | every event of a disciplined guest keeps the invariant |
| SerialDriveCache.NothingLost | src/boards/farmtek-fdcplus.cpp:239-679 | with any server that meets TurnKeeps's two conditions, the server's tracks with the one owed laid over them are the disk as written, but for a track whose give-up was logged |
| SerialDriveCache.GuestReadsDisk | src/boards/farmtek-fdcplus.cpp:297-336 | a sector found in the buffer, no track coming, reads as the guest wrote it |
| SerialDriveServer.TrailWired | src/boards/farmtek-fdcplus.cpp:439-614 | over every run, whatever the guest does and however late the server, the first bytes to come answer older requests, exactly as many as the last one left on the line, and the rest answer it |
| SerialDriveServer.ReplyIsItsOwn | src/boards/farmtek-fdcplus.cpp:576-614 | at any moment of any run, the bytes the board has for its last request answer it if and only if nothing was left on the line when it had emptied its receiver; otherwise the first of them answers another |
| SerialDriveServer.ClearIsHonest | src/boards/farmtek-fdcplus.cpp:515-571 | with nothing older there, a server that answers in order meets the cache's two conditions: a good track is the one asked for, and "track written" is of this write |
| SerialDriveServer.TrackIsTrue | src/boards/farmtek-fdcplus.cpp:546-560 | a track goes to the server under the key its own WRIT named, and finds the line clear of itself |
| SerialDriveServer.LinkFaithful | src/boards/farmtek-fdcplus.cpp:439-574 | a turn of the link with its answer, however late, cut, lost or damaged, keeps the invariant of board, line and server, if its READ or WRIT finds the line clear |
| SerialDriveServer.NothingIsLost | src/boards/farmtek-fdcplus.cpp:239-679 | in every run of a disciplined guest whose READs and WRITs find the line clear, the server's tracks with the one owed laid over them are the disk as written, but for a track whose give-up was logged |
| SerialDriveServer.WriteAcknowledged | src/boards/farmtek-fdcplus.cpp:562-571 | in such a run a write taken for done is held by the server, as it is in the buffer, under the drive and track announced |
| SerialDriveServer.ReadsAsItComes | src/boards/farmtek-fdcplus.cpp:515-519 | while an undamaged track comes, every byte of it that has come reads as the disk's, and the sector port shows a sector only when it has all come |
| SerialDriveServer.PromptIsClear | src/boards/farmtek-fdcplus.cpp:430-614 | so long as no reply outlives the second it is waited for, no request ever finds an older one on the line |
| SerialDriveFaults.LateWriteReply | src/boards/farmtek-fdcplus.cpp:546-571 | a run from power-on, of any disk: a disciplined guest, a server that answers in order and late, and a write taken for done on the last write's replies; the byte is nowhere and nothing is logged |
| SerialDriveFaults.LateTrack | src/boards/farmtek-fdcplus.cpp:515-528 | a run from power-on, of any disk: a disciplined guest, and a track late by more than its second taken for the next one asked for, and owed to it |
| SerialDriveFaults.EnabledWhileReading | src/boards/farmtek-fdcplus.cpp:515-519 | a run from power-on, undisciplined at one step, the line always clear: a write enabled and a byte put while the track comes, which the rest of it covers |
| SerialDriveFaults.EnabledWhileWriting | src/boards/farmtek-fdcplus.cpp:673-678 | the same, with the write enabled while the last one's track goes out: the read behind it covers the byte |
| SerialDriveFaults.EnabledAfterFailedRead | src/boards/farmtek-fdcplus.cpp:531-536 | the same, after a read cut short anywhere: the buffer, one track as far as it came and the last one beyond, is owed to the new track |
| SerialDriveFaults.PutWithoutEnable | src/boards/farmtek-fdcplus.cpp:339-343 | the same, with a byte put and no write enabled |
| SerialDriveFaults.PutWhileWriting | src/boards/farmtek-fdcplus.cpp:339-343 | the same, with a byte put while its track is on its way |
| SerialDrivePut.PutLosesExactly | src/boards/farmtek-fdcplus.cpp:339-343 | of a new byte put in any state that is so far all right: the line and the server alone can lose it unlogged if and only if the discipline forbids it and the write under way is not one that can only be logged |
| SerialDriveLink.TransactionEnds | src/boards/farmtek-fdcplus.cpp:439-574 | each byte heard and each second waited out leaves less to do, no turn leaves more, and none left is idle; a write is asked again only with a try fewer |
| SerialDriveLink.TransactionBegins | src/boards/farmtek-fdcplus.cpp:460-484 | a transaction begins with no more to do than three tries of a write and a read |
| SerialDriveLink.WithinItsWork | src/boards/farmtek-fdcplus.cpp:439-574 | a transaction has no more such turns in it than the work it began with |
| SerialDriveLink.LinkTimes | src/boards/farmtek-fdcplus.cpp:439-602 | a request is waited for one second, the status asked for a tenth of a second after the link comes to rest, and a write has three tries |
| SerialDriveLink.LineTimes | src/boards/farmtek-fdcplus.cpp:430-454 | every byte that moves gives a reply another second, and none times out with bytes still to go |
| SerialDriveLink.MessageRoundTrip | src/boards/farmtek-fdcplus.cpp:585-614 | a message is taken for what it is and nothing else, and its parameters read back |
| SerialDriveLink.TrackRoundTrip | src/boards/farmtek-fdcplus.cpp:647-655 | a track with its sum after it is taken for good; that this is what goes out is `SerialDriveWire.ActQueues` |
| SerialDriveWire.SumIsTotal | src/boards/farmtek-fdcplus.cpp:35-39 | the board's sum is the bytes' total in sixteen bits |
| SerialDriveWire.ActQueues | src/boards/farmtek-fdcplus.cpp:585-602 | what a turn puts behind what was to go is one message, or nothing, that a server reading letters and low-byte-first words takes for what the turn asked: STAT with the drive and head, READ with the drive and track under the head, WRIT with the buffer's, or the buffer's track and its sum |
| SerialDriveWire.LineSays | src/boards/farmtek-fdcplus.cpp:430-602 | over every run, the bytes gone and those still to go are the messages of the turns in order, each read so, and nothing else |
| SerialDriveWire.TakesByLetters | src/boards/farmtek-fdcplus.cpp:605-614 | a reply is taken by its four letters and its sum, a write's only with a zero code, a track by its sum |
| SerialDriveWire.ReadyAsTold | src/boards/farmtek-fdcplus.cpp:486-499 | drive d is ready exactly as bit d of the STAT reply's last word says |
| SerialDriveWire.GoneAsTold | src/boards/farmtek-fdcplus.cpp:493-498 | a drive selected that the reply no longer calls ready leaves both ports at FF; otherwise nothing else of the panel changes |
| SerialDrivePanel.StepsGo | src/boards/farmtek-fdcplus.cpp:252-257 | n steps out or in count the selected drive's track n down or up, or to 0 or 4095, and no other drive's |
| SerialDrivePanel.HeadBits | src/boards/farmtek-fdcplus.cpp:267-277 | bit 2 loads the head, bit 3 alone unloads it, and a step leaves it unsettled |
| SerialDrivePanel.EnableBits | src/boards/farmtek-fdcplus.cpp:280-286 | bit 7 enables a write and makes the buffer owed; bit 5 turns interrupts off, and bit 4 without it on |
| SerialDrivePanel.SelectMeans | src/boards/farmtek-fdcplus.cpp:216-233 | a select below 80H is of the drive in its low three bits, ready if the server has said so; from 80H up of none |
| SerialDrivePanel.SectorPortBits | src/boards/farmtek-fdcplus.cpp:242-248 | a step puts the sector port at FF, and so does any head command but on the Minidisk |
| SerialDrivePanel.SettledReads | src/boards/farmtek-fdcplus.cpp:133-139 | when the step timer runs out a ready drive shows MOVE HEAD, and HEAD if the head is loaded |
| SerialDrivePanel.SleepReads | src/boards/farmtek-fdcplus.cpp:397-403 | a Minidisk gone to sleep shows nothing, head up and no drive ready |
| SerialDrivePanel.PowerReads | src/boards/farmtek-fdcplus.cpp:94-120 | at power-on: FF, FF and 0, no drive ready, every track count 0, nothing owed, the server to be asked at once |
| SerialDrivePanel.PortsByNumber | src/boards/farmtek-fdcplus.cpp:156-178 | which port gives what, and that only the sector and data ports do anything |
| SerialDrivePanel.NextSector | src/boards/farmtek-fdcplus.cpp:310-327 | a look at the sector port: FF and a request when another track is in the buffer; the next sector when its time has come and it has arrived; else the same one with sector true over |
| SerialDrivePanel.SectorsComeRound | src/boards/farmtek-fdcplus.cpp:297-327 | with the whole track there, n looks a sector time apart show the sectors in order and round, each with sector true |
| SerialDrivePanel.SectorReadsOut | src/boards/farmtek-fdcplus.cpp:303-336 | a sector found gives its 137 bytes in order from the buffer, NRDA asserted up to the last and not past it |
| SerialDrivePanel.SectorFills | src/boards/farmtek-fdcplus.cpp:339-343 | bytes put once a sector is found are its bytes in the buffer, the first 137 and no more |
| SerialDrivePanel.Track0IsTrue | src/boards/farmtek-fdcplus.cpp:216-262 | over every run from power-on, with a drive ready the TRACK 0 line is LOW exactly when its track count is 0 |
| SerialDrive.Card.constructor | src/boards/farmtek-fdcplus.cpp:94-127 | the board afterwards is the model's power-on, every register and timer |
| SerialDrive.Card.Select | src/boards/farmtek-fdcplus.cpp:216-233 | drive select: the board afterwards is the model's |
| SerialDrive.Card.Command | src/boards/farmtek-fdcplus.cpp:239-287 | the drive command: the board afterwards is the model's |
| SerialDrive.Card.In | src/boards/farmtek-fdcplus.cpp:156-178 | an IN gives the value first, and then the port does its work: the board afterwards is the model's |
| SerialDrive.Card.DataWrite | src/boards/farmtek-fdcplus.cpp:339-343 | the data port out: the board afterwards is the model's |
| SerialDrive.Card.LetGo | src/boards/farmtek-fdcplus.cpp:385-408 | the idle timer letting go of the track: the board afterwards is the model's |
| SerialDrive.Card.Turn | src/boards/farmtek-fdcplus.cpp:439-574 | one turn of the link: bytes move, the link acts, and what it has to say, which `SerialDriveWire.ActQueues` reads, goes at once: the board afterwards is the model's |
| Xmodem.JoinedBlocks | Testing/xmodem.py:72-73 | the blocks joined are the file and fewer than 128 SUBs |
| Xmodem.Cut | Testing/xmodem.py:73 | the loop cuts the file into its blocks |
| Xmodem.NoAlias | Testing/xmodem.py:149-151 | a frame on its way with the number expected, in eight bits, carries the block expected |
| Xmodem.StepKeeps | Testing/xmodem.py:90-158 | sender and receiver are never more than a block apart, what is on the way is in order, and no ACK is unearned |
| Xmodem.Delivered | Testing/xmodem.py:90-158 | at every moment the receiver has the first blocks of the file, each once and in order; all of them when either side is done |
| Xmodem.ClearLineCompletes | Testing/xmodem.py:90-158 | of any file there is a transfer that sends each block once and delivers it all |
| Xmodem.TenTries | Testing/xmodem.py:97-116 | a block never answered is sent ten times and the transfer fails; an end never answered is sent ten times and taken for heard |
| Xmodem.SixtyAsks | Testing/xmodem.py:127-134 | a receiver asks for a start sixty times and no more |
| XmodemOutcome.AckCanBeLost | Testing/xmodem.py:149-154 | in the transfer of any file, any one ACK can be lost, or damaged |
| XmodemOutcome.AckLostStays | Testing/xmodem.py:149-154 | once an ACK is lost, no event brings the receiver on or lets the sender finish |
| XmodemOutcome.CompletesExactly | Testing/xmodem.py:71-163 | of any state of any run, some continuation completes if and only if it is Alive: written with the sender at its end, or no ACK lost and a try left or its answer coming |
| XmodemOutcome.OnlyAckLossIsFatal | Testing/xmodem.py:90-158 | with both sides going and a try left, some continuation completes if and only if no ACK has been lost |
| Crc16.RemainderUnique | Testing/xmodem.py:62-68 | division by the generator leaves one remainder |
| Crc16.RegisterIsRemainder | Testing/xmodem.py:62-68 | the register after any message is its remainder by x^16+x^12+x^5+1 |
| Crc16.RunIsLinear | Testing/xmodem.py:62-68 | the register of a sum of messages is the sum of their registers |
| Crc16.FrameDivides | Testing/xmodem.py:95 | a message with a word after it leaves nothing exactly when the word is its register |
| Crc16.FrameChecks | Testing/xmodem.py:95 | in bytes: a message and a word after it, high byte first, check to nothing exactly when the word is the message's check |
| Crc16.BurstDetected | Testing/xmodem.py:62-68 | damage within sixteen bits in a row changes the remainder, anywhere in a frame of any length |
| Crc16.Crc16 | Testing/xmodem.py:62-68 | the loops over bytes and bits compute the register of the message's bits, in sixteen bits |
| DiskImage.PlaceInside | src/host/disk.cpp:89-105 | a sector lies inside its track |
| DiskImage.PlacesApart | src/host/disk.cpp:89-105 | two different sectors share no byte of the file |
| DiskImage.WriteAt | src/host/media.cpp:126-130 | a write past the end grows the file, and changes no byte outside it |
| DiskImage.WriteReadsBack | src/host/disk.cpp:107-139 | a sector written reads back |
| DiskImage.WriteKeepsOthers | src/host/disk.cpp:117-139 | and every other sector that could be read reads the same |
| DiskImage.OffsetMoves | src/host/disk.cpp:72-79 | a new format moves exactly the tracks after it, by the difference |
| DiskImage.FormatKeepsOthers | src/host/disk.cpp:34-67 | every sector of every other track reads as before, or is as absent as before |
| DiskImage.FixedMediumShifts | src/host/disk.cpp:34-67 | on a medium that cannot follow, every sector of every later track is read as much further on as the track grew, and of every earlier one where it was |
| DiskImage.FixedMediumCanLose | src/host/disk.cpp:54-55 | so a later sector can read as another byte |
| DiskImage.StartIsOffset | src/host/disk.h:180-183 | a track starts where the one before it ends: interleaved, the sides of a track follow one another and then the next track; otherwise the tracks of a side and then the next side; whatever their sizes |
| DiskImage.PlaceIs | src/host/disk.cpp:89-105 | a sector is there exactly when its track is and its number is in range, and lies where its track starts and as many sectors on as its number is past the first |
| DiskImage.PlaceOfAlike | src/host/disk.h:180-183 | with tracks all of B bytes: at (t * heads + h) * B when interleaved, (h * tracks + t) * B when not, and so many sectors on |
| DiskImage.Image.constructor | src/host/disk.cpp:5-11 | an image with no track formatted |
| DiskImage.Image.Rebuild | src/host/disk.cpp:72-79 | the loop puts every track after the ones before it |
| DiskImage.Image.MoveFileTail | src/host/disk.cpp:54-67 | the file afterwards is the model's |
| DiskImage.Image.SetFormat | src/host/disk.cpp:34-45 | the image afterwards is the model's |
| DiskImage.Image.Find | src/host/disk.cpp:89-105 | where a sector is, as `PlaceIs` and `StartIsOffset` place it, or that it is not |
| DiskImage.Image.Read | src/host/disk.cpp:107-115 | a whole sector or nothing |
| DiskImage.Image.Write | src/host/disk.cpp:117-139 | the image afterwards, or a refusal that changes nothing |
| TrackStream.WindowsApart | src/boards/floppy-drive.cpp:157-189 | on any bytes the data fields found are inside the stream, in order and apart, each after a data mark and free of CRC bytes |
| TrackStream.ParsePrint | src/boards/floppy-drive.cpp:157-189 | reading a printed track finds exactly its sectors: numbers, length codes and data, in order |
| TrackStream.Scan | src/boards/floppy-drive.cpp:155-189 | the loops find what the parse finds, within the stream, and end |
| FloppyDrive.WriteAllOk | src/boards/floppy-drive.cpp:205-208 | a track's sectors are all written exactly when each may be |
| FloppyDrive.TrackOk | src/boards/floppy-drive.cpp:200-211 | a format succeeds exactly when the drive has the track, the diskette may be written, no data is short, and the file reaches or may grow to its end |
| FloppyDrive.TrackLeft | src/boards/floppy-drive.cpp:195-211 | after it, the track has its format and each sector its data |
| FloppyDrive.OthersLeft | src/boards/floppy-drive.cpp:195-211 | and every other track's sectors what the new format alone leaves them, which is what they had wherever they stay in place |
| FloppyDrive.PrintedTrackReadsBack | src/boards/floppy-drive.cpp:140-212 | a printed track streamed to the drive reads back sector by sector, numbered on from the first |
| FloppyDrive.ReadsByNumberExactly | src/boards/floppy-drive.cpp:140-212 | every sector reads back under the number printed on it if and only if the numbers run on from the first in the order printed, but for sectors that hold the same data |
| FloppyDrive.LengthCodes | src/boards/floppy-drive.cpp:161-179 | a length code is how often 128 is doubled, and a sector of that size reports it |
| FloppyDrive.NoMarkNoTrack | src/boards/floppy-drive.cpp:155-184 | a stream with no FE in it formats nothing |
| FloppyDrive.FitsOnce | src/boards/floppy-drive.cpp:236-241 | numbers that fill a range are each there once |
| FloppyDrive.Lowest | src/boards/floppy-drive.cpp:229-235 | the first loop: uniform or not, and the lowest number |
| FloppyDrive.Shape | src/boards/floppy-drive.cpp:226-241 | a list passes exactly when it is uniform and its numbers are a permutation of a range; the start is the range's |
| FloppyDrive.FormattedTrack | src/boards/floppy-drive.cpp:70-88 | going round a formatted track reports exactly the numbers listed, and each reads as the fill |
| FloppyDrive.Drive.Step | src/boards/floppy-drive.cpp:27-34 | the head moves one track or is against a stop |
| FloppyDrive.Drive.WriteTrackImage | src/boards/floppy-drive.cpp:140-212 | the image afterwards is what the stream says, or untouched if it says nothing |
| FloppyDrive.Drive.FormatTrack | src/boards/floppy-drive.cpp:226-259 | the image afterwards is what the list says, or untouched if it does not fit |
| FloppyDrive.Drive.ReadData | src/boards/floppy-drive.cpp:90-93 | the sector under the head |
| FloppyDrive.Drive.WriteData | src/boards/floppy-drive.cpp:99-107 | the image afterwards is the model's |
| DrawingClock.Split | src/boards/cadzilla.cpp:68-73 | the split division loses nothing |
| DrawingClock.SubmitAdds | src/chips/hd63484.cpp:754-759 | a command given to the chip ends after those before it, by its own cost, never less than one |
| DrawingClock.DrawEnds | src/chips/hd63484.cpp:745-752 | the chip is busy up to the end of all it was given and idle from then on, however it is advanced |
| DrawingClock.SyncIsExact | src/boards/cadzilla.cpp:64-77 | a sync keeps the work done, now and later, and leaves less than one 2CLK over unless no time has passed |
| DrawingClock.SyncSplits | src/boards/cadzilla.cpp:64-77 | a sync on the way leaves what one at the end leaves: count, remainder and commands |
| DrawingClock.CarryFits | src/boards/cadzilla.cpp:68-73 | the carried product is less than hz * (rate + 1), and after a change of clock at most what was left over more |
| DrawingClock.DeadlineIsFirst | src/boards/cadzilla.cpp:92-96 | the deadline is the first T-state at which the work reaches the command's end |
| DrawingClock.SyncEndsCommand | src/boards/cadzilla.cpp:64-77 | a sync ends the command from the deadline on and not before |
| DrawingClock.WakesSuffice | src/boards/cadzilla.cpp:84-104 | with wakes no later than each command's end the chip is at every moment where syncing at every T-state would have it |
| DrawingClock.RunIsExact | src/boards/cadzilla.cpp:147-161 | over any run of accesses, wakes and changes of rate, the count and remainder are the time at each rate |
| DrawingClock.LooksAreInvisible | src/boards/cadzilla.cpp:133-145 | an access that only looks changes nothing a later one leaves |
| DrawingClock.SubtractionIsRight | src/boards/cadzilla.cpp:84-96 | with any new clock and nothing carried since, the subtraction is right if and only if what is left over is no more than what the command has to run, so always if the clock is raised; otherwise it comes out nearly a word, the count already there |
| DrawingClock.LoweredClockCanWrap | src/boards/cadzilla.cpp:92-95 | a run that lowers the clock and reaches the case where it is not |
| DrawingClock.ReclockedIsArmed | src/boards/cadzilla.cpp:64-104 | after any change of clock in any run, the board is as good as after any access if and only if the subtraction is right and the wake no later than the new deadline; so always if raised |
| DrawingClock.WakeInTime | src/boards/cadzilla.cpp:84-104 | a wake set at the old rate is in time at the new one if and only if it is no later than the new deadline |
| DrawingClock.LoweredClockWakesLate | src/boards/cadzilla.cpp:84-104 | a run that lowers the clock and leaves the wake four T-states after the command's end |
| DrawingClock.RaisedClockStaysExact | src/boards/cadzilla.cpp:64-104 | from a raised clock on, the count is exact at the new rate over any run and the wakes are enough |
| DrawingClock.Cadzilla.Woken | src/boards/cadzilla.cpp:64-104 | the wake: sync, then the next wake; the board afterwards is the model's |
| DrawingClock.Cadzilla.Touch | src/boards/cadzilla.cpp:147-161 | the board afterwards is the model's, and armed |
| Card.BlockStored | src/host/cardimg.h:26-33 | a block stored is the block read, and no other block changes |
| Card.MayStore | src/host/cardimg.h:31-33 | a block is refused exactly when the card is protected, or is fixed and ends before it |
| IdeCard.Command | src/boards/dualide.cpp:90-132 | every command leaves the engine in bounds and touches nothing but the transfer |
| IdeCard.OutC | src/boards/dualide.cpp:42-58 | arbitrary strobes keep the word count and the buffer in bounds |
| IdeDriver.PutRegMeans | src/boards/dualide.cpp:61-72 | a pulse of WR with a register selected writes that register, whatever port C held before |
| IdeDriver.TakeRegMeans | src/boards/dualide.cpp:75-87 | a pulse of RD reads it |
| IdeDriver.PutWordsMeans | src/boards/dualide.cpp:136-146 | 256 words, low byte first, fill the sector and store it |
| IdeDriver.TakeWordsMeans | src/boards/dualide.cpp:149-156 | 256 words read give the sector |
| IdeDriver.Address | src/boards/dualide.cpp:25-28 | the four registers hold the address they were given |
| IdeDriver.IdeWrites | src/boards/dualide.cpp:90-174 | a sector written by the BIOS is that block stored, or nothing and an error |
| IdeDriver.IdeReads | src/boards/dualide.cpp:90-156 | a sector read is that block, or no data and an error |
| IdeDriver.SelectMovesTheWrite | src/boards/dualide.cpp:160-174 | a sector is stored on the card selected when its last word comes |
| IdeDriver.OtherCommands | src/boards/dualide.cpp:112-132 | IDENTIFY gives 512 zeros, four commands do nothing, and any other is an error |
| IdeDriver.RegistersHold | src/boards/dualide.cpp:61-87 | a register written reads back and no other changes |
| IdeDriver.PortsHold | src/boards/dualide.cpp:207-229 | so do the control, configuration and drive ports, the drive port its low bit |
| IdeDriver.ResetDrops | src/boards/dualide.cpp:42-58 | a rising reset drops the transfer in hand and its error, and nothing else |
| DualIde.DualIdeBoard.constructor | src/boards/dualide.cpp:182-192 | the board as the power comes on |
| DualIde.DualIdeBoard.Write | src/boards/dualide.cpp:219-229 | an OUT to any of its ports leaves the board and its cards as the model says |
| DualIde.DualIdeBoard.Read | src/boards/dualide.cpp:207-217 | an IN gives the byte the model gives |
| DualIde.DualIdeBoard.WriteCtrl | src/boards/dualide.cpp:42-58 | the control port's edges, reset first, and what each sets off |
| SdCard.Feed | src/boards/dualsd.cpp:22-69 | arbitrary bytes keep every count in its buffer |
| SdDriver.ArgumentsRun | src/boards/dualsd.cpp:32-36 | when the last argument byte is in, the command runs on the bytes sent |
| SdDriver.LbaSet | src/boards/dualsd.cpp:156-160 | SETLBA sets the address sent, in thirty-two bits |
| SdDriver.TrackAndSectorSet | src/boards/dualsd.cpp:142-146 | SET_TRK_SEC sets track * 256 + sector |
| SdDriver.SdWrites | src/boards/dualsd.cpp:243-256 | a sector written by the driver is that block stored, or nothing and ERR |
| SdDriver.SdReads | src/boards/dualsd.cpp:229-238 | a sector asked for is answered with that block and OK, or zeros and ERR |
| SdDriver.EchoReturns | src/boards/dualsd.cpp:43-69 | a payload comes back whole with OK after it, and of a longer one than 1024 bytes the first 1024 |
| SdDriver.PlainCommands | src/boards/dualsd.cpp:77-129 | the commands without arguments, by code: which socket each selects and what each answers |
| SdDriver.FormatRuns | src/boards/dualsd.cpp:150-153 | FORMAT's count comes low byte first, and fills on from the address set |
| SdDriver.DisplayTakes | src/boards/dualsd.cpp:22-69 | a line to display is taken up to its zero and changes nothing |
| SdDriver.StatusBits | src/boards/dualsd.cpp:192-202 | bit 7 says a byte waits, bits 1 and 2 which cards are in |
| SdDriver.NoneWaits | src/boards/dualsd.cpp:171-202 | with every byte taken, or flushed, none waits and a read gives FF |
| SdDriver.Handshake | src/boards/dualsd.cpp:171-202 | a strict and a lax driver both get exactly the bytes queued, in order, in at most two polls each |
| SdDriver.BoardsAgree | src/boards/dualsd.cpp:229-238 | the same card reads the same through both boards |
| SdDriver.IdeToSd | src/boards/dualsd.cpp:229-238 | a sector written by the IDE board reads so on the SD board, and every other as before |
| SdDriver.SdToIde | src/boards/dualide.cpp:90-156 | and the other way about |
| SdDriver.FormatFills | src/boards/dualsd.cpp:261-289 | FORMAT fills its sectors as far as they can be written, never the first of the card, and no other |
| DualSd.DualSdBoard.constructor | src/boards/dualsd.cpp:291-303 | the board as the power comes on, nothing queued |
| DualSd.DualSdBoard.FeedInput | src/boards/dualsd.cpp:22-69 | a byte in: command, argument or data, and whatever it completes |
| DualSd.DualSdBoard.InData | src/boards/dualsd.cpp:171-177 | the byte read, and the queue without it |
| DualSd.DualSdBoard.StatusByte | src/boards/dualsd.cpp:192-202 | the status: which cards are in, and whether a byte waits, but for the one poll after a read |
| DualSd.DualSdBoard.DoFormat | src/boards/dualsd.cpp:261-289 | the loop over the sectors leaves the card the model says |
| DualSd.DualSdBoard.ResetEngine | src/boards/dualsd.cpp:291-303 | everything in hand forgotten |
| DualSd.DualSdBoard.FlushOut | src/boards/dualsd.cpp:329-335 | the queue emptied |
| BankMem.NoFight | src/boards/bankmem.cpp:410-427 | with a page in, no address is answered by two segments |
| BankMem.StepLive | src/boards/bankmem.cpp:189-203 | every select, reset, switch and write leaves exactly the page's segments live |
| BankMem.OneHolder | src/boards/bankmem.cpp:410-427 | a page holds each address in one segment |
| BankMem.ReadIsCell | src/boards/bankmem.cpp:463-466 | a read is the byte the page in holds, or FF |
| BankMem.StepCell | src/boards/bankmem.cpp:293-404 | a write changes one byte of the page in; a select, a reset or a switch changes none |
| BankMem.PagesApart | src/boards/bankmem.cpp:248-266 | two pages share an address exactly when it is common |
| BankMem.RunLive | src/boards/bankmem.cpp:281-404 | at the end of any run one page is in |
| BankMem.PageRemembers | src/boards/bankmem.cpp:463-471 | a byte written in a page is what the page gives when it is in again, whatever other pages, resets and switches did |
| BankMemPages.SelectPicks | src/boards/bankmem.cpp:293-404 | with any page in, a byte v out leaves live the banked segments whose page is v % 16 on an ExpandoRAM, less the III's banks switched off; on a Vector those of bank k when v or v - 40H is 2^k; and with no such k changes nothing |
| BankMemPages.ResetPicks | src/boards/bankmem.cpp:281-287 | a reset brings in page 0 |
| BankMemPages.SwitchesPick | src/boards/bankmem.cpp:732-740 | the ExpandoRAM III's switches act at once on the page that is in |
| BankMemPages.PageAddresses | src/boards/bankmem.cpp:51-69 | the addresses of each page of an ExpandoRAM II, in numbers |
| BankMemPages.PlaneSelected | src/boards/bankmem.cpp:369-390 | on a card of planes, after any run, a byte out brings in the plane of that number |
| BankMemPages.PageComesBack | src/boards/bankmem.cpp:293-404 | a byte written after x goes out reads back after any run that spares it and a z that names the same page |
| BankMemCards.PlanesLive | src/boards/bankmem.cpp:209-268 | a Vector or ExpandoRAM II just built has page 0 in and holds exactly its pages' addresses |
| BankMemCards.RamIsCounted | src/boards/bankmem.cpp:71-75 | the RAM the settings count is the RAM there is |
| BankMemCards.CellIsWhere | src/boards/bankmem.cpp:125-159 | each cell of the PROM maps is the one place for its quarter of its page |
| BankMemCards.WhereIsCell | src/boards/bankmem.cpp:125-159 | and every quarter of every page but the shared one has a place |
| BankMemCards.CellsCarry | src/boards/bankmem.cpp:166-184 | an ExpandoRAM III holds exactly the addresses of its pages |
| BankMemCards.Eram3Live | src/boards/bankmem.cpp:281-284 | and has page 0 in when built, less the banks switched off |
| MemBank.MemBankBoard.Planar | src/boards/bankmem.cpp:209-268 | the loop builds the planes |
| MemBank.MemBankBoard.ByCells | src/boards/bankmem.cpp:163-184 | the loops build the cells |
| MemBank.MemBankBoard.SelectByte | src/boards/bankmem.cpp:293-404 | the board afterwards is the model's, whose live segments `BankMemPages.SelectPicks` gives |
| MemBank.MemBankBoard.ApplyReset | src/boards/bankmem.cpp:281-287 | the board afterwards is the model's |
| MemBank.MemBankBoard.SetBankEnable | src/boards/bankmem.cpp:732-740 | the board afterwards is the model's |
| MemBank.MemBankBoard.FindOwner | src/boards/bankmem.cpp:410-427 | the first live segment over an address, and with a page in there is at most one |
| MemBank.MemBankBoard.ReadByte | src/boards/bankmem.cpp:463-466 | the byte read |
| MemBank.MemBankBoard.WriteByte | src/boards/bankmem.cpp:468-471 | the board afterwards is the model's |
| MemBank.MemBankBoard.OneHot | src/boards/bankmem.cpp:301-304 | the loop finds the one bit, or none |
| Disk1aMotor.PassStops | src/boards/compupro-disk1a.cpp:103-111 | time alone stops the motors when due, or at the alarm if that is later, however the alarms ring |
| Disk1aMotor.LazyIsEager | src/boards/compupro-disk1a.cpp:96-121 | over any run, at whatever rates, in which no access finds an alarm later than it asks, the motors are on and off as if every access had moved the alarm, and no alarm is late |
| Disk1aMotor.NeverSlowerIsGuarded | src/boards/compupro-disk1a.cpp:96-101 | with a clock that is never lowered every run is such a run |
| Disk1aMotor.StopsAfterFifteenSeconds | src/boards/compupro-disk1a.cpp:96-111 | from power-on, at rates that never fall, fifteen seconds after the last access the motors stop, and not before |
| Disk1aMotor.AtRestNoAlarm | src/boards/compupro-disk1a.cpp:96-101 | a board whose motors are off sets no alarm, however it is touched |
| Disk1aMotor.StopsOnTimeExactly | src/boards/compupro-disk1a.cpp:96-111 | from power-on, after any run at any rates: after an access the motors stop fifteen seconds later if and only if the alarm already set is for no later, and otherwise at that alarm |
| Disk1aMotor.LoweredClockStopsLate | src/boards/compupro-disk1a.cpp:96-101 | and it happens, at any rate: turned on at twice it and looked at a T-state later, the motors turn for thirty seconds by it |
| Disk1aMotor.Disk1a.Touch | src/boards/compupro-disk.cpp:301-322 | the register and then the timer, as the model says |
| Disk1aMotor.Disk1a.ResetRegisters | src/boards/compupro-disk1a.cpp:114-121 | motors off, no alarm |
| Disk1aMotor.Disk1a.Advance | src/core/clock.cpp:64-87 | the alarms due ring at their own times |
| Dazzler.PartThere | src/boards/cromemco-dazzler.cpp:217-243 | each bit or nibble of the memory shown is one element, and that element its alone |
| Dazzler.ElementThere | src/boards/cromemco-dazzler.cpp:217-243 | and each element of the picture is one bit or nibble |
| Dazzler.StepFaithful | src/boards/cromemco-dazzler.cpp:75-88 | every port write, reset, power-on and host turn keeps the copy faithful to the screen |
| Dazzler.UnchangedIsShown | src/boards/cromemco-dazzler.cpp:180-191 | when no change is seen, what would be drawn is on the screen |
| Dazzler.ScreenIsRight | src/boards/cromemco-dazzler.cpp:160-165 | over any history, a turn that can paint leaves the present picture |
| Dazzler.ScreenIsRightFromPower | src/boards/cromemco-dazzler.cpp:160-165 | and over any history from power-on, whatever was on the screen |
| Dazzler.ChangeShows | src/boards/cromemco-dazzler.cpp:180-191 | two frames that differ in a byte differ to the eye, save in X4 with a black color |
| Dazzler.RepaintsExactly | src/boards/cromemco-dazzler.cpp:180-191 | with nothing set since it last painted, the card sees a change exactly when the picture is another, unless every frame is black and it never is; set since, it always sees one |
| Dazzler2.WrittenIsCopied | src/boards/cromemco-dazzler2.cpp:18-23 | a byte written since the base was set is the same on the card |
| Dazzler2.SamePicture | src/boards/cromemco-dazzler2.cpp:18-29 | with every byte of the picture below 10000H written, both cards draw the same |
| Dazzler2.PastTheTop | src/boards/cromemco-dazzler2.cpp:18-23 | past 10000H the card never catches a write |
| DazzlerPlaces.NibblesShow | src/boards/cromemco-dazzler.cpp:237-241 | out of X4, byte v of quadrant q, row r, column c is the element at (q % 2 * 32 + 2c, q / 2 * 32 + r) in color v % 16 and the one to its right in v / 16 |
| DazzlerPlaces.BitsShow | src/boards/cromemco-dazzler.cpp:226-236 | in X4 it is eight elements, each by its own bit and place, the format's color or black |
| DazzlerPlaces.EveryElement | src/boards/cromemco-dazzler.cpp:217-243 | and no element of the picture is left over |
| DazzlerPlaces.SurfaceNibbles | src/boards/cromemco-dazzler.cpp:237-241 | so of the surface, out of X4 |
| DazzlerPlaces.SurfaceBits | src/boards/cromemco-dazzler.cpp:226-236 | and in X4 |
| DazzlerPlaces.ScreenShowsMemory | src/boards/cromemco-dazzler.cpp:75-88 | from power-on, after any history: the control byte's low seven bits times 512 is the address the picture starts at, round past the top |
| DazzlerPlaces.OffIsBlack | src/boards/cromemco-dazzler.cpp:117-131 | a reset, a power-on or a control byte below 80H leaves the screen black |
| DazzlerPlaces.OneRepaint | src/boards/cromemco-dazzler.cpp:180-191 | after a turn that could paint, a change is seen exactly when on and a byte shown has changed since |
| DazzlerBoard.DazzlerCard.FrameChanged | src/boards/cromemco-dazzler.cpp:180-191 | the loop sees a change exactly when there is one |
| DazzlerBoard.DazzlerCard.PaintFine | src/boards/cromemco-dazzler.cpp:226-236 | eight elements of one byte, and no others |
| DazzlerBoard.DazzlerCard.PaintCoarse | src/boards/cromemco-dazzler.cpp:238-243 | two elements of one byte, and no others; which and in what color is `DazzlerPlaces.NibblesShow` |
| DazzlerBoard.DazzlerCard.Scan | src/boards/cromemco-dazzler.cpp:216-245 | the nested loops draw every element once |
| DazzlerBoard.DazzlerCard.Render | src/boards/cromemco-dazzler.cpp:198-254 | the surface shows the picture, and the copy is what was read |
| DazzlerBoard.DazzlerCard.Pump | src/boards/cromemco-dazzler.cpp:160-165 | a picture is painted exactly when one is owed, wanted and possible |
| DazzlerBoard.DazzlerCard.OutControl | src/boards/cromemco-dazzler.cpp:75-83 | the card afterwards is the model's |
| DazzlerBoard.DazzlerCard.OutFormat | src/boards/cromemco-dazzler.cpp:84-87 | the card afterwards is the model's |

## Left out

- Mounting and unmounting a disk, and saving and restoring a machine, in the middle of a run: an FDC+ run is
  port accesses and time.
- Sixty-four-bit counters: T-states, counts and addresses are unbounded, and `CarryFits` and the SD board's
  thirty-two-bit sector numbers are where a width matters.
- DrawingClock.RunIsExact: the CPU's clock stands still within a run; `ReclockedIsArmed` says when one run may
  follow another at a new rate. The time between the last sync and the change is counted at the new rate, as the
  code counts it.
- SerialDriveServer.NothingIsLost: asks that no READ or WRIT go while an older reply is on the line, and that the
  guest write only while the track under the head is at rest in the buffer, because without either the claim is
  false (`LateWriteReply`, `LateTrack`, `EnabledWhileReading`); and that damage on the wire fails its checks.
- SerialDriveServer.LinkFaithful: the server answers a request as it hears it, or not at all; what is late is its
  answer on the line, and the storing of a track.
- SerialDriveCache.NothingLost: assumes of the server and the line the two conditions that `ClearIsHonest` proves.
- SerialDrivePut.PutLosesExactly: the loss is by a server that may say "track written" of any track of the write
  under way; the discipline therefore forbids a byte from the first time its write's track has gone.
- The serial drive's head-step and idle timers as durations: that they fire is an event of the run, at any time.
- The serial drive's log, its `rxBytes` count and the rate its steps take: host-side bookkeeping.
- Xmodem.Delivered: frames and replies arrive whole, damaged or not at all; a receiver that loses its place
  inside a frame is not modelled.
- XMODEM's time-outs as durations: a wait may end at any moment.
- TrackStream.ParsePrint: asks that gaps and data hold no mark that ends them, as the format does.
- FloppyDrive.PrintedTrackReadsBack: sectors are numbered on from the first one's number, as the code does it;
  `ReadsByNumberExactly` says when that is each one's own.
- FdcPlusHdfModel.HoleFindsNoTransfer: the CPU's clock stands still over a run of the type 5 card;
  `ReclockedEndsFirst` says when a transfer outlives a change of it.
- The diskette's `initFormat` over ranges of tracks, and the index pulse: they add nothing the runs do not have.
- DrawingClock.RunIsExact: the graphics chip is its queue of commands and what each costs; its free-slot
  arithmetic and its drawing are not part of this model.
- The card files' geometry sidecars and what the SD board reports of itself beyond its answers.
- The Cromemco and North Star memory cards, which let several banks drive the bus at once, and PHANTOM*.
- Dazzler2.SamePicture: page 0 only, and main memory that takes the writes the card sees.
- The Dazzler's palette and status bits, and the host's window.
- The hidden chips behind the other disk boards, the host's files, sockets and displays, and every property,
  help text and map of a board: no part of this model.
