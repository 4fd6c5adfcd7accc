/** The type 5 engine itself: one object whose ports and timers update it in place, run forward to
    the moment the 8080 looks. Each method computes the model's function of the same name. */
module FdcPlusHdf {
  import opened Arithmetic
  import opened Basics
  import opened FdcPlusHdfModel
  import opened FdcPlusHdfTime
  import Model = FdcPlusHdfModel
  import Ports = FdcPlusHdfPorts

  /** The PIC's RAM and the track on its way to the disk. */
  class TrackRam {
    const mem: array<byte>
    const pending: array<byte>
    var rd: nat
    var wr: nat
    var done: nat

    ghost function Abs(): (b: Buffer)
      reads this, mem, pending
      ensures b.rd == rd && b.wr == wr && b.done == done
    {
      Buffer(mem[..], rd, wr, pending[..], done)
    }

    ghost predicate Ok()
      reads this, mem, pending
    {
      mem != pending && BufferOk(Abs())
    }

    constructor (boot: seq<byte>)
      requires |boot| <= BOOT
      ensures Ok() && fresh(mem) && fresh(pending)
      ensures Abs().mem[..|boot|] == boot && Abs().rd == Abs().wr == BOOT && Abs().done == 0
    {
      mem := new byte[MEM](i requires 0 <= i < MEM => if i < |boot| then boot[i] else 0);
      pending := new byte[TRACK_BYTES](_ => 0);
      rd, wr, done := BOOT, BOOT, 0;
    }

    method FillUpTo(track: seq<byte>, n: nat)
      requires Ok() && |track| == TRACK_BYTES && n <= TRACK_BYTES
      modifies this, mem
      ensures Ok() && Abs() == Fill(old(Abs()), track, n)
    {
      if n <= done { return; }
      ghost var was := mem[..];
      forall i | done <= i < n { mem[BOOT + i] := track[i]; }
      assert mem[..] == was[..BOOT + done] + track[done..n] + was[BOOT + n..];
      done, wr := n, BOOT + n;
    }

    method DrainUpTo(n: nat)
      requires Ok() && n <= TRACK_BYTES
      modifies this, pending
      ensures Ok() && Abs() == Drain(old(Abs()), n)
    {
      if n <= done { return; }
      ghost var was := pending[..];
      forall i | done <= i < n { pending[i] := mem[BOOT + i]; }
      assert pending[..] == was[..done] + mem[..][BOOT + done..BOOT + n] + was[n..];
      done := n;
    }

    /** The track as the disk took it. */
    method Track() returns (data: seq<byte>)
      requires Ok()
      ensures data == Abs().pending && |data| == TRACK_BYTES
    {
      data := pending[..];
    }

    method Restart()
      requires Ok()
      modifies this
      ensures Ok() && Abs() == old(Abs()).(rd := BOOT, wr := BOOT, done := 0)
    {
      rd, wr, done := BOOT, BOOT, 0;
    }

    /** Point at the boot sector and take its first byte. */
    method Boot() returns (v: byte)
      requires Ok()
      modifies this
      ensures Ok() && Abs() == old(Abs()).(rd := 1) && v == old(Abs()).mem[0]
    {
      v := mem[0];
      rd := 1;
    }

    /** The next byte out, whatever is there. */
    method Take() returns (v: byte)
      requires Ok()
      modifies this
      ensures Ok() && Abs() == old(Abs()).(rd := old(rd) + 1)
      ensures v == if old(rd) < MEM then old(Abs()).mem[old(rd)] else 0
    {
      v := if rd < mem.Length then mem[rd] else 0;
      rd := rd + 1;
    }

    /** A byte in, at the insert pointer, until the RAM is full. */
    method Put(v: byte)
      requires Ok()
      modifies this, mem
      ensures Ok() && Abs() == Inserted(old(Abs()), v)
    {
      if wr < mem.Length {
        mem[wr] := v;
        assert mem[..] == old(mem[..])[wr := v];
        wr := wr + 1;
      }
    }
  }

  /** A byte in at the insert pointer, until the RAM is full. */
  function Inserted(b: Buffer, v: byte): (b': Buffer)
    requires |b.mem| == MEM
  {
    if b.wr < MEM then b.(mem := b.mem[b.wr := v], wr := b.wr + 1) else b
  }

  /** A TRACK error, if the disk's track is not the one the 8080 named. */
  function Judge(io: IoStatus, wrong: bool): IoStatus {
    if wrong then io.(trackErr := true) else io
  }

  /** NRDA, once the fifth byte is among the `n` that have come. */
  function Offer(st: Status, done: nat, n: nat): Status {
    if done < 5 && n >= 5 then st.(nrda := false) else st
  }

  /** The card with the first `n` bytes of the track come. */
  function Filled(c: Card, track: seq<byte>, n: nat): Card
    requires BufferOk(c.buf) && |track| == TRACK_BYTES && n <= TRACK_BYTES
  {
    c.(ioStatus := Judge(c.ioStatus, c.buf.done == 0 && c.xferTrack % 128 != c.curTrack % 128),
       status := Offer(c.status, c.buf.done, n), buf := Fill(c.buf, track, n))
  }

  /** The bytes that have come by `t`: none of interest, or the first `n` of the track. */
  lemma FillToCases(c: Card, t: nat)
    requires Valid(c) && c.phase.Reading?
    ensures Valid(Model.FillTo(c, t))
    ensures c.hz > 0 && BufferOk(c.buf) && |c.drives| == DRIVES && c.sel < DRIVES && (c.noSync || Formatted(c, c.xferTrack))
    ensures c.noSync || t < c.holeAt || Elapsed(c.hz, t - c.holeAt) < DATA_US ==> Model.FillTo(c, t) == c
    ensures !c.noSync && t >= c.holeAt && Elapsed(c.hz, t - c.holeAt) >= DATA_US ==>
      Model.FillTo(c, t) == Filled(c, TrackOf(c.drives[c.sel].img.value, c.xferTrack), Arrived(c.hz, t - c.holeAt))
  {
    hide Us, Fill, Elapsed;
    FillToValid(c, t);
  }

  /** The registers the 8080 reads, and the track it names. */
  datatype Registers = Registers(status: Status, sectorPos: SectorPos, readData: byte, ioStatus: IoStatus, curTrack: byte)

  /** The firmware's flags and counters. */
  datatype Firmware = Firmware(
    sel: int, motor: bool, readFlag: bool, writeFlag: bool, headLoaded: bool, motorTimer: nat, sector15: bool)

  /** The turning disk and the one-shot timers, on emulated time. */
  datatype Times = Times(
    spinFrom: nat, nextHole: nat, skipHole: bool, holeAt: nat, sectorTrue: Timer, move: Timer, settle: Timer)

  class Engine {
    const hz: nat
    const ram: TrackRam
    var drives: seq<Drive>
    var regs: Registers
    var fw: Firmware
    var phase: Phase
    var times: Times
    var noSync: bool
    var xferTrack: int

    ghost function Abs(): Card
      reads this, ram, ram.mem, ram.pending
    {
      Card(hz, drives, regs.status, regs.sectorPos, regs.readData, regs.ioStatus, regs.curTrack,
           fw.sel, fw.motor, fw.readFlag, fw.writeFlag, fw.headLoaded, fw.motorTimer, fw.sector15, ram.Abs(),
           phase, times.spinFrom, times.nextHole, times.skipHole, times.holeAt, noSync, xferTrack,
           times.sectorTrue, times.move, times.settle)
    }

    ghost predicate Ok()
      reads this, ram, ram.mem, ram.pending
    {
      ram.Ok() && Valid(Abs())
    }

    /** Power applied with `disks` in the drives. */
    constructor (hz: nat, disks: seq<Option<Image>>, boot: seq<byte>)
      requires hz > 0 && |disks| == DRIVES && |boot| <= BOOT
      requires forall d :: 0 <= d < DRIVES ==> DriveOk(Drive(disks[d], 0))
      ensures Ok() && fresh(ram) && fresh(ram.mem) && fresh(ram.pending)
      ensures this.hz == hz && ram.Abs().mem[..|boot|] == boot && ram.Abs().rd == ram.Abs().wr == BOOT
      ensures forall d :: 0 <= d < DRIVES ==> drives[d] == Drive(disks[d], 0)
      ensures regs == Registers(ALL_HIGH, Nothing, 0, IO_CLEAR, 0)
      ensures fw == Firmware(-1, false, false, false, false, 0, false)
      ensures times == Times(0, 0, false, 0, Stopped, Stopped, Stopped)
      ensures phase == Off && !noSync && xferTrack == -1 && ram.Abs().done == 0
      ensures Abs() == Ports.Power(Abs())
    {
      this.hz := hz;
      ram := new TrackRam(boot);
      drives := seq(DRIVES, d requires 0 <= d < DRIVES => Drive(disks[d], 0));
      regs := Registers(ALL_HIGH, Nothing, 0, IO_CLEAR, 0);
      fw := Firmware(-1, false, false, false, false, 0, false);
      phase, noSync, xferTrack := Off, false, -1;
      times := Times(0, 0, false, 0, Stopped, Stopped, Stopped);
      new;
      assert Ports.Power(Abs()).drives == Abs().drives;
    }

    method FillTo(t: nat)
      requires Ok() && phase.Reading?
      modifies this`regs, ram, ram.mem
      ensures Ok() && Abs() == Model.FillTo(old(Abs()), t)
    {
      hide Model.FillTo, Valid, BufferOk, Filled, TrackRam.Abs, TrackOf, Us, Fill, Elapsed;
      FillToCases(Abs(), t);
      if noSync || t < times.holeAt { return; }
      var el := Elapsed(hz, t - times.holeAt);
      if el < DATA_US { return; }
      var n := Min(TRACK_BYTES, (el - DATA_US) / BYTE_US);
      TakeIn(TrackOf(drives[fw.sel].img.value, xferTrack), n);
    }

    method TakeIn(track: seq<byte>, n: nat)
      requires ram.Ok() && |track| == TRACK_BYTES && n <= TRACK_BYTES
      modifies this`regs, ram, ram.mem
      ensures ram.Ok() && BufferOk(old(Abs()).buf) && Abs() == Filled(old(Abs()), track, n)
    {
      hide Judge, Offer, TrackRam.Abs, Fill;
      regs := regs.(ioStatus := Judge(regs.ioStatus, ram.done == 0 && xferTrack % 128 != regs.curTrack % 128),
                    status := Offer(regs.status, ram.done, n));
      ram.FillUpTo(track, n);
    }

    method DrainTo(t: nat)
      requires Ok()
      modifies ram, ram.pending
      ensures Ok() && Abs() == Model.DrainTo(old(Abs()), t)
    {
      hide TrackRam.Abs, Us, Drain, DriveOk;
      if t < times.holeAt { return; }
      var el := Elapsed(hz, t - times.holeAt);
      ram.DrainUpTo(if el < DATA_US then 0 else Min(TRACK_BYTES, (el - DATA_US) / BYTE_US + 1));
    }

    method FinishRead()
      requires Ok() && phase.Reading?
      modifies this`regs, this`phase, ram, ram.mem
      ensures Ok() && Abs() == Model.FinishRead(old(Abs()))
    {
      hide Model.FillTo, Valid, TrackRam.Abs, BufferOk, Us;
      ReadDone(Abs());
      FillTo(times.holeAt + Us(hz, READ_END_US));
      regs := regs.(ioStatus := regs.ioStatus.(done := true));
      phase := Phase.Loop;
    }

    method FinishWrite()
      requires Ok() && phase.Writing?
      modifies this`regs, this`fw, this`phase, this`drives, ram, ram.pending
      ensures Ok() && Abs() == Model.FinishWrite(old(Abs()))
    {
      hide Model.DrainTo, Valid, TrackRam.Abs, BufferOk, Us, Ended;
      WriteDone(Abs());
      DrainTo(times.holeAt + Us(hz, WRITE_END_US));
      var data := ram.Track();
      EndWrite(data);
    }

    /** The write is over, and the disk has what it took. */
    method EndWrite(data: seq<byte>)
      requires |data| == TRACK_BYTES && fw.sel < |drives|
      modifies this`regs, this`fw, this`phase, this`drives
      ensures Abs() == Ended(old(Abs()), data)
    {
      hide TrackRam.Abs, Commit;
      if fw.sel >= 0 {
        drives := drives[fw.sel := Commit(drives[fw.sel], xferTrack, data)];
      }
      fw, regs, phase := fw.(writeFlag := false), regs.(ioStatus := regs.ioStatus.(done := true)), Phase.Loop;
    }

    method StartWrite()
      requires Ok() && Valid(Model.StartWrite(Abs()))
      modifies this`regs, this`phase, this`xferTrack, ram
      ensures Ok() && Abs() == Model.StartWrite(old(Abs()))
    {
      hide Valid, TrackRam.Abs, BufferOk, HeadTrack;
      Bounds(Abs());
      BeginWrite(HeadTrackNow());
    }

    /** From the start of the buffer, to track `t`. */
    method BeginWrite(t: int)
      requires ram.Ok()
      modifies this`regs, this`phase, this`xferTrack, ram
      ensures ram.Ok() && Abs() == WriteBegun(old(Abs()), t)
    {
      hide TrackRam.Abs;
      xferTrack, phase := t, Writing;
      ram.Restart();
      regs := regs.(status := regs.status.(enwd := false), ioStatus := IO_CLEAR);
    }

    method StartRead()
      requires Ok() && Valid(Model.StartRead(Abs()))
      modifies this`regs, this`phase, this`xferTrack, this`noSync, ram
      ensures Ok() && Abs() == Model.StartRead(old(Abs()))
    {
      hide Valid, TrackRam.Abs, BufferOk, HeadTrack;
      Bounds(Abs());
      if !fw.readFlag {
        phase := Phase.Loop;
        return;
      }
      BeginRead();
    }

    /** A read asked for: from the start of the buffer, if the disk has the track. */
    method BeginRead()
      requires ram.Ok() && |drives| == DRIVES && fw.sel < DRIVES
      modifies this`regs, this`phase, this`xferTrack, this`noSync, ram
      ensures ram.Ok() && |old(Abs()).drives| == DRIVES && old(Abs()).sel < DRIVES && Abs() == Begun(old(Abs()))
    {
      hide TrackRam.Abs, HeadTrack, Formatted;
      var t := HeadTrackNow();
      var found := FormattedNow(t);
      xferTrack, noSync, phase := t, !found, Reading;
      ram.Restart();
      regs := regs.(ioStatus := IO_CLEAR);
    }

    /** The image track under the selected head, or -1. */
    function HeadTrackNow(): (t: int)
      reads this, ram, ram.mem, ram.pending
      requires |drives| == DRIVES && fw.sel < DRIVES
      ensures t == HeadTrack(Abs())
    {
      if fw.sel < 0 then -1 else ImageTrack(drives[fw.sel].cyl, regs.curTrack < 144 && regs.curTrack % 2 == 1)
    }

    predicate FormattedNow(t: int)
      reads this, ram, ram.mem, ram.pending
      requires |drives| == DRIVES && fw.sel < DRIVES
      ensures FormattedNow(t) == Formatted(Abs(), t)
    {
      fw.sel >= 0 && t >= 0
      && drives[fw.sel].img.Some? && (t + 1) * TRACK_BYTES <= |drives[fw.sel].img.value.bytes|
    }

    /** One index hole. */
    method Hole(h: nat)
      requires Ok() && Valid(HoleAt(Abs(), h))
      modifies this`regs, this`fw, this`phase, this`times, ram
      ensures Ok() && Abs() == HoleAt(old(Abs()), h)
    {
      hide HoleAt, Valid, TrackRam.Abs, BufferOk;
      if phase.Reading? { LoseRead(h); }
      else if times.skipHole { ThrowAway(h); }
      else { StartTurn(h); }
    }

    /** "Unexpected end of sector": done, and NRDA forced so that the 8080 is not stuck. */
    method LoseRead(h: nat)
      requires Valid(Abs()) && phase.Reading?
      modifies this`regs, this`phase, this`times
      ensures Abs() == HoleAt(old(Abs()), h)
    {
      hide HoleAt, Valid, TrackRam.Abs, Us;
      HoleLost(Abs(), h);
      times := times.(nextHole := h + Us(hz, REV_US));
      regs := regs.(ioStatus := regs.ioStatus.(eosErr := true, done := true), status := regs.status.(nrda := false));
      phase := Phase.Loop;
    }

    /** waitMotor's first pulse. */
    method ThrowAway(h: nat)
      requires Valid(Abs()) && !phase.Reading? && times.skipHole
      modifies this`times
      ensures Abs() == HoleAt(old(Abs()), h)
    {
      hide HoleAt, Valid, TrackRam.Abs, Us;
      HoleSkipped(Abs(), h);
      times := times.(nextHole := h + Us(hz, REV_US), skipHole := false);
    }

    /** The fake boot sector if no read was asked for; and the turn. */
    method StartTurn(h: nat)
      requires Ok() && !phase.Reading? && !times.skipHole
      modifies this`regs, this`fw, this`phase, this`times, ram
      ensures ram.Ok() && Abs() == HoleAt(old(Abs()), h)
    {
      hide HoleAt, Turned, BootSector, Valid, TrackRam.Abs, BufferOk, Us;
      HoleTurns(Abs(), h);
      times := times.(nextHole := h + Us(hz, REV_US));
      if !fw.readFlag { BootNow(); }
      NewTurn(h);
    }

    /** The fake boot sector's first byte goes out. */
    method BootNow()
      requires ram.Ok()
      modifies this`regs, ram
      ensures ram.Ok() && |old(Abs()).buf.mem| == MEM && Abs() == BootSector(old(Abs()))
    {
      hide TrackRam.Abs, Valid;
      var b := ram.Boot();
      regs := regs.(readData := b, status := regs.status.(nrda := false));
    }

    /** The motor timer, the other of the two sectors, and sector true. */
    method NewTurn(h: nat)
      modifies this`regs, this`fw, this`phase, this`times
      ensures Abs() == Turned(old(Abs()), h)
    {
      hide TrackRam.Abs, Us, Valid, BufferOk, StillOn;
      var timer := (if fw.headLoaded then 0 else fw.motorTimer) + 1;
      fw := fw.(readFlag := false, motorTimer := timer, motor := fw.motor && StillOn(timer),
                sector15 := !fw.sector15);
      ShowSector(h);
    }

    /** The window opens, its sector showing if the head is loaded. */
    method ShowSector(h: nat)
      modifies this`regs, this`phase, this`times
      ensures Abs() == old(Abs()).(
        sectorPos := if !old(Abs()).status.head then Sector(old(Abs()).sector15, true) else old(Abs()).sectorPos,
        sectorTrue := At(h + Us(hz, SEC_TRUE_US)), holeAt := h, phase := Window)
    {
      hide TrackRam.Abs, Us, Valid, BufferOk;
      regs := regs.(sectorPos := if !regs.status.head then Sector(fw.sector15, true) else regs.sectorPos);
      times := times.(sectorTrue := At(h + Us(hz, SEC_TRUE_US)), holeAt := h);
      phase := Window;
    }

    /** The earliest event due by `t`, the first looked at on a tie. */
    method PickEvent(t: nat) returns (pick: Option<Pick>)
      requires Ok()
      ensures Matches(Abs(), pick, Next(Abs(), t))
    {
      hide Valid, TrackRam.Abs, Us, Sooner, Due, Matches;
      Bounds(Abs());
      ghost var c := Abs();
      ghost var r;
      pick, r := PickTimer(t);
      ghost var was := pick;
      if phase.Window? {
        pick := Consider(pick, times.holeAt + Us(hz, if fw.writeFlag then SEC_TRUE_US else READ_CLEAR_US), WindowEnd, t);
      }
      r := Considered(c, r, was, pick, WindowEnd, t);
      was := pick;
      if phase.Writing? || (phase.Reading? && !noSync) {
        pick := Consider(pick, times.holeAt + Us(hz, if phase.Reading? then READ_END_US else WRITE_END_US), XferEnd, t);
      }
      r := Considered(c, r, was, pick, XferEnd, t);
      was := pick;
      if fw.sel >= 0 && fw.motor && drives[fw.sel].img.Some? {
        pick := Consider(pick, times.nextHole, Event.Hole, t);
      }
      r := Considered(c, r, was, pick, Event.Hole, t);
    }

    /** The same among the one-shot timers. */
    method PickTimer(t: nat) returns (pick: Option<Pick>, ghost r: Option<Event>)
      requires |Abs().drives| == DRIVES && Abs().sel < DRIVES
      ensures var r1 := Sooner(Abs(), None, Move, t);
        var r2 := Sooner(Abs(), r1, Settle, t);
        r == Sooner(Abs(), r2, TrueEnd, t)
      ensures Matches(Abs(), pick, r) && (r.Some? ==> Due(Abs(), r.value, t) && Order(r.value) <= 2)
    {
      hide Valid, TrackRam.Abs, Us, Sooner, Due, Matches;
      ghost var c := Abs();
      NothingMatches(c);
      pick := None;
      if times.move.At? { pick := Consider(pick, times.move.when, Move, t); }
      r := Considered(c, None, None, pick, Move, t);
      ghost var was := pick;
      if times.settle.At? { pick := Consider(pick, times.settle.when, Settle, t); }
      r := Considered(c, r, was, pick, Settle, t);
      was := pick;
      if times.sectorTrue.At? { pick := Consider(pick, times.sectorTrue.when, TrueEnd, t); }
      r := Considered(c, r, was, pick, TrueEnd, t);
    }

    /** A head timer, the end of sector true, of the window or of a transfer. */
    method RunEvent(e: Event)
      requires Ok() && Live(Abs(), e) && !e.Hole? && Valid(Handle(Abs(), e))
      modifies this`regs, this`fw, this`phase, this`times, this`drives, this`xferTrack, this`noSync
      modifies ram, ram.mem, ram.pending
      ensures Ok() && Abs() == Handle(old(Abs()), e)
    {
      hide Valid, TrackRam.Abs, Us, Model.StartWrite, Model.StartRead, Model.FinishRead, Model.FinishWrite, HoleAt,
        MoveEnd, SettleEnd;
      match e
      case Move => EndMove();
      case Settle => EndSettle();
      case TrueEnd => EndSectorTrue();
      case WindowEnd => if fw.writeFlag { StartWrite(); } else { StartRead(); }
      case XferEnd => if phase.Reading? { FinishRead(); } else { FinishWrite(); }
    }

    method EndMove()
      requires Valid(Abs())
      modifies this`regs, this`times
      ensures Abs() == MoveEnd(old(Abs()))
    {
      hide Valid, TrackRam.Abs;
      Bounds(Abs());
      times := times.(move := Stopped);
      regs := regs.(status := if regs.status.ready then regs.status
                              else regs.status.(track0 := drives[fw.sel].cyl != 0, move := false));
    }

    method EndSettle()
      modifies this`regs, this`times
      ensures Abs() == SettleEnd(old(Abs()))
    {
      hide TrackRam.Abs;
      times := times.(settle := Stopped);
      regs := regs.(status := regs.status.(head := regs.status.head && !fw.headLoaded));
    }

    method EndSectorTrue()
      modifies this`regs, this`times
      ensures Abs() == old(Abs()).(sectorTrue := Stopped, sectorPos := old(Abs()).sectorPos.TrueOff())
    {
      hide TrackRam.Abs;
      times := times.(sectorTrue := Stopped);
      regs := regs.(sectorPos := regs.sectorPos.TrueOff());
    }

    /** With the head loaded and nothing asked for, one turn is like the last. */
    predicate AtRest()
      reads this
    {
      phase == Phase.Loop && fw.headLoaded && !fw.readFlag && !fw.writeFlag && !times.skipHole
      && times.move.Stopped? && times.settle.Stopped?
    }

    /** THE CARD, RUN FORWARD TO `t`. */
    method Advance(t: nat)
      requires Ok()
      modifies this`regs, this`fw, this`phase, this`times, this`drives, this`xferTrack, this`noSync
      modifies ram, ram.mem, ram.pending
      ensures Ok() && Abs() == Model.Advance(old(Abs()), t)
    {
      hide Handle, Valid, TrackRam.Abs, Next, Model.FillTo, Model.DrainTo, HoleAt, RunTo, Rank, HolesLeft, Us;
      ghost var c := Abs();
      Bounds(c);
      RunToValid(c, t);
      while true
        invariant Ok() && RunTo(Abs(), t) == RunTo(c, t)
        invariant |Abs().drives| == DRIVES && Abs().sel < DRIVES
        decreases HolesLeft(Abs(), t), Rank(Abs())
      {
        var pick := PickEvent(t);
        if pick.None? {
          NothingDue(Abs(), t);
          break;
        }
        OneEvent(Abs(), pick.value.e, t);
        var at := pick.value.at;
        if !pick.value.e.Hole? {
          RunEvent(pick.value.e);
        } else {
          var k := (t - at) / Us(hz, REV_US);
          if AtRest() && k > 2 {
            LongRest(Abs(), k, t);
            SkipTurns(k - 1);
          } else {
            Hole(at);
          }
        }
      }
      if phase.Reading? { FillTo(t); } else if phase.Writing? { DrainTo(t); }
    }

    /** All but the last two turns of a long rest, in one step. */
    method SkipTurns(m: nat)
      requires Resting(Abs())
      modifies this`fw, this`times
      ensures Abs() == Skip(old(Abs()), m)
    {
      hide TrackRam.Abs, Valid, Us;
      if m % 2 == 1 { fw := fw.(sector15 := !fw.sector15); }
      times := times.(nextHole := times.nextHole + m * Us(hz, REV_US));
    }

    // -------------------------------------------------------------------------------------
    // The ports
    // -------------------------------------------------------------------------------------

    /** IN base+`off` at `now`. */
    method Read(off: nat, now: nat) returns (v: byte)
      requires Ok() && times.spinFrom <= now
      modifies this`regs, this`fw, this`phase, this`times, this`drives, this`xferTrack, this`noSync
      modifies ram, ram.mem, ram.pending
      ensures Valid(Model.Advance(old(Abs()), now)) && Model.Advance(old(Abs()), now).spinFrom <= now
      ensures v == Ports.Value(Model.Advance(old(Abs()), now), off)
      ensures Ok() && Abs() == Ports.Access(Model.Advance(old(Abs()), now), Ports.In(off), now)
    {
      hide Valid, Model.Advance, TrackRam.Abs, Ports.TakeByte, BufferOk;
      AdvanceTimes(Abs(), now);
      Advance(now);
      Ports.AccessValid(Abs(), Ports.In(off), now);
      if off == 0 { v := regs.status.Byte(); }
      else if off == 1 { v := regs.sectorPos.Byte(); }
      else if off == 2 { v := TakeByte(); }
      else { v := regs.ioStatus.Byte(); }
    }

    method TakeByte() returns (v: byte)
      requires Ok()
      modifies this`regs, ram
      ensures ram.Ok() && |old(Abs()).buf.mem| == MEM && Abs() == Ports.TakeByte(old(Abs())) && v == old(regs.readData)
    {
      hide Valid, TrackRam.Abs, BufferOk;
      Bounds(Abs());
      v := regs.readData;
      var next := ram.Take();
      regs := regs.(readData := next);
    }

    /** OUT base+`off` at `now`. */
    method Write(off: nat, v: byte, now: nat)
      requires Ok() && times.spinFrom <= now
      modifies this`regs, this`fw, this`phase, this`times, this`drives, this`xferTrack, this`noSync
      modifies ram, ram.mem, ram.pending
      ensures Valid(Model.Advance(old(Abs()), now)) && Model.Advance(old(Abs()), now).spinFrom <= now
      ensures Ok() && Abs() == Ports.Access(Model.Advance(old(Abs()), now), Ports.Out(off, v), now)
    {
      hide Valid, Model.Advance, TrackRam.Abs, Ports.PutByte, Ports.Select, Ports.Command, BufferOk;
      AdvanceTimes(Abs(), now);
      Advance(now);
      Ports.AccessValid(Abs(), Ports.Out(off, v), now);
      if off == 0 { Select(v, now); }
      else if off == 1 { Command(v, now); }
      else if off == 2 { PutByte(v); }
      else { NameTrack(v); }
    }

    method NameTrack(v: byte)
      modifies this`regs
      ensures Abs() == old(Abs()).(curTrack := v)
    {
      hide TrackRam.Abs;
      regs := regs.(curTrack := v);
    }

    method PutByte(v: byte)
      requires Ok()
      modifies ram, ram.mem
      ensures ram.Ok() && |old(Abs()).buf.mem| == MEM && Abs() == Ports.PutByte(old(Abs()), v)
    {
      hide Valid, TrackRam.Abs, BufferOk, Inserted, Ports.PutByte;
      Bounds(Abs());
      PutIs(Abs(), v);
      if !phase.Reading? { ram.Put(v); }
    }

    method Idle()
      modifies this`regs, this`fw, this`phase, this`times
      ensures Abs() == Ports.Idle(old(Abs()))
    {
      hide TrackRam.Abs;
      regs := regs.(status := ALL_HIGH, sectorPos := Nothing, ioStatus := IO_CLEAR);
      fw := fw.(sel := -1, motor := false, readFlag := false, writeFlag := false, headLoaded := false, sector15 := false);
      phase := Off;
      times := times.(sectorTrue := Stopped, skipHole := false);
    }

    /** The motor on, and wait for it: the drives keep turning if they already were. */
    method StartMotor(now: nat)
      requires times.spinFrom <= now
      modifies this`fw, this`phase, this`times
      ensures Abs() == Ports.StartMotor(old(Abs()), now)
    {
      hide TrackRam.Abs, Us, Quot;
      var rev := Us(hz, REV_US);
      var from := if fw.motor then times.spinFrom else now;
      fw := fw.(motor := true);
      QuotIsDivision(now - from, rev);
      times := times.(spinFrom := from, nextHole := from + ((now - from) / rev + 1) * rev,
                      skipHole := true, sectorTrue := Stopped);
      phase := Phase.Loop;
    }

    method Select(v: byte, now: nat)
      requires Ok() && times.spinFrom <= now
      modifies this`regs, this`fw, this`phase, this`times
      ensures ram.Ok() && Abs() == Ports.Select(old(Abs()), v, now)
    {
      hide Valid, TrackRam.Abs, BufferOk, Ports.StartMotor, Ports.Idle;
      Bounds(Abs());
      var d := v % 16;
      if Bit(v, 0x80) || d >= DRIVES { Idle(); }
      else if d != fw.sel {
        var img := drives[d].img;
        regs := regs.(status := INIT.(track0 := drives[d].cyl != 0, wp := !(img.Some? && img.value.readOnly)),
                      sectorPos := Nothing);
        fw := fw.(sel := d, motorTimer := 0, readFlag := false, writeFlag := false, headLoaded := false);
        StartMotor(now);
      }
    }

    /** A step or a head load or unload, and nothing else in the same byte counts; otherwise read
        enable, and otherwise write enable. */
    method Command(v: byte, now: nat)
      requires Ok() && times.spinFrom <= now && Valid(Ports.Command(Abs(), v, now))
      modifies this`regs, this`fw, this`phase, this`times, this`drives, this`xferTrack, ram
      ensures ram.Ok() && Abs() == Ports.Command(old(Abs()), v, now)
    {
      hide Valid, TrackRam.Abs, BufferOk, Ports.StartMotor, Ports.Step, Ports.HeadLoad, Ports.WriteEnable,
        Ports.HeadUnload, Ports.ReadEnable;
      Bounds(Abs());
      if regs.status.ready { return; }
      if v % 16 != 0 {
        CommandBits(v);
        if v % 4 != 0 { Step(Bit(v, 2), now); }
        else if Bit(v, 4) { HeadLoad(now); }
        else { HeadUnload(); }
        return;
      }
      CommandBits(v);
      if Bit(v, 0x10) { ReadEnable(); }
      else if Bit(v, 0x80) { WriteEnable(now); }
    }

    method Step(out: bool, now: nat)
      requires Valid(Abs()) && fw.sel >= 0
      modifies this`regs, this`times, this`drives
      ensures Abs() == Ports.Step(old(Abs()), out, now)
    {
      hide Valid, TrackRam.Abs, BufferOk, Us, Ports.NextCylinder;
      Bounds(Abs());
      drives := drives[fw.sel := drives[fw.sel].(cyl := Ports.NextCylinder(drives[fw.sel].cyl, out))];
      regs := regs.(status := regs.status.(head := true, move := true), sectorPos := Nothing);
      times := times.(move := At(now + Us(hz, STEP_US)), settle := At(now + Us(hz, SETTLE_US)));
    }

    method HeadLoad(now: nat)
      requires times.spinFrom <= now
      modifies this`regs, this`fw, this`phase, this`times
      ensures Abs() == Ports.HeadLoad(old(Abs()), now)
    {
      hide TrackRam.Abs, Ports.StartMotor;
      regs := regs.(status := regs.status.(head := false), sectorPos := Nothing);
      fw := fw.(headLoaded := true);
      if !fw.motor { StartMotor(now); }
    }

    method HeadUnload()
      modifies this`regs, this`fw
      ensures Abs() == Ports.HeadUnload(old(Abs()))
    {
      hide TrackRam.Abs;
      regs := regs.(status := regs.status.(head := true), sectorPos := Nothing);
      fw := fw.(headLoaded := false);
    }

    method ReadEnable()
      modifies this`regs, this`fw
      ensures Abs() == Ports.ReadEnable(old(Abs()))
    {
      hide TrackRam.Abs;
      fw := fw.(readFlag := true);
      regs := regs.(status := regs.status.(nrda := true));
    }

    /** Write enable; inside this turn's window already, past sector true, the write starts now. */
    method WriteEnable(now: nat)
      requires Ok() && Valid(Ports.WriteEnable(Abs(), now))
      modifies this`regs, this`fw, this`phase, this`xferTrack, ram
      ensures ram.Ok() && Abs() == Ports.WriteEnable(old(Abs()), now)
    {
      hide Valid, TrackRam.Abs, BufferOk, Us, Model.StartWrite;
      WriteEnabledOk(Abs());
      fw := fw.(writeFlag := true);
      regs := regs.(status := regs.status.(enwd := true));
      if phase.Window? && now >= times.holeAt + Us(hz, SEC_TRUE_US) { StartWrite(); }
    }
  }

  lemma WriteEnabledOk(c: Card)
    requires Valid(c)
    ensures Valid(c.(writeFlag := true, status := c.status.(enwd := true)))
  {
    hide Us, BufferOk;
  }

  lemma AdvanceTimes(c: Card, t: nat)
    requires Valid(c) && c.spinFrom <= t
    ensures Valid(Model.Advance(c, t)) && Model.Advance(c, t).spinFrom == c.spinFrom
    ensures Quiet(Model.Advance(c, t), t)
  {
    AdvanceValid(c, t);
    Ports.AdvanceKeepsSpin(c, t);
  }

  lemma NothingDue(c: Card, t: nat)
    requires Valid(c) && Next(c, t).None?
    ensures RunTo(c, t) == c
  {}

  lemma OneEvent(c: Card, e: Event, t: nat)
    requires Valid(c) && Next(c, t) == Some(e)
    ensures Live(c, e) && When(c, e) <= t
    ensures var d := Handle(c, e);
      && Valid(d) && |d.drives| == DRIVES && d.sel < DRIVES && RunTo(d, t) == RunTo(c, t)
      && (HolesLeft(d, t) < HolesLeft(c, t) || (HolesLeft(d, t) == HolesLeft(c, t) && Rank(d) < Rank(c)))
    ensures e.Hole? ==> Handle(c, e) == HoleAt(c, c.nextHole)
  {
    hide HoleAt;
    HandleValid(c, e, t);
    HandleDecreases(c, e, t);
  }

  lemma WholeTurns(dt: nat, rev: nat)
    requires rev > 0
    ensures (dt / rev) * rev <= dt
    ensures dt / rev > 2 ==> (dt / rev - 1) * rev >= 1
  {}

  lemma LongRest(c: Card, k: nat, t: nat)
    requires Valid(c) && Next(c, t) == Some(Hole) && k > 2
    requires c.phase == Phase.Loop && c.headLoaded && !c.readFlag && !c.writeFlag && !c.skipHole
    requires c.move.Stopped? && c.settle.Stopped?
    requires c.nextHole <= t && k == (t - c.nextHole) / Us(c.hz, REV_US)
    ensures Resting(c)
    ensures var d := Skip(c, k - 1);
      Valid(d) && |d.drives| == DRIVES && d.sel < DRIVES && RunTo(d, t) == RunTo(c, t) && HolesLeft(d, t) < HolesLeft(c, t)
  {
    hide RunTo, Next, Us;
    WholeTurns(t - c.nextHole, Us(c.hz, REV_US));
    QuietStretch(c, k - 1, t);
  }

  datatype Pick = Pick(e: Event, at: nat)

  predicate Matches(c: Card, pick: Option<Pick>, r: Option<Event>)
    requires |c.drives| == DRIVES && c.sel < DRIVES
  {
    && (pick.None? <==> r.None?)
    && (pick.Some? ==> r == Some(pick.value.e) && Live(c, r.value) && pick.value.at == When(c, r.value))
  }

  lemma NothingMatches(c: Card)
    requires |c.drives| == DRIVES && c.sel < DRIVES
    ensures Matches(c, None, None)
  {}

  /** One more event looked at. */
  lemma Considered(c: Card, r: Option<Event>, was: Option<Pick>, pick: Option<Pick>, e: Event, t: nat) returns (r': Option<Event>)
    requires |c.drives| == DRIVES && c.sel < DRIVES
    requires r.Some? ==> Due(c, r.value, t) && Order(r.value) < Order(e)
    requires Matches(c, was, r)
    requires pick == if Live(c, e) then Consider(was, When(c, e), e, t) else was
    ensures r' == Sooner(c, r, e, t)
    ensures Matches(c, pick, r')
    ensures r'.Some? ==> Due(c, r'.value, t) && Order(r'.value) <= Order(e)
  {
    hide When, Live;
    r' := Sooner(c, r, e, t);
  }

  function Consider(pick: Option<Pick>, when: nat, e: Event, t: nat): Option<Pick> {
    if when <= t && (pick.None? || when < pick.value.at) then Some(Pick(e, when)) else pick
  }

  /** The hole's turn, whichever of the boot sector and a read it found. */
  function Turned(c: Card, h: nat): (c': Card) {
    var timer := (if c.headLoaded then 0 else c.motorTimer) + 1;
    c.(readFlag := false, motorTimer := timer, motor := c.motor && StillOn(timer),
       sector15 := !c.sector15,
       sectorPos := if !c.status.head then Sector(!c.sector15, true) else c.sectorPos,
       sectorTrue := At(h + Us(c.hz, SEC_TRUE_US)), holeAt := h, phase := Window)
  }

  lemma PutIs(c: Card, v: byte)
    requires |c.buf.mem| == MEM
    ensures Ports.PutByte(c, v) == if c.phase.Reading? then c else c.(buf := Inserted(c.buf, v))
  {}

  /** A write begun. */
  function WriteBegun(c: Card, t: int): (c': Card) {
    c.(phase := Writing, buf := c.buf.(rd := BOOT, wr := BOOT, done := 0),
       status := c.status.(enwd := false), ioStatus := IO_CLEAR, xferTrack := t)
  }

  /** A read begun. */
  function Begun(c: Card): (c': Card)
    requires |c.drives| == DRIVES && c.sel < DRIVES
  {
    c.(phase := Reading, buf := c.buf.(rd := BOOT, wr := BOOT, done := 0), ioStatus := IO_CLEAR,
       xferTrack := HeadTrack(c), noSync := !Formatted(c, HeadTrack(c)))
  }

  /** The motor timer has not come to its bit 5. */
  predicate StillOn(timer: nat) { timer / 32 % 2 == 0 }

  /** A hole that ends a read which never found its sync byte. */
  function Lost(c: Card): (c': Card) {
    c.(ioStatus := c.ioStatus.(eosErr := true, done := true), status := c.status.(nrda := false), phase := Phase.Loop)
  }

  /** No read asked for: the fake boot sector's first byte goes out. */
  function BootSector(c: Card): (c': Card)
    requires |c.buf.mem| == MEM
  {
    c.(buf := c.buf.(rd := 1), readData := c.buf.mem[0], status := c.status.(nrda := false))
  }

  lemma HoleLost(c: Card, h: nat)
    requires Valid(c) && c.phase.Reading?
    ensures HoleAt(c, h) == Lost(c.(nextHole := h + Us(c.hz, REV_US)))
  {
    hide Us, DriveOk;
  }

  lemma HoleSkipped(c: Card, h: nat)
    requires Valid(c) && !c.phase.Reading? && c.skipHole
    ensures HoleAt(c, h) == c.(nextHole := h + Us(c.hz, REV_US), skipHole := false)
  {
    hide Us, DriveOk;
  }

  lemma HoleWithRead(c: Card, h: nat)
    requires Valid(c) && !c.phase.Reading? && !c.skipHole && c.readFlag
    ensures HoleAt(c, h) == Turned(c.(nextHole := h + Us(c.hz, REV_US)), h)
  {
    hide Us, DriveOk;
  }

  lemma HoleWithBoot(c: Card, h: nat)
    requires Valid(c) && !c.phase.Reading? && !c.skipHole && !c.readFlag
    ensures HoleAt(c, h) == Turned(BootSector(c.(nextHole := h + Us(c.hz, REV_US))), h)
  {
    hide Us, DriveOk;
  }

  lemma HoleTurns(c: Card, h: nat)
    requires Valid(c) && !c.phase.Reading? && !c.skipHole
    ensures |c.buf.mem| == MEM
    ensures var c1 := c.(nextHole := h + Us(c.hz, REV_US));
      HoleAt(c, h) == Turned(if c.readFlag then c1 else BootSector(c1), h)
  {
    hide HoleAt, Turned, BootSector, Us;
    if c.readFlag { HoleWithRead(c, h); } else { HoleWithBoot(c, h); }
  }

  lemma Bounds(c: Card)
    requires Valid(c)
    ensures c.hz > 0 && |c.drives| == DRIVES && -1 <= c.sel < DRIVES && |c.buf.mem| == MEM && BufferOk(c.buf)
    ensures c.sel >= 0 || c.status.ready
  {}

  lemma ReadDone(c: Card)
    requires Valid(c) && c.phase.Reading?
    ensures Valid(Model.FinishRead(c))
  {
    FillToValid(c, c.holeAt + Us(c.hz, READ_END_US));
  }

  lemma WriteDone(c: Card)
    requires Valid(c) && c.phase.Writing?
    ensures Valid(Model.FinishWrite(c))
    ensures |c.drives| == DRIVES && c.sel < DRIVES && c.hz > 0
    ensures var d := Model.DrainTo(c, c.holeAt + Us(c.hz, WRITE_END_US));
      |d.buf.pending| == TRACK_BYTES && d.sel < |d.drives| && Model.FinishWrite(c) == Ended(d, d.buf.pending)
  {
    hide Us, Model.DrainTo, Commit;
    FinishWriteValid(c);
    DrainToFrame(c, c.holeAt + Us(c.hz, WRITE_END_US));
    Bounds(c);
  }

  /** A write over, its disk with the bytes it took. */
  function Ended(c: Card, data: seq<byte>): (c': Card)
    requires |data| == TRACK_BYTES && c.sel < |c.drives|
  {
    c.(writeFlag := false, ioStatus := c.ioStatus.(done := true), phase := Phase.Loop,
       drives := if c.sel < 0 then c.drives else c.drives[c.sel := Commit(c.drives[c.sel], c.xferTrack, data)])
  }
}
