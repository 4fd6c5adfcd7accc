/** The head and the registers in plain numbers: where a run of steps leaves the head, when the lines say so, and
    what the bytes the 8080 reads are made of. */
module FdcPlusHdfHead {
  import opened Arithmetic
  import opened Basics
  import opened FdcPlusHdfModel
  import opened FdcPlusHdfTime
  import opened FdcPlusHdfPorts

  // ---------------------------------------------------------------------------------------
  // The register bytes
  // ---------------------------------------------------------------------------------------

  lemma BitsOf(e: nat, m: nat, h: nat, r: nat, w: nat, t: nat, n: nat)
    requires e < 2 && m < 2 && h < 2 && r < 2 && w < 2 && t < 2 && n < 2
    ensures var v := e + 2 * m + 4 * h + 8 * r + 16 * w + 32 + 64 * t + 128 * n;
      && v < 256 && v % 2 == e && v / 2 % 2 == m && v / 4 % 2 == h && v / 8 % 2 == r && v / 16 % 2 == w
      && v / 32 % 2 == 1 && v / 64 % 2 == t && v / 128 == n
  {
    var v := e + 2 * m + 4 * h + 8 * r + 16 * w + 32 + 64 * t + 128 * n;
    assert v / 2 == m + 2 * h + 4 * r + 8 * w + 16 + 32 * t + 64 * n;
    assert v / 4 == h + 2 * r + 4 * w + 8 + 16 * t + 32 * n;
    assert v / 8 == r + 2 * w + 4 + 8 * t + 16 * n;
    assert v / 16 == w + 2 + 4 * t + 8 * n;
    assert v / 32 == 1 + 2 * t + 4 * n;
    assert v / 64 == t + 2 * n;
  }

  /** An IN of port 0: each line in its own bit, LOW when asserted, and bit 5 always set. */
  lemma StatusReads(c: Card)
    ensures var v, s := Value(c, 0), c.status;
      && (v % 2 == 0 <==> !s.enwd) && (v / 2 % 2 == 0 <==> !s.move) && (v / 4 % 2 == 0 <==> !s.head)
      && (v / 8 % 2 == 0 <==> !s.ready) && (v / 16 % 2 == 0 <==> !s.wp) && v / 32 % 2 == 1
      && (v / 64 % 2 == 0 <==> !s.track0) && (v / 128 == 0 <==> !s.nrda)
  {
    var s := c.status;
    BitsOf(if s.enwd then 1 else 0, if s.move then 1 else 0, if s.head then 1 else 0, if s.ready then 1 else 0,
           if s.wp then 1 else 0, if s.track0 then 1 else 0, if s.nrda then 1 else 0);
  }

  /** Of port 1: nothing, or the sector with its low bit LOW while sector true lasts; the top two bits read 1. */
  lemma SectorReads(c: Card)
    ensures var v := Value(c, 1);
      && (c.sectorPos.Nothing? ==> v == 255)
      && (c.sectorPos.Sector? ==> v / 64 == 3 && v / 2 % 32 == (if c.sectorPos.is15 then 15 else 0)
                                  && (v % 2 == 0 <==> c.sectorPos.isTrue))
  {}

  /** Of port 3: each error in its own bit, HIGH when asserted, and of no other port. */
  lemma IoStatusReads(c: Card)
    ensures var v, s := Value(c, 3), c.ioStatus;
      && v % 2 == 0 && (v / 2 % 2 == 1 <==> s.trackErr) && (v / 4 % 2 == 1 <==> s.eosErr) && v / 8 % 16 == 0
      && (v / 128 == 1 <==> s.done)
  {}

  // ---------------------------------------------------------------------------------------
  // Where steps leave the head
  // ---------------------------------------------------------------------------------------

  /** Same drive selected and as ready, every head where it was. */
  predicate HeadsStay(c: Card, d: Card) {
    && d.sel == c.sel && d.status.ready == c.status.ready && |c.drives| == |d.drives| == DRIVES
    && forall i :: 0 <= i < DRIVES ==> d.drives[i].cyl == c.drives[i].cyl
  }

  predicate SameTimers(c: Card, d: Card) {
    d.hz == c.hz && d.move == c.move && d.settle == c.settle && d.headLoaded == c.headLoaded
  }

  /** A transfer's end leaves the head and its timers alone. */
  lemma TransferStays(c: Card)
    requires Valid(c)
    ensures c.phase.Reading? ==>
      var d := FinishRead(c);
      HeadsStay(c, d) && SameTimers(c, d) && d.status == c.status.(nrda := d.status.nrda)
    ensures c.phase.Writing? ==>
      var d := FinishWrite(c); HeadsStay(c, d) && SameTimers(c, d) && d.status == c.status
  {
    hide Us, FillTo, DrainTo, DriveOk, TrackOf;
    if c.phase.Reading? { FillToKeeps(c, c.holeAt + Us(c.hz, READ_END_US)); }
    DrainToFrame(c, c.holeAt + Us(c.hz, WRITE_END_US));
  }

  lemma HoleStays(c: Card, h: nat)
    requires Valid(c)
    ensures var d := HoleAt(c, h);
      && HeadsStay(c, d) && SameTimers(c, d) && d.status == c.status.(nrda := d.status.nrda)
  {
    hide Us, DriveOk, BufferOk, Formatted, HeadTrack;
  }

  lemma StartStays(c: Card)
    requires Valid(c)
    ensures var d := StartRead(c); HeadsStay(c, d) && SameTimers(c, d) && d.status == c.status
    ensures var d := StartWrite(c);
      HeadsStay(c, d) && SameTimers(c, d) && d.status == c.status.(enwd := d.status.enwd)
  {
    hide Us, DriveOk, BufferOk, Formatted, HeadTrack;
  }

  lemma TimerStays(c: Card)
    requires Valid(c)
    ensures HeadsStay(c, MoveEnd(c)) && MoveEnd(c).hz == c.hz && HeadsStay(c, SettleEnd(c)) && SettleEnd(c).hz == c.hz
    ensures var d := c.(sectorTrue := Stopped, sectorPos := c.sectorPos.TrueOff()); HeadsStay(c, d) && d.hz == c.hz
  {
    hide Us, DriveOk, BufferOk, Formatted;
  }

  lemma EventStays(c: Card, e: Event)
    requires Valid(c) && Live(c, e)
    ensures HeadsStay(c, Handle(c, e)) && Handle(c, e).hz == c.hz
  {
    hide Valid, HeadsStay, FinishRead, FinishWrite, HoleAt, StartRead, StartWrite, MoveEnd, SettleEnd;
    match e
    case Move => TimerStays(c);
    case Settle => TimerStays(c);
    case TrueEnd => TimerStays(c);
    case WindowEnd => StartStays(c);
    case XferEnd => TransferStays(c);
    case Hole => HoleStays(c, c.nextHole);
  }

  lemma {:induction false} RunStays(c: Card, t: nat)
    requires Valid(c)
    ensures HeadsStay(c, RunTo(c, t)) && RunTo(c, t).hz == c.hz
    decreases HolesLeft(c, t), Rank(c)
  {
    hide Handle, Live, Rank, HolesLeft, Valid;
    ValidDrives(c);
    var e := Next(c, t);
    if e.Some? {
      EventStays(c, e.value);
      HandleValid(c, e.value, t);
      HandleDecreases(c, e.value, t);
      RunStays(Handle(c, e.value), t);
    }
  }

  lemma ValidDrives(c: Card)
    requires Valid(c)
    ensures |c.drives| == DRIVES && c.sel < DRIVES
  {}

  lemma CatchStays(c: Card, t: nat)
    requires Valid(c)
    ensures HeadsStay(c, Catch(c, t)) && SameTimers(c, Catch(c, t))
    ensures Catch(c, t).status == c.status.(nrda := Catch(c, t).status.nrda)
  {
    hide Us, FillTo, DrainTo;
    if c.phase.Reading? { FillToKeeps(c, t); }
    DrainToFrame(c, t);
  }

  lemma AdvanceStays(c: Card, t: nat)
    requires Valid(c)
    ensures HeadsStay(c, Advance(c, t)) && Advance(c, t).hz == c.hz
  {
    hide RunTo, Catch;
    RunToValid(c, t);
    RunStays(c, t);
    CatchStays(RunTo(c, t), t);
  }

  /** A cylinder after `n` steps: towards the middle no further than 79, towards the edge no further than 0. */
  function Stepped(cyl: int, out: bool, n: nat): int {
    if out then (if n > cyl then 0 else cyl - n) else (if cyl + n > 79 then 79 else cyl + n)
  }

  /** OUTs of the command port that all step one way: bit 1 out, or bit 0 without it in. */
  predicate AllStep(vs: seq<Visit>, out: bool) {
    forall i :: 0 <= i < |vs| ==> StepsOnce(vs[i].op, out)
  }

  predicate StepsOnce(op: Op, out: bool) {
    op.Out? && op.port == 1 && (if out then op.value % 4 >= 2 else op.value % 4 == 1)
  }

  /** The drive selected is ready, and its head is over `cyl`. */
  predicate Over(c: Card, d: nat, cyl: int) {
    |c.drives| == DRIVES && c.sel == d < DRIVES && !c.status.ready && c.drives[d].cyl == cyl
  }

  lemma StepBit(v: byte)
    ensures Bit(v, 2) <==> v % 4 >= 2
  {}

  lemma StepAccess(c: Card, op: Op, now: nat, out: bool, d: nat, cyl: int)
    requires Valid(c) && c.spinFrom <= now && StepsOnce(op, out) && Over(c, d, cyl)
    ensures var e := Access(c, op, now);
      && Over(e, d, Stepped(cyl, out, 1)) && e.move == At(now + Us(c.hz, 3000)) && e.hz == c.hz
      && e.settle == At(now + Us(c.hz, 18000)) && e.status.head && e.headLoaded == c.headLoaded
      && forall i :: 0 <= i < DRIVES && i != d ==> e.drives[i].cyl == c.drives[i].cyl
  {
    hide Us, BufferOk, Bit;
    StepBit(op.value);
  }

  lemma OneStep(c: Card, v: Visit, out: bool, d: nat, cyl: int)
    requires Valid(c) && c.spinFrom <= v.when && StepsOnce(v.op, out) && Over(c, d, cyl)
    ensures var e := Call(c, v);
      && Over(e, d, Stepped(cyl, out, 1)) && e.move == At(v.when + Us(c.hz, 3000)) && |c.drives| == DRIVES
      && e.settle == At(v.when + Us(c.hz, 18000)) && e.status.head
      && forall i :: 0 <= i < DRIVES && i != d ==> e.drives[i].cyl == c.drives[i].cyl
  {
    hide Advance, Us, Access, Valid, StepsOnce;
    AdvanceValid(c, v.when);
    AdvanceKeepsSpin(c, v.when);
    AdvanceStays(c, v.when);
    StepAccess(Advance(c, v.when), v.op, v.when, out, d, cyl);
  }

  /** STEPS TAKE THE HEAD THERE. `n` steps one way, at whatever times, leave the head of the drive selected `n`
      cylinders on, or at the stop, and every other head where it was. */
  lemma {:induction false} StepsGo(c: Card, vs: seq<Visit>, out: bool, d: nat, cyl: int)
    requires Valid(c) && InOrder(vs, c.spinFrom) && AllStep(vs, out) && Over(c, d, cyl) && 0 <= cyl < 80
    ensures var e := Play(c, vs);
      && Over(e, d, Stepped(cyl, out, |vs|))
      && |e.drives| == |c.drives| == DRIVES && forall i :: 0 <= i < DRIVES && i != d ==> e.drives[i].cyl == c.drives[i].cyl
    decreases |vs|
  {
    hide Call, Valid;
    if |vs| > 0 {
      OneStep(c, vs[0], out, d, cyl);
      var e := Call(c, vs[0]);
      InOrderFrom(vs[1..], e.spinFrom, vs[0].when);
      StepsGo(e, vs[1..], out, d, Stepped(cyl, out, 1));
    }
  }

  /** A step's two timers run, or have run out and the lines tell. */
  predicate Arriving(c: Card, x: nat, y: nat, loaded: bool, d: nat, cyl: int) {
    && Over(c, d, cyl) && c.headLoaded == loaded
    && (c.move == At(x) || (c.move.Stopped? && !c.status.move && c.status.track0 == (cyl != 0)))
    && (c.settle == At(y) || (c.settle.Stopped? && c.status.head == !loaded))
  }

  lemma TimerMoves(c: Card, e: Event, x: nat, y: nat, loaded: bool, d: nat, cyl: int)
    requires Valid(c) && Live(c, e) && Arriving(c, x, y, loaded, d, cyl) && (e.Move? || e.Settle? || e.TrueEnd?)
    requires c.settle.At? ==> c.status.head
    ensures Arriving(Handle(c, e), x, y, loaded, d, cyl)
    ensures Handle(c, e).settle.At? ==> Handle(c, e).status.head
  {
    hide Us, DriveOk, BufferOk, Formatted, FinishRead, FinishWrite, HoleAt, StartRead, StartWrite;
  }

  lemma EventMoves(c: Card, e: Event, x: nat, y: nat, loaded: bool, d: nat, cyl: int)
    requires Valid(c) && Live(c, e) && Arriving(c, x, y, loaded, d, cyl) && (c.settle.At? ==> c.status.head)
    ensures Arriving(Handle(c, e), x, y, loaded, d, cyl)
    ensures Handle(c, e).settle.At? ==> Handle(c, e).status.head
  {
    hide Valid, FinishRead, FinishWrite, HoleAt, StartRead, StartWrite, MoveEnd, SettleEnd;
    match e
    case Move => TimerMoves(c, e, x, y, loaded, d, cyl);
    case Settle => TimerMoves(c, e, x, y, loaded, d, cyl);
    case TrueEnd => TimerMoves(c, e, x, y, loaded, d, cyl);
    case WindowEnd => StartStays(c);
    case XferEnd => TransferStays(c);
    case Hole => HoleStays(c, c.nextHole);
  }

  lemma {:induction false} RunMoves(c: Card, t: nat, x: nat, y: nat, loaded: bool, d: nat, cyl: int)
    requires Valid(c) && Arriving(c, x, y, loaded, d, cyl) && (c.settle.At? ==> c.status.head)
    ensures Arriving(RunTo(c, t), x, y, loaded, d, cyl)
    decreases HolesLeft(c, t), Rank(c)
  {
    hide Handle, Live, Rank, HolesLeft, Valid, Arriving;
    ValidDrives(c);
    var e := Next(c, t);
    if e.Some? {
      EventMoves(c, e.value, x, y, loaded, d, cyl);
      HandleValid(c, e.value, t);
      HandleDecreases(c, e.value, t);
      RunMoves(Handle(c, e.value), t, x, y, loaded, d, cyl);
    }
  }

  /** AND THE LINES SAY SO. Three milliseconds after the last step MOVE HEAD is asserted, and TRACK 0 if and only
      if the head is over cylinder 0; eighteen after it, HEAD if and only if the head is loaded. */
  lemma StepSettles(c: Card, v: Visit, out: bool, d: nat, cyl: int, t: nat)
    requires Valid(c) && c.spinFrom <= v.when && StepsOnce(v.op, out) && Over(c, d, cyl)
    requires t >= v.when + Us(c.hz, 3000)
    ensures var e := Advance(Call(c, v), t); var s := Value(e, 0);
      && Over(e, d, Stepped(cyl, out, 1)) && s / 2 % 2 == 0 && (s / 64 % 2 == 0 <==> Stepped(cyl, out, 1) == 0)
      && (t >= v.when + Us(c.hz, 18000) ==> (s / 4 % 2 == 0 <==> Call(c, v).headLoaded))
  {
    hide RunTo, Call, Catch, Us, Value, Valid;
    OneStep(c, v, out, d, cyl);
    var m, x, y := Call(c, v), v.when + Us(c.hz, 3000), v.when + Us(c.hz, 18000);
    RunToValid(m, t);
    RunMoves(m, t, x, y, m.headLoaded, d, Stepped(cyl, out, 1));
    var r := RunTo(m, t);
    assert !Live(r, Move);
    assert t >= y ==> !Live(r, Settle);
    CatchStays(r, t);
    StatusReads(Advance(m, t));
  }

  // ---------------------------------------------------------------------------------------
  // The other bytes out
  // ---------------------------------------------------------------------------------------

  /** A select below 80H of one of the four drives, not the one already selected: MOVE HEAD asserted, TRACK 0 over
      cylinder 0, WRITE PROTECT with a protected disk, and no other line. Any other select but of the drive already
      selected leaves every line of every port inactive. */
  lemma SelectReads(c: Card, v: byte, now: nat)
    requires Valid(c) && c.spinFrom <= now
    ensures var e, d := Access(c, Out(0, v), now), v % 16;
      && (v >= 128 || d >= 4 ==> e.sel == -1 && Value(e, 0) == 0xFF && Value(e, 1) == 0xFF && Value(e, 3) == 0
                                 && !e.motor && !e.headLoaded && !e.readFlag && !e.writeFlag)
      && (v < 128 && d == c.sel ==> e == c)
      && (v < 128 && d < 4 && d != c.sel ==>
            && e.sel == d && e.motor && Value(e, 1) == 0xFF && (c.drives[d].img.Some? ==> Live(e, Hole))
            && Value(e, 0) == 0xF5 - (if c.drives[d].cyl == 0 then 0x40 else 0)
                              - (if c.drives[d].img.Some? && c.drives[d].img.value.readOnly then 0x10 else 0))
  {
    hide Us, Quot, DriveOk, BufferOk;
  }

  /** A command with no step in it: bit 2 loads the head and turns the motor on; else bit 3 unloads it; else bit 4
      asks for a read; else bit 7 for a write. With no drive selected none does anything. */
  lemma CommandBitsMean(c: Card, v: byte, now: nat)
    requires Valid(c) && c.spinFrom <= now && v % 4 == 0
    ensures var e, load, unload := Access(c, Out(1, v), now), v / 4 % 2 == 1, v / 8 % 2 == 1;
      && (c.status.ready ==> e == c)
      && (!c.status.ready && load ==> e.headLoaded && !e.status.head && e.motor && e.sectorPos.Nothing?)
      && (!c.status.ready && !load && unload ==> e == c.(headLoaded := false, sectorPos := Nothing,
                                                         status := c.status.(head := true)))
      && (!c.status.ready && v % 16 == 0 && v / 16 % 2 == 1 ==>
            e == c.(readFlag := true, status := c.status.(nrda := true)))
      && (!c.status.ready && v % 16 == 0 && v / 16 % 2 == 0 ==>
            (v / 128 == 1 ==> e.writeFlag) && (v / 128 == 0 ==> e == c))
  {
    hide Us, Quot, DriveOk, BufferOk, HeadTrack;
    assert v % 16 == 0 <==> v / 4 % 2 == 0 && v / 8 % 2 == 0;
  }

  /** Port 3 names the track, port 2 takes a byte for the disk, and no other OUT is of this card. */
  lemma OtherOuts(c: Card, v: byte, now: nat)
    requires Valid(c) && c.spinFrom <= now
    ensures Access(c, Out(3, v), now) == c.(curTrack := v)
    ensures var e := Access(c, Out(2, v), now);
      e == if c.phase.Reading? || c.buf.wr >= |c.buf.mem| then c
           else c.(buf := c.buf.(mem := c.buf.mem[c.buf.wr := v], wr := c.buf.wr + 1))
  {}

  // ---------------------------------------------------------------------------------------
  // A turn
  // ---------------------------------------------------------------------------------------

  /** What a hole begins, when no read is in hand and none is thrown away: sector 0 and sector 15 in turn, shown with
      the head settled; a motor that goes off on the thirty-second turn with the head up; and, with no read asked
      for, the boot sector's first byte waiting. */
  lemma HoleShows(c: Card, h: nat)
    requires Valid(c) && !c.phase.Reading? && !c.skipHole
    ensures var d := HoleAt(c, h);
      && d.phase.Window? && d.holeAt == h && d.sector15 == !c.sector15 && !d.readFlag
      && (!c.status.head ==> Value(d, 1) == if c.sector15 then 0xC0 else 0xDE)
      && (c.status.head ==> Value(d, 1) == Value(c, 1))
      && (c.headLoaded ==> d.motorTimer == 1 && d.motor == c.motor)
      && (!c.headLoaded ==>
            d.motorTimer == c.motorTimer + 1 && d.motor == (c.motor && (c.motorTimer + 1) / 32 % 2 == 0))
      && (!c.readFlag ==> Value(d, 0) / 128 == 0 && |c.buf.mem| > 0 && Value(d, 2) == c.buf.mem[0])
  {
    hide Us, DriveOk, HeadTrack;
    StatusReads(HoleAt(c, h));
  }

  /** The first hole after the motor starts is thrown away; and a hole that finds a read with nothing under its head
      ends it in an error, NRDA asserted. */
  lemma OtherHoles(c: Card, h: nat)
    requires Valid(c)
    ensures !c.phase.Reading? && c.skipHole ==> HoleAt(c, h) == c.(nextHole := h + Us(c.hz, 166668), skipHole := false)
    ensures c.phase.Reading? ==>
      var d := HoleAt(c, h);
      && d.phase == Phase.Loop && Value(d, 0) / 128 == 0 && Value(d, 3) / 4 % 2 == 1 && Value(d, 3) / 128 == 1
      && d.readFlag == c.readFlag && d.motor == c.motor && d.sectorPos == c.sectorPos && d.sectorTrue == c.sectorTrue
  {
    hide Us, DriveOk, BufferOk, HeadTrack;
    StatusReads(HoleAt(c, h));
  }

  /** A transfer begins with no error shown, and a write with ENWD asserted; and ends with DONE. */
  lemma TransferTells(c: Card)
    requires Valid(c)
    ensures Value(StartWrite(c), 0) % 2 == 0 && Value(StartWrite(c), 3) == 0
    ensures c.readFlag ==> Value(StartRead(c), 3) == 0
    ensures !c.readFlag ==> StartRead(c) == c.(phase := Phase.Loop)
    ensures c.phase.Reading? ==> Value(FinishRead(c), 3) / 128 == 1 && FinishRead(c).phase == Phase.Loop
    ensures c.phase.Writing? ==>
      Value(FinishWrite(c), 3) / 128 == 1 && FinishWrite(c).phase == Phase.Loop && !FinishWrite(c).writeFlag
  {
    hide Us, DriveOk, BufferOk, HeadTrack, FillTo, DrainTo, Formatted;
    StatusReads(StartWrite(c));
    if c.phase.Reading? { FillToKeeps(c, c.holeAt + Us(c.hz, READ_END_US)); }
    DrainToFrame(c, c.holeAt + Us(c.hz, WRITE_END_US));
  }

  /** As a read's bytes come, looked at for the first time at `t`: a TRACK error once the sync byte is past, 816
      microseconds after the hole, if the low seven bits of the disk's track and of the one named differ; and NRDA
      asserted once five bytes have come, 80 later. */
  lemma ReadTells(c: Card, t: nat)
    requires Valid(c) && c.phase.Reading? && !c.noSync && c.holeAt <= t && c.buf.done == 0
    ensures var d, us := FillTo(c, t), (t - c.holeAt) * 1000000 / c.hz;
      && (d.status.nrda <==> c.status.nrda && us < 896)
      && (d.ioStatus.trackErr <==> c.ioStatus.trackErr || (us >= 816 && c.xferTrack % 128 != c.curTrack % 128))
  {
    hide Us, DriveOk, BufferOk, TrackOf, Fill, Quot;
    QuotIsDivision((t - c.holeAt) * 1000000, c.hz);
  }

  /** At power-on every port is inactive, every head over cylinder 0, and the disks are where they were. */
  lemma PowerReads(c: Card)
    requires |c.drives| == DRIVES
    ensures var d := Power(c);
      && Value(d, 0) == 0xFF && Value(d, 1) == 0xFF && Value(d, 2) == 0 && Value(d, 3) == 0 && d.sel == -1
      && d.curTrack == 0 && d.move.Stopped? && d.settle.Stopped? && !d.motor && d.motorTimer == 0
      && |d.drives| == 4 && forall i :: 0 <= i < 4 ==> d.drives[i].cyl == 0 && d.drives[i].img == c.drives[i].img
  {}

  /** When the parts of a turn end, in microseconds after its hole: sector true after 32, the window after 400 or, a
      write asked for, 32; a read after 164,688, a write after 164,736, and the turn after 166,668. */
  lemma TurnTimes(c: Card, h: nat)
    requires Valid(c)
    ensures c.phase.Window? ==> When(c, WindowEnd) == c.holeAt + Us(c.hz, if c.writeFlag then 32 else 400)
    ensures c.phase.Writing? ==> When(c, XferEnd) == c.holeAt + Us(c.hz, 164736)
    ensures c.phase.Reading? && !c.noSync ==> When(c, XferEnd) == c.holeAt + Us(c.hz, 164688)
    ensures var d := HoleAt(c, h);
      d.nextHole == h + Us(c.hz, 166668)
      && (!c.phase.Reading? && !c.skipHole ==> d.sectorTrue == At(h + Us(c.hz, 32)))
  {
    hide Us, DriveOk, BufferOk;
  }

  /** Byte `k` has come off the disk from 832 + 16k microseconds after the hole on, and the disk has taken it from
      816 + 16k on. */
  lemma ByteTimes(hz: nat, dt: nat, k: nat)
    requires hz > 0 && k < 10240
    ensures Arrived(hz, dt) > k <==> dt * 1000000 / hz >= 832 + 16 * k
    ensures Taken(hz, dt) > k <==> dt * 1000000 / hz >= 816 + 16 * k
  {
    hide Quot;
    QuotIsDivision(dt * 1000000, hz);
  }
}
