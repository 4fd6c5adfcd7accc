/** A whole track to the disk and back, a byte at a time on emulated time, with no handshake. */
module FdcPlusHdfTransfer {
  import opened Arithmetic
  import opened Basics
  import opened FdcPlusHdfModel
  import opened FdcPlusHdfTime
  import opened FdcPlusHdfPorts

  // ---------------------------------------------------------------------------------------
  // The clock rate a whole track needs
  // ---------------------------------------------------------------------------------------

  /** A read's end, rounded down twice, still comes after the last byte. */
  predicate ReadRate(hz: nat) {
    hz > 0 && Us(hz, READ_END_US) * 1000000 >= (DATA_US + BYTE_US * TRACK_BYTES) * hz
  }

  /** A write's end, rounded down twice, still comes after the last byte. */
  predicate WriteRate(hz: nat) {
    hz > 0 && Us(hz, WRITE_END_US) * 1000000 >= (DATA_US + BYTE_US * (TRACK_BYTES - 1)) * hz
  }

  lemma QuotAtLeast(a: nat, b: nat, n: nat)
    requires b > 0
    ensures Quot(a, b) >= n <==> a >= n * b
  {
    QuotBounds(a, b);
    if Quot(a, b) >= n { MulMonotone(n, Quot(a, b), b); }
    else { MulMonotone(Quot(a, b) + 1, n, b); }
  }

  /** All 10,240 bytes come off the disk before a read ends exactly at these clock rates. */
  lemma ReadMovesAll(hz: nat)
    requires hz > 0
    ensures Arrived(hz, Us(hz, READ_END_US)) == TRACK_BYTES <==> ReadRate(hz)
  {
    hide Us;
    QuotAtLeast(Us(hz, READ_END_US) * 1000000, hz, DATA_US + BYTE_US * TRACK_BYTES);
  }

  /** The disk takes all 10,240 bytes before a write ends exactly at these clock rates. */
  lemma WriteMovesAll(hz: nat)
    requires hz > 0
    ensures Taken(hz, Us(hz, WRITE_END_US)) == TRACK_BYTES <==> WriteRate(hz)
  {
    hide Us;
    QuotAtLeast(Us(hz, WRITE_END_US) * 1000000, hz, DATA_US + BYTE_US * (TRACK_BYTES - 1));
  }

  /** `n` microseconds lose less than one T-state in the conversion. */
  lemma UsLoses(hz: nat, n: nat)
    requires hz > 0
    ensures Us(hz, n) * 1000000 > hz * n - 1000000
  {
    QuotBounds(hz * n, 1000000);
  }

  /** Every 8080 there ever was is fast enough: 31.25 kHz for reads. */
  lemma ReadRateFrom(hz: nat)
    requires hz >= 31250
    ensures ReadRate(hz)
  {
    hide Us;
    UsLoses(hz, READ_END_US);
    assert hz * READ_END_US - 32 * hz == (DATA_US + BYTE_US * TRACK_BYTES) * hz;
  }

  /** And 10.417 kHz for writes. */
  lemma WriteRateFrom(hz: nat)
    requires hz >= 10417
    ensures WriteRate(hz)
  {
    hide Us;
    UsLoses(hz, WRITE_END_US);
    assert hz * WRITE_END_US - 96 * hz == (DATA_US + BYTE_US * (TRACK_BYTES - 1)) * hz;
  }

  /** The bound for reads is nearly tight: at 31,083 Hz a read ends a byte short. */
  lemma SlowClockLosesAByte()
    ensures !ReadRate(31083) && !WriteRate(10277)
  {
    QuotIsDivision(31083 * READ_END_US, 1000000);
    QuotIsDivision(10277 * WRITE_END_US, 1000000);
  }

  // ---------------------------------------------------------------------------------------
  // While a transfer runs
  // ---------------------------------------------------------------------------------------

  /** The same transfer, whatever the head timers have done to the status lines. */
  predicate SameTransfer(c: Card, d: Card) {
    d == c.(status := d.status, move := d.move, settle := d.settle)
  }

  lemma HeadEventKeepsTransfer(c: Card, e: Event)
    requires Valid(c) && (e.Move? || e.Settle?) && Live(c, e)
    ensures SameTransfer(c, Handle(c, e)) && (Moving(c) ==> Moving(Handle(c, e)))
  {
    hide Us, DriveOk, BufferOk;
  }

  /** Until its end, only the head timers run beside a transfer. */
  lemma {:induction false} RunDuringTransfer(c: Card, t: nat)
    requires Valid(c) && Moving(c) && t < When(c, XferEnd)
    ensures SameTransfer(c, RunTo(c, t))
    decreases HolesLeft(c, t), Rank(c)
  {
    hide Handle, Valid, HolesLeft, Rank, When, Live, SameTransfer, Moving;
    Shape(c);
    if Next(c, t).Some? {
      var e := Next(c, t).value;
      BeforeTransferEnd(c, e, t);
      HandleValid(c, e, t);
      HandleDecreases(c, e, t);
      HeadEventKeepsTransfer(c, e);
      TransferKept(c, Handle(c, e));
      RunDuringTransfer(Handle(c, e), t);
      SameTransferTwice(c, Handle(c, e), RunTo(c, t));
    } else {
      SameTransferItself(c);
    }
  }

  lemma BeforeTransferEnd(c: Card, e: Event, t: nat)
    requires Valid(c) && Moving(c) && t < When(c, XferEnd) && Next(c, t) == Some(e)
    ensures (e.Move? || e.Settle?) && Live(c, e)
  {
    hide Us, Next;
    DuringTransfer(c, t);
  }

  lemma TransferKept(c: Card, d: Card)
    requires Valid(c) && Valid(d) && Moving(c) && SameTransfer(c, d)
    ensures Live(c, XferEnd) && Live(d, XferEnd) && |c.drives| == |d.drives| == DRIVES && c.sel < DRIVES && d.sel < DRIVES
    ensures Moving(d) && When(d, XferEnd) == When(c, XferEnd)
  {
    hide Us, BufferOk, DriveOk;
  }

  lemma Shape(c: Card)
    requires Valid(c)
    ensures |c.drives| == DRIVES && c.sel < DRIVES && c.hz > 0 && BufferOk(c.buf) && |c.buf.mem| == MEM
  {}

  /** At its end a transfer is as it was begun, the head timers apart. */
  lemma {:induction false} RunToTransferEnd(c: Card, t: nat) returns (d: Card)
    requires Valid(c) && Moving(c) && t >= When(c, XferEnd)
    ensures Valid(d) && Moving(d) && Live(d, XferEnd) && Valid(Handle(d, XferEnd))
    ensures SameTransfer(c, d) && RunTo(c, t) == RunTo(Handle(d, XferEnd), t)
    decreases HolesLeft(c, t), Rank(c)
  {
    hide Handle, Valid, HolesLeft, Rank, When, Live, SameTransfer, Moving;
    Shape(c);
    var e := DueInTransfer(c, t);
    HandleValid(c, e, t);
    TransferKept(c, c) by { SameTransferItself(c); }
    if e.XferEnd? {
      d := c;
      SameTransferItself(c);
    } else {
      HandleDecreases(c, e, t);
      HeadEventKeepsTransfer(c, e);
      TransferKept(c, Handle(c, e));
      d := RunToTransferEnd(Handle(c, e), t);
      SameTransferTwice(c, Handle(c, e), d);
    }
  }

  lemma DueInTransfer(c: Card, t: nat) returns (e: Event)
    requires Valid(c) && Moving(c) && t >= When(c, XferEnd)
    ensures Next(c, t) == Some(e) && (e.Move? || e.Settle? || e.XferEnd?) && Live(c, e)
  {
    hide Us, Next;
    Shape(c);
    assert Due(c, XferEnd, t) && !Quiet(c, t);
    DuringTransfer(c, t);
    e := Next(c, t).value;
  }

  // ---------------------------------------------------------------------------------------
  // A change of the CPU's clock during a transfer
  // ---------------------------------------------------------------------------------------

  /** How long after its hole the transfer in hand ends. */
  function EndUs(c: Card): nat { if c.phase.Reading? then READ_END_US else WRITE_END_US }

  /** The next hole was set at the old rate and the transfer's end is worked out at the new one: the end still
      comes no later than the hole if and only if it does by the two rates, and so whenever the clock is not
      raised. */
  lemma ReclockedEndsFirst(c: Card, hz: nat)
    requires Valid(c) && Moving(c) && hz > 0
    ensures var d := c.(hz := hz);
      && |d.drives| == DRIVES && d.sel < DRIVES && Live(d, XferEnd)
      && (When(d, XferEnd) <= d.nextHole <==> Us(hz, EndUs(c)) <= Us(c.hz, REV_US))
      && (hz <= c.hz ==> When(d, XferEnd) <= d.nextHole)
  {
    hide BufferOk, DriveOk, Us;
    if hz <= c.hz {
      UsByRate(hz, c.hz, EndUs(c));
      UsMonotone(c.hz, EndUs(c), REV_US);
    }
  }

  lemma UsByRate(slow: nat, fast: nat, n: nat)
    requires slow <= fast
    ensures Us(slow, n) <= Us(fast, n)
  {
    MulMonotone(slow, fast, n);
    QuotMonotone(slow * n, fast * n, 1000000);
  }

  /** A clock at least doubled always fails it; and then the hole, whose handler does not ask when it was due,
      finds the write not over, and begins a new turn instead: the window again, and nothing on any disk. */
  lemma DoubledClockMeetsHole(c: Card, hz: nat)
    requires Valid(c) && c.phase.Writing? && c.hz >= 7 && hz >= 2 * c.hz
    ensures Us(hz, WRITE_END_US) > Us(c.hz, REV_US)
    ensures Valid(c.(hz := hz, nextHole := c.holeAt + Us(hz, REV_US)))
    ensures var d := HoleAt(c.(hz := hz, nextHole := c.holeAt + Us(hz, REV_US)), c.nextHole);
      d.phase.Window? && d.drives == c.drives && d.writeFlag == c.writeFlag && d.ioStatus == c.ioStatus
  {
    hide BufferOk, DriveOk, Us;
    UsLoses(2 * c.hz, WRITE_END_US);
    UsByRate(2 * c.hz, hz, WRITE_END_US);
    UsAtMost(c.hz, REV_US);
  }

  lemma UsAtMost(hz: nat, n: nat)
    ensures Us(hz, n) * 1000000 <= hz * n || Us(hz, n) == 1
  {
    QuotBounds(hz * n, 1000000);
  }

  // ---------------------------------------------------------------------------------------
  // A track to the disk
  // ---------------------------------------------------------------------------------------

  /** The first `k` bytes of `b` are in the buffer, and those the disk has taken are `b`'s. */
  predicate Sent(buf: Buffer, b: seq<byte>, k: nat)
    requires BufferOk(buf) && |b| == TRACK_BYTES && k <= TRACK_BYTES
  {
    && buf.wr == BOOT + k && buf.done <= k
    && buf.mem[BOOT..BOOT + k] == b[..k]
    && buf.pending[..buf.done] == b[..buf.done]
  }

  lemma DrainSent(buf: Buffer, b: seq<byte>, k: nat, n: nat)
    requires BufferOk(buf) && |b| == TRACK_BYTES && n <= k <= TRACK_BYTES && Sent(buf, b, k)
    ensures Sent(Drain(buf, n), b, k)
  {
    var d := Drain(buf, n);
    if buf.done < n {
      forall i | 0 <= i < n
        ensures d.pending[i] == b[i]
      {
        if i < buf.done { assert buf.pending[..buf.done][i] == b[..buf.done][i]; }
        else { assert buf.mem[BOOT..BOOT + k][i] == b[..k][i]; }
      }
      assert d.pending[..n] == b[..n];
    }
  }

  lemma PutSent(buf: Buffer, b: seq<byte>, k: nat)
    requires BufferOk(buf) && |b| == TRACK_BYTES && k < TRACK_BYTES && Sent(buf, b, k)
    ensures var d := buf.(mem := buf.mem[buf.wr := b[k]], wr := buf.wr + 1); BufferOk(d) && Sent(d, b, k + 1)
  {
    var d := buf.(mem := buf.mem[buf.wr := b[k]], wr := buf.wr + 1);
    assert d.mem[BOOT..BOOT + k] == buf.mem[BOOT..BOOT + k];
    assert d.mem[BOOT..BOOT + k + 1] == d.mem[BOOT..BOOT + k] + [b[k]];
    assert b[..k + 1] == b[..k] + [b[k]];
  }

  /** The card is writing track `b`, and has been sent `k` bytes of it. */
  predicate Sending(c: Card, b: seq<byte>, k: nat) {
    Valid(c) && c.phase.Writing? && |b| == TRACK_BYTES && k <= TRACK_BYTES && Sent(c.buf, b, k)
  }

  /** The same write, to the same drive and track, of the same turn of the disk. */
  predicate SameWrite(c: Card, d: Card) {
    && d.hz == c.hz && d.drives == c.drives && d.sel == c.sel && d.xferTrack == c.xferTrack
    && d.holeAt == c.holeAt && d.spinFrom == c.spinFrom
  }

  /** In time: the disk has not come to byte `k` yet. */
  predicate InTime(c: Card, k: nat, t: nat)
    requires c.hz > 0
  {
    c.holeAt <= t && Taken(c.hz, t - c.holeAt) <= k
  }

  lemma StillWriting(c: Card, k: nat, t: nat)
    requires Valid(c) && c.phase.Writing? && WriteRate(c.hz) && k < TRACK_BYTES && InTime(c, k, t)
    ensures t < When(c, XferEnd)
  {
    hide Us, WriteRate, Elapsed, Taken;
    WriteMovesAll(c.hz);
    if t >= When(c, XferEnd) { ElapsedMonotone(c.hz, When(c, XferEnd) - c.holeAt, t - c.holeAt); }
  }

  lemma SendByte(c: Card, b: seq<byte>, k: nat, t: nat)
    requires Sending(c, b, k) && k < TRACK_BYTES && WriteRate(c.hz) && InTime(c, k, t) && c.spinFrom <= t
    ensures Valid(Advance(c, t)) && Advance(c, t).spinFrom <= t
    ensures var d := Access(Advance(c, t), Out(2, b[k]), t); Sending(d, b, k + 1) && SameWrite(c, d)
  {
    hide RunTo, Us, WriteRate, Taken, Sent, Drain, FillTo;
    StillWriting(c, k, t);
    RunDuringTransfer(c, t);
    RunToValid(c, t);
    AdvanceValid(c, t);
    var d := RunTo(c, t);
    DrainSent(c.buf, b, k, Taken(c.hz, t - c.holeAt));
    DrainToFrame(d, t);
    SentAt(Advance(c, t).buf, b, k);
    PutSent(Advance(c, t).buf, b, k);
    AccessValid(Advance(c, t), Out(2, b[k]), t);
  }

  lemma SentAt(buf: Buffer, b: seq<byte>, k: nat)
    requires BufferOk(buf) && |b| == TRACK_BYTES && k <= TRACK_BYTES && Sent(buf, b, k)
    ensures buf.wr == BOOT + k
  {}

  /** The `n`th OUT of a run comes at `times[n]`, in order and in time. */
  predicate SendTimes(c: Card, times: seq<nat>, k: nat)
    requires c.hz > 0
    decreases |times|
  {
    |times| == 0 || (c.spinFrom <= times[0] && InTime(c, k, times[0]) && SendTimes(c, times[1..], k + 1))
  }

  /** `b`, from byte `k` on, sent at `times`. */
  function SendAll(c: Card, b: seq<byte>, k: nat, times: seq<nat>): (c': Card)
    requires Sending(c, b, k) && WriteRate(c.hz) && k + |times| == TRACK_BYTES && SendTimes(c, times, k)
    ensures Sending(c', b, TRACK_BYTES) && SameWrite(c, c')
    decreases |times|
  {
    if |times| == 0 then c
    else
      SendByte(c, b, k, times[0]);
      var d := Access(Advance(c, times[0]), Out(2, b[k]), times[0]);
      SendTimesFrame(c, d, times[1..], k + 1);
      SendAll(d, b, k + 1, times[1..])
  }

  lemma {:induction false} SendTimesFrame(c: Card, d: Card, times: seq<nat>, k: nat)
    requires c.hz > 0 && SameWrite(c, d) && SendTimes(c, times, k)
    ensures SendTimes(d, times, k)
    decreases |times|
  {
    if |times| > 0 { SendTimesFrame(c, d, times[1..], k + 1); }
  }

  /** No write is under way and none is asked for. */
  predicate Disarmed(c: Card) {
    !c.writeFlag && !c.phase.Writing?
  }

  lemma DisarmedEvent(c: Card, e: Event)
    requires Valid(c) && Live(c, e) && Disarmed(c)
    ensures Disarmed(Handle(c, e)) && Handle(c, e).drives == c.drives
  {
    hide Us, DriveOk, TrackOf;
  }

  /** A disk changes only at the end of a write, and then by the whole track the disk took. */
  lemma OnlyWholeTracks(c: Card, e: Event, t: nat)
    requires Valid(c) && Next(c, t) == Some(e)
    ensures var d := Handle(c, e);
      d.drives == c.drives ||
      (e.XferEnd? && c.phase.Writing? && 0 <= c.sel < |c.drives| && |d.buf.pending| == TRACK_BYTES
       && d.drives == c.drives[c.sel := Commit(c.drives[c.sel], c.xferTrack, d.buf.pending)])
  {
    hide Us, DriveOk, TrackOf, Commit, Next, DrainTo;
    if e.XferEnd? && c.phase.Writing? {
      DrainToFrame(c, When(c, XferEnd));
    } else {
      OthersKeepDisks(c, e);
    }
  }

  lemma OthersKeepDisks(c: Card, e: Event)
    requires Valid(c) && Live(c, e) && !(e.XferEnd? && c.phase.Writing?)
    ensures Handle(c, e).drives == c.drives
  {
    hide Us, Valid, TrackOf, FillTo, FinishWrite;
    if e.XferEnd? { FillToKeeps(c, c.holeAt + Us(c.hz, READ_END_US)); }
  }

  /** Time alone changes no disk once no write is asked for. */
  lemma {:induction false} DisarmedRun(c: Card, t: nat)
    requires Valid(c) && Disarmed(c)
    ensures Disarmed(RunTo(c, t)) && RunTo(c, t).drives == c.drives
    decreases HolesLeft(c, t), Rank(c)
  {
    hide Handle, Rank, HolesLeft, Disarmed;
    if Next(c, t).Some? {
      var e := Next(c, t).value;
      HandleValid(c, e, t);
      HandleDecreases(c, e, t);
      DisarmedEvent(c, e);
      DisarmedRun(Handle(c, e), t);
    }
  }

  lemma DisarmedAdvance(c: Card, t: nat)
    requires Valid(c) && Disarmed(c)
    ensures Valid(Advance(c, t)) && Disarmed(Advance(c, t)) && Advance(c, t).drives == c.drives
  {
    RunToValid(c, t);
    AdvanceValid(c, t);
    DisarmedRun(c, t);
    hide RunTo;
    if RunTo(c, t).phase.Reading? { FillToValid(RunTo(c, t), t); }
  }

  lemma FinishSent(c: Card, b: seq<byte>)
    requires Sending(c, b, TRACK_BYTES) && WriteRate(c.hz) && c.sel >= 0
    ensures Valid(Handle(c, XferEnd)) && Disarmed(Handle(c, XferEnd))
    ensures Handle(c, XferEnd).drives == c.drives[c.sel := Commit(c.drives[c.sel], c.xferTrack, b)]
  {
    hide Us, WriteRate, Taken, Sent, Drain, Commit;
    FinishWriteValid(c);
    WriteMovesAll(c.hz);
    DrainSent(c.buf, b, TRACK_BYTES, TRACK_BYTES);
    WholeTrack(c.buf, b);
  }

  lemma WholeTrack(buf: Buffer, b: seq<byte>)
    requires BufferOk(buf) && |b| == TRACK_BYTES && Sent(buf, b, TRACK_BYTES)
    ensures Drain(buf, TRACK_BYTES).pending == b
  {
    DrainSent(buf, b, TRACK_BYTES, TRACK_BYTES);
    var d := Drain(buf, TRACK_BYTES);
    assert d.pending == d.pending[..d.done] && b == b[..d.done];
  }

  /** THE WRITE LANDS. Bytes put out in time -- the `k`th before the disk comes to byte `k` -- are,
      once the write's end has passed, the track in the image, and every other disk and every other
      track is as it was; or they are nowhere, if the disk will not take them. */
  lemma WriteLands(c: Card, b: seq<byte>, times: seq<nat>, t: nat)
    requires Sending(c, b, 0) && WriteRate(c.hz) && |times| == TRACK_BYTES && SendTimes(c, times, 0)
    requires c.sel >= 0 && t >= When(c, XferEnd)
    ensures var d := SendAll(c, b, 0, times);
      && Valid(Advance(d, t)) && Disarmed(Advance(d, t))
      && Advance(d, t).drives == c.drives[c.sel := Commit(c.drives[c.sel], c.xferTrack, b)]
  {
    hide SendAll, Us, RunTo, FillTo, DrainTo, Handle, Taken, WriteRate, Commit, Sent, Disarmed;
    var d := SendAll(c, b, 0, times);
    var e := RunToTransferEnd(d, t);
    FinishSent(e, b);
    var f := Handle(e, XferEnd);
    DisarmedAdvance(f, t);
    assert Advance(d, t) == Advance(f, t);
  }

  // ---------------------------------------------------------------------------------------
  // A track from the disk
  // ---------------------------------------------------------------------------------------

  /** The bytes of `track` that have arrived are in the buffer, and `j` INs have been made. */
  predicate Got(c: Card, track: seq<byte>, j: nat)
    requires BufferOk(c.buf) && |track| == TRACK_BYTES && j <= TRACK_BYTES
  {
    && c.buf.mem[BOOT..BOOT + c.buf.done] == track[..c.buf.done]
    && c.buf.rd == BOOT + j
    && (j > 0 ==> c.readData == track[j - 1])
  }

  /** `track` is coming off the disk, or has all come, this turn of the disk; `j` INs so far. */
  predicate Receiving(c: Card, track: seq<byte>, j: nat) {
    && Valid(c) && |track| == TRACK_BYTES && j <= TRACK_BYTES && Got(c, track, j)
    && (c.phase.Reading? || c.phase == Phase.Loop)
    && (c.phase.Reading? ==>
        !c.noSync && c.nextHole == c.holeAt + Us(c.hz, REV_US) && TrackOf(c.drives[c.sel].img.value, c.xferTrack) == track)
    && (c.phase == Phase.Loop ==> c.buf.done == TRACK_BYTES)
  }

  /** The turn the read belongs to. */
  predicate SameTurn(c: Card, d: Card) {
    d.hz == c.hz && d.holeAt == c.holeAt && d.nextHole == c.nextHole && d.spinFrom == c.spinFrom
  }

  lemma FillGot(buf: Buffer, track: seq<byte>, n: nat)
    requires BufferOk(buf) && |track| == TRACK_BYTES && n <= TRACK_BYTES
    requires buf.mem[BOOT..BOOT + buf.done] == track[..buf.done]
    ensures var d := Fill(buf, track, n);
      d.mem[BOOT..BOOT + d.done] == track[..d.done] && d.rd == buf.rd && d.done == if n <= buf.done then buf.done else n
  {
    var d := Fill(buf, track, n);
    if buf.done < n {
      assert d.mem[BOOT..BOOT + n] == buf.mem[BOOT..BOOT + buf.done] + track[buf.done..n];
    }
  }

  /** Between a read's end and the next hole, only the head timers run. */
  lemma {:induction false} RunInLoop(c: Card, t: nat)
    requires Valid(c) && c.phase == Phase.Loop && t < c.nextHole
    ensures SameTransfer(c, RunTo(c, t))
    decreases HolesLeft(c, t), Rank(c)
  {
    hide Handle, Valid, HolesLeft, Rank, When, Live, SameTransfer;
    Shape(c);
    if Next(c, t).Some? {
      var e := Next(c, t).value;
      InLoop(c, e, t);
      HandleValid(c, e, t);
      HandleDecreases(c, e, t);
      HeadEventKeepsTransfer(c, e);
      LoopKept(c, Handle(c, e));
      RunInLoop(Handle(c, e), t);
      SameTransferTwice(c, Handle(c, e), RunTo(c, t));
    } else {
      SameTransferItself(c);
    }
  }

  lemma LoopKept(c: Card, d: Card)
    requires SameTransfer(c, d)
    ensures d.phase == c.phase && d.nextHole == c.nextHole
  {}

  lemma SameTransferTwice(c: Card, d: Card, e: Card)
    requires SameTransfer(c, d) && SameTransfer(d, e)
    ensures SameTransfer(c, e)
  {}

  lemma SameTransferItself(c: Card)
    ensures SameTransfer(c, c)
  {}

  lemma InLoop(c: Card, e: Event, t: nat)
    requires Valid(c) && c.phase == Phase.Loop && t < c.nextHole && Next(c, t) == Some(e)
    ensures e.Move? || e.Settle?
  {}

  lemma ReadingAdvance(c: Card, track: seq<byte>, j: nat, t: nat)
    requires Receiving(c, track, j) && c.phase.Reading? && t < When(c, XferEnd) && c.holeAt <= t
    ensures var d := Advance(c, t);
      Receiving(d, track, j) && SameTurn(c, d) && d.readData == c.readData && d.buf.done >= Arrived(c.hz, t - c.holeAt)
  {
    hide RunTo, Us, Fill, DrainTo;
    RunToValid(c, t);
    AdvanceValid(c, t);
    RunDuringTransfer(c, t);
    FillGot(c.buf, track, Arrived(c.hz, t - c.holeAt));
    if Elapsed(c.hz, t - c.holeAt) < DATA_US { ArrivedMeans(c.hz, t - c.holeAt); }
    FillGot(c.buf, track, 0);
  }

  lemma ArrivedMeans(hz: nat, dt: nat)
    requires hz > 0 && Elapsed(hz, dt) < DATA_US
    ensures Arrived(hz, dt) == 0
  {}

  lemma ReadEnds(c: Card, track: seq<byte>, j: nat)
    requires Receiving(c, track, j) && c.phase.Reading? && ReadRate(c.hz)
    ensures var d := Handle(c, XferEnd);
      Receiving(d, track, j) && d.phase == Phase.Loop && SameTurn(c, d) && d.readData == c.readData
  {
    hide Us, Fill, Arrived, ReadRate;
    FillToValid(c, When(c, XferEnd));
    ReadMovesAll(c.hz);
    FillGot(c.buf, track, TRACK_BYTES);
    if Elapsed(c.hz, Us(c.hz, READ_END_US)) < DATA_US { ArrivedMeans(c.hz, Us(c.hz, READ_END_US)); }
  }

  lemma ReceivingSame(c: Card, d: Card, track: seq<byte>, j: nat)
    requires Receiving(c, track, j) && SameTransfer(c, d) && Valid(d)
    ensures Receiving(d, track, j) && SameTurn(c, d) && d.readData == c.readData
  {
    hide Us;
  }

  lemma LoopAdvance(c: Card, track: seq<byte>, j: nat, t: nat)
    requires Receiving(c, track, j) && c.phase == Phase.Loop && t < c.nextHole
    ensures var d := Advance(c, t);
      Receiving(d, track, j) && SameTurn(c, d) && d.readData == c.readData && d.buf.done == TRACK_BYTES
  {
    hide RunTo, Us, FillTo, DrainTo, Receiving;
    ReceivingMeans(c, track, j);
    RunToValid(c, t);
    AdvanceValid(c, t);
    RunInLoop(c, t);
    ReceivingSame(c, RunTo(c, t), track, j);
  }

  lemma ReceivingMeans(c: Card, track: seq<byte>, j: nat)
    requires Receiving(c, track, j)
    ensures Valid(c) && (c.phase == Phase.Loop ==> c.buf.done == TRACK_BYTES) && (c.phase.Reading? ==> Moving(c))
    ensures (c.phase.Reading? || c.phase == Phase.Loop) && |track| == TRACK_BYTES && j <= TRACK_BYTES
  {}

  /** However far a read has gone, running the card to `t` brings in every byte due by then. */
  lemma ReceivingAdvance(c: Card, track: seq<byte>, j: nat, t: nat)
    requires Receiving(c, track, j) && ReadRate(c.hz) && c.holeAt <= t < c.nextHole
    ensures var d := Advance(c, t);
      Receiving(d, track, j) && SameTurn(c, d) && d.readData == c.readData && d.buf.done >= Arrived(c.hz, t - c.holeAt)
  {
    hide RunTo, Us, FillTo, DrainTo, Receiving, Arrived, ReadRate, Handle;
    ReceivingMeans(c, track, j);
    if c.phase == Phase.Loop { LoopAdvance(c, track, j, t); }
    else if t < When(c, XferEnd) { ReadingAdvance(c, track, j, t); }
    else {
      var d := RunToTransferEnd(c, t);
      ReceivingSame(c, d, track, j);
      ReadEnds(d, track, j);
      LoopAdvance(Handle(d, XferEnd), track, j, t);
    }
  }

  /** An IN for byte `j` after it has arrived -- after the last, any time -- within the turn. */
  predicate TakeTimes(c: Card, times: seq<nat>, j: nat)
    requires c.hz > 0
    decreases |times|
  {
    |times| == 0 ||
    (&& c.spinFrom <= times[0] && c.holeAt <= times[0] < c.nextHole
     && (j < TRACK_BYTES ==> Arrived(c.hz, times[0] - c.holeAt) > j)
     && TakeTimes(c, times[1..], j + 1))
  }

  lemma {:induction false} TakeTimesFrame(c: Card, d: Card, times: seq<nat>, j: nat)
    requires c.hz > 0 && SameTurn(c, d) && TakeTimes(c, times, j)
    ensures TakeTimes(d, times, j)
    decreases |times|
  {
    if |times| > 0 { TakeTimesFrame(c, d, times[1..], j + 1); }
  }

  lemma GotNext(c: Card, track: seq<byte>, j: nat)
    requires Receiving(c, track, j) && j < TRACK_BYTES && c.buf.done > j && Valid(TakeByte(c))
    ensures Receiving(TakeByte(c), track, j + 1) && SameTurn(c, TakeByte(c)) && TakeByte(c).readData == track[j]
  {
    hide Us, DriveOk;
    assert c.buf.mem[BOOT..BOOT + c.buf.done][j] == track[..c.buf.done][j];
  }

  /** One IN of the data port: what waited comes out, and byte `j` waits. */
  lemma TakeOne(c: Card, track: seq<byte>, j: nat, t: nat)
    requires Receiving(c, track, j) && ReadRate(c.hz) && c.spinFrom <= t && c.holeAt <= t < c.nextHole
    requires j < TRACK_BYTES && Arrived(c.hz, t - c.holeAt) > j
    ensures Valid(Advance(c, t)) && Advance(c, t).spinFrom <= t
    ensures var d := Access(Advance(c, t), In(2), t);
      && Value(Advance(c, t), 2) == c.readData
      && Receiving(d, track, j + 1) && SameTurn(c, d) && d.readData == track[j]
  {
    hide Advance, Us, ReadRate, Arrived, Receiving, TakeByte;
    ReceivingMeans(c, track, j);
    AdvanceValid(c, t);
    ReceivingAdvance(c, track, j, t);
    ReceivingMeans(Advance(c, t), track, j);
    BytesValid(Advance(c, t), 0);
    GotNext(Advance(c, t), track, j);
  }

  /** What INs of the data port at `times` return. */
  function TakeAll(c: Card, track: seq<byte>, j: nat, times: seq<nat>): (r: seq<byte>)
    requires Receiving(c, track, j) && ReadRate(c.hz) && TakeTimes(c, times, j) && |times| + j == TRACK_BYTES + 1
    ensures r == [c.readData] + track[j..]
    decreases |times|
  {
    TakeNext(c, track, j, times);
    var v := Value(Advance(c, times[0]), 2);
    if |times| == 1 then [v]
    else [v] + TakeAll(Access(Advance(c, times[0]), In(2), times[0]), track, j + 1, times[1..])
  }

  /** The first of the INs, and what is left for the rest. */
  lemma TakeNext(c: Card, track: seq<byte>, j: nat, times: seq<nat>)
    requires Receiving(c, track, j) && ReadRate(c.hz) && TakeTimes(c, times, j) && |times| + j == TRACK_BYTES + 1
    ensures Valid(c) && Valid(Advance(c, times[0])) && Advance(c, times[0]).spinFrom <= times[0]
    ensures Value(Advance(c, times[0]), 2) == c.readData && |track| == TRACK_BYTES && j <= TRACK_BYTES
    ensures |times| == 1 ==> [c.readData] + track[j..] == [c.readData]
    ensures var d := Access(Advance(c, times[0]), In(2), times[0]);
      |times| > 1 ==> j < TRACK_BYTES && Receiving(d, track, j + 1) && ReadRate(d.hz) && TakeTimes(d, times[1..], j + 1)
                      && [d.readData] + track[j + 1..] == track[j..]
  {
    hide Advance, Us, ReadRate, Arrived, Receiving, TakeByte;
    ReceivingMeans(c, track, j);
    AdvanceValid(c, times[0]);
    AdvanceKeepsSpin(c, times[0]);
    ReceivingAdvance(c, track, j, times[0]);
    if |times| > 1 {
      TakeOne(c, track, j, times[0]);
      TakeTimesFrame(c, Access(Advance(c, times[0]), In(2), times[0]), times[1..], j + 1);
      assert [track[j]] + track[j + 1..] == track[j..];
    }
  }

  // ---------------------------------------------------------------------------------------
  // There and back, as runs of port accesses
  // ---------------------------------------------------------------------------------------

  predicate Ordered(times: seq<nat>, from: nat) {
    |times| == 0 || (from <= times[0] && Ordered(times[1..], times[0]))
  }

  /** OUTs of `b` to the data port, from byte `k` on. */
  function Outs(b: seq<byte>, k: nat, times: seq<nat>): (vs: seq<Visit>)
    requires k + |times| <= |b|
    decreases |times|
  {
    if |times| == 0 then [] else [Visit(times[0], Out(2, b[k]))] + Outs(b, k + 1, times[1..])
  }

  function Ins(times: seq<nat>): (vs: seq<Visit>) {
    if |times| == 0 then [] else [Visit(times[0], In(2))] + Ins(times[1..])
  }

  lemma {:induction false} OutsInOrder(b: seq<byte>, k: nat, times: seq<nat>, from: nat)
    requires k + |times| <= |b| && Ordered(times, from)
    ensures InOrder(Outs(b, k, times), from)
    decreases |times|
  {
    if |times| > 0 {
      assert Outs(b, k, times)[1..] == Outs(b, k + 1, times[1..]);
      OutsInOrder(b, k + 1, times[1..], times[0]);
    }
  }

  lemma {:induction false} InsInOrder(times: seq<nat>, from: nat)
    requires Ordered(times, from)
    ensures InOrder(Ins(times), from)
    decreases |times|
  {
    if |times| > 0 {
      assert Ins(times)[1..] == Ins(times[1..]);
      InsInOrder(times[1..], times[0]);
    }
  }

  lemma {:induction false} SendAllIsRun(c: Card, b: seq<byte>, k: nat, times: seq<nat>)
    requires Sending(c, b, k) && WriteRate(c.hz) && k + |times| == TRACK_BYTES && SendTimes(c, times, k)
    requires |b| == TRACK_BYTES && InOrder(Outs(b, k, times), c.spinFrom)
    ensures Play(c, Outs(b, k, times)) == SendAll(c, b, k, times)
    decreases |times|
  {
    hide Advance, Access, WriteRate, InTime, Sending;
    if |times| > 0 {
      SendByteHere(c, b, k, times);
      var d := Call(c, Visit(times[0], Out(2, b[k])));
      assert Outs(b, k, times)[1..] == Outs(b, k + 1, times[1..]);
      InOrderFrom(Outs(b, k + 1, times[1..]), d.spinFrom, times[0]);
      SendTimesFrame(c, d, times[1..], k + 1);
      SendAllIsRun(d, b, k + 1, times[1..]);
    }
  }

  lemma SendByteHere(c: Card, b: seq<byte>, k: nat, times: seq<nat>)
    requires Sending(c, b, k) && WriteRate(c.hz) && k < TRACK_BYTES && |times| > 0 && SendTimes(c, times, k)
    ensures c.spinFrom <= times[0] && Valid(c)
    ensures var d := Call(c, Visit(times[0], Out(2, b[k])));
      && SendTimes(c, times[1..], k + 1) && Sending(d, b, k + 1) && SameWrite(c, d)
      && Valid(Advance(c, times[0])) && Advance(c, times[0]).spinFrom <= times[0]
      && d == Access(Advance(c, times[0]), Out(2, b[k]), times[0])
  {
    hide Advance, Access, WriteRate;
    SendByte(c, b, k, times[0]);
  }

  lemma {:induction false} TakeAllIsRun(c: Card, track: seq<byte>, j: nat, times: seq<nat>)
    requires Receiving(c, track, j) && ReadRate(c.hz) && TakeTimes(c, times, j) && |times| + j == TRACK_BYTES + 1
    requires InOrder(Ins(times), c.spinFrom)
    ensures Returns(c, Ins(times)) == TakeAll(c, track, j, times)
    decreases |times|
  {
    hide Advance, Access, ReadRate, Receiving, Arrived;
    ReceivingMeans(c, track, j);
    assert Ins(times)[1..] == Ins(times[1..]);
    var d := Call(c, Visit(times[0], In(2)));
    InOrderFrom(Ins(times[1..]), d.spinFrom, times[0]);
    if |times| > 1 {
      TakeOne(c, track, j, times[0]);
      TakeTimesFrame(c, d, times[1..], j + 1);
      TakeAllIsRun(d, track, j + 1, times[1..]);
    }
  }

  /** An OUT of the command port that is a write enable. */
  predicate Enables(op: Op) {
    op.Out? && op.port == 1 && op.value % 16 == 0 && !Bit(op.value, 0x10) && Bit(op.value, 0x80)
  }

  predicate SameDisks(c: Card, d: Card)
    requires |c.drives| == |d.drives| == DRIVES
  {
    forall i :: 0 <= i < DRIVES ==> d.drives[i].img == c.drives[i].img
  }

  lemma DisarmedStep(c: Card, out: bool, now: nat)
    requires Valid(c) && c.sel >= 0 && Disarmed(c)
    ensures var d := Step(c, out, now); Disarmed(d) && |d.drives| == DRIVES && SameDisks(c, d)
  {
    hide Us, BufferOk, DriveOk;
  }

  lemma DisarmedHead(c: Card, now: nat)
    requires Valid(c) && c.spinFrom <= now && Disarmed(c)
    ensures Disarmed(HeadLoad(c, now)) && HeadLoad(c, now).drives == c.drives
    ensures Disarmed(HeadUnload(c)) && Disarmed(ReadEnable(c))
  {
    hide Us, BufferOk, DriveOk, Quot;
  }

  lemma DisarmedCommand(c: Card, v: byte, now: nat)
    requires Valid(c) && c.spinFrom <= now && Disarmed(c) && !Enables(Out(1, v))
    ensures var d := Command(c, v, now); Disarmed(d) && |d.drives| == DRIVES && SameDisks(c, d)
  {
    hide Step, HeadLoad, WriteEnable, Disarmed, Us, Quot, BufferOk, DriveOk;
    DisarmedHead(c, now);
    CommandBits(v);
    if !c.status.ready { DisarmedStep(c, Bit(v, 2), now); }
  }

  lemma DisarmedSelect(c: Card, v: byte, now: nat)
    requires Valid(c) && c.spinFrom <= now && Disarmed(c)
    ensures Disarmed(Select(c, v, now)) && Select(c, v, now).drives == c.drives
  {
    hide Us, BufferOk, DriveOk, Quot;
  }

  /** Nothing but a write enable arms the card, and no access writes a disk. */
  lemma DisarmedAccess(c: Card, op: Op, now: nat)
    requires Valid(c) && c.spinFrom <= now && Disarmed(c) && !Enables(op)
    ensures var d := Access(c, op, now); Disarmed(d) && |d.drives| == DRIVES && SameDisks(c, d)
  {
    hide Valid, Disarmed, SameDisks, Enables, Command, Select, TakeByte, PutByte;
    Shape(c);
    DisarmedBytes(c, op);
    if op.Out? && op.port == 0 { DisarmedSelect(c, op.value, now); }
    if op.Out? && op.port == 1 { DisarmedCommand(c, op.value, now); }
  }

  lemma DisarmedBytes(c: Card, op: Op)
    requires |c.buf.mem| == MEM && |c.drives| == DRIVES && Disarmed(c)
    ensures Disarmed(TakeByte(c)) && TakeByte(c).drives == c.drives && SameDisks(c, c)
    ensures op.Out? ==> Disarmed(PutByte(c, op.value)) && PutByte(c, op.value).drives == c.drives
    ensures op.Out? ==> Disarmed(c.(curTrack := op.value))
    ensures forall d: Card :: d.drives == c.drives ==> SameDisks(c, d)
  {}

  lemma DisarmedCall(c: Card, v: Visit)
    requires Valid(c) && c.spinFrom <= v.when && Disarmed(c) && !Enables(v.op)
    ensures var d := Call(c, v); Disarmed(d) && |c.drives| == |d.drives| == DRIVES && SameDisks(c, d)
  {
    hide Advance, Access, Disarmed;
    Shape(c);
    AdvanceKeepsSpin(c, v.when);
    DisarmedAdvance(c, v.when);
    DisarmedAccess(Advance(c, v.when), v.op, v.when);
  }

  /** A run with no write enable in it leaves every disk as it was. */
  lemma {:induction false} DisarmedPlay(c: Card, vs: seq<Visit>)
    requires Valid(c) && InOrder(vs, c.spinFrom) && Disarmed(c)
    requires forall i :: 0 <= i < |vs| ==> !Enables(vs[i].op)
    ensures var d := Play(c, vs); |c.drives| == |d.drives| == DRIVES && SameDisks(c, d)
    decreases |vs|
  {
    hide Call, Disarmed, Enables;
    Shape(c);
    if |vs| > 0 {
      DisarmedCall(c, vs[0]);
      var d := Call(c, vs[0]);
      InOrderFrom(vs[1..], d.spinFrom, vs[0].when);
      DisarmedPlay(d, vs[1..]);
    }
  }

  /** The disk in drive `d` will take track `t`. */
  predicate Takes(d: Drive, t: int) {
    t >= 0 && d.img.Some? && !d.img.value.readOnly
    && ((t + 1) * TRACK_BYTES <= |d.img.value.bytes| || d.img.value.resizable)
  }

  lemma Committed(d: Drive, t: nat, b: seq<byte>)
    requires |b| == TRACK_BYTES && Takes(d, t)
    ensures var img := Commit(d, t, b).img;
      img.Some? && (t + 1) * TRACK_BYTES <= |img.value.bytes| && TrackOf(img.value, t) == b
  {}

  /** OUTs of `b` at `outs`, from the start of a write, each before the disk comes to its byte. */
  predicate WritesInTime(c: Card, b: seq<byte>, outs: seq<nat>) {
    Sending(c, b, 0) && c.sel >= 0 && WriteRate(c.hz)
    && |outs| == TRACK_BYTES && SendTimes(c, outs, 0) && Ordered(outs, c.spinFrom)
  }

  /** INs at `ins`, from the start of a read of drive `d`'s track `t`, each after its byte arrives. */
  predicate ReadsInTime(c: Card, d: nat, t: nat, ins: seq<nat>) {
    && Valid(c) && c.phase.Reading? && !c.noSync && c.sel == d && c.xferTrack == t
    && Receiving(c, TrackOf(c.drives[d].img.value, t), 0)
    && ReadRate(c.hz) && TakeTimes(c, ins, 0) && Ordered(ins, c.spinFrom) && |ins| == TRACK_BYTES + 1
  }

  /** A run with no write enable in it. */
  predicate NoWrites(vs: seq<Visit>) {
    forall i :: 0 <= i < |vs| ==> !Enables(vs[i].op)
  }

  /** The rest of a run that began with OUTs in time, its first access past the write's end. */
  lemma AfterWrite(c: Card, b: seq<byte>, outs: seq<nat>, later: seq<Visit>)
    requires WritesInTime(c, b, outs)
    requires |later| > 0 && later[0].when >= When(c, XferEnd) && NoWrites(later)
    requires InOrder(later, SendAll(c, b, 0, outs).spinFrom)
    ensures var r := Play(SendAll(c, b, 0, outs), later);
      && |r.drives| == |c.drives| == DRIVES && c.sel < DRIVES
      && r.drives[c.sel].img == Commit(c.drives[c.sel], c.xferTrack, b).img
  {
    hide SendAll, Advance, Access, Commit, Disarmed, WriteRate, Enables, Sent;
    Shape(c);
    WriteLands(c, b, outs, later[0].when);
    var d := SendAll(c, b, 0, outs);
    var e := Advance(d, later[0].when);
    AdvanceKeepsSpin(d, later[0].when);
    DisarmedAccess(e, later[0].op, later[0].when);
    var f := Call(d, later[0]);
    InOrderFrom(later[1..], f.spinFrom, later[0].when);
    DisarmedPlay(f, later[1..]);
  }

  lemma WritesAreRun(c: Card, b: seq<byte>, outs: seq<nat>)
    requires WritesInTime(c, b, outs)
    ensures |b| == |outs| == TRACK_BYTES && Valid(c) && c.phase.Writing? && InOrder(Outs(b, 0, outs), c.spinFrom)
    ensures Play(c, Outs(b, 0, outs)) == SendAll(c, b, 0, outs)
  {
    hide SendAll, Play, WriteRate, Sent;
    OutsInOrder(b, 0, outs, c.spinFrom);
    SendAllIsRun(c, b, 0, outs);
  }

  lemma ReadsReturn(c: Card, d: nat, t: nat, ins: seq<nat>)
    requires ReadsInTime(c, d, t, ins)
    ensures Valid(c) && InOrder(Ins(ins), c.spinFrom) && Formatted(c, t) && c.sel == d
    ensures Returns(c, Ins(ins)) == [c.readData] + TrackOf(c.drives[d].img.value, t)
  {
    hide Returns, ReadRate, Got, TrackOf, Us;
    var track := TrackOf(c.drives[d].img.value, t);
    InsInOrder(ins, c.spinFrom);
    TakeAllIsRun(c, track, 0, ins);
    assert track[0..] == track;
  }

  /** THERE AND BACK. A guest that puts out `b` in time, and at any later moment of a run with no
      other write in it reads that track of that disk, taking each byte after it arrives, is given
      one stale byte and then `b`. */
  lemma RoundTrip(c: Card, b: seq<byte>, outs: seq<nat>, d: Card, later: seq<Visit>, r: Card, ins: seq<nat>)
    requires WritesInTime(c, b, outs) && 0 <= c.sel < |c.drives| && Takes(c.drives[c.sel], c.xferTrack)
    requires InOrder(Outs(b, 0, outs), c.spinFrom) && d == Play(c, Outs(b, 0, outs))
    requires |later| > 0 && later[0].when >= When(c, XferEnd) && NoWrites(later)
    requires InOrder(later, d.spinFrom) && r == Play(d, later)
    requires ReadsInTime(r, c.sel, c.xferTrack, ins)
    ensures InOrder(Ins(ins), r.spinFrom) && Returns(r, Ins(ins)) == [r.readData] + b
  {
    hide SendAll, Play, Returns, WritesInTime, ReadsInTime, NoWrites, Commit, TrackOf;
    WritesAreRun(c, b, outs);
    AfterWrite(c, b, outs, later);
    Committed(c.drives[c.sel], c.xferTrack, b);
    ReadsReturn(r, c.sel, c.xferTrack, ins);
  }
}
