/** The command bytes that begin a transfer, up to the states FdcPlusHdfTransfer starts from. */
module FdcPlusHdfCommands {
  import opened Arithmetic
  import opened Basics
  import opened FdcPlusHdfModel
  import opened FdcPlusHdfTime
  import opened FdcPlusHdfPorts
  import opened FdcPlusHdfTransfer

  /** The same window after the same hole, whatever the timers have done to the lines. */
  predicate SameWindow(c: Card, d: Card) {
    d == c.(status := d.status, sectorPos := d.sectorPos, move := d.move, settle := d.settle, sectorTrue := d.sectorTrue)
  }

  lemma InWindow(c: Card, e: Event, t: nat)
    requires Valid(c) && c.phase.Window? && Next(c, t) == Some(e)
    ensures e.Move? || e.Settle? || e.TrueEnd? || e.WindowEnd?
    ensures !e.WindowEnd? ==> SameWindow(c, Handle(c, e))
  {
    hide Us, DriveOk, Next;
    if e.Hole? { HoleFindsNoTransfer(c, t); }
  }

  /** At its end a window is as it was, and sector true is over. */
  lemma {:induction false} RunToWindowEnd(c: Card, t: nat) returns (d: Card)
    requires Valid(c) && c.phase.Window? && t >= When(c, WindowEnd)
    ensures Valid(d) && Live(d, WindowEnd) && SameWindow(c, d) && d.sectorTrue.Stopped? && Valid(Handle(d, WindowEnd))
    ensures RunTo(c, t) == RunTo(Handle(d, WindowEnd), t)
    decreases HolesLeft(c, t), Rank(c)
  {
    hide Handle, Valid, HolesLeft, Rank;
    Shape(c);
    assert Due(c, WindowEnd, t) && !Quiet(c, t);
    var e := Next(c, t).value;
    InWindow(c, e, t);
    HandleValid(c, e, t);
    if e.WindowEnd? {
      WindowFindsSectorTrueOver(c, t);
      d := c;
    } else {
      HandleDecreases(c, e, t);
      d := RunToWindowEnd(Handle(c, e), t);
    }
  }

  /** The card is at the head of a write of the track under it. */
  predicate WriteBegun(c: Card, d: Card, b: seq<byte>) {
    && Sending(d, b, 0) && Valid(c) && d.xferTrack == HeadTrack(c)
    && d.hz == c.hz && d.drives == c.drives && d.sel == c.sel && d.holeAt == c.holeAt && d.spinFrom == c.spinFrom
  }

  lemma StartSends(c: Card, b: seq<byte>)
    requires Valid(c) && |b| == TRACK_BYTES && Valid(StartWrite(c))
    ensures WriteBegun(c, StartWrite(c), b)
  {
    hide Us, DriveOk;
    assert b[..0] == [] && StartWrite(c).buf.mem[BOOT..BOOT] == [] && StartWrite(c).buf.pending[..0] == [];
  }

  /** WRITE ENABLE, 80H, in the window and past sector true: the write starts there and then. */
  lemma WriteEnableStarts(c: Card, b: seq<byte>, t: nat)
    requires Valid(c) && c.spinFrom <= t && |b| == TRACK_BYTES
    requires var a := Advance(c, t); a.phase.Window? && !a.status.ready && t >= a.holeAt + Us(a.hz, SEC_TRUE_US)
    ensures WriteBegun(Advance(c, t), Call(c, Visit(t, Out(1, 0x80))), b)
  {
    hide Advance, Us, Sending, Sent;
    AdvanceValid(c, t);
    AdvanceKeepsSpin(c, t);
    var a := Advance(c, t);
    AccessValid(a, Out(1, 0x80), t);
    var a1 := a.(writeFlag := true, status := a.status.(enwd := true));
    ArmedValid(a);
    StartSends(a1, b);
  }

  lemma ArmedValid(c: Card)
    requires Valid(c)
    ensures Valid(c.(writeFlag := true, status := c.status.(enwd := true)))
    ensures HeadTrack(c.(writeFlag := true, status := c.status.(enwd := true))) == HeadTrack(c)
  {
    hide Us, DriveOk;
  }

  /** Given before sector true is over -- or in the turn before -- it waits, and the write starts when sector
      true ends. */
  lemma WaitingWriteStarts(c: Card, b: seq<byte>, t: nat)
    requires Valid(c) && c.phase.Window? && c.writeFlag && |b| == TRACK_BYTES && WriteRate(c.hz)
    requires t >= When(c, WindowEnd) && InTime(c, 0, t)
    ensures WriteBegun(c, Advance(c, t), b)
  {
    hide RunTo, Us, WriteRate, Taken, Drain, FillTo, Sent, Valid;
    Shape(c);
    var d := RunToWindowEnd(c, t);
    SameWindowMeans(c, d);
    var e := Handle(d, WindowEnd);
    StartSends(d, b);
    StillWriting(e, 0, t);
    RunDuringTransfer(e, t);
    RunToValid(e, t);
    AdvanceValid(c, t);
    var f := RunTo(e, t);
    DrainSent(f.buf, b, 0, 0);
    DrainNone(f.buf);
    BegunStays(c, e, f, b);
  }

  lemma SameWindowMeans(c: Card, d: Card)
    requires SameWindow(c, d) && |c.drives| == DRIVES && c.sel < DRIVES
    ensures d.hz == c.hz && d.drives == c.drives && d.sel == c.sel && d.holeAt == c.holeAt && d.spinFrom == c.spinFrom
    ensures d.writeFlag == c.writeFlag && d.readFlag == c.readFlag && d.phase == c.phase && HeadTrack(d) == HeadTrack(c)
    ensures d.nextHole == c.nextHole && d.readData == c.readData
  {}

  lemma DrainNone(buf: Buffer)
    requires BufferOk(buf)
    ensures Drain(buf, 0) == buf
  {}

  lemma BegunStays(c: Card, e: Card, f: Card, b: seq<byte>)
    requires WriteBegun(c, e, b) && SameTransfer(e, f) && Valid(f)
    ensures WriteBegun(c, f, b)
  {
    hide Us, DriveOk;
  }

  /** The card is in the turn of a read of the track under the head; and until the read's end, at it. */
  predicate ReadBegun(c: Card, d: Card, u: nat)
    requires |c.drives| == DRIVES && c.sel < DRIVES
  {
    && d.holeAt == c.holeAt && d.nextHole == c.nextHole && d.hz == c.hz && d.spinFrom == c.spinFrom
    && (u < c.holeAt + Us(c.hz, READ_END_US) ==>
          d.phase.Reading? && !d.noSync && d.sel == c.sel && d.xferTrack == HeadTrack(c) && d.drives == c.drives)
  }

  lemma ReadStarts(c: Card)
    requires Valid(c) && c.phase.Window? && c.readFlag && Formatted(c, HeadTrack(c)) && Valid(StartRead(c))
    ensures var d, img := StartRead(c), c.drives[c.sel].img.value;
      d.phase.Reading? && !d.noSync && d.xferTrack == HeadTrack(c) && Receiving(d, TrackOf(img, HeadTrack(c)), 0)
  {
    hide Us, DriveOk;
    var d, track := StartRead(c), TrackOf(c.drives[c.sel].img.value, HeadTrack(c));
    assert d.buf.mem[BOOT..BOOT] == track[..0];
  }

  /** READ ENABLE, 10H, in the window of a formatted track, no write asked for: from the window's end the
      track under the head is coming off the disk, and what it has brought by `u` is in the buffer. */
  lemma ReadEnableStarts(c: Card, t: nat, u: nat)
    requires Valid(c) && c.spinFrom <= t <= u
    requires var a := Advance(c, t);
      && a.phase.Window? && !a.status.ready && !a.writeFlag && |a.drives| == DRIVES && a.sel < DRIVES
      && Formatted(a, HeadTrack(a)) && ReadRate(a.hz) && a.holeAt + Us(a.hz, READ_CLEAR_US) <= u < a.nextHole
    ensures var a, d := Advance(c, t), Advance(Call(c, Visit(t, Out(1, 0x10))), u);
      && Receiving(d, TrackOf(a.drives[a.sel].img.value, HeadTrack(a)), 0) && ReadBegun(a, d, u)
  {
    hide Advance, Us, Receiving, ReadRate, TrackOf, Valid;
    AdvanceValid(c, t);
    AdvanceKeepsSpin(c, t);
    var a := Advance(c, t);
    AccessValid(a, Out(1, 0x10), t);
    var f := ReadEnable(a);
    assert HeadTrack(f) == HeadTrack(a);
    WindowReads(f, u);
  }

  lemma WindowReads(c: Card, u: nat)
    requires Valid(c) && c.phase.Window? && c.readFlag && !c.writeFlag && Formatted(c, HeadTrack(c)) && ReadRate(c.hz)
    requires c.holeAt + Us(c.hz, READ_CLEAR_US) <= u < c.nextHole
    ensures var d := Advance(c, u);
      && Receiving(d, TrackOf(c.drives[c.sel].img.value, HeadTrack(c)), 0) && ReadBegun(c, d, u)
  {
    hide RunTo, Us, Receiving, ReadRate, TrackOf, Valid, FillTo, DrainTo, Catch;
    Shape(c);
    var d := RunToWindowEnd(c, u);
    SameWindowMeans(c, d);
    var e := Handle(d, WindowEnd);
    ReadStarts(d);
    assert Advance(c, u) == Advance(e, u);
    ReceivingAdvance(e, TrackOf(c.drives[c.sel].img.value, HeadTrack(c)), 0, u);
    if u < When(e, XferEnd) { StillReading(e, u); }
  }

  lemma StillReading(c: Card, u: nat)
    requires Valid(c) && c.phase.Reading? && !c.noSync && u < When(c, XferEnd)
    ensures var d := Advance(c, u);
      d.phase.Reading? && !d.noSync && d.sel == c.sel && d.xferTrack == c.xferTrack && d.drives == c.drives
  {
    hide RunTo, Us, Valid, FillTo, DrainTo;
    RunDuringTransfer(c, u);
    RunToValid(c, u);
    FillToKeeps(RunTo(c, u), u);
  }

  // ---------------------------------------------------------------------------------------
  // There and back, from the command bytes
  // ---------------------------------------------------------------------------------------

  lemma {:induction false} PlayTwo(c: Card, vs: seq<Visit>, x: Visit, y: Visit)
    requires Valid(c) && InOrder(vs + [x, y], c.spinFrom)
    ensures InOrder(vs, c.spinFrom) && Play(c, vs).spinFrom <= x.when
    ensures Call(Play(c, vs), x).spinFrom <= y.when && Play(c, vs + [x, y]) == Call(Call(Play(c, vs), x), y)
    decreases |vs|
  {
    hide Call, Valid;
    var all := vs + [x, y];
    if |vs| == 0 {
      assert all == [x, y] && all[1..] == [y] && [y][1..] == [];
      PlayOne(Call(c, x), y);
      InOrderFrom([y], Call(c, x).spinFrom, x.when);
    } else {
      assert all[0] == vs[0] && all[1..] == vs[1..] + [x, y];
      var d := Call(c, vs[0]);
      InOrderFrom(all[1..], d.spinFrom, vs[0].when);
      PlayTwo(d, vs[1..], x, y);
      BeforeTwo(vs[1..], x, y, vs[0].when);
    }
  }

  lemma PlayOne(c: Card, y: Visit)
    requires Valid(c) && c.spinFrom <= y.when
    ensures InOrder([y], c.spinFrom) && Play(c, [y]) == Call(c, y)
  {
    hide Call, Valid;
    assert [y][1..] == [];
  }

  lemma {:induction false} BeforeTwo(vs: seq<Visit>, x: Visit, y: Visit, from: nat)
    requires InOrder(vs + [x, y], from)
    ensures InOrder(vs, from)
    decreases |vs|
  {
    if |vs| > 0 {
      assert (vs + [x, y])[1..] == vs[1..] + [x, y];
      BeforeTwo(vs[1..], x, y, vs[0].when);
    }
  }

  /** 80H at `t0`, in a window and past sector true, leaves the card at `w`; and `b` put out in time from there. */
  predicate WriteCommanded(c: Card, t0: nat, w: Card, b: seq<byte>, outs: seq<nat>) {
    && Valid(c) && c.spinFrom <= t0 && |b| == |outs| == TRACK_BYTES && w == Call(c, Visit(t0, Out(1, 0x80)))
    && (var a := Advance(c, t0);
        && a.phase.Window? && !a.status.ready && t0 >= a.holeAt + Us(a.hz, SEC_TRUE_US) && WriteRate(a.hz)
        && 0 <= a.sel < |a.drives| == DRIVES && Takes(a.drives[a.sel], HeadTrack(a)))
    && w.hz > 0 && SendTimes(w, outs, 0) && Ordered(outs, w.spinFrom)
  }

  /** 10H at `t`, in a window of drive `d`'s track `k`, and a look at the status at `u`, its read begun, leave
      the card at `r`; and an IN for each byte after it has come. */
  predicate ReadCommanded(c: Card, t: nat, u: nat, r: Card, d: nat, k: nat, ins: seq<nat>) {
    && Valid(c) && c.spinFrom <= t <= u
    && (var a := Advance(c, t);
        && a.phase.Window? && !a.status.ready && !a.writeFlag && |a.drives| == DRIVES && a.sel < DRIVES
        && Formatted(a, HeadTrack(a)) && ReadRate(a.hz) && a.sel == d && HeadTrack(a) == k
        && a.holeAt + Us(a.hz, READ_CLEAR_US) <= u < a.nextHole && u < a.holeAt + Us(a.hz, READ_END_US))
    && Call(c, Visit(t, Out(1, 0x10))).spinFrom <= u
    && r == Call(Call(c, Visit(t, Out(1, 0x10))), Visit(u, In(0)))
    && r.hz > 0 && TakeTimes(r, ins, 0) && Ordered(ins, r.spinFrom) && |ins| == TRACK_BYTES + 1
  }

  lemma WriteCommandStarts(c: Card, t0: nat, w: Card, b: seq<byte>, outs: seq<nat>)
    requires WriteCommanded(c, t0, w, b, outs)
    ensures WritesInTime(w, b, outs) && 0 <= w.sel < |w.drives| && Takes(w.drives[w.sel], w.xferTrack)
  {
    hide Advance, Call, Sending, WriteRate, Us, Takes, SendTimes, Ordered;
    WriteEnableStarts(c, b, t0);
  }

  lemma ReadCommandStarts(c: Card, t: nat, u: nat, r: Card, d: nat, k: nat, ins: seq<nat>)
    requires ReadCommanded(c, t, u, r, d, k, ins)
    ensures ReadsInTime(r, d, k, ins)
  {
    hide Advance, Call, Receiving, ReadRate, Us, TrackOf, Formatted, TakeTimes, Ordered;
    ReadEnableStarts(c, t, u);
    ReadingIs(c, t, u, r);
  }

  lemma ReadCommandIs(c: Card, t: nat, u: nat, r: Card, d: nat, k: nat, ins: seq<nat>)
    requires ReadCommanded(c, t, u, r, d, k, ins)
    ensures Valid(c) && c.spinFrom <= t && Call(c, Visit(t, Out(1, 0x10))).spinFrom <= u
    ensures r == Call(Call(c, Visit(t, Out(1, 0x10))), Visit(u, In(0))) && Valid(r)
  {
    hide Advance, Call, ReadRate, Us, Formatted, TakeTimes, Ordered, Valid;
  }

  /** The card at `d` has been put out all of `b`. */
  predicate PutOut(w: Card, b: seq<byte>, outs: seq<nat>, d: Card) {
    Valid(w) && |outs| <= |b| && InOrder(Outs(b, 0, outs), w.spinFrom) && d == Play(w, Outs(b, 0, outs))
  }

  /** From the end of the write at `w` on, accesses with no write enable among them bring the card from `d` to
      `c`, by 10H at `t` and a look at `u`. */
  predicate Between(w: Card, d: Card, run: seq<Visit>, t: nat, u: nat, c: Card) {
    && Valid(d) && NoWrites(run) && InOrder(run + [Visit(t, Out(1, 0x10)), Visit(u, In(0))], d.spinFrom)
    && InOrder(run, d.spinFrom) && c == Play(d, run)
    && w.phase.Writing? && w.holeAt + Us(w.hz, WRITE_END_US) <= if |run| > 0 then run[0].when else t
  }

  /** What INs of the data port return. */
  predicate Gives(r: Card, ins: seq<nat>, bytes: seq<byte>) {
    Valid(r) && InOrder(Ins(ins), r.spinFrom) && Returns(r, Ins(ins)) == bytes
  }

  /** THERE AND BACK, BY COMMAND. A write begun by 80H and made in time; then any run with no write enable in it,
      from the write's end on; then a read of the same track begun by 10H and taken in time: one stale byte, and
      then `b`. */
  lemma CommandedRoundTrip(c: Card, t0: nat, w: Card, b: seq<byte>, outs: seq<nat>, d: Card,
                           run: seq<Visit>, r0: Card, t1: nat, u: nat, r: Card, ins: seq<nat>)
    requires WriteCommanded(c, t0, w, b, outs) && PutOut(w, b, outs, d)
    requires Between(w, d, run, t1, u, r0)
    requires w.sel >= 0 && w.xferTrack >= 0 && ReadCommanded(r0, t1, u, r, w.sel, w.xferTrack, ins)
    ensures Gives(r, ins, [r.readData] + b)
  {
    hide WriteCommanded, ReadCommanded, Play, Returns, WritesInTime, ReadsInTime, Takes, Outs, Call;
    WriteCommandStarts(c, t0, w, b, outs);
    ReadCommandStarts(r0, t1, u, r, w.sel, w.xferTrack, ins);
    var x, y := Visit(t1, Out(1, 0x10)), Visit(u, In(0));
    PlayTwo(d, run, x, y);
    ReadCommandIs(r0, t1, u, r, w.sel, w.xferTrack, ins);
    NoneEnables(run, x, y);
    RoundTrip(w, b, outs, d, run + [x, y], r, ins);
  }

  lemma SendingMeans(c: Card, b: seq<byte>, k: nat)
    requires Sending(c, b, k)
    ensures Valid(c) && c.phase.Writing? && |c.drives| == DRIVES && c.sel < DRIVES
  {}

  lemma NoneEnables(run: seq<Visit>, x: Visit, y: Visit)
    requires NoWrites(run) && x.op == Out(1, 0x10) && y.op == In(0)
    ensures NoWrites(run + [x, y])
  {}

  /** A look at the status leaves the card where time alone has brought it. */
  lemma ReadingIs(c: Card, t: nat, u: nat, r: Card)
    requires Valid(c) && c.spinFrom <= t <= u
    requires Call(c, Visit(t, Out(1, 0x10))).spinFrom <= u
    requires r == Call(Call(c, Visit(t, Out(1, 0x10))), Visit(u, In(0)))
    ensures r == Advance(Call(c, Visit(t, Out(1, 0x10))), u)
  {
    hide Advance;
  }
}
