/** Where a track lies in the image file, by the cylinder under the head and the track the 8080 named, in
    plain numbers: what a read begun by 10H returns, and what a write begun by 80H changes. */
module FdcPlusHdfLayout {
  import opened Arithmetic
  import opened Basics
  import opened FdcPlusHdfModel
  import opened FdcPlusHdfTime
  import opened FdcPlusHdfPorts
  import opened FdcPlusHdfTransfer
  import opened FdcPlusHdfCommands

  /** 10H at `t`, in a window with no write asked for; a look at the status at `u`, past the window's end, leaves
      the card at `r`; and an IN for each byte after it has come. */
  predicate ReadAsked(c: Card, t: nat, u: nat, r: Card, ins: seq<nat>) {
    && Valid(c) && c.spinFrom <= t <= u
    && (var a := Advance(c, t);
        && a.phase.Window? && !a.status.ready && !a.writeFlag && 0 <= a.sel < |a.drives| == DRIVES
        && a.drives[a.sel].img.Some? && ReadRate(a.hz)
        && a.holeAt + Us(a.hz, READ_CLEAR_US) <= u < a.nextHole && u < a.holeAt + Us(a.hz, READ_END_US))
    && Call(c, Visit(t, Out(1, 0x10))).spinFrom <= u
    && r == Call(Call(c, Visit(t, Out(1, 0x10))), Visit(u, In(0)))
    && r.hz > 0 && TakeTimes(r, ins, 0) && Ordered(ins, r.spinFrom) && |ins| == TRACK_BYTES + 1
  }

  /** 80H at `t0`, in a window and past sector true, leaves the card at `w`; and `b` put out in time from there. */
  predicate WriteAsked(c: Card, t0: nat, w: Card, b: seq<byte>, outs: seq<nat>) {
    && Valid(c) && c.spinFrom <= t0 && |b| == |outs| == TRACK_BYTES && w == Call(c, Visit(t0, Out(1, 0x80)))
    && (var a := Advance(c, t0);
        && a.phase.Window? && !a.status.ready && t0 >= a.holeAt + Us(a.hz, SEC_TRUE_US) && WriteRate(a.hz)
        && 0 <= a.sel < |a.drives| == DRIVES && a.drives[a.sel].img.Some?)
    && w.hz > 0 && SendTimes(w, outs, 0) && Ordered(outs, w.spinFrom)
  }

  lemma PlaceOfTrack(c: Card, at: nat)
    requires Valid(c) && c.sel >= 0
    requires var cyl, named := c.drives[c.sel].cyl, c.curTrack;
      || (cyl < 72 && (named % 2 == 0 || named >= 144) && at == 2 * cyl * 10240)
      || (cyl < 72 && named % 2 == 1 && named < 144 && at == (2 * cyl + 1) * 10240)
      || (72 <= cyl <= 76 && (named % 2 == 0 || named >= 144) && at == (cyl + 72) * 10240)
    ensures HeadTrack(c) >= 0 && HeadTrack(c) * TRACK_BYTES == at
  {}

  lemma NoPlace(c: Card)
    requires Valid(c) && c.sel >= 0
    requires var cyl, named := c.drives[c.sel].cyl, c.curTrack; cyl >= 77 || (cyl >= 72 && named % 2 == 1 && named < 144)
    ensures HeadTrack(c) == -1
  {}

  /** A READ BY PLACE. With the head over a bottom side -- an even track named, or one from 144 up -- the INs
      return, after the stale byte, the slice of the file `2 * cyl` tracks in, or `cyl + 72` tracks in on the last
      five cylinders; over a top side, the slice `2 * cyl + 1` tracks in. */
  lemma ReadReturnsSlice(c: Card, t: nat, u: nat, r: Card, ins: seq<nat>, at: nat)
    requires ReadAsked(c, t, u, r, ins)
    requires var a := Advance(c, t); var cyl, named := a.drives[a.sel].cyl, a.curTrack;
      || (cyl < 72 && (named % 2 == 0 || named >= 144) && at == 2 * cyl * 10240)
      || (cyl < 72 && named % 2 == 1 && named < 144 && at == (2 * cyl + 1) * 10240)
      || (72 <= cyl <= 76 && (named % 2 == 0 || named >= 144) && at == (cyl + 72) * 10240)
    requires at + 10240 <= |Advance(c, t).drives[Advance(c, t).sel].img.value.bytes|
    ensures var a := Advance(c, t); Gives(r, ins, [r.readData] + a.drives[a.sel].img.value.bytes[at..at + 10240])
  {
    hide Advance, Call, ReadRate, Us, Valid, TakeTimes, Ordered, Returns, HeadTrack, ReadsInTime;
    AdvanceValid(c, t);
    var a := Advance(c, t);
    PlaceOfTrack(a, at);
    var k := HeadTrack(a);
    ReadCommandStarts(c, t, u, r, a.sel, k, ins);
    ReadsReturn(r, a.sel, k, ins);
    SliceRead(c, t, u, r, k);
  }

  lemma SliceRead(c: Card, t: nat, u: nat, r: Card, k: nat)
    requires Valid(c) && c.spinFrom <= t <= u
    requires var a := Advance(c, t);
      && a.phase.Window? && !a.status.ready && !a.writeFlag && |a.drives| == DRIVES && a.sel < DRIVES
      && Formatted(a, HeadTrack(a)) && ReadRate(a.hz)
      && a.holeAt + Us(a.hz, READ_CLEAR_US) <= u < a.nextHole && u < a.holeAt + Us(a.hz, READ_END_US)
    requires Call(c, Visit(t, Out(1, 0x10))).spinFrom <= u
    requires r == Call(Call(c, Visit(t, Out(1, 0x10))), Visit(u, In(0)))
    ensures r.drives == Advance(c, t).drives
  {
    hide Advance, Call, ReadRate, Us, Valid, HeadTrack;
    ReadEnableStarts(c, t, u);
    ReadingIs(c, t, u, r);
  }

  /** Off the tracks -- a top side past cylinder 71, or past cylinder 76 -- 10H brings nothing: the buffer stays as
      it was, and no read is reported done. */
  lemma NothingToRead(c: Card, t: nat, u: nat)
    requires Valid(c) && c.spinFrom <= t <= u
    requires var a := Advance(c, t);
      && a.phase.Window? && !a.status.ready && !a.writeFlag && 0 <= a.sel < |a.drives| == DRIVES
      && (var cyl, named := a.drives[a.sel].cyl, a.curTrack; cyl >= 77 || (cyl >= 72 && named % 2 == 1 && named < 144))
      && a.holeAt + Us(a.hz, READ_CLEAR_US) <= u < a.nextHole
    ensures var a, e := Advance(c, t), Advance(Call(c, Visit(t, Out(1, 0x10))), u);
      && e.phase.Reading? && e.noSync && e.buf.mem == a.buf.mem && e.readData == a.readData && e.drives == a.drives
      && !e.ioStatus.done
  {
    hide Advance, Us, Valid;
    AdvanceValid(c, t);
    AdvanceKeepsSpin(c, t);
    var a := Advance(c, t);
    AccessValid(a, Out(1, 0x10), t);
    NoPlace(a);
    var f := ReadEnable(a);
    assert HeadTrack(f) == HeadTrack(a);
    WindowFindsNothing(f, u);
  }

  lemma WindowFindsNothing(c: Card, u: nat)
    requires Valid(c) && c.phase.Window? && c.readFlag && !c.writeFlag && HeadTrack(c) == -1
    requires c.holeAt + Us(c.hz, READ_CLEAR_US) <= u < c.nextHole
    ensures var d := Advance(c, u);
      d.phase.Reading? && d.noSync && d.buf.mem == c.buf.mem && d.readData == c.readData && d.drives == c.drives
      && !d.ioStatus.done
  {
    hide RunTo, Us, Valid, FillTo, DrainTo, Catch;
    Shape(c);
    var d := RunToWindowEnd(c, u);
    SameWindowMeans(c, d);
    SameWindowBuffer(c, d);
    var e := Handle(d, WindowEnd);
    assert Advance(c, u) == Advance(e, u);
    Unsynced(d);
    StaysUnsynced(e, u);
  }

  lemma SameWindowBuffer(c: Card, d: Card)
    requires SameWindow(c, d)
    ensures d.buf == c.buf
  {}

  lemma Unsynced(c: Card)
    requires Valid(c) && c.readFlag && HeadTrack(c) == -1
    ensures var d := StartRead(c);
      && d.phase.Reading? && d.noSync && d.buf.mem == c.buf.mem && d.readData == c.readData && d.drives == c.drives
      && d.nextHole == c.nextHole && !d.ioStatus.done
  {}

  lemma StaysUnsynced(c: Card, u: nat)
    requires Valid(c) && c.phase.Reading? && c.noSync && u < c.nextHole
    ensures var d := Advance(c, u);
      d.phase.Reading? && d.noSync && d.buf.mem == c.buf.mem && d.readData == c.readData && d.drives == c.drives
      && d.ioStatus == c.ioStatus
  {
    hide RunTo, Us, Valid;
    RunToValid(c, u);
    UnsyncedRun(c, u);
    UnsyncedFill(RunTo(c, u), u);
  }

  lemma UnsyncedFill(c: Card, u: nat)
    requires Valid(c) && c.phase.Reading? && c.noSync
    ensures FillTo(c, u) == c
  {}

  lemma {:induction false} UnsyncedRun(c: Card, u: nat)
    requires Valid(c) && c.phase.Reading? && c.noSync && u < c.nextHole
    ensures SameTransfer(c, RunTo(c, u))
    decreases HolesLeft(c, u), Rank(c)
  {
    hide Handle, Valid, HolesLeft, Rank, When, Live, SameTransfer;
    Shape(c);
    if Next(c, u).Some? {
      var e := Next(c, u).value;
      UnsyncedEvent(c, e, u);
      HandleValid(c, e, u);
      HandleDecreases(c, e, u);
      HeadEventKeepsTransfer(c, e);
      UnsyncedKept(c, Handle(c, e));
      UnsyncedRun(Handle(c, e), u);
      SameTransferTwice(c, Handle(c, e), RunTo(c, u));
    } else {
      SameTransferItself(c);
    }
  }

  lemma UnsyncedEvent(c: Card, e: Event, u: nat)
    requires Valid(c) && c.phase.Reading? && c.noSync && u < c.nextHole && Next(c, u) == Some(e)
    ensures (e.Move? || e.Settle?) && Live(c, e)
  {
    hide Us, Next;
  }

  lemma UnsyncedKept(c: Card, d: Card)
    requires SameTransfer(c, d)
    ensures d.phase == c.phase && d.nextHole == c.nextHole && d.noSync == c.noSync
  {}

  /** And at the next hole, the disk still turning, the read is reported done with an error, nothing read. */
  lemma NothingFoundIsReported(c: Card)
    requires Valid(c) && c.phase.Reading? && c.noSync && Spinning(c)
    ensures var d := Advance(c, c.nextHole);
      d.ioStatus == c.ioStatus.(eosErr := true, done := true) && d.phase == Phase.Loop && d.buf == c.buf
  {
    hide RunTo, Us, Valid, FillTo, DrainTo;
    UnsyncedEnds(c);
  }

  lemma {:induction false} UnsyncedEnds(c: Card)
    requires Valid(c) && c.phase.Reading? && c.noSync && Spinning(c)
    ensures var d := RunTo(c, c.nextHole);
      d.ioStatus == c.ioStatus.(eosErr := true, done := true) && d.phase == Phase.Loop && d.buf == c.buf
    decreases HolesLeft(c, c.nextHole), Rank(c)
  {
    hide Handle, Valid, HolesLeft, Rank, When, Live, SameTransfer, Spinning;
    Shape(c);
    var t := c.nextHole;
    var e := UnsyncedNext(c);
    HandleValid(c, e, t);
    if e.Hole? {
      LostAtHole(c);
      RunInLoop(Handle(c, e), t);
      LoopLines(Handle(c, e), RunTo(c, t));
    } else {
      HandleDecreases(c, e, t);
      HeadEventKeepsTransfer(c, e);
      UnsyncedLines(c, Handle(c, e));
      UnsyncedEnds(Handle(c, e));
    }
  }

  lemma UnsyncedNext(c: Card) returns (e: Event)
    requires Valid(c) && c.phase.Reading? && c.noSync && Spinning(c)
    ensures Next(c, c.nextHole) == Some(e) && (e.Move? || e.Settle? || e.Hole?) && Live(c, e)
  {
    hide Us, Next;
    Shape(c);
    assert Due(c, Hole, c.nextHole) && !Quiet(c, c.nextHole);
    e := Next(c, c.nextHole).value;
  }

  lemma LostAtHole(c: Card)
    requires Valid(c) && c.phase.Reading? && c.noSync && Live(c, Hole)
    ensures var d := Handle(c, Hole);
      && d.ioStatus == c.ioStatus.(eosErr := true, done := true) && d.phase == Phase.Loop && d.buf == c.buf
      && c.nextHole < d.nextHole
  {
    hide BufferOk, DriveOk;
  }

  lemma LoopLines(c: Card, d: Card)
    requires SameTransfer(c, d)
    ensures d.ioStatus == c.ioStatus && d.phase == c.phase && d.buf == c.buf
  {}

  lemma UnsyncedLines(c: Card, d: Card)
    requires SameTransfer(c, d) && |c.drives| == DRIVES && c.sel < DRIVES && Spinning(c)
    ensures Spinning(d) && d.phase == c.phase && d.noSync == c.noSync
    ensures d.nextHole == c.nextHole && d.ioStatus == c.ioStatus && d.buf == c.buf
  {}

  // ---------------------------------------------------------------------------------------
  // What a write changes
  // ---------------------------------------------------------------------------------------

  /** The bytes of a file from `at` on replaced by `b`: those before and after stay, and a file that had to grow
      to take them grew by zeros. */
  ghost predicate Replaced(was: seq<byte>, at: nat, b: seq<byte>, bytes: seq<byte>) {
    && at + |b| <= |bytes| && bytes[at..at + |b|] == b
    && |bytes| == (if |was| < at + |b| then at + |b| else |was|)
    && (forall i :: 0 <= i < |was| && (i < at || at + |b| <= i) ==> bytes[i] == was[i])
    && (forall i :: |was| <= i < at ==> bytes[i] == 0)
  }

  lemma PutTrackReplaces(img: Image, t: nat, b: seq<byte>)
    requires |b| == TRACK_BYTES
    ensures Replaced(img.bytes, t * TRACK_BYTES, b, PutTrack(img, t, b).bytes)
    ensures PutTrack(img, t, b).readOnly == img.readOnly && PutTrack(img, t, b).resizable == img.resizable
  {
    assert TrackOf(PutTrack(img, t, b), t) == b;
  }

  /** A drive after its disk was sent `b` for the place `at`: the slice there, or nothing at all. */
  ghost predicate SliceWritten(d: Drive, at: nat, b: seq<byte>, e: Drive) {
    d.img.Some? && e.cyl == d.cyl
    && (if d.img.value.readOnly || (|d.img.value.bytes| < at + |b| && !d.img.value.resizable) then e.img == d.img
        else && e.img.Some? && Replaced(d.img.value.bytes, at, b, e.img.value.bytes)
             && e.img.value.readOnly == d.img.value.readOnly && e.img.value.resizable == d.img.value.resizable)
  }

  lemma CommitWrites(d: Drive, t: nat, b: seq<byte>)
    requires |b| == TRACK_BYTES && d.img.Some?
    ensures SliceWritten(d, t * TRACK_BYTES, b, Commit(d, t, b))
  {
    hide PutTrack, Replaced;
    PutTrackReplaces(d.img.value, t, b);
  }

  /** The write begun at `w` is of the track under the head at `t0`, and ends in one commit. */
  lemma WriteEnds(c: Card, t0: nat, w: Card, b: seq<byte>, outs: seq<nat>, d: Card, t: nat)
    requires WriteAsked(c, t0, w, b, outs) && PutOut(w, b, outs, d) && t >= w.holeAt + Us(w.hz, WRITE_END_US)
    ensures var a := Advance(c, t0);
      && Valid(a) && 0 <= a.sel < |a.drives| == DRIVES && |b| == TRACK_BYTES && Valid(d)
      && Advance(d, t).drives == a.drives[a.sel := Commit(a.drives[a.sel], HeadTrack(a), b)]
  {
    hide Advance, Call, Sending, WriteRate, Us, SendTimes, Ordered, Play, SendAll, HeadTrack, Commit, Valid;
    WriteEnableStarts(c, b, t0);
    AdvanceValid(c, t0);
    assert WriteBegun(Advance(c, t0), w, b);
    assert WritesInTime(w, b, outs);
    WritesAreRun(w, b, outs);
    WriteLands(w, b, outs, t);
  }

  /** A WRITE BY PLACE. `b` put out in time lands, once the write's end is past, in the same slice of the file a
      read there returns; no other byte of it and no other drive changes. */
  lemma WriteChangesSlice(c: Card, t0: nat, w: Card, b: seq<byte>, outs: seq<nat>, d: Card, t: nat, at: nat)
    requires WriteAsked(c, t0, w, b, outs) && PutOut(w, b, outs, d) && t >= w.holeAt + Us(w.hz, WRITE_END_US)
    requires var a := Advance(c, t0); var cyl, named := a.drives[a.sel].cyl, a.curTrack;
      || (cyl < 72 && (named % 2 == 0 || named >= 144) && at == 2 * cyl * 10240)
      || (cyl < 72 && named % 2 == 1 && named < 144 && at == (2 * cyl + 1) * 10240)
      || (72 <= cyl <= 76 && (named % 2 == 0 || named >= 144) && at == (cyl + 72) * 10240)
    ensures Valid(d) && |b| == 10240
    ensures var a, e := Advance(c, t0), Advance(d, t);
      && |e.drives| == |a.drives| && SliceWritten(a.drives[a.sel], at, b, e.drives[a.sel])
      && forall i :: 0 <= i < |a.drives| && i != a.sel ==> e.drives[i] == a.drives[i]
  {
    hide Advance, Call, Us, SendTimes, Ordered, Play, HeadTrack, Commit, Valid, SliceWritten, WriteRate;
    WriteEnds(c, t0, w, b, outs, d, t);
    var a := Advance(c, t0);
    PlaceOfTrack(a, at);
    CommitWrites(a.drives[a.sel], HeadTrack(a), b);
  }

  /** Off the tracks a write changes no disk. */
  lemma NothingIsWritten(c: Card, t0: nat, w: Card, b: seq<byte>, outs: seq<nat>, d: Card, t: nat)
    requires WriteAsked(c, t0, w, b, outs) && PutOut(w, b, outs, d) && t >= w.holeAt + Us(w.hz, WRITE_END_US)
    requires var a := Advance(c, t0); var cyl, named := a.drives[a.sel].cyl, a.curTrack;
      cyl >= 77 || (cyl >= 72 && named % 2 == 1 && named < 144)
    ensures Valid(d) && Advance(d, t).drives == Advance(c, t0).drives
  {
    hide Advance, Call, Us, SendTimes, Ordered, Play, HeadTrack, Valid, WriteRate;
    WriteEnds(c, t0, w, b, outs, d, t);
    NoPlace(Advance(c, t0));
  }
}
