/** What the lazy engine promises about emulated time: when it is looked at changes nothing, and
    its quiet-stretch shortcut is the turn-by-turn run.
 */
module FdcPlusHdfTime {
  import opened Arithmetic
  import opened Basics
  import opened FdcPlusHdfModel

  // ---------------------------------------------------------------------------------------
  // Advancing in pieces
  // ---------------------------------------------------------------------------------------

  /** A later horizon does not change which event comes first. */
  lemma NextStable(c: Card, t1: nat, t2: nat)
    requires Valid(c) && t1 <= t2 && Next(c, t1).Some?
    ensures Next(c, t2) == Next(c, t1)
  {
    hide Next, When;
    var e := Next(c, t1).value;
    assert Due(c, e, t2) && !Quiet(c, t2);
    var f := Next(c, t2).value;
    assert Before(c, f, e) && Due(c, f, t1) && Before(c, e, f);
    assert Order(e) == Order(f) ==> e == f;
  }

  lemma {:induction false} RunToSplits(c: Card, t1: nat, t2: nat)
    requires Valid(c) && t1 <= t2
    ensures Valid(RunTo(c, t1)) && RunTo(RunTo(c, t1), t2) == RunTo(c, t2)
    decreases HolesLeft(c, t1), Rank(c)
  {
    hide Handle;
    RunToValid(c, t1);
    var e := Next(c, t1);
    if e.Some? {
      NextStable(c, t1, t2);
      HandleValid(c, e.value, t1);
      HandleDecreases(c, e.value, t1);
      RunToSplits(Handle(c, e.value), t1, t2);
    }
  }

  lemma FillTwice(b: Buffer, track: seq<byte>, m: nat, n: nat)
    requires BufferOk(b) && |track| == TRACK_BYTES && m <= n <= TRACK_BYTES
    ensures Fill(Fill(b, track, m), track, n) == Fill(b, track, n)
  {
    var b1 := Fill(b, track, m);
    if b.done < m < n {
      assert b1.mem[..BOOT + m] == b.mem[..BOOT + b.done] + track[b.done..m];
      assert b1.mem[BOOT + n..] == b.mem[BOOT + n..];
      assert track[b.done..m] + track[m..n] == track[b.done..n];
      assert Fill(b1, track, n).mem == Fill(b, track, n).mem;
    }
  }

  lemma DrainTwice(b: Buffer, m: nat, n: nat)
    requires BufferOk(b) && m <= n <= TRACK_BYTES
    ensures Drain(Drain(b, m), n) == Drain(b, n)
  {
    if b.done < m < n {
      assert Drain(Drain(b, m), n).pending == Drain(b, n).pending;
    }
  }

  lemma ElapsedMonotone(hz: nat, d1: nat, d2: nat)
    requires hz > 0 && d1 <= d2
    ensures Elapsed(hz, d1) <= Elapsed(hz, d2)
    ensures Arrived(hz, d1) <= Arrived(hz, d2)
    ensures Taken(hz, d1) <= Taken(hz, d2)
  {
    QuotMonotone(d1 * 1000000, d2 * 1000000, hz);
  }

  lemma FillToTwice(c: Card, t1: nat, t2: nat)
    requires Valid(c) && c.phase.Reading? && t1 <= t2
    ensures Valid(FillTo(c, t1)) && FillTo(c, t1).phase.Reading?
    ensures FillTo(FillTo(c, t1), t2) == FillTo(c, t2)
  {
    hide Elapsed;
    FillToValid(c, t1);
    if !c.noSync && c.holeAt <= t1 {
      ElapsedMonotone(c.hz, t1 - c.holeAt, t2 - c.holeAt);
      FillTwice(c.buf, TrackOf(c.drives[c.sel].img.value, c.xferTrack),
        Arrived(c.hz, t1 - c.holeAt), Arrived(c.hz, t2 - c.holeAt));
    }
  }

  lemma DrainToTwice(c: Card, t1: nat, t2: nat)
    requires Valid(c) && t1 <= t2
    ensures Valid(DrainTo(c, t1)) && DrainTo(DrainTo(c, t1), t2) == DrainTo(c, t2)
  {
    hide Us, Taken, Drain, DriveOk;
    if c.holeAt <= t1 {
      TakenMonotone(c.hz, t1 - c.holeAt, t2 - c.holeAt);
      DrainTwice(c.buf, Taken(c.hz, t1 - c.holeAt), Taken(c.hz, t2 - c.holeAt));
    }
  }

  lemma TakenMonotone(hz: nat, d1: nat, d2: nat)
    requires hz > 0 && d1 <= d2
    ensures Taken(hz, d1) <= Taken(hz, d2)
  {
    hide Elapsed;
    ElapsedMonotone(hz, d1, d2);
  }

  /** Two cards with the same timers. */
  predicate SameTimers(c: Card, d: Card)
    requires Valid(c) && Valid(d)
  {
    forall e :: Live(c, e) == Live(d, e) && (Live(c, e) ==> When(c, e) == When(d, e))
  }

  lemma SameNext(c: Card, d: Card, t: nat)
    requires Valid(c) && Valid(d) && SameTimers(c, d)
    ensures Next(c, t) == Next(d, t)
  {
    hide Next, When, Live;
    if Next(c, t).Some? {
      var e := Next(c, t).value;
      assert Due(d, e, t) && !Quiet(d, t);
      var f := Next(d, t).value;
      assert Due(c, f, t) && Before(c, e, f) && Before(d, f, e);
      assert Order(e) == Order(f) ==> e == f;
    } else {
      assert Quiet(d, t);
    }
  }

  /** A transfer is under way, bytes moving. */
  predicate Moving(c: Card) {
    c.phase.Writing? || (c.phase.Reading? && !c.noSync)
  }

  lemma CatchFrame(c: Card, t: nat)
    requires Valid(c)
    ensures Valid(Catch(c, t)) && SameTimers(c, Catch(c, t))
    ensures HolesLeft(Catch(c, t), t) == HolesLeft(c, t) && Rank(Catch(c, t)) == Rank(c)
    ensures Catch(c, t).phase == c.phase && Catch(c, t).noSync == c.noSync
    ensures !Moving(c) ==> Catch(c, t) == c
  {
    if c.phase.Reading? { FillToValid(c, t); }
  }

  /** Of the events due during a transfer only the head timers and its own end can come next. */
  lemma DuringTransfer(c: Card, t: nat)
    requires Valid(c) && Moving(c) && Next(c, t).Some?
    ensures Next(c, t).value in {Move, Settle, XferEnd}
  {
    if Next(c, t) == Some(Hole) { HoleFindsNoTransfer(c, t); }
  }

  lemma HeadEndsValid(c: Card)
    requires Valid(c)
    ensures Valid(MoveEnd(c)) && Valid(SettleEnd(c))
  {
    hide Us, DriveOk, BufferOk;
  }

  /** A fill looks at no head timer, and of the status lines at NRDA alone. */
  lemma FillToSame(c: Card, d: Card, t: nat)
    requires Valid(c) && Valid(d) && c.phase.Reading? && SameButHead(c, d)
    ensures var f := FillTo(c, t); FillTo(d, t) == f.(move := d.move, status := d.status.(nrda := f.status.nrda))
  {
    hide Valid, Elapsed, Arrived, Us, Fill, TrackOf, ImageTrack, DriveOk;
  }

  predicate SameButHead(c: Card, d: Card) {
    d == c.(move := d.move, status := d.status) && d.status.nrda == c.status.nrda
  }

  lemma MoveEndIs(c: Card)
    requires Valid(c)
    ensures SameButHead(c, MoveEnd(c)) && MoveEnd(c).move == Stopped
    ensures MoveEnd(c).status == if c.status.ready then c.status
                                 else c.status.(track0 := 0 <= c.sel < |c.drives| && c.drives[c.sel].cyl != 0, move := false)
  {
    hide Us, DriveOk, BufferOk;
  }

  lemma FillToKeeps(c: Card, t: nat)
    requires Valid(c) && c.phase.Reading?
    ensures var f := FillTo(c, t);
      f == c.(ioStatus := f.ioStatus, status := c.status.(nrda := f.status.nrda), buf := f.buf)
  {
    hide Valid, Elapsed, Arrived, Us, Fill, TrackOf, ImageTrack, DriveOk;
  }

  lemma FillThenMove(c: Card, t: nat)
    requires Valid(c) && c.phase.Reading?
    ensures Valid(FillTo(c, t)) && Valid(MoveEnd(c)) && MoveEnd(FillTo(c, t)) == FillTo(MoveEnd(c), t)
  {
    hide Valid, FillTo, MoveEnd;
    FillToValid(c, t);
    HeadEndsValid(c);
    FillToKeeps(c, t);
    MoveEndIs(c);
    MoveEndIs(FillTo(c, t));
    FillToSame(c, MoveEnd(c), t);
  }

  lemma FillThenSettle(c: Card, t: nat)
    requires Valid(c) && c.phase.Reading?
    ensures Valid(FillTo(c, t)) && Valid(SettleEnd(c)) && SettleEnd(FillTo(c, t)) == FillTo(SettleEnd(c), t)
  {
    hide Valid, Elapsed, Arrived, Us, Fill, TrackOf, ImageTrack, DriveOk;
    FillToValid(c, t);
    HeadEndsValid(c);
  }

  lemma DrainThenHead(c: Card, t: nat)
    requires Valid(c) && c.phase.Writing?
    ensures Valid(DrainTo(c, t)) && Valid(MoveEnd(c)) && Valid(SettleEnd(c))
    ensures MoveEnd(DrainTo(c, t)) == DrainTo(MoveEnd(c), t)
    ensures SettleEnd(DrainTo(c, t)) == DrainTo(SettleEnd(c), t)
  {
    hide Taken, Us, Drain, DriveOk;
  }

  lemma FillToFrame(c: Card, t: nat)
    requires Valid(c) && c.phase.Reading?
    ensures FillTo(c, t).hz == c.hz && FillTo(c, t).holeAt == c.holeAt
  {}

  lemma DrainToFrame(c: Card, t: nat)
    requires Valid(c)
    ensures var d := DrainTo(c, t);
      d == c.(buf := d.buf) && |d.buf.pending| == TRACK_BYTES
  {
    hide Us, Taken, DriveOk;
  }

  lemma FillThenEnd(c: Card, t: nat)
    requires Valid(c) && c.phase.Reading? && !c.noSync && t <= When(c, XferEnd)
    ensures Valid(FillTo(c, t)) && FillTo(c, t).phase.Reading? && FinishRead(FillTo(c, t)) == FinishRead(c)
  {
    hide FillTo;
    FillToTwice(c, t, When(c, XferEnd));
    FillToFrame(c, t);
  }

  lemma DrainThenEnd(c: Card, t: nat)
    requires Valid(c) && c.phase.Writing? && t <= When(c, XferEnd)
    ensures Valid(DrainTo(c, t)) && FinishWrite(DrainTo(c, t)) == FinishWrite(c)
  {
    hide DrainTo, Us, DriveOk, Commit;
    DrainToTwice(c, t, When(c, XferEnd));
    DrainToFrame(c, t);
  }

  lemma CatchTwice(c: Card, t1: nat, t2: nat)
    requires Valid(c) && t1 <= t2
    ensures Valid(Catch(c, t1)) && Catch(Catch(c, t1), t2) == Catch(c, t2)
  {
    hide FillTo, DrainTo;
    CatchFrame(c, t1);
    if c.phase.Reading? { FillToTwice(c, t1, t2); }
    else if c.phase.Writing? { DrainToTwice(c, t1, t2); }
  }

  lemma CatchThenMove(c: Card, t: nat)
    requires Valid(c) && c.move.At?
    ensures Valid(Catch(c, t)) && Valid(MoveEnd(c)) && MoveEnd(Catch(c, t)) == Catch(MoveEnd(c), t)
  {
    hide Valid, FillTo, DrainTo, MoveEnd;
    CatchFrame(c, t);
    HeadEndsValid(c);
    MoveEndIs(c);
    if c.phase.Reading? { FillThenMove(c, t); }
    else if c.phase.Writing? { DrainThenHead(c, t); }
  }

  lemma CatchThenSettle(c: Card, t: nat)
    requires Valid(c) && c.settle.At?
    ensures Valid(Catch(c, t)) && Valid(SettleEnd(c)) && SettleEnd(Catch(c, t)) == Catch(SettleEnd(c), t)
  {
    hide Valid, FillTo, DrainTo;
    CatchFrame(c, t);
    HeadEndsValid(c);
    if c.phase.Reading? { FillThenSettle(c, t); }
    else if c.phase.Writing? { DrainThenHead(c, t); }
  }

  lemma CatchThenHead(c: Card, e: Event, t: nat)
    requires Valid(c) && (e.Move? || e.Settle?) && Live(c, e)
    ensures Valid(Catch(c, t)) && Live(Catch(c, t), e) && Valid(Handle(c, e))
    ensures Handle(Catch(c, t), e) == Catch(Handle(c, e), t)
  {
    hide Catch, MoveEnd, SettleEnd;
    CatchFrame(c, t);
    if e.Move? { CatchThenMove(c, t); } else { CatchThenSettle(c, t); }
  }

  lemma CatchThenEnd(c: Card, t: nat)
    requires Valid(c) && Moving(c) && t <= When(c, XferEnd)
    ensures Valid(Catch(c, t)) && Live(Catch(c, t), XferEnd)
    ensures Handle(Catch(c, t), XferEnd) == Handle(c, XferEnd)
  {
    hide FillTo, DrainTo, FinishRead, FinishWrite, HoleAt, StartRead, StartWrite;
    CatchFrame(c, t);
    if c.phase.Reading? { FillThenEnd(c, t); } else { DrainThenEnd(c, t); }
  }

  lemma StaysQuiet(c: Card, e: Event, t: nat)
    requires Valid(c) && Quiet(c, t) && (e.Move? || e.Settle?) && Live(c, e) && Valid(Handle(c, e))
    ensures Quiet(Handle(c, e), t)
  {
    var d := Handle(c, e);
    forall f | Live(d, f)
      ensures t < When(d, f)
    {
      assert Live(c, f) && When(c, f) == When(d, f);
    }
  }

  /** Catching a transfer up at `t1`, when nothing else is due, changes nothing at `t2`. */
  lemma {:induction false} CatchEarly(c: Card, t1: nat, t2: nat)
    requires Valid(c) && Quiet(c, t1) && t1 <= t2
    ensures Valid(Catch(c, t1)) && Valid(RunTo(Catch(c, t1), t2)) && Valid(RunTo(c, t2))
    ensures Catch(RunTo(Catch(c, t1), t2), t2) == Catch(RunTo(c, t2), t2)
    decreases HolesLeft(c, t2), Rank(c)
  {
    hide Catch, Handle, Quiet;
    CatchFrame(c, t1);
    var d := Catch(c, t1);
    RunToValid(c, t2);
    RunToValid(d, t2);
    if Moving(c) {
      SameNext(c, d, t2);
      var e := Next(c, t2);
      if e.None? { CatchTwice(c, t1, t2); }
      else {
        DuringTransfer(c, t2);
        HandleValid(c, e.value, t2);
        HandleValid(d, e.value, t2);
        HandleDecreases(c, e.value, t2);
        if e.value.XferEnd? {
          assert t1 <= When(c, XferEnd) by { QuietMeans(c, XferEnd, t1); }
          CatchThenEnd(c, t1);
        } else {
          CatchThenHead(c, e.value, t1);
          StaysQuiet(c, e.value, t1);
          CatchEarly(Handle(c, e.value), t1, t2);
        }
      }
    }
  }

  lemma QuietMeans(c: Card, e: Event, t: nat)
    requires Valid(c) && Quiet(c, t) && Live(c, e)
    ensures t < When(c, e)
  {}

  /** TIME SPLITS. Looking at the card on the way leaves no trace: running it to `t1` and then to
      `t2` is running it to `t2`, whatever its transfer, its timers and its disk were doing. */
  lemma AdvanceSplits(c: Card, t1: nat, t2: nat)
    requires Valid(c) && t1 <= t2
    ensures Valid(Advance(c, t1)) && Advance(Advance(c, t1), t2) == Advance(c, t2)
  {
    hide Catch, Handle, Quiet;
    RunToValid(c, t1);
    CatchFrame(RunTo(c, t1), t1);
    RunToSplits(c, t1, t2);
    CatchEarly(RunTo(c, t1), t1, t2);
  }

  // ---------------------------------------------------------------------------------------
  // The quiet stretch
  // ---------------------------------------------------------------------------------------

  /** The head is loaded, the disk turns, and nothing is asked for. */
  predicate Resting(c: Card) {
    && Valid(c) && Spinning(c) && c.phase == Phase.Loop && c.headLoaded
    && !c.readFlag && !c.writeFlag && !c.skipHole && c.move.Stopped? && c.settle.Stopped?
  }

  /** One whole turn of a resting disk. */
  function Turn(c: Card): (c': Card)
    requires Resting(c)
    ensures Resting(c')
  {
    c.(nextHole := c.nextHole + Us(c.hz, REV_US), holeAt := c.nextHole, motorTimer := 1,
       status := c.status.(nrda := false), buf := c.buf.(rd := 1), readData := c.buf.mem[0],
       sector15 := !c.sector15,
       sectorPos := if c.status.head then c.sectorPos.TrueOff() else Sector(!c.sector15, false))
  }

  function Turns(c: Card, m: nat): (c': Card)
    requires Resting(c)
    ensures Resting(c')
  {
    if m == 0 then c else Turn(Turns(c, m - 1))
  }

  /** The shortcut: `m` turns in one step, keeping only which sector comes next. */
  function Skip(c: Card, m: nat): (c': Card)
    requires Resting(c)
    ensures Resting(c')
  {
    c.(nextHole := c.nextHole + m * Us(c.hz, REV_US), sector15 := if m % 2 == 1 then !c.sector15 else c.sector15)
  }

  lemma OnlyHole(c: Card, t: nat)
    requires Resting(c) && c.nextHole <= t
    ensures Next(c, t) == Some(Hole)
  {
    hide Next;
    assert Due(c, Hole, t) && !Quiet(c, t);
  }

  lemma AfterHole(c: Card, t: nat)
    requires Resting(c) && c.nextHole + Us(c.hz, REV_US) <= t
    ensures var c1 := HoleAt(c, c.nextHole); Valid(c1) && Next(c1, t) == Some(TrueEnd)
  {
    OnlyHole(c, t);
    HandleValid(c, Hole, t);
    UsMonotone(c.hz, SEC_TRUE_US, READ_CLEAR_US);
    UsMonotone(c.hz, READ_CLEAR_US, REV_US);
    hide Next, Us;
    var c1 := HoleAt(c, c.nextHole);
    assert Due(c1, TrueEnd, t) && !Quiet(c1, t);
    assert Before(c1, TrueEnd, WindowEnd);
  }

  lemma AfterSectorTrue(c: Card, t: nat)
    requires Resting(c) && c.nextHole + Us(c.hz, REV_US) <= t
    requires Valid(HoleAt(c, c.nextHole))
    ensures var c2 := Handle(HoleAt(c, c.nextHole), TrueEnd);
      Valid(c2) && Next(c2, t) == Some(WindowEnd) && Handle(c2, WindowEnd) == Turn(c)
  {
    UsMonotone(c.hz, READ_CLEAR_US, REV_US);
    hide Next, Us;
    var c2 := Handle(HoleAt(c, c.nextHole), TrueEnd);
    assert Due(c2, WindowEnd, t) && !Quiet(c2, t);
  }

  lemma OneTurn(c: Card, t: nat)
    requires Resting(c) && c.nextHole + Us(c.hz, REV_US) <= t
    ensures RunTo(c, t) == RunTo(Turn(c), t)
  {
    OnlyHole(c, t);
    HandleValid(c, Hole, t);
    AfterHole(c, t);
    AfterSectorTrue(c, t);
    hide Turn, HoleAt, Next;
    var c1 := Handle(c, Hole);
    var c2 := Handle(c1, TrueEnd);
    assert RunTo(c, t) == RunTo(c1, t) == RunTo(c2, t) == RunTo(Handle(c2, WindowEnd), t);
  }

  lemma {:induction false} ManyTurns(c: Card, m: nat, t: nat)
    requires Resting(c) && c.nextHole + m * Us(c.hz, REV_US) <= t
    ensures Turns(c, m).hz == c.hz && Turns(c, m).nextHole == c.nextHole + m * Us(c.hz, REV_US)
    ensures RunTo(c, t) == RunTo(Turns(c, m), t)
  {
    hide RunTo, Us;
    if m > 0 {
      assert m * Us(c.hz, REV_US) == (m - 1) * Us(c.hz, REV_US) + Us(c.hz, REV_US);
      ManyTurns(c, m - 1, t);
      OneTurn(Turns(c, m - 1), t);
    }
  }

  /** A turn forgets all that the turn before it did, but for which sector is next. */
  lemma TurnForgets(c: Card)
    requires Resting(c)
    ensures Turn(Turn(c)) == Turn(Skip(c, 1))
  {}

  lemma SkipOneMore(c: Card, m: nat)
    requires Resting(c)
    ensures Skip(Skip(c, m), 1) == Skip(c, m + 1)
  {
    hide Us;
    assert m * Us(c.hz, REV_US) + Us(c.hz, REV_US) == (m + 1) * Us(c.hz, REV_US);
  }

  lemma SkipNone(c: Card)
    requires Resting(c)
    ensures Skip(c, 0) == c
  {
    hide Us;
  }

  lemma {:induction false} SkipIsTurns(c: Card, m: nat)
    requires Resting(c)
    ensures Turn(Skip(c, m)) == Turn(Turns(c, m))
  {
    hide Turn, Skip, Us, Resting, Valid;
    if m == 0 {
      SkipNone(c);
    } else {
      SkipIsTurns(c, m - 1);
      TurnForgets(Skip(c, m - 1));
      SkipOneMore(c, m - 1);
    }
  }

  /** THE SHORTCUT IS THE TURN-BY-TURN RUN. Skip as many whole turns of a resting disk as leave at
      least one to replay, and the card at `t` is exactly what taking every hole would give. */
  lemma QuietStretch(c: Card, m: nat, t: nat)
    requires Resting(c) && c.nextHole + (m + 1) * Us(c.hz, REV_US) <= t
    ensures RunTo(Skip(c, m), t) == RunTo(c, t)
  {
    hide RunTo, Us, Turn;
    var rev := Us(c.hz, REV_US);
    assert (m + 1) * rev == m * rev + rev;
    ManyTurns(c, m, t);
    OneTurn(Turns(c, m), t);
    OneTurn(Skip(c, m), t);
    SkipIsTurns(c, m);
  }
}
