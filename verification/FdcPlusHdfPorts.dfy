/** The four ports, and whole runs of port accesses on emulated time. */
module FdcPlusHdfPorts {
  import opened Arithmetic
  import opened Basics
  import opened FdcPlusHdfModel
  import opened FdcPlusHdfTime

  /** The card as the power comes on; the disks stay in. */
  function Power(c: Card): (c': Card)
    requires |c.drives| == DRIVES
  {
    Idle(c).(drives := seq(DRIVES, d requires 0 <= d < DRIVES => c.drives[d].(cyl := 0)),
             readData := 0, curTrack := 0, motorTimer := 0, move := Stopped, settle := Stopped,
             buf := c.buf.(rd := BOOT, wr := BOOT))
  }

  /** Nothing selected, the motor off, every flag false. */
  function Idle(c: Card): (c': Card) {
    c.(status := ALL_HIGH, sectorPos := Nothing, ioStatus := IO_CLEAR, sel := -1, motor := false,
       readFlag := false, writeFlag := false, headLoaded := false, sector15 := false,
       phase := Off, sectorTrue := Stopped, skipHole := false)
  }

  /** The motor on, and the first hole to come thrown away. */
  function StartMotor(c: Card, now: nat): (c': Card)
    requires c.spinFrom <= now
  {
    var from := if c.motor then c.spinFrom else now;
    var rev := Us(c.hz, REV_US);
    c.(motor := true, spinFrom := from, nextHole := from + (Quot(now - from, rev) + 1) * rev,
       skipHole := true, phase := Phase.Loop, sectorTrue := Stopped)
  }

  function Select(c: Card, v: byte, now: nat): (c': Card)
    requires Valid(c) && c.spinFrom <= now
  {
    var d := v % 16;
    if Bit(v, 0x80) || d >= DRIVES then Idle(c)
    else if d == c.sel then c
    else
      StartMotor(
        c.(sel := d,
           status := INIT.(track0 := c.drives[d].cyl != 0,
                           wp := !(c.drives[d].img.Some? && c.drives[d].img.value.readOnly)),
           sectorPos := Nothing, motorTimer := 0,
           readFlag := false, writeFlag := false, headLoaded := false),
        now)
  }

  /** A step: one cylinder, and both head timers from the start. */
  function Step(c: Card, out: bool, now: nat): (c': Card)
    requires Valid(c) && c.sel >= 0
  {
    c.(status := c.status.(head := true, move := true), sectorPos := Nothing,
       drives := c.drives[c.sel := c.drives[c.sel].(cyl := NextCylinder(c.drives[c.sel].cyl, out))],
       move := At(now + Us(c.hz, STEP_US)), settle := At(now + Us(c.hz, SETTLE_US)))
  }

  /** No step pulse on track 0, none past the last cylinder. */
  function NextCylinder(cyl: nat, out: bool): nat {
    if out then (if cyl > 0 then cyl - 1 else cyl) else if cyl < CYLINDERS - 1 then cyl + 1 else cyl
  }

  function HeadLoad(c: Card, now: nat): (c': Card)
    requires c.spinFrom <= now
  {
    var c1 := c.(status := c.status.(head := false), sectorPos := Nothing, headLoaded := true);
    if c.motor then c1 else StartMotor(c1, now)
  }

  function HeadUnload(c: Card): (c': Card) {
    c.(status := c.status.(head := true), sectorPos := Nothing, headLoaded := false)
  }

  function ReadEnable(c: Card): (c': Card) {
    c.(readFlag := true, status := c.status.(nrda := true))
  }

  function WriteEnable(c: Card, now: nat): (c': Card)
    requires Valid(c)
  {
    var c1 := c.(writeFlag := true, status := c.status.(enwd := true));
    if c.phase.Window? && now >= c.holeAt + Us(c.hz, SEC_TRUE_US) then StartWrite(c1) else c1
  }

  function Command(c: Card, v: byte, now: nat): (c': Card)
    requires Valid(c) && c.spinFrom <= now
  {
    if c.status.ready then c
    else if v % 4 != 0 then Step(c, Bit(v, 2), now)
    else if Bit(v, 4) then HeadLoad(c, now)
    else if Bit(v, 8) then HeadUnload(c)
    else if Bit(v, 0x10) then ReadEnable(c)
    else if Bit(v, 0x80) then WriteEnable(c, now)
    else c
  }

  /** IN base+2 takes the byte that waits, and the next one waits in its place. */
  function TakeByte(c: Card): (c': Card)
    requires |c.buf.mem| == MEM
  {
    c.(readData := if c.buf.rd < MEM then c.buf.mem[c.buf.rd] else 0, buf := c.buf.(rd := c.buf.rd + 1))
  }

  /** OUT base+2, into the buffer at the insert pointer. */
  function PutByte(c: Card, v: byte): (c': Card)
    requires |c.buf.mem| == MEM
  {
    c.(buf := if !c.phase.Reading? && c.buf.wr < MEM
              then c.buf.(mem := c.buf.mem[c.buf.wr := v], wr := c.buf.wr + 1) else c.buf)
  }

  datatype Op = In(port: nat) | Out(port: nat, value: byte)

  /** A port access, the card already run forward to `now`. */
  function Access(c: Card, op: Op, now: nat): (c': Card)
    requires Valid(c) && c.spinFrom <= now
  {
    match op
    case In(port) => if port == 2 then TakeByte(c) else c
    case Out(port, v) =>
      if port == 0 then Select(c, v, now)
      else if port == 1 then Command(c, v, now)
      else if port == 2 then PutByte(c, v)
      else c.(curTrack := v)
  }

  /** What an IN returns. */
  function Value(c: Card, port: nat): byte {
    if port == 0 then c.status.Byte()
    else if port == 1 then c.sectorPos.Byte()
    else if port == 2 then c.readData
    else c.ioStatus.Byte()
  }

  // ---------------------------------------------------------------------------------------
  // Every access keeps the card valid
  // ---------------------------------------------------------------------------------------

  lemma SelectValid(c: Card, v: byte, now: nat)
    requires Valid(c) && c.spinFrom <= now
    ensures Valid(Select(c, v, now)) && Select(c, v, now).spinFrom <= now
  {
    hide Quot, Us;
  }

  lemma StepValid(c: Card, out: bool, now: nat)
    requires Valid(c) && c.sel >= 0
    ensures Valid(Step(c, out, now)) && Step(c, out, now).spinFrom == c.spinFrom
  {
    hide Us;
  }

  lemma WriteEnableValid(c: Card, now: nat)
    requires Valid(c) && !Due(c, TrueEnd, now)
    ensures Valid(WriteEnable(c, now)) && WriteEnable(c, now).spinFrom == c.spinFrom
  {
    hide Us;
  }

  lemma HeadLoadValid(c: Card, now: nat)
    requires Valid(c) && c.spinFrom <= now
    ensures Valid(HeadLoad(c, now)) && HeadLoad(c, now).spinFrom <= now
  {
    hide Quot, Us;
  }

  lemma FlagsValid(c: Card)
    requires Valid(c)
    ensures Valid(HeadUnload(c)) && Valid(ReadEnable(c))
  {
    hide Us;
  }

  lemma CommandValid(c: Card, v: byte, now: nat)
    requires Valid(c) && c.spinFrom <= now && !Due(c, TrueEnd, now)
    ensures Valid(Command(c, v, now)) && Command(c, v, now).spinFrom <= now
  {
    hide Quot, Us, WriteEnable, Step, HeadLoad;
    if !c.status.ready {
      StepValid(c, Bit(v, 2), now);
      HeadLoadValid(c, now);
      FlagsValid(c);
      WriteEnableValid(c, now);
    }
  }

  lemma BytesValid(c: Card, v: byte)
    requires Valid(c)
    ensures Valid(TakeByte(c)) && Valid(PutByte(c, v)) && Valid(c.(curTrack := v))
  {
    hide Us;
  }

  lemma AccessValid(c: Card, op: Op, now: nat)
    requires Valid(c) && c.spinFrom <= now && !Due(c, TrueEnd, now)
    ensures Valid(Access(c, op, now)) && Access(c, op, now).spinFrom <= now
  {
    hide Select, Command, Valid;
    match op
    case In(_) => BytesValid(c, 0);
    case Out(_, v) =>
      SelectValid(c, v, now);
      CommandValid(c, v, now);
      BytesValid(c, v);
  }

  lemma HandleKeepsSpin(c: Card, e: Event)
    requires Valid(c) && Live(c, e)
    ensures Handle(c, e).spinFrom == c.spinFrom
  {
    hide Us, DriveOk, TrackOf, BufferOk, Formatted, Spinning, HeadTrack;
    match e
    case Move =>
    case Settle =>
    case TrueEnd =>
    case WindowEnd =>
    case XferEnd =>
    case Hole =>
  }

  /** Only a motor start moves the moment the holes are counted from. */
  lemma {:induction false} RunToKeepsSpin(c: Card, t: nat)
    requires Valid(c)
    ensures RunTo(c, t).spinFrom == c.spinFrom
    decreases HolesLeft(c, t), Rank(c)
  {
    hide Handle, Live, Rank, HolesLeft;
    var e := Next(c, t);
    if e.Some? {
      HandleKeepsSpin(c, e.value);
      HandleValid(c, e.value, t);
      HandleDecreases(c, e.value, t);
      RunToKeepsSpin(Handle(c, e.value), t);
    }
  }

  lemma AdvanceKeepsSpin(c: Card, t: nat)
    requires Valid(c)
    ensures Valid(Advance(c, t)) && Advance(c, t).spinFrom == c.spinFrom
  {
    RunToValid(c, t);
    RunToKeepsSpin(c, t);
    AdvanceValid(c, t);
  }

  // ---------------------------------------------------------------------------------------
  // Runs
  // ---------------------------------------------------------------------------------------

  /** One port access of a guest program, and when. */
  datatype Visit = Visit(when: nat, op: Op)

  predicate InOrder(vs: seq<Visit>, from: nat) {
    |vs| == 0 || (from <= vs[0].when && InOrder(vs[1..], vs[0].when))
  }

  lemma {:induction false} InOrderFrom(vs: seq<Visit>, from: nat, to: nat)
    requires InOrder(vs, to) && from <= to
    ensures InOrder(vs, from)
  {}

  /** The card run forward to the visit, and then the access. */
  function Call(c: Card, v: Visit): (c': Card)
    requires Valid(c) && c.spinFrom <= v.when
    ensures Valid(c') && c'.spinFrom <= v.when
  {
    hide Access, Advance;
    AdvanceKeepsSpin(c, v.when);
    AdvanceValid(c, v.when);
    AccessValid(Advance(c, v.when), v.op, v.when);
    Access(Advance(c, v.when), v.op, v.when)
  }

  /** The card after a whole run. */
  function Play(c: Card, vs: seq<Visit>): (c': Card)
    requires Valid(c) && InOrder(vs, c.spinFrom)
    ensures Valid(c')
    decreases |vs|
  {
    if |vs| == 0 then c
    else
      var d := Call(c, vs[0]);
      InOrderFrom(vs[1..], d.spinFrom, vs[0].when);
      Play(d, vs[1..])
  }

  /** What the INs of a run return, in order. */
  function Returns(c: Card, vs: seq<Visit>): (r: seq<byte>)
    requires Valid(c) && InOrder(vs, c.spinFrom)
    decreases |vs|
  {
    if |vs| == 0 then []
    else
      var d := Call(c, vs[0]);
      InOrderFrom(vs[1..], d.spinFrom, vs[0].when);
      AdvanceValid(c, vs[0].when);
      var first := if vs[0].op.In? then [Value(Advance(c, vs[0].when), vs[0].op.port)] else [];
      first + Returns(d, vs[1..])
  }

  /** An IN of a register that has no side effect. */
  predicate Poll(v: Visit) {
    v.op.In? && v.op.port != 2
  }

  /** A poll only runs the card forward, and whatever comes next would have done that. */
  lemma PollThenCall(c: Card, p: Visit, v: Visit)
    requires Valid(c) && c.spinFrom <= p.when <= v.when && Poll(p)
    ensures Call(c, p).spinFrom == c.spinFrom && Call(Call(c, p), v) == Call(c, v)
  {
    hide Advance;
    AdvanceValid(c, p.when);
    AdvanceKeepsSpin(c, p.when);
    AdvanceSplits(c, p.when, v.when);
  }

  /** LOOKING CHANGES NOTHING. Drop a poll of the status, sector or I/O status port from a run --
      with some later access still in it -- and the run ends in the same card: every byte of the
      buffer, every timer, every disk. */
  lemma {:induction false} PollsInvisible(c: Card, pre: seq<Visit>, p: Visit, post: seq<Visit>)
    requires Valid(c) && Poll(p) && |post| > 0 && InOrder(pre + [p] + post, c.spinFrom)
    ensures InOrder(pre + post, c.spinFrom)
    ensures Play(c, pre + [p] + post) == Play(c, pre + post)
    decreases |pre|
  {
    hide Call;
    if |pre| == 0 {
      var vs := pre + [p] + post;
      assert vs[1..] == post && pre + post == post;
      PollThenCall(c, p, post[0]);
      InOrderFrom(post, c.spinFrom, p.when);
    } else {
      var vs := pre + [p] + post;
      assert vs[1..] == pre[1..] + [p] + post && (pre + post)[1..] == pre[1..] + post;
      var d := Call(c, vs[0]);
      InOrderFrom(vs[1..], d.spinFrom, vs[0].when);
      PollsInvisible(d, pre[1..], p, post);
      DropInOrder(pre, p, post, c.spinFrom);
    }
  }

  lemma {:induction false} DropInOrder(pre: seq<Visit>, p: Visit, post: seq<Visit>, from: nat)
    requires InOrder(pre + [p] + post, from)
    ensures InOrder(pre + post, from)
    decreases |pre|
  {
    var vs := pre + [p] + post;
    if |pre| == 0 {
      assert vs[1..] == post && pre + post == post;
      InOrderFrom(post, from, p.when);
    } else {
      assert vs[1..] == pre[1..] + [p] + post && (pre + post)[1..] == pre[1..] + post;
      DropInOrder(pre[1..], p, post, vs[0].when);
    }
  }
}
