/** The FDC+ drive type 5 engine as a value: the card's registers and timers, the events it
    runs on, and what each event does.

    `RunTo` is the reference simulator: it takes the due events one at a time, every index hole
    included. The class in FdcPlusHdf.dfy is proved to compute it, shortcut and all.
 */
module FdcPlusHdfModel {
  import opened Arithmetic
  import opened Basics

  /** The status register, line by line; every line is asserted LOW, so `true` reads 1. */
  datatype Status = Status(enwd: bool, move: bool, head: bool, ready: bool, wp: bool, track0: bool, nrda: bool) {
    function Byte(): byte {
      (if enwd then 0x01 else 0) + (if move then 0x02 else 0) + (if head then 0x04 else 0)
      + (if ready then 0x08 else 0) + (if wp then 0x10 else 0) + 0x20
      + (if track0 then 0x40 else 0) + (if nrda then 0x80 else 0)
    }
  }

  const ALL_HIGH := Status(true, true, true, true, true, true, true)  // FF
  const INIT := Status(true, false, true, false, true, true, true)  // F5

  /** The I/O status register, asserted HIGH. */
  datatype IoStatus = IoStatus(trackErr: bool, eosErr: bool, done: bool) {
    function Byte(): byte {
      (if trackErr then 0x02 else 0) + (if eosErr then 0x04 else 0) + (if done then 0x80 else 0)
    }
  }

  const IO_CLEAR := IoStatus(false, false, false)

  /** The sector position register: FF, or sector 0 or 15 with sector true in bit 0 (LOW). */
  datatype SectorPos = Nothing | Sector(is15: bool, isTrue: bool) {
    function Byte(): byte {
      match this
      case Nothing => 0xFF
      case Sector(is15, isTrue) => (if is15 then 0xDE else 0xC0) + (if isTrue then 0 else 1)
    }

    function TrueOff(): SectorPos {
      match this
      case Nothing => Nothing
      case Sector(is15, _) => Sector(is15, false)
    }
  }

  // Microseconds of the card's own crystal.
  const REV_US: nat := 166668
  const SEC_TRUE_US: nat := 32
  const READ_CLEAR_US: nat := 400
  const WRITE_CLEAR_US: nat := 800
  const BYTE_US: nat := 16
  const DATA_US: nat := WRITE_CLEAR_US + BYTE_US
  const STEP_US: nat := 3000
  const SETTLE_US: nat := 18000

  const DRIVES: nat := 4
  const TRACK_BYTES: nat := 10240
  const TRACKS: nat := 149
  const IMAGE_BYTES: nat := TRACKS * TRACK_BYTES
  const CYLINDERS: nat := 80
  const BOOT: nat := 256
  const MEM: nat := BOOT + TRACK_BYTES + 256

  // The last byte of a transfer is past by these times after the hole.
  const READ_END_US: nat := DATA_US + BYTE_US * (TRACK_BYTES + 2)
  const WRITE_END_US: nat := DATA_US + BYTE_US * (TRACK_BYTES + 5)

  datatype Phase = Off | Loop | Window | Reading | Writing

  /** A mounted disk: its bytes, its write protect, and whether the host lets it grow. */
  datatype Image = Image(bytes: seq<byte>, readOnly: bool, resizable: bool)

  datatype Drive = Drive(img: Option<Image>, cyl: nat)

  /** A one-shot timer: not running, or due at a moment of emulated time. */
  datatype Timer = Stopped | At(when: nat)

  /** The PIC's RAM -- the boot sector and then the track buffer -- with the byte going out next
      and the byte coming in next; and how much of a transfer has crossed the head. */
  datatype Buffer = Buffer(mem: seq<byte>, rd: nat, wr: nat, pending: seq<byte>, done: nat)

  datatype Card = Card(
    hz: nat, drives: seq<Drive>,
    status: Status, sectorPos: SectorPos, readData: byte, ioStatus: IoStatus, curTrack: byte,
    sel: int, motor: bool, readFlag: bool, writeFlag: bool, headLoaded: bool,
    motorTimer: nat, sector15: bool, buf: Buffer,
    phase: Phase, spinFrom: nat, nextHole: nat, skipHole: bool, holeAt: nat,
    noSync: bool, xferTrack: int, sectorTrue: Timer, move: Timer, settle: Timer)

  // ---------------------------------------------------------------------------------------
  // Clock arithmetic
  // ---------------------------------------------------------------------------------------

  /** `n` microseconds in T-states: rounded down, and never nothing. */
  function Us(hz: nat, n: nat): (r: nat)
    ensures r > 0
  {
    var t := Quot(hz * n, 1000000);
    if t == 0 then 1 else t
  }

  lemma UsFloors(hz: nat, n: nat)
    ensures Us(hz, n) == if hz * n < 1000000 then 1 else hz * n / 1000000
  {
    QuotIsDivision(hz * n, 1000000);
    QuotBounds(hz * n, 1000000);
  }

  /** Whole microseconds in `dt` T-states. */
  function Elapsed(hz: nat, dt: nat): nat
    requires hz > 0
  {
    Quot(dt * 1000000, hz)
  }

  /** Bytes that have come off the disk `dt` T-states after the hole. */
  function Arrived(hz: nat, dt: nat): (n: nat)
    requires hz > 0
    ensures n <= TRACK_BYTES
  {
    var el := Elapsed(hz, dt);
    if el < DATA_US then 0 else Min(TRACK_BYTES, (el - DATA_US) / BYTE_US)
  }

  /** Bytes the disk has taken `dt` T-states after the hole. */
  function Taken(hz: nat, dt: nat): (n: nat)
    requires hz > 0
    ensures n <= TRACK_BYTES
  {
    var el := Elapsed(hz, dt);
    if el < DATA_US then 0 else Min(TRACK_BYTES, (el - DATA_US) / BYTE_US + 1)
  }

  // ---------------------------------------------------------------------------------------
  // Tracks and drives
  // ---------------------------------------------------------------------------------------

  /** The image track under a head, or -1. */
  function ImageTrack(cyl: int, topSide: bool): (t: int) {
    if cyl < 0 then -1
    else if topSide then (if cyl < 72 then 2 * cyl + 1 else -1)
    else if cyl < 72 then 2 * cyl
    else if cyl <= 76 then cyl + 72
    else -1
  }

  /** Two places of the head share no track, and every track has a place. */
  lemma TracksOneToOne(cyl: int, topSide: bool, cyl2: int, topSide2: bool, t: nat)
    ensures ImageTrack(cyl, topSide) == ImageTrack(cyl2, topSide2) >= 0 ==> cyl == cyl2 && topSide == topSide2
    ensures -1 <= ImageTrack(cyl, topSide) < TRACKS
    ensures t < TRACKS ==> exists c, side :: 0 <= c < CYLINDERS && ImageTrack(c, side) == t
  {
    if t < 144 {
      assert ImageTrack(t / 2, t % 2 == 1) == t;
    } else if t < TRACKS {
      assert ImageTrack(t - 72, false) == t;
    }
  }

  predicate Top(c: Card) { c.curTrack < 144 && c.curTrack % 2 == 1 }

  /** What every reachable card satisfies. */
  predicate Valid(c: Card) {
    && c.hz > 0
    && |c.drives| == DRIVES && -1 <= c.sel < DRIVES
    && BufferOk(c.buf)
    && (!c.status.ready ==> c.sel >= 0)
    && (forall d :: 0 <= d < DRIVES ==> DriveOk(c.drives[d]))
    && -1 <= c.xferTrack < TRACKS
    && (c.phase.Window? || c.phase.Reading? || c.phase.Writing? ==> c.nextHole == c.holeAt + Us(c.hz, REV_US))
    && (c.phase.Reading? && !c.noSync ==> c.sel >= 0 && Formatted(c, c.xferTrack))
    && (c.sectorTrue.At? ==> c.phase.Window? && c.sectorTrue.when == c.holeAt + Us(c.hz, SEC_TRUE_US))
    && (c.skipHole ==> c.phase.Loop?)
  }

  predicate BufferOk(b: Buffer) {
    |b.mem| == MEM && |b.pending| == TRACK_BYTES && b.done <= TRACK_BYTES
  }

  predicate DriveOk(d: Drive) {
    && d.cyl < CYLINDERS
    && (d.img.Some? ==> |d.img.value.bytes| % TRACK_BYTES == 0 && |d.img.value.bytes| <= IMAGE_BYTES)
  }

  /** The selected drive has a disk with track `t` on it. */
  predicate Formatted(c: Card, t: int)
    requires |c.drives| == DRIVES && c.sel < DRIVES
  {
    && 0 <= c.sel && 0 <= t
    && c.drives[c.sel].img.Some? && (t + 1) * TRACK_BYTES <= |c.drives[c.sel].img.value.bytes|
  }

  function HeadTrack(c: Card): (t: int)
    requires |c.drives| == DRIVES && c.sel < DRIVES
    ensures -1 <= t < TRACKS
  {
    if c.sel < 0 then -1 else ImageTrack(c.drives[c.sel].cyl, Top(c))
  }

  /** The ten thousand bytes of track `t` in an image. */
  function TrackOf(img: Image, t: nat): (s: seq<byte>)
    requires (t + 1) * TRACK_BYTES <= |img.bytes|
    ensures |s| == TRACK_BYTES
  {
    img.bytes[t * TRACK_BYTES..(t + 1) * TRACK_BYTES]
  }

  /** Holes pass only while a disk turns in the selected drive. */
  predicate Spinning(c: Card)
    requires |c.drives| == DRIVES && c.sel < DRIVES
  {
    c.sel >= 0 && c.motor && c.drives[c.sel].img.Some?
  }

  // ---------------------------------------------------------------------------------------
  // The events, in the order that settles a tie
  // ---------------------------------------------------------------------------------------

  datatype Event = Move | Settle | TrueEnd | WindowEnd | XferEnd | Hole

  predicate Live(c: Card, e: Event)
    requires |c.drives| == DRIVES && c.sel < DRIVES
  {
    match e
    case Move => c.move.At?
    case Settle => c.settle.At?
    case TrueEnd => c.sectorTrue.At?
    case WindowEnd => c.phase.Window?
    case XferEnd => c.phase.Writing? || (c.phase.Reading? && !c.noSync)
    case Hole => Spinning(c)
  }

  function When(c: Card, e: Event): nat
    requires |c.drives| == DRIVES && c.sel < DRIVES && Live(c, e)
  {
    match e
    case Move => c.move.when
    case Settle => c.settle.when
    case TrueEnd => c.sectorTrue.when
    case WindowEnd => c.holeAt + Us(c.hz, if c.writeFlag then SEC_TRUE_US else READ_CLEAR_US)
    case XferEnd => c.holeAt + Us(c.hz, if c.phase.Reading? then READ_END_US else WRITE_END_US)
    case Hole => c.nextHole
  }

  predicate Due(c: Card, e: Event, t: nat)
    requires |c.drives| == DRIVES && c.sel < DRIVES
  {
    Live(c, e) && When(c, e) <= t
  }

  /** An event's place in the order the card looks at them, which settles a tie. */
  function Order(e: Event): nat {
    match e
    case Move => 0 case Settle => 1 case TrueEnd => 2
    case WindowEnd => 3 case XferEnd => 4 case Hole => 5
  }

  predicate Before(c: Card, e: Event, f: Event)
    requires |c.drives| == DRIVES && c.sel < DRIVES && Live(c, e) && Live(c, f)
  {
    When(c, e) < When(c, f) || (When(c, e) == When(c, f) && Order(e) <= Order(f))
  }

  /** `e` is the event to take: due, and before every other that is. */
  predicate First(c: Card, e: Event, t: nat)
    requires |c.drives| == DRIVES && c.sel < DRIVES
  {
    Due(c, e, t) && forall f :: Due(c, f, t) ==> Before(c, e, f)
  }

  /** `best` or `e`, whichever falls due first by `t`; `best` on a tie. */
  function Sooner(c: Card, best: Option<Event>, e: Event, t: nat): (r: Option<Event>)
    requires |c.drives| == DRIVES && c.sel < DRIVES
    requires best.Some? ==> Due(c, best.value, t) && Order(best.value) < Order(e)
    ensures r.Some? ==> Due(c, r.value, t) && Order(r.value) <= Order(e)
    ensures best.Some? ==> r.Some? && Before(c, r.value, best.value)
    ensures Due(c, e, t) ==> r.Some? && Before(c, r.value, e)
  {
    if Due(c, e, t) && (best.None? || When(c, e) < When(c, best.value)) then Some(e) else best
  }

  /** The event `advance(t)` takes next. */
  function Next(c: Card, t: nat): (r: Option<Event>)
    requires |c.drives| == DRIVES && c.sel < DRIVES
    ensures r.None? <==> Quiet(c, t)
    ensures r.Some? ==> First(c, r.value, t)
  {
    hide When;
    var r1 := Sooner(c, None, Move, t);
    var r2 := Sooner(c, r1, Settle, t);
    var r3 := Sooner(c, r2, TrueEnd, t);
    var r4 := Sooner(c, r3, WindowEnd, t);
    var r5 := Sooner(c, r4, XferEnd, t);
    Sooner(c, r5, Hole, t)
  }

  /** Every live event lies strictly after `t`. */
  predicate Quiet(c: Card, t: nat)
    requires |c.drives| == DRIVES && c.sel < DRIVES
  {
    forall e :: Live(c, e) ==> t < When(c, e)
  }

  // ---------------------------------------------------------------------------------------
  // What the events do
  // ---------------------------------------------------------------------------------------

  /** The bytes of `track` from `b.done` up to the `n`th, into the track buffer. */
  function Fill(b: Buffer, track: seq<byte>, n: nat): (b': Buffer)
    requires BufferOk(b) && |track| == TRACK_BYTES && n <= TRACK_BYTES
    ensures BufferOk(b')
  {
    if n <= b.done then b
    else b.(mem := b.mem[..BOOT + b.done] + track[b.done..n] + b.mem[BOOT + n..], done := n, wr := BOOT + n)
  }

  /** The bytes of the track buffer from `b.done` up to the `n`th, to the disk. */
  function Drain(b: Buffer, n: nat): (b': Buffer)
    requires BufferOk(b) && n <= TRACK_BYTES
    ensures BufferOk(b')
  {
    if n <= b.done then b
    else b.(pending := b.pending[..b.done] + b.mem[BOOT + b.done..BOOT + n] + b.pending[n..], done := n)
  }

  /** A read's bytes up to `t`. NRDA after the fifth, and a TRACK error at the first if the disk's
      track is not the one the 8080 named. */
  function FillTo(c: Card, t: nat): (c': Card)
    requires Valid(c) && c.phase.Reading?
  {
    var past := !c.noSync && c.holeAt <= t && Elapsed(c.hz, t - c.holeAt) >= DATA_US;
    var n := if past then Arrived(c.hz, t - c.holeAt) else 0;
    var wrong := past && c.buf.done == 0 && c.xferTrack % 128 != c.curTrack % 128;
    c.(ioStatus := c.ioStatus.(trackErr := c.ioStatus.trackErr || wrong),
       status := c.status.(nrda := c.status.nrda && !(c.buf.done < 5 <= n)),
       buf := if past then Fill(c.buf, TrackOf(c.drives[c.sel].img.value, c.xferTrack), n) else c.buf)
  }

  /** A write's bytes up to `t`, as they are in the buffer now. */
  function DrainTo(c: Card, t: nat): (c': Card)
    requires Valid(c)
  {
    c.(buf := if t < c.holeAt then c.buf else Drain(c.buf, Taken(c.hz, t - c.holeAt)))
  }

  function FinishRead(c: Card): (c': Card)
    requires Valid(c) && c.phase.Reading?
  {
    var c1 := FillTo(c, c.holeAt + Us(c.hz, READ_END_US));
    c1.(ioStatus := c1.ioStatus.(done := true), phase := Phase.Loop)
  }

  lemma OtherTracksKept(was: seq<byte>, bytes: seq<byte>, t: nat)
    requires |was| <= |bytes| && (t + 1) * TRACK_BYTES <= |bytes|
    requires forall i :: 0 <= i < |was| && !(t * TRACK_BYTES <= i < (t + 1) * TRACK_BYTES) ==> bytes[i] == was[i]
    ensures forall u: nat :: u != t && (u + 1) * TRACK_BYTES <= |was| ==>
      bytes[u * TRACK_BYTES..(u + 1) * TRACK_BYTES] == was[u * TRACK_BYTES..(u + 1) * TRACK_BYTES]
  {
    forall u: nat | u != t && (u + 1) * TRACK_BYTES <= |was|
      ensures bytes[u * TRACK_BYTES..(u + 1) * TRACK_BYTES] == was[u * TRACK_BYTES..(u + 1) * TRACK_BYTES]
    {
      var lo, hi := u * TRACK_BYTES, (u + 1) * TRACK_BYTES;
      assert u < t || t < u;
      assert forall i :: lo <= i < hi ==> bytes[i] == was[i];
    }
  }

  /** `img` with track `t` replaced, grown with zeros when the track lies past its end. */
  function PutTrack(img: Image, t: nat, data: seq<byte>): (r: Image)
    requires |data| == TRACK_BYTES
    ensures r.readOnly == img.readOnly && r.resizable == img.resizable
    ensures |r.bytes| == if |img.bytes| < (t + 1) * TRACK_BYTES then (t + 1) * TRACK_BYTES else |img.bytes|
    ensures TrackOf(r, t) == data
    ensures forall u: nat :: u != t && (u + 1) * TRACK_BYTES <= |img.bytes| ==> TrackOf(r, u) == TrackOf(img, u)
  {
    var end := (t + 1) * TRACK_BYTES;
    var grown := if |img.bytes| < end then img.bytes + seq(end - |img.bytes|, _ => 0) else img.bytes;
    var bytes := grown[..t * TRACK_BYTES] + data + grown[end..];
    assert bytes[t * TRACK_BYTES..end] == data;
    OtherTracksKept(img.bytes, bytes, t);
    img.(bytes := bytes)
  }

  /** The disk takes the finished track: not a protected one, not where the layout has no track,
      and not past the end of a file that will not grow. */
  function Commit(d: Drive, t: int, data: seq<byte>): (d': Drive)
    requires |data| == TRACK_BYTES
  {
    if t < 0 || d.img.None? || d.img.value.readOnly then d
    else if |d.img.value.bytes| < (t + 1) * TRACK_BYTES && !d.img.value.resizable then d
    else d.(img := Some(PutTrack(d.img.value, t, data)))
  }

  function FinishWrite(c: Card): (c': Card)
    requires Valid(c)
  {
    var c1 := DrainTo(c, c.holeAt + Us(c.hz, WRITE_END_US));
    c1.(writeFlag := false, ioStatus := c1.ioStatus.(done := true), phase := Phase.Loop,
        drives := if c.sel < 0 then c.drives
                  else c.drives[c.sel := Commit(c.drives[c.sel], c.xferTrack, c1.buf.pending)])
  }

  function StartWrite(c: Card): (c': Card)
    requires Valid(c)
  {
    c.(phase := Writing, buf := c.buf.(rd := BOOT, wr := BOOT, done := 0),
       status := c.status.(enwd := false), ioStatus := IO_CLEAR, xferTrack := HeadTrack(c))
  }

  function StartRead(c: Card): (c': Card)
    requires Valid(c)
  {
    var go := c.readFlag;
    c.(phase := if go then Reading else Phase.Loop,
       buf := if go then c.buf.(rd := BOOT, wr := BOOT, done := 0) else c.buf,
       ioStatus := if go then IO_CLEAR else c.ioStatus,
       xferTrack := if go then HeadTrack(c) else c.xferTrack,
       noSync := if go then !Formatted(c, HeadTrack(c)) else c.noSync)
  }

  /** One index hole, at `h`; the next is a revolution later. It ends a read that never found its
      sync byte, or is the one waitMotor throws away, or starts a turn; and a turn with no read
      asked for puts out the fake boot sector's first byte. */
  function HoleAt(c: Card, h: nat): (c': Card)
    requires Valid(c)
  {
    var lost := c.phase.Reading?;
    var turn := !lost && !c.skipHole;
    var boot := turn && !c.readFlag;
    var timer := (if c.headLoaded then 0 else c.motorTimer) + 1;
    c.(nextHole := h + Us(c.hz, REV_US),
       ioStatus := if lost then c.ioStatus.(eosErr := true, done := true) else c.ioStatus,
       status := if lost || boot then c.status.(nrda := false) else c.status,
       phase := if lost then Phase.Loop else if turn then Window else c.phase,
       skipHole := lost && c.skipHole,
       readFlag := c.readFlag && !turn,
       buf := if boot then c.buf.(rd := 1) else c.buf,
       readData := if boot then c.buf.mem[0] else c.readData,
       motorTimer := if turn then timer else c.motorTimer,
       motor := if turn then c.motor && timer / 32 % 2 == 0 else c.motor,
       sector15 := if turn then !c.sector15 else c.sector15,
       sectorPos := if turn && !c.status.head then Sector(!c.sector15, true) else c.sectorPos,
       sectorTrue := if turn then At(h + Us(c.hz, SEC_TRUE_US)) else c.sectorTrue,
       holeAt := if turn then h else c.holeAt)
  }

  function MoveEnd(c: Card): (c': Card)
    requires Valid(c)
  {
    c.(move := Stopped,
       status := if c.status.ready then c.status
                 else c.status.(track0 := c.drives[c.sel].cyl != 0, move := false))
  }

  function SettleEnd(c: Card): (c': Card) {
    c.(settle := Stopped, status := c.status.(head := c.status.head && !c.headLoaded))
  }

  function Handle(c: Card, e: Event): (c': Card)
    requires Valid(c) && Live(c, e)
  {
    match e
    case Move => MoveEnd(c)
    case Settle => SettleEnd(c)
    case TrueEnd => c.(sectorTrue := Stopped, sectorPos := c.sectorPos.TrueOff())
    case WindowEnd => if c.writeFlag then StartWrite(c) else StartRead(c)
    case XferEnd => if c.phase.Reading? then FinishRead(c) else FinishWrite(c)
    case Hole => HoleAt(c, c.nextHole)
  }

  // ---------------------------------------------------------------------------------------
  // The reference simulator
  // ---------------------------------------------------------------------------------------

  /** T-states of turning still to be simulated up to `t`. */
  function HolesLeft(c: Card, t: nat): nat
    requires |c.drives| == DRIVES && c.sel < DRIVES
  {
    if Spinning(c) && c.nextHole <= t then t - c.nextHole + 1 else 0
  }

  /** Events that can still happen before the next hole. */
  function Rank(c: Card): nat {
    (match c.phase case Window => 2 case Reading => 1 case Writing => 1 case _ => 0)
    + (if c.move.At? then 1 else 0) + (if c.settle.At? then 1 else 0) + (if c.sectorTrue.At? then 1 else 0)
  }

  /** Run every event due by `t`, one at a time, the earliest first. */
  function RunTo(c: Card, t: nat): (c': Card)
    requires Valid(c)
    decreases HolesLeft(c, t), Rank(c)
  {
    var e := Next(c, t);
    if e.None? then c
    else
      HandleValid(c, e.value, t);
      HandleDecreases(c, e.value, t);
      RunTo(Handle(c, e.value), t)
  }

  /** The bytes of a transfer still going at `t`. */
  function Catch(c: Card, t: nat): (c': Card)
    requires Valid(c)
  {
    if c.phase.Reading? then FillTo(c, t) else if c.phase.Writing? then DrainTo(c, t) else c
  }

  /** The card run forward to `t`. */
  function Advance(c: Card, t: nat): (c': Card)
    requires Valid(c)
  {
    RunToValid(c, t);
    Catch(RunTo(c, t), t)
  }

  // ---------------------------------------------------------------------------------------
  // Validity is kept, and the loop ends
  // ---------------------------------------------------------------------------------------

  lemma UsMonotone(hz: nat, m: nat, n: nat)
    requires m <= n
    ensures 1 <= Us(hz, m) <= Us(hz, n)
  {
    assert hz * m <= hz * n;
    QuotMonotone(hz * m, hz * n, 1000000);
  }

  /** A write always ends at or before the next hole, and so does a read that found its track:
      of the events due, a hole is never taken while either is under way. */
  lemma HoleFindsNoTransfer(c: Card, t: nat)
    requires Valid(c) && Next(c, t) == Some(Hole)
    ensures !c.phase.Writing? && !c.phase.Window? && (c.phase.Reading? ==> c.noSync)
  {
    UsMonotone(c.hz, READ_END_US, REV_US);
    UsMonotone(c.hz, WRITE_END_US, REV_US);
    UsMonotone(c.hz, READ_CLEAR_US, REV_US);
    UsMonotone(c.hz, SEC_TRUE_US, REV_US);
  }

  /** Sector true is over before the window is. */
  lemma WindowFindsSectorTrueOver(c: Card, t: nat)
    requires Valid(c) && Next(c, t) == Some(WindowEnd)
    ensures c.sectorTrue.Stopped?
  {
    UsMonotone(c.hz, SEC_TRUE_US, READ_CLEAR_US);
  }

  lemma CommitOk(d: Drive, t: int, data: seq<byte>)
    requires DriveOk(d) && t < TRACKS && |data| == TRACK_BYTES
    ensures DriveOk(Commit(d, t, data))
  {}

  lemma HoleValid(c: Card, t: nat)
    requires Valid(c) && Next(c, t) == Some(Hole)
    ensures Valid(Handle(c, Hole))
  {
    HoleFindsNoTransfer(c, t);
  }

  lemma StartWriteValid(c: Card)
    requires Valid(c) && c.phase.Window? && c.sectorTrue.Stopped?
    ensures Valid(StartWrite(c))
  {
  }

  lemma StartReadValid(c: Card)
    requires Valid(c) && c.phase.Window? && c.sectorTrue.Stopped?
    ensures Valid(StartRead(c))
  {}

  lemma FillToValid(c: Card, t: nat)
    requires Valid(c) && c.phase.Reading?
    ensures Valid(FillTo(c, t))
    ensures FillTo(c, t).phase.Reading? && FillTo(c, t).drives == c.drives
  {
  }

  lemma DrainToBuffer(c: Card, t: nat)
    requires Valid(c) && c.phase.Writing?
    ensures var d := DrainTo(c, t); d == c.(buf := d.buf) && BufferOk(d.buf)
  {}

  lemma FinishWriteValid(c: Card)
    requires Valid(c) && c.phase.Writing?
    ensures Valid(FinishWrite(c))
  {
    hide Us, DrainTo, Commit, DriveOk, Formatted;
    DrainToBuffer(c, c.holeAt + Us(c.hz, WRITE_END_US));
    var c1 := DrainTo(c, c.holeAt + Us(c.hz, WRITE_END_US));
    if c.sel >= 0 { CommitOk(c.drives[c.sel], c.xferTrack, c1.buf.pending); }
  }

  lemma HandleValid(c: Card, e: Event, t: nat)
    requires Valid(c) && Next(c, t) == Some(e)
    ensures Valid(Handle(c, e))
  {
    match e
    case Hole => HoleValid(c, t);
    case WindowEnd =>
      WindowFindsSectorTrueOver(c, t);
      StartWriteValid(c);
      StartReadValid(c);
    case XferEnd =>
      if c.phase.Writing? { FinishWriteValid(c); }
      else { FillToValid(c, c.holeAt + Us(c.hz, READ_END_US)); }
    case _ =>
  }

  lemma HoleDecreases(c: Card, t: nat)
    requires Valid(c) && Next(c, t) == Some(Hole)
    ensures HolesLeft(Handle(c, Hole), t) < HolesLeft(c, t)
  {
    UsMonotone(c.hz, 0, REV_US);
  }

  /** Nothing but a hole changes when the next hole is, or whether there is one. */
  predicate SameTurning(c: Card, c': Card)
    requires |c.drives| == |c'.drives| == DRIVES && c.sel < DRIVES && c'.sel < DRIVES
  {
    Spinning(c') == Spinning(c) && c'.nextHole == c.nextHole
  }

  lemma FinishWriteTurns(c: Card)
    requires Valid(c) && c.phase.Writing?
    ensures |FinishWrite(c).drives| == DRIVES && FinishWrite(c).sel == c.sel && SameTurning(c, FinishWrite(c))
    ensures Rank(FinishWrite(c)) < Rank(c)
  {}

  lemma FinishReadTurns(c: Card)
    requires Valid(c) && c.phase.Reading?
    ensures |FinishRead(c).drives| == DRIVES && FinishRead(c).sel == c.sel && SameTurning(c, FinishRead(c))
    ensures Rank(FinishRead(c)) < Rank(c)
  {}

  lemma WindowEndTurns(c: Card)
    requires Valid(c) && c.phase.Window? && c.sectorTrue.Stopped?
    ensures SameTurning(c, StartWrite(c)) && SameTurning(c, StartRead(c))
    ensures Rank(StartWrite(c)) < Rank(c) && Rank(StartRead(c)) < Rank(c)
  {}

  lemma HandleDecreases(c: Card, e: Event, t: nat)
    requires Valid(c) && Next(c, t) == Some(e) && Valid(Handle(c, e))
    ensures var c' := Handle(c, e);
      HolesLeft(c', t) < HolesLeft(c, t) || (HolesLeft(c', t) == HolesLeft(c, t) && Rank(c') < Rank(c))
  {
    match e
    case Hole => HoleDecreases(c, t);
    case WindowEnd =>
      WindowFindsSectorTrueOver(c, t);
      WindowEndTurns(c);
    case XferEnd => if c.phase.Writing? { FinishWriteTurns(c); } else { FinishReadTurns(c); }
    case _ =>
  }

  lemma {:induction false} RunToValid(c: Card, t: nat)
    requires Valid(c)
    ensures Valid(RunTo(c, t))
    ensures Quiet(RunTo(c, t), t)
    decreases HolesLeft(c, t), Rank(c)
  {
    var e := Next(c, t);
    if e.Some? {
      HandleValid(c, e.value, t);
      HandleDecreases(c, e.value, t);
      RunToValid(Handle(c, e.value), t);
    }
  }

  lemma AdvanceValid(c: Card, t: nat)
    requires Valid(c)
    ensures Valid(Advance(c, t)) && Quiet(Advance(c, t), t)
  {
    hide Next;
    RunToValid(c, t);
    var d := RunTo(c, t);
    if d.phase.Reading? { FillToValid(d, t); }
    assert forall e :: Live(Catch(d, t), e) ==> Live(d, e) && When(Catch(d, t), e) == When(d, e);
  }
}
