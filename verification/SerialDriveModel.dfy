/** The FDC+ serial drive as a value: the registers the 8080 sees, the one-track cache behind them,
    and the link to the drive server.
 */
module SerialDriveModel {
  import opened Arithmetic
  import opened Basics

  const SLOT: nat := 137          // bytes in a sector
  const TRACK_BUF: nat := 32 * SLOT
  const MSG_LEN: nat := 10
  const STAT_NS: nat := 100_000_000
  const TIMEOUT_NS: nat := 1_000_000_000
  const WRITE_TRIES: nat := 3
  const NO_TRACK: nat := 0x8000   // bit 15 of the key: the buffer means nothing

  /** The status register's lines; every line is asserted LOW, so `true` reads 1. */
  datatype Status = Status(enwd: bool, move: bool, head: bool, ready: bool, track0: bool, nrda: bool) {
    /** As the 8080 reads it: bit 5 always reads 1, and bit 4 goes with READY. */
    function Byte(): byte {
      (if enwd then 0x01 else 0) + (if move then 0x02 else 0) + (if head then 0x04 else 0)
      + (if ready then 0x18 else 0) + 0x20 + (if track0 then 0x40 else 0) + (if nrda then 0x80 else 0)
    }
  }

  const ALL_HIGH := Status(true, true, true, true, true, true)  // FF
  const INIT := Status(true, false, true, false, true, true)  // E5

  /** The registers, and where in the track buffer the guest is. */
  datatype Panel = Panel(
    status: Status, sectorPos: byte, readData: byte, ready: set<nat>, cur: nat, tracks: seq<nat>,
    headLoaded: bool, intsOn: bool, byteCount: nat, pSector: nat, tickSeen: nat)

  /** The track buffer: what drive and track it holds, and what is owed to it. */
  datatype Cache = Cache(buf: seq<byte>, key: nat, secsBuf: nat, dirty: bool, want: bool, flushNow: bool)

  datatype Phase = Idle | Stat | Read | WritAsk | WritSta

  /** The link: its state, its timers, the bytes come and the bytes still to go, and the tracks
      whose writes it has had to give up and say so. */
  datatype Link = Link(
    phase: Phase, statAt: nat, deadline: nat, tries: nat, readAfter: bool,
    rx: seq<byte>, tx: seq<byte>, log: seq<nat>)

  datatype Board = Board(mini: bool, p: Panel, c: Cache, l: Link)

  function Sectors(b: Board): nat { if b.mini then 16 else 32 }

  function TrackLen(b: Board): nat { Sectors(b) * SLOT }

  function CurKey(b: Board): (k: nat)
    requires |b.p.tracks| == 8 && b.p.cur < 8
  {
    b.p.cur * 0x1000 + b.p.tracks[b.p.cur]
  }

  /** The drive and track the buffer holds or held. */
  function KeyOf(b: Board): nat { b.c.key % NO_TRACK }

  predicate DriveReady(b: Board) { !b.p.status.ready }

  predicate Valid(b: Board) {
    && |b.p.tracks| == 8 && b.p.cur < 8 && (forall d :: 0 <= d < 8 ==> b.p.tracks[d] < 0x1000)
    && |b.c.buf| == TRACK_BUF && b.c.key < 2 * NO_TRACK
    && (b.p.byteCount < SLOT ==> b.p.byteCount <= b.p.pSector < b.p.byteCount + TrackLen(b) - SLOT + 1)
  }

  lemma CurKeyFits(b: Board)
    requires Valid(b)
    ensures CurKey(b) < NO_TRACK
  {}

  /** As the power comes on, at sector-timer tick `tick`: no drive ready until the server says so, every track
      count at zero, nothing in the buffer, nothing owed, and the server to be asked at once. */
  function PowerOn(mini: bool, tick: nat): (b: Board)
    ensures Valid(b)
  {
    Board(mini,
          Panel(ALL_HIGH, 0xFF, 0, {}, 0, [0, 0, 0, 0, 0, 0, 0, 0], false, false, 0, 0, tick),
          Cache(seq(TRACK_BUF, _ => 0), NO_TRACK, 0, false, false, false),
          Link(Idle, 0, 0, 0, false, [], [], []))
  }

  // ---------------------------------------------------------------------------------------
  // The ports
  // ---------------------------------------------------------------------------------------

  function Select(b: Board, v: byte): (b': Board)
    requires Valid(b)
  {
    var d := v % 8;
    var off := Bit(v, 0x80);
    var up := !off && d in b.p.ready;
    b.(p := b.p.(
      status := if !up then ALL_HIGH else INIT.(track0 := b.p.tracks[d] != 0, head := !b.mini),
      sectorPos := 0xFF, intsOn := false,
      headLoaded := up && b.mini,
      cur := if off then b.p.cur else d))
  }

  /** The drive keeps its own track count, twelve bits of it. */
  function NextTrack(t: nat, out: bool): nat {
    if out then (if t > 0 then t - 1 else t) else if t < 0xFFF then t + 1 else t
  }

  /** A step (out wins over in), then unload, then load; then write enable; then interrupts, where
      disable wins. The Minidisk has no head to load. */
  function Command(b: Board, v: byte): (b': Board)
    requires Valid(b)
  {
    if !DriveReady(b) then b
    else
      var t := b.p.tracks[b.p.cur];
      var step, out := v % 4 != 0, Bit(v, 2);
      var load, unload := Bit(v, 4) && !b.mini, Bit(v, 8) && !b.mini;
      b.(p := b.p.(
           sectorPos := if step || (v % 16 != 0 && !b.mini) then 0xFF else b.p.sectorPos,
           tracks := if step then b.p.tracks[b.p.cur := NextTrack(t, out)] else b.p.tracks,
           headLoaded := load || (b.p.headLoaded && !unload),
           intsOn := !Bit(v, 0x20) && (b.p.intsOn || Bit(v, 0x10)),
           status := b.p.status.(
             enwd := b.p.status.enwd && !Bit(v, 0x80),
             move := b.p.status.move || step,
             head := !load && (b.p.status.head || step || unload),
             track0 := if step then (if out then b.p.status.track0 && t != 1 else true) else b.p.status.track0)),
         c := b.c.(dirty := b.c.dirty || Bit(v, 0x80)))
  }

  /** After the 8080 has read the sector port, at sector-timer tick `tick`. */
  function SectorRead(b: Board, tick: nat): (b': Board)
    requires Valid(b)
  {
    var sp := b.p.sectorPos;
    var found := sp % 2 == 0;
    var at := sp / 2 % Sectors(b) * SLOT;
    var next := (sp / 2 + 1) % Sectors(b);
    var here := b.c.key == CurKey(b);
    var on := here && tick != b.p.tickSeen && next < b.c.secsBuf;
    b.(p := b.p.(
         status := b.p.status.(enwd := true, nrda := b.p.status.nrda && !found),
         byteCount := if found then 0 else b.p.byteCount,
         pSector := if found then at else b.p.pSector,
         readData := if found then b.c.buf[at] else b.p.readData,
         sectorPos := if !here then 0xFF else if on then next * 2 + 0xC0 else sp + 1 - sp % 2,
         tickSeen := if on then tick else b.p.tickSeen),
       c := b.c.(want := b.c.want || !here))
  }

  /** What an IN returns; the fourth port is reserved. */
  function Value(b: Board, port: nat): byte {
    if port == 0 then b.p.status.Byte()
    else if port == 1 then b.p.sectorPos
    else if port == 2 then b.p.readData
    else 0
  }

  /** The board after an IN. */
  function InPort(b: Board, port: nat, tick: nat): (b': Board)
    requires Valid(b)
  {
    if port == 1 then SectorRead(b, tick) else if port == 2 then DataRead(b) else b
  }

  /** Every line is read back from the status byte. */
  lemma StatusTells(s: Status)
    ensures Bit(s.Byte(), 0x01) == s.enwd && Bit(s.Byte(), 0x02) == s.move && Bit(s.Byte(), 0x04) == s.head
    ensures Bit(s.Byte(), 0x08) == s.ready && Bit(s.Byte(), 0x40) == s.track0 && Bit(s.Byte(), 0x80) == s.nrda
    ensures ALL_HIGH.Byte() == 0xFF && INIT.Byte() == 0xE5
  {
    var e, m, h := if s.enwd then 1 else 0, if s.move then 1 else 0, if s.head then 1 else 0;
    var r, t, n := if s.ready then 1 else 0, if s.track0 then 1 else 0, if s.nrda then 1 else 0;
    ByteBits(e, m, h, r, t, n);
  }

  lemma ByteBits(e: nat, m: nat, h: nat, r: nat, t: nat, n: nat)
    requires e < 2 && m < 2 && h < 2 && r < 2 && t < 2 && n < 2
    ensures var v := e + 2 * m + 4 * h + 24 * r + 32 + 64 * t + 128 * n;
      v < 256 && v % 2 == e && v / 2 % 2 == m && v / 4 % 2 == h && v / 8 % 2 == r && v / 64 % 2 == t && v / 128 % 2 == n
  {
    var v := e + 2 * m + 4 * h + 24 * r + 32 + 64 * t + 128 * n;
    assert v / 2 == m + 2 * h + 12 * r + 16 + 32 * t + 64 * n;
    assert v / 4 == h + 6 * r + 8 + 16 * t + 32 * n;
    assert v / 8 == 3 * r + 4 + 8 * t + 16 * n;
    assert v / 64 == t + 2 * n;
  }

  /** After the 8080 has taken a byte. */
  function DataRead(b: Board): (b': Board)
    requires Valid(b)
  {
    var n := b.p.byteCount + 1;
    var q := b.p.pSector + 1;
    b.(p := b.p.(byteCount := n, pSector := q,
                 status := b.p.status.(nrda := b.p.status.nrda || n >= SLOT),
                 readData := if q < TRACK_BUF then b.c.buf[q] else 0))
  }

  /** The first 137 bytes land in the buffer. */
  predicate Lands(b: Board) { b.p.byteCount < SLOT }

  function DataWrite(b: Board, v: byte): (b': Board)
    requires Valid(b)
  {
    b.(p := b.p.(byteCount := b.p.byteCount + 1, pSector := if Lands(b) then b.p.pSector + 1 else b.p.pSector),
       c := if Lands(b) && b.p.pSector < TRACK_BUF then b.c.(buf := b.c.buf[b.p.pSector := v]) else b.c)
  }

  /** The head's step timer runs out. */
  function Settled(b: Board): (b': Board) {
    b.(p := b.p.(status := b.p.status.(move := b.p.status.move && !DriveReady(b),
                                       head := b.p.status.head && !b.p.headLoaded)))
  }

  /** The idle time is up: forget the buffer, and have it written back if it is dirty. */
  function LetGo(b: Board): (b': Board) {
    b.(c := b.c.(key := b.c.key % NO_TRACK + NO_TRACK, flushNow := b.c.flushNow || b.c.dirty))
  }

  /** The Minidisk turns off. */
  function TurnOff(b: Board): (b': Board) {
    b.(p := b.p.(status := ALL_HIGH, sectorPos := 0xFF, intsOn := false, headLoaded := false))
  }

  // ---------------------------------------------------------------------------------------
  // Messages
  // ---------------------------------------------------------------------------------------

  /** The sum of the bytes, in sixteen bits. */
  function Sum16(s: seq<byte>): (r: nat)
    ensures r < 0x10000
  {
    if |s| == 0 then 0 else (Sum16(s[..|s| - 1]) + s[|s| - 1]) % 0x10000
  }

  function Word(s: seq<byte>, i: nat): (w: nat)
    requires i + 1 < |s|
  {
    s[i] as int + 256 * (s[i + 1] as int)
  }

  function Le(w: nat): (s: seq<byte>)
    requires w < 0x10000
    ensures |s| == 2
  {
    [w % 256, w / 256]
  }

  datatype Command4 = STAT | READ | WRIT | WSTA

  function Ascii(c: Command4): (s: seq<byte>)
    ensures |s| == 4
  {
    match c
    case STAT => [83, 84, 65, 84]
    case READ => [82, 69, 65, 68]
    case WRIT => [87, 82, 73, 84]
    case WSTA => [87, 83, 84, 65]
  }

  /** A ten-byte message: four letters, two little-endian words, and their sum. */
  function Message(c: Command4, p1: nat, p2: nat): (m: seq<byte>)
    requires p1 < 0x10000 && p2 < 0x10000
    ensures |m| == MSG_LEN
  {
    var body := Ascii(c) + Le(p1) + Le(p2);
    body + Le(Sum16(body))
  }

  /** The first ten bytes are a reply to `c`, undamaged. */
  predicate Good(c: Command4, r: seq<byte>) {
    |r| >= MSG_LEN && r[..4] == Ascii(c) && Sum16(r[..8]) == Word(r, 8)
  }

  /** ...and say that all is well. */
  predicate GoodOk(c: Command4, r: seq<byte>) {
    Good(c, r) && Word(r, 4) == 0
  }

  /** A whole track and its sum. */
  predicate GoodTrack(r: seq<byte>, len: nat) {
    |r| >= len + 2 && Sum16(r[..len]) == Word(r, len)
  }

  // ---------------------------------------------------------------------------------------
  // One turn of the link
  // ---------------------------------------------------------------------------------------

  /** What a turn put on the line. */
  datatype Request = Nothing | AskStat | AskRead(key: nat) | AskWrite(key: nat) | SendTrack(data: seq<byte>)

  datatype Turned = Turned(b: Board, req: Request)

  function Send(l: Link, m: seq<byte>, h: nat, phase: Phase): Link {
    l.(rx := [], tx := l.tx + m, deadline := h + TIMEOUT_NS, phase := phase)
  }

  function StartRead(b: Board, h: nat): (r: Turned)
    requires Valid(b)
    ensures r.req == AskRead(CurKey(b))
  {
    var k := CurKey(b);
    Turned(b.(c := b.c.(secsBuf := 0, key := k), l := Send(b.l, Message(READ, k, TrackLen(b)), h, Read)), AskRead(k))
  }

  function StartWrite(b: Board, h: nat): (r: Turned)
    requires Valid(b)
    ensures r.req == AskWrite(KeyOf(b))
  {
    Turned(b.(c := b.c.(dirty := false),
              l := Send(b.l, Message(WRIT, KeyOf(b), TrackLen(b)), h, WritAsk).(tries := WRITE_TRIES)),
           AskWrite(KeyOf(b)))
  }

  function SendTheTrack(b: Board, h: nat): (r: Turned)
    requires Valid(b)
  {
    var data := b.c.buf[..TrackLen(b)];
    Turned(b.(l := Send(b.l, data + Le(Sum16(data)), h, WritSta)), SendTrack(data))
  }

  /** A try of the write has ended: done, or again, or given up and said so. */
  function FinishWrite(b: Board, ok: bool, h: nat): (r: Turned)
    requires Valid(b)
  {
    if !ok && b.l.tries > 1 then
      Turned(b.(l := Send(b.l, Message(WRIT, KeyOf(b), TrackLen(b)), h, WritAsk).(tries := b.l.tries - 1)),
             AskWrite(KeyOf(b)))
    else
      var l := b.l.(phase := Idle, statAt := h + STAT_NS, readAfter := false,
                    tries := if ok then b.l.tries else 0,
                    log := if ok then b.l.log else b.l.log + [KeyOf(b)]);
      if b.l.readAfter then StartRead(b.(l := l), h) else Turned(b.(l := l), Nothing)
  }

  function TurnIdle(b: Board, h: nat): (r: Turned)
    requires Valid(b)
  {
    if b.c.want then
      if b.c.dirty then StartWrite(b.(l := b.l.(readAfter := true)), h) else StartRead(b, h)
    else if b.c.flushNow then
      var b1 := b.(c := b.c.(flushNow := false));
      if b.c.dirty then StartWrite(b1.(l := b1.l.(readAfter := false)), h) else Turned(b1, Nothing)
    else if h >= b.l.statAt then
      var p1 := if DriveReady(b) then b.p.cur + (if b.p.headLoaded then 0xFF00 else 0) else 0xFF;
      Turned(b.(l := Send(b.l, Message(STAT, p1, b.p.tracks[b.p.cur]), h, Stat)), AskStat)
    else Turned(b, Nothing)
  }

  /** Bit `d` of a sixteen-bit mask. */
  function Mask(w: nat): set<nat> { set d: nat | d < 16 && w / Pow2(d) % 2 == 1 }

  function TurnStat(b: Board, h: nat, timedOut: bool): (r: Turned)
    requires Valid(b)
  {
    if |b.l.rx| >= MSG_LEN then
      var ready := if Good(STAT, b.l.rx) then Mask(Word(b.l.rx, 6)) else b.p.ready;
      var gone := Good(STAT, b.l.rx) && DriveReady(b) && b.p.cur !in ready;
      Turned(b.(p := b.p.(ready := ready, status := if gone then ALL_HIGH else b.p.status,
                          sectorPos := if gone then 0xFF else b.p.sectorPos),
                l := b.l.(phase := Idle, statAt := h + STAT_NS, rx := b.l.rx[MSG_LEN..])), Nothing)
    else if timedOut then Turned(b.(l := b.l.(phase := Idle, statAt := h + STAT_NS)), Nothing)
    else Turned(b, Nothing)
  }

  function TurnRead(b: Board, h: nat, timedOut: bool): (r: Turned)
    requires Valid(b)
  {
    var len := TrackLen(b);
    var got := Min(|b.l.rx|, len);
    var whole := |b.l.rx| >= len + 2;
    var done := whole || timedOut;
    var bad := done && !GoodTrack(b.l.rx, len);
    Turned(b.(c := b.c.(buf := b.l.rx[..got] + b.c.buf[got..], secsBuf := got / SLOT,
                        key := if bad then b.c.key % NO_TRACK + NO_TRACK else b.c.key,
                        want := b.c.want && !done),
              l := if done then b.l.(rx := [], phase := Idle, statAt := h + STAT_NS) else b.l), Nothing)
  }

  /** The ten bytes of a reply are taken, good or not. */
  function Took(b: Board): Board
    requires |b.l.rx| >= MSG_LEN
  {
    b.(l := b.l.(rx := b.l.rx[MSG_LEN..]))
  }

  function TurnAsk(b: Board, h: nat, timedOut: bool): (r: Turned)
    requires Valid(b)
  {
    if |b.l.rx| >= MSG_LEN then
      if GoodOk(WRIT, b.l.rx) then SendTheTrack(Took(b), h) else FinishWrite(Took(b), false, h)
    else if timedOut then FinishWrite(b, false, h)
    else Turned(b, Nothing)
  }

  function TurnSta(b: Board, h: nat, timedOut: bool): (r: Turned)
    requires Valid(b)
  {
    if |b.l.rx| >= MSG_LEN then FinishWrite(Took(b), GoodOk(WSTA, b.l.rx), h)
    else if timedOut then FinishWrite(b, false, h)
    else Turned(b, Nothing)
  }

  /** `n` queued bytes go out. */
  function Transmit(b: Board, n: nat, h: nat): (b': Board)
    requires n <= |b.l.tx|
  {
    b.(l := b.l.(tx := b.l.tx[n..], deadline := if n > 0 then h + TIMEOUT_NS else b.l.deadline))
  }

  /** The bytes that have come. */
  function Receive(b: Board, arrived: seq<byte>, h: nat): (b': Board) {
    b.(l := b.l.(rx := b.l.rx + arrived, deadline := if |arrived| > 0 then h + TIMEOUT_NS else b.l.deadline))
  }

  predicate TimedOut(b: Board, h: nat) { |b.l.tx| == 0 && h >= b.l.deadline }

  function Act(b: Board, h: nat): (r: Turned)
    requires Valid(b)
  {
    match b.l.phase
    case Idle => TurnIdle(b, h)
    case Stat => TurnStat(b, h, TimedOut(b, h))
    case Read => TurnRead(b, h, TimedOut(b, h))
    case WritAsk => TurnAsk(b, h, TimedOut(b, h))
    case WritSta => TurnSta(b, h, TimedOut(b, h))
  }

  /** One non-blocking turn at host time `h`: `n` bytes go, `arrived` come, the link acts, and up to
      `more` of what it has to say goes out at once. */
  function Turn(b: Board, h: nat, n: nat, arrived: seq<byte>, more: nat): (r: Turned)
    requires Valid(b) && n <= |b.l.tx|
  {
    var r := Act(Receive(Transmit(b, n, h), arrived, h), h);
    Turned(Transmit(r.b, Min(more, |r.b.l.tx|), h), r.req)
  }
}
