/** The serial drive's panel in plain numbers: where steps leave the track count, what each bit of a command does,
    and that the TRACK 0 line tells the truth over every run. */
module SerialDrivePanel {
  import opened Arithmetic
  import opened Basics
  import opened SerialDriveModel
  import opened SerialDriveCache

  // ---------------------------------------------------------------------------------------
  // Steps
  // ---------------------------------------------------------------------------------------

  /** A track after `n` steps: no lower than 0, and no higher than twelve bits hold. */
  function Stepped(t: nat, out: bool, n: nat): nat {
    if out then (if n > t then 0 else t - n) else (if t + n > 4095 then 4095 else t + n)
  }

  /** A command that steps: bit 1 out, or bit 0 without it in. */
  predicate StepsOnce(v: byte, out: bool) {
    if out then v % 4 >= 2 else v % 4 == 1
  }

  function Commands(b: Board, vs: seq<byte>): (b': Board)
    requires Valid(b)
    ensures Valid(b')
    decreases |vs|
  {
    if |vs| == 0 then b
    else
      CommandValid(b, vs[0]);
      Commands(Command(b, vs[0]), vs[1..])
  }

  lemma StepBit(v: byte)
    ensures Bit(v, 2) <==> v % 4 >= 2
  {}

  lemma OneStep(b: Board, v: byte, out: bool)
    requires Valid(b) && DriveReady(b) && StepsOnce(v, out)
    ensures var n := Command(b, v);
      && DriveReady(n) && n.p.cur == b.p.cur && n.p.status.move
      && n.p.tracks == b.p.tracks[b.p.cur := Stepped(b.p.tracks[b.p.cur], out, 1)]
  {
    hide Bit;
    StepBit(v);
  }

  /** `n` steps one way count that drive's track `n` on, or to its end, and no other drive's. */
  lemma {:induction false} StepsGo(b: Board, vs: seq<byte>, out: bool)
    requires Valid(b) && DriveReady(b) && forall i :: 0 <= i < |vs| ==> StepsOnce(vs[i], out)
    ensures var n := Commands(b, vs);
      && DriveReady(n) && n.p.cur == b.p.cur < |b.p.tracks|
      && n.p.tracks == b.p.tracks[b.p.cur := Stepped(b.p.tracks[b.p.cur], out, |vs|)]
    decreases |vs|
  {
    hide Command, Valid;
    TracksFit(b);
    if |vs| > 0 {
      OneStep(b, vs[0], out);
      CommandValid(b, vs[0]);
      StepsGo(Command(b, vs[0]), vs[1..], out);
    }
  }

  lemma TracksFit(b: Board)
    requires Valid(b)
    ensures b.p.cur < |b.p.tracks| && b.p.tracks[b.p.cur] < 4096
  {}

  // ---------------------------------------------------------------------------------------
  // The bits of a command
  // ---------------------------------------------------------------------------------------

  /** A ready drive with a head to load: bit 2 loads it, bit 3 alone unloads it, and a step leaves it loaded but
      not yet settled. */
  lemma HeadBits(b: Board, v: byte)
    requires Valid(b) && DriveReady(b) && !b.mini
    ensures var n, load, unload := Command(b, v).p, v / 4 % 2 == 1, v / 8 % 2 == 1;
      && (load ==> n.headLoaded && !n.status.head)
      && (!load && unload ==> !n.headLoaded && n.status.head)
      && (!load && !unload ==> n.headLoaded == b.p.headLoaded && n.status.head == (b.p.status.head || v % 4 != 0))
  {}

  /** The Minidisk has no head to load. */
  lemma MiniHeadBits(b: Board, v: byte)
    requires Valid(b) && DriveReady(b) && b.mini
    ensures var n := Command(b, v).p; n.headLoaded == b.p.headLoaded && n.status.head == (b.p.status.head || v % 4 != 0)
  {}

  /** Bit 7 enables a write, and makes the buffer owed; bit 5 turns the interrupts off, and bit 4 without it on. */
  lemma EnableBits(b: Board, v: byte)
    requires Valid(b) && DriveReady(b)
    ensures var n := Command(b, v);
      && (v / 128 == 1 ==> n.c.dirty && !n.p.status.enwd)
      && (v / 128 == 0 ==> n.c.dirty == b.c.dirty && n.p.status.enwd == b.p.status.enwd)
      && (v / 32 % 2 == 1 ==> !n.p.intsOn)
      && (v / 32 % 2 == 0 && v / 16 % 2 == 1 ==> n.p.intsOn)
      && (v / 16 % 4 == 0 ==> n.p.intsOn == b.p.intsOn)
  {
    assert v / 16 % 4 == v / 32 % 2 * 2 + v / 16 % 2;
  }

  /** A select below 128 is of the drive in its low three bits, which is ready if the server has said so; from 128
      up it is of none. */
  lemma SelectMeans(b: Board, v: byte)
    requires Valid(b)
    ensures var n := Select(b, v);
      && (v >= 128 ==> n.p.status.Byte() == 255 && n.p.cur == b.p.cur)
      && (v < 128 ==> n.p.cur == v % 8 && (DriveReady(n) <==> v % 8 in b.p.ready))
      && (DriveReady(n) ==> (n.p.headLoaded <==> b.mini) && (n.p.status.head <==> !b.mini))
      && n.p.tracks == b.p.tracks && Value(n, 1) == 255 && !n.p.intsOn && n.c == b.c && n.l == b.l
  {}

  /** A step puts the sector port at FF, and so does any head command of a drive with a head to load. */
  lemma SectorPortBits(b: Board, v: byte)
    requires Valid(b) && DriveReady(b)
    ensures var n := Command(b, v);
      Value(n, 1) == if v % 4 != 0 || (v / 4 % 4 != 0 && !b.mini) then 255 else Value(b, 1)
  {
    assert v % 16 == v / 4 % 4 * 4 + v % 4;
  }

  /** Once the step timer has run out, a ready drive shows MOVE HEAD, and HEAD if the head is loaded. */
  lemma SettledReads(b: Board)
    requires Valid(b)
    ensures var v := Value(Settled(b), 0);
      && (v / 2 % 2 == 0 <==> DriveReady(b) || !b.p.status.move)
      && (v / 4 % 2 == 0 <==> b.p.headLoaded || !b.p.status.head)
  {
    StatusTells(Settled(b).p.status);
  }

  /** A Minidisk gone to sleep has no line of any port active, and its head up. */
  lemma SleepReads(b: Board)
    ensures var n := TurnOff(b);
      && Value(n, 0) == 255 && Value(n, 1) == 255 && !n.p.intsOn && !n.p.headLoaded && !DriveReady(n)
      && n.p.tracks == b.p.tracks && n.c == b.c && n.l == b.l
  {}

  /** The board as the power comes on, to the guest. */
  lemma PowerReads(mini: bool, tick: nat)
    ensures var b := PowerOn(mini, tick);
      && Value(b, 0) == 255 && Value(b, 1) == 255 && Value(b, 2) == 0 && !b.p.intsOn && !b.p.headLoaded
      && b.p.ready == {} && b.p.cur == 0 && b.p.tracks == [0, 0, 0, 0, 0, 0, 0, 0]
      && !b.c.dirty && !b.c.want && !b.c.flushNow && b.c.key == 32768
      && b.l.phase.Idle? && b.l.statAt == 0 && b.l.rx == [] && b.l.tx == [] && b.l.log == [] && !b.l.readAfter
  {}

  // ---------------------------------------------------------------------------------------
  // Sectors going by
  // ---------------------------------------------------------------------------------------

  /** The ports by number: only the sector port and the data port do anything when read. */
  lemma PortsByNumber(b: Board, tick: nat)
    requires Valid(b)
    ensures Value(b, 0) == b.p.status.Byte() && InPort(b, 0, tick) == b
    ensures Value(b, 1) == b.p.sectorPos && InPort(b, 1, tick) == SectorRead(b, tick)
    ensures Value(b, 2) == b.p.readData && InPort(b, 2, tick) == DataRead(b)
    ensures Value(b, 3) == 0 && InPort(b, 3, tick) == b
  {}

  /** A read of the sector port: with another track in the buffer it asks for the right one and shows FF; with the
      right one it shows the next sector when its time has come and it has arrived, sector true LOW, and otherwise
      the same sector with sector true over. */
  lemma NextSector(b: Board, tick: nat)
    requires Valid(b)
    ensures var n, sp, sectors := InPort(b, 1, tick), Value(b, 1), if b.mini then 16 else 32;
      var next := (sp / 2 + 1) % sectors;
      && (b.c.key != CurKey(b) ==> n.c.want && Value(n, 1) == 255)
      && (b.c.key == CurKey(b) && tick != b.p.tickSeen && next < b.c.secsBuf ==>
            Value(n, 1) == 192 + 2 * next && n.p.tickSeen == tick)
      && (b.c.key == CurKey(b) && (tick == b.p.tickSeen || next >= b.c.secsBuf) ==>
            Value(n, 1) / 2 == sp / 2 && Value(n, 1) % 2 == 1 && n.p.tickSeen == b.p.tickSeen)
      && n.c == b.c.(want := n.c.want) && n.p.cur == b.p.cur && n.p.tracks == b.p.tracks && n.mini == b.mini
  {}

  /** The board after reads of the sector port at these ticks. */
  function Looks(b: Board, ticks: seq<nat>): (b': Board)
    requires Valid(b)
    ensures Valid(b')
    decreases |ticks|
  {
    if |ticks| == 0 then b
    else
      SectorReadValid(b, ticks[0]);
      Looks(InPort(b, 1, ticks[0]), ticks[1..])
  }

  predicate NewTicks(seen: nat, ticks: seq<nat>)
    decreases |ticks|
  {
    |ticks| > 0 ==> ticks[0] != seen && NewTicks(ticks[0], ticks[1..])
  }

  /** SECTORS COME ROUND. With the whole track in the buffer, one look a sector time shows the sectors in order, round
      from the last to the first, each with sector true. */
  lemma {:induction false} SectorsComeRound(b: Board, ticks: seq<nat>, at: nat)
    requires Valid(b) && b.c.key == CurKey(b) && NewTicks(b.p.tickSeen, ticks) && |ticks| > 0
    requires b.c.secsBuf == (if b.mini then 16 else 32) && at == Value(b, 1) / 2
    ensures var n, sectors := Looks(b, ticks), if b.mini then 16 else 32;
      Value(n, 1) == 192 + 2 * ((at + |ticks|) % sectors)
    decreases |ticks|
  {
    hide Valid, InPort, Value;
    NextSector(b, ticks[0]);
    SectorReadValid(b, ticks[0]);
    PortsByNumber(b, ticks[0]);
    var n, sectors := InPort(b, 1, ticks[0]), if b.mini then 16 else 32;
    SameKey(b, n);
    if |ticks| > 1 {
      SectorsComeRound(n, ticks[1..], Value(n, 1) / 2);
      RoundAgain(at, |ticks| - 1, b.mini);
    } else {
      assert ticks[1..] == [] && Looks(n, []) == n;
    }
  }

  lemma SameKey(b: Board, n: Board)
    requires Valid(b) && n.p.cur == b.p.cur && n.p.tracks == b.p.tracks
    ensures |n.p.tracks| == 8 && n.p.cur < 8 && CurKey(n) == CurKey(b)
  {}

  lemma RoundAgain(at: nat, k: nat, mini: bool)
    ensures var sectors := if mini then 16 else 32;
      ((192 + 2 * ((at + 1) % sectors)) / 2 + k) % sectors == (at + 1 + k) % sectors
  {
    if mini { RoundSixteen(at, k); } else { RoundThirtyTwo(at, k); }
  }

  lemma RoundSixteen(at: nat, k: nat)
    ensures ((192 + 2 * ((at + 1) % 16)) / 2 + k) % 16 == (at + 1 + k) % 16
  {}

  lemma RoundThirtyTwo(at: nat, k: nat)
    ensures ((192 + 2 * ((at + 1) % 32)) / 2 + k) % 32 == (at + 1 + k) % 32
  {}

  // ---------------------------------------------------------------------------------------
  // A sector's bytes
  // ---------------------------------------------------------------------------------------

  /** A sector found -- sector true LOW -- and `n` bytes of it taken. */
  function Takes(b: Board, n: nat): (b': Board)
    requires Valid(b)
    ensures Valid(b')
    decreases n
  {
    if n == 0 then b
    else
      var c := Takes(b, n - 1);
      DataReadValid(c);
      InPort(c, 2, 0)
  }

  /** ONE SECTOR, BYTE BY BYTE. Once a look has found sector true, the data port gives its 137 bytes in order from the
      buffer, NRDA asserted up to the last and not past it. */
  lemma {:induction false} SectorReadsOut(b: Board, tick: nat, n: nat)
    requires Valid(b) && Value(b, 1) % 2 == 0 && n <= 137
    ensures Valid(InPort(b, 1, tick))
    ensures var c := Takes(InPort(b, 1, tick), n); var at := Value(b, 1) / 2 % (if b.mini then 16 else 32) * 137;
      && |b.c.buf| == 4384 && at + 137 <= 4384 && c.c.buf == b.c.buf
      && c.p.byteCount == n && c.p.pSector == at + n
      && (n < 137 ==> Value(c, 2) == b.c.buf[at + n])
      && (Value(c, 0) / 128 == 0 <==> n < 137)
    decreases n
  {
    SectorReadValid(b, tick);
    var f := InPort(b, 1, tick);
    if n > 0 {
      SectorReadsOut(b, tick, n - 1);
      StatusTells(Takes(f, n - 1).p.status);
    }
    StatusTells(Takes(f, n).p.status);
  }

  /** The board after bytes are put to the data port. */
  function Puts(b: Board, data: seq<byte>): (b': Board)
    requires Valid(b)
    ensures Valid(b')
    decreases |data|
  {
    if |data| == 0 then b
    else
      var c := Puts(b, data[..|data| - 1]);
      PutValid(c, data[|data| - 1]);
      DataWrite(c, data[|data| - 1])
  }

  lemma PutValid(b: Board, v: byte)
    requires Valid(b)
    ensures Valid(DataWrite(b, v))
  {}

  /** `data` laid over a buffer from `at` on, as much of it as one sector holds. */
  function Laid(buf: seq<byte>, at: nat, data: seq<byte>): (r: seq<byte>)
    requires at + 137 <= |buf|
    ensures |r| == |buf|
  {
    if |data| < 137 then buf[..at] + data + buf[at + |data|..] else buf[..at] + data[..137] + buf[at + 137..]
  }

  lemma LaidOneMore(buf: seq<byte>, at: nat, data: seq<byte>)
    requires at + 137 <= |buf| && |data| > 0
    ensures var before := Laid(buf, at, data[..|data| - 1]);
      Laid(buf, at, data) == if |data| <= 137 then before[at + |data| - 1 := data[|data| - 1]] else before
  {}

  lemma PutOne(b: Board, v: byte)
    requires Valid(b) && |b.c.buf| == 4384 && (b.p.byteCount < 137 ==> b.p.pSector < 4384)
    ensures var c := DataWrite(b, v); var lands := b.p.byteCount < 137;
      && c.p.byteCount == b.p.byteCount + 1 && c.p.pSector == b.p.pSector + (if lands then 1 else 0)
      && c.c.buf == if lands then b.c.buf[b.p.pSector := v] else b.c.buf
  {}

  lemma SectorFound(b: Board, tick: nat)
    requires Valid(b) && Value(b, 1) % 2 == 0
    ensures var f, at := InPort(b, 1, tick), Value(b, 1) / 2 % (if b.mini then 16 else 32) * 137;
      Valid(f) && |b.c.buf| == 4384 && at + 137 <= 4384 && f.p.byteCount == 0 && f.p.pSector == at && f.c.buf == b.c.buf
  {
    SectorReadValid(b, tick);
  }

  /** And bytes put once a sector is found are that sector's in the buffer, the first 137 of them and no more. */
  lemma {:induction false} SectorFills(b: Board, tick: nat, data: seq<byte>)
    requires Valid(b) && Value(b, 1) % 2 == 0
    ensures Valid(InPort(b, 1, tick))
    ensures var c, at := Puts(InPort(b, 1, tick), data), Value(b, 1) / 2 % (if b.mini then 16 else 32) * 137;
      && |b.c.buf| == 4384 && at + 137 <= 4384
      && c.p.byteCount == |data| && c.p.pSector == at + (if |data| < 137 then |data| else 137)
      && c.c.buf == Laid(b.c.buf, at, data)
    decreases |data|
  {
    hide Valid, InPort, DataWrite, Value, Laid;
    SectorFound(b, tick);
    var f, at := InPort(b, 1, tick), Value(b, 1) / 2 % (if b.mini then 16 else 32) * 137;
    if |data| > 0 {
      var m := |data| - 1;
      SectorFills(b, tick, data[..m]);
      PutOne(Puts(f, data[..m]), data[m]);
      LaidOneMore(b.c.buf, at, data);
    } else {
      LaidNone(b.c.buf, at, data);
    }
  }

  lemma LaidNone(buf: seq<byte>, at: nat, data: seq<byte>)
    requires at + 137 <= |buf| && data == []
    ensures Laid(buf, at, data) == buf
  {}

  // ---------------------------------------------------------------------------------------
  // The TRACK 0 line
  // ---------------------------------------------------------------------------------------

  /** With a drive ready, the line is LOW exactly when the track count is 0. */
  predicate TellsTrack0(b: Board)
    requires Valid(b)
  {
    DriveReady(b) ==> (b.p.status.track0 <==> b.p.tracks[b.p.cur] != 0)
  }

  lemma CommandTells(b: Board, v: byte)
    requires Valid(b) && TellsTrack0(b)
    ensures Valid(Command(b, v)) && TellsTrack0(Command(b, v))
  {
    CommandValid(b, v);
  }

  lemma TurnPanel(b: Board, r: Turned)
    requires Valid(b) && Valid(r.b) && TellsTrack0(b) && (r.b.p == b.p || !DriveReady(r.b) || SameHead(b, r.b))
    ensures TellsTrack0(r.b)
  {}

  predicate SameHead(b: Board, n: Board) {
    n.p.status == b.p.status && n.p.tracks == b.p.tracks && n.p.cur == b.p.cur
  }

  lemma ActPanel(b: Board, h: nat)
    requires Valid(b)
    ensures var n := Act(b, h).b; !DriveReady(n) || SameHead(b, n)
  {
    hide Good, GoodOk, GoodTrack, Message, Mask, Sum16, Valid;
  }

  lemma TurnTells(w: World, w': World, h: nat, n: nat, arrived: seq<byte>, more: nat)
    requires Valid(w.b) && Valid(w'.b) && TellsTrack0(w.b) && n <= |w.b.l.tx| && TurnStep(w, w', h, n, arrived, more)
    ensures TellsTrack0(w'.b)
  {
    hide Act;
    ActPanel(Receive(Transmit(w.b, n, h), arrived, h), h);
  }

  lemma StepTells(w: World, e: Event, w': World)
    requires Valid(w.b) && Valid(w'.b) && AllTracks(w.disk, TrackLen(w.b)) && Step(w, e, w') && TellsTrack0(w.b)
    ensures TellsTrack0(w'.b)
  {
    hide Command, TurnStep, ServerStep, Written;
    match e {
      case CommandOut(v) => CommandTells(w.b, v);
      case LinkTurn(h, n, arrived, more) => TurnTells(w, w', h, n, arrived, more);
      case _ =>
    }
  }

  /** Over every run from power-on, disciplined or not, and whatever the line brings. */
  lemma {:induction false} Track0IsTrue(ws: seq<World>, es: seq<Event>, i: nat, tick: nat)
    requires Trail(ws, es) && i < |ws| && Valid(ws[|es|].b) && ws[0].b == PowerOn(ws[0].b.mini, tick)
    ensures Valid(ws[i].b) && TellsTrack0(ws[i].b)
    ensures DriveReady(ws[i].b) ==> (Value(ws[i].b, 0) / 64 % 2 == 0 <==> ws[i].b.p.tracks[ws[i].b.p.cur] == 0)
    decreases i
  {
    hide Step, Valid, AllTracks, TellsTrack0;
    if i > 0 {
      Track0IsTrue(ws, es, i - 1, tick);
      assert Step(ws[i - 1], es[i - 1], ws[i]);
      StepTells(ws[i - 1], es[i - 1], ws[i]);
    } else {
      PowerTells(ws[0].b);
    }
    LineTells(ws[i].b);
  }

  lemma PowerTells(b: Board)
    requires Valid(b) && !DriveReady(b)
    ensures TellsTrack0(b)
  {}

  lemma LineTells(b: Board)
    requires Valid(b) && TellsTrack0(b)
    ensures b.p.cur < |b.p.tracks|
    ensures DriveReady(b) ==> (Value(b, 0) / 64 % 2 == 0 <==> b.p.tracks[b.p.cur] == 0)
  {
    StatusTells(b.p.status);
  }
}
