/** The write-back cache in front of a remote server: what the guest wrote is never lost.

    A world is the board, the server's tracks, and the disk as the guest has written it.
 */
module SerialDriveCache {
  import opened Basics
  import opened SerialDriveModel

  type Tracks = map<nat, seq<byte>>

  /** `store` is what the server holds and `disk` what the guest has written, by drive and track;
      `sent` is every track that has gone out, and under which key, since the write under way began. */
  datatype World = World(b: Board, store: Tracks, sent: set<(nat, seq<byte>)>, disk: Tracks)

  predicate AllTracks(m: Tracks, len: nat) {
    forall k: nat :: k < NO_TRACK ==> k in m && |m[k]| == len
  }

  predicate Busy(b: Board) { b.l.phase.WritAsk? || b.l.phase.WritSta? }

  /** The board holds writes that the server may not. */
  predicate Owes(b: Board) { b.c.dirty || Busy(b) }

  /** Track `k`'s give-up message has not been logged. */
  predicate Kept(b: Board, k: nat) { k !in b.l.log }

  function InBuffer(b: Board): (t: seq<byte>)
    requires Valid(b)
    ensures |t| == TrackLen(b)
  {
    b.c.buf[..TrackLen(b)]
  }

  /** The track owed is in the buffer, and every other one is on the server. */
  predicate Sound(b: Board, store: Tracks, disk: Tracks) {
    && Valid(b) && AllTracks(store, TrackLen(b)) && AllTracks(disk, TrackLen(b))
    && (forall k: nat :: k < NO_TRACK && Kept(b, k) && !(k == KeyOf(b) && Owes(b)) ==> store[k] == disk[k])
    && (Kept(b, KeyOf(b)) && !b.l.phase.Read? && (Owes(b) || b.c.key < NO_TRACK) ==> InBuffer(b) == disk[KeyOf(b)])
  }

  /** The cache invariant: nothing is dirty while the link carries a track, and what has been sent
      of a write under way is the buffer as it stands. */
  predicate Coherent(w: World) {
    && Sound(w.b, w.store, w.disk)
    && (w.b.c.dirty ==> w.b.l.phase.Idle? || w.b.l.phase.Stat?)
    && (Busy(w.b) ==> 1 <= w.b.l.tries <= WRITE_TRIES && forall s :: s in w.sent ==> s == (KeyOf(w.b), InBuffer(w.b)))
    && (w.b.l.phase.WritSta? ==> w.sent != {})
    && (!Busy(w.b) ==> forall s :: s in w.sent ==> Held(w, s))
  }

  /** A track sent in a write that has ended: the server has it, or need not. */
  predicate Held(w: World, s: (nat, seq<byte>)) {
    s.0 < NO_TRACK && |s.1| == TrackLen(w.b)
    && (Kept(w.b, s.0) && !(s.0 == KeyOf(w.b) && w.b.c.dirty) ==> s.0 in w.store && w.store[s.0] == s.1)
  }

  // ---------------------------------------------------------------------------------------
  // The server
  // ---------------------------------------------------------------------------------------

  /** What the cache needs of the bytes that come: a whole track with a good sum is the one last asked
      for, and "track written" is said only of a track of this write that the server holds. Which
      servers and lines see to that is SerialDriveServer's matter. */
  predicate Honest(w: World, rx: seq<byte>)
    requires Valid(w.b)
  {
    && (w.b.l.phase.Read? && GoodTrack(rx, TrackLen(w.b)) && KeyOf(w.b) in w.store && Kept(w.b, KeyOf(w.b)) ==>
        rx[..TrackLen(w.b)] == w.store[KeyOf(w.b)])
    && (w.b.l.phase.WritSta? && GoodOk(WSTA, rx) ==>
        exists s :: s in w.sent && s.0 in w.store && w.store[s.0] == s.1)
  }

  /** The server may take, in its own time, any track that has been sent. */
  predicate ServerStep(w: World, store: Tracks) {
    store == w.store || exists s :: s in w.sent && store == w.store[s.0 := s.1]
  }

  /** What has gone out, after a turn that put `req` on the line. */
  function NowSent(w: World, req: Request): set<(nat, seq<byte>)>
    requires Valid(w.b)
  {
    match req
    case AskWrite(_) => if Busy(w.b) then w.sent else {}
    case SendTrack(data) => w.sent + {(KeyOf(w.b), data)}
    case _ => w.sent
  }

  /** One turn of the link. */
  predicate TurnStep(w: World, w': World, h: nat, n: nat, arrived: seq<byte>, more: nat)
    requires Valid(w.b) && n <= |w.b.l.tx|
  {
    var r := Turn(w.b, h, n, arrived, more);
    Honest(w, w.b.l.rx + arrived) && w' == World(r.b, w.store, NowSent(w, r.req), w.disk)
  }

  // ---------------------------------------------------------------------------------------
  // The link keeps the invariant
  // ---------------------------------------------------------------------------------------

  lemma ReadStarts(b: Board, h: nat, store: Tracks, sent: set<(nat, seq<byte>)>, disk: Tracks)
    requires Sound(b, store, disk) && !Owes(b) && !b.l.phase.Read?
    requires forall s :: s in sent ==> Held(World(b, store, sent, disk), s)
    ensures Coherent(World(StartRead(b, h).b, store, sent, disk))
  {
    hide Message, Sum16;
  }

  lemma WriteStarts(b: Board, h: nat, store: Tracks, disk: Tracks)
    requires Sound(b, store, disk) && b.c.dirty && !b.l.phase.Read?
    ensures Coherent(World(StartWrite(b, h).b, store, {}, disk))
  {
    hide Message, Sum16;
  }

  lemma IdleTurns(w: World, h: nat)
    requires Coherent(w) && w.b.l.phase.Idle?
    ensures var r := TurnIdle(w.b, h); Coherent(World(r.b, w.store, NowSent(w, r.req), w.disk))
  {
    hide Message, Sum16, StartRead, StartWrite;
    var b := w.b;
    if b.c.want {
      if b.c.dirty { WriteStarts(b.(l := b.l.(readAfter := true)), h, w.store, w.disk); }
      else { ReadStarts(b, h, w.store, w.sent, w.disk); }
    } else if b.c.flushNow && b.c.dirty {
      var b1 := b.(c := b.c.(flushNow := false));
      WriteStarts(b1.(l := b1.l.(readAfter := false)), h, w.store, w.disk);
    }
  }

  lemma StatTurns(w: World, h: nat, timedOut: bool)
    requires Coherent(w) && w.b.l.phase.Stat?
    ensures var r := TurnStat(w.b, h, timedOut); r.req == Nothing && Coherent(w.(b := r.b))
  {
    hide Good, Mask;
  }

  lemma ReadTurns(w: World, h: nat, timedOut: bool)
    requires Coherent(w) && w.b.l.phase.Read? && Honest(w, w.b.l.rx)
    ensures var r := TurnRead(w.b, h, timedOut); r.req == Nothing && Coherent(w.(b := r.b))
  {
    hide Sum16, GoodOk, GoodTrack;
    var len := TrackLen(w.b);
    TrackMeans(w.b.l.rx, len);
    if GoodTrack(w.b.l.rx, len) {
      assert InBuffer(TurnRead(w.b, h, timedOut).b) == w.b.l.rx[..len];
    }
  }

  lemma TrackMeans(r: seq<byte>, len: nat)
    ensures GoodTrack(r, len) ==> |r| >= len + 2
  {}

  lemma LogGrows(b: Board, b1: Board)
    requires b1.l.log == b.l.log || b1.l.log == b.l.log + [KeyOf(b)]
    ensures forall k: nat :: Kept(b1, k) ==> Kept(b, k)
    ensures b1.l.log == b.l.log + [KeyOf(b)] ==> !Kept(b1, KeyOf(b))
  {}

  /** A write's next try, or its end: taken by the server, or given up and logged. */
  lemma WriteEnds(w: World, b: Board, ok: bool, h: nat)
    requires Coherent(w) && Busy(w.b) && b == w.b.(l := w.b.l.(rx := b.l.rx))
    requires ok ==> w.store[KeyOf(b)] == InBuffer(b)
    ensures var r := FinishWrite(b, ok, h); Coherent(World(r.b, w.store, NowSent(w, r.req), w.disk))
  {
    hide Message, Sum16, StartRead;
    if ok || b.l.tries <= 1 {
      var b1 := b.(l := b.l.(phase := Idle, statAt := h + STAT_NS, readAfter := false,
                             tries := if ok then b.l.tries else 0,
                             log := if ok then b.l.log else b.l.log + [KeyOf(b)]));
      LogGrows(b, b1);
      if b.l.readAfter { ReadStarts(b1, h, w.store, w.sent, w.disk); }
    }
  }

  lemma AskTurns(w: World, h: nat, timedOut: bool)
    requires Coherent(w) && w.b.l.phase.WritAsk?
    ensures var r := TurnAsk(w.b, h, timedOut); Coherent(World(r.b, w.store, NowSent(w, r.req), w.disk))
  {
    hide Sum16, Good, GoodOk, FinishWrite;
    var b := w.b;
    if |b.l.rx| >= MSG_LEN {
      if !GoodOk(WRIT, b.l.rx) { WriteEnds(w, Took(b), false, h); }
    } else if timedOut { WriteEnds(w, b, false, h); }
  }

  lemma WrittenIsHeld(w: World)
    requires Coherent(w) && w.b.l.phase.WritSta? && Honest(w, w.b.l.rx) && GoodOk(WSTA, w.b.l.rx)
    ensures w.store[KeyOf(w.b)] == InBuffer(w.b)
  {
    hide Good, GoodOk;
  }

  lemma StaTurns(w: World, h: nat, timedOut: bool)
    requires Coherent(w) && w.b.l.phase.WritSta? && Honest(w, w.b.l.rx)
    ensures var r := TurnSta(w.b, h, timedOut); Coherent(World(r.b, w.store, NowSent(w, r.req), w.disk))
  {
    hide Sum16, Good, GoodOk, FinishWrite, Honest;
    var b := w.b;
    if |b.l.rx| >= MSG_LEN {
      if GoodOk(WSTA, b.l.rx) { WrittenIsHeld(w); }
      WriteEnds(w, Took(b), GoodOk(WSTA, b.l.rx), h);
    } else if timedOut { WriteEnds(w, b, false, h); }
  }

  /** Only the line's own bytes and timers. */
  predicate SameButLine(b: Board, b': Board) {
    b' == b.(l := b.l.(rx := b'.l.rx, tx := b'.l.tx, deadline := b'.l.deadline))
  }

  lemma LineKeeps(w: World, b': Board)
    requires Coherent(w) && SameButLine(w.b, b')
    ensures Coherent(w.(b := b'))
  {}

  lemma ActKeeps(w: World, h: nat)
    requires Coherent(w) && Honest(w, w.b.l.rx)
    ensures Valid(w.b)
    ensures var r := Act(w.b, h); Coherent(World(r.b, w.store, NowSent(w, r.req), w.disk))
  {
    hide TurnIdle, TurnStat, TurnRead, TurnAsk, TurnSta, Honest, Sound;
    CoherentValid(w);
    match w.b.l.phase
    case Idle => IdleTurns(w, h);
    case Stat => StatTurns(w, h, TimedOut(w.b, h));
    case Read => ReadTurns(w, h, TimedOut(w.b, h));
    case WritAsk => AskTurns(w, h, TimedOut(w.b, h));
    case WritSta => StaTurns(w, h, TimedOut(w.b, h));
  }

  lemma CoherentValid(w: World)
    requires Coherent(w)
    ensures Valid(w.b) && AllTracks(w.disk, TrackLen(w.b)) && AllTracks(w.store, TrackLen(w.b))
  {}

  /** A turn of the link keeps the invariant. */
  lemma TurnKeeps(w: World, w': World, h: nat, n: nat, arrived: seq<byte>, more: nat)
    requires Coherent(w) && n <= |w.b.l.tx| && TurnStep(w, w', h, n, arrived, more)
    ensures Coherent(w')
  {
    hide Act, Coherent, GoodOk, GoodTrack, Valid;
    CoherentValid(w);
    var b1 := Receive(Transmit(w.b, n, h), arrived, h);
    var w1 := w.(b := b1);
    LineKeeps(w, b1);
    CoherentValid(w1);
    ActKeeps(w1, h);
    var r := Act(b1, h);
    LineKeeps(World(r.b, w.store, NowSent(w1, r.req), w.disk), w'.b);
  }

  /** So does the server, taking a track in its own time. */
  lemma ServerKeeps(w: World, store: Tracks)
    requires Coherent(w) && ServerStep(w, store)
    ensures Coherent(w.(store := store))
  {}

  // ---------------------------------------------------------------------------------------
  // The guest keeps the invariant
  // ---------------------------------------------------------------------------------------

  /** A change to the panel alone. */
  predicate SameCache(b: Board, b': Board) {
    b'.mini == b.mini && b'.l == b.l && b'.c == b.c.(want := b'.c.want)
  }

  lemma PanelKeeps(w: World, b': Board)
    requires Coherent(w) && Valid(b') && SameCache(w.b, b')
    ensures Coherent(w.(b := b'))
  {}

  lemma SelectValid(b: Board, v: byte)
    requires Valid(b)
    ensures Valid(Select(b, v)) && SameCache(b, Select(b, v))
  {}

  lemma CommandValid(b: Board, v: byte)
    requires Valid(b)
    ensures var b' := Command(b, v);
      Valid(b') && SameCache(b, b'.(c := b'.c.(dirty := b.c.dirty)))
      && b'.c.dirty == (b.c.dirty || (DriveReady(b) && Bit(v, 0x80)))
  {}

  lemma SectorReadValid(b: Board, tick: nat)
    requires Valid(b)
    ensures Valid(SectorRead(b, tick)) && SameCache(b, SectorRead(b, tick))
  {}

  lemma DataReadValid(b: Board)
    requires Valid(b)
    ensures Valid(DataRead(b)) && SameCache(b, DataRead(b))
  {}

  /** The disk as the guest has written it, after an OUT to the data port: byte `pSector` of the
      track under the head, if it is one of the sector's 137. */
  function Written(w: World, v: byte): (disk: Tracks)
    requires Valid(w.b) && AllTracks(w.disk, TrackLen(w.b))
  {
    if !Lands(w.b) then w.disk
    else
      CurKeyFits(w.b);
      var track: seq<byte> := w.disk[CurKey(w.b)][w.b.p.pSector := v];
      w.disk[CurKey(w.b) := track]
  }

  /** The guest has the track under its head in the buffer, and may enable a write. */
  predicate MayEnable(b: Board)
    requires Valid(b)
  {
    (b.l.phase.Idle? || b.l.phase.Stat?) && b.c.key == CurKey(b)
  }

  /** The track under the head is in the buffer, and is dirty, or is announced to the server but
      has not gone out yet. */
  predicate MayPut(w: World)
    requires Valid(w.b)
  {
    KeyOf(w.b) == CurKey(w.b) && (w.b.c.dirty || (Busy(w.b) && w.sent == {}))
  }

  lemma EnableKeeps(w: World, v: byte)
    requires Coherent(w) && (DriveReady(w.b) && Bit(v, 0x80) ==> MayEnable(w.b))
    ensures Coherent(w.(b := Command(w.b, v)))
  {
    hide Command;
    CommandValid(w.b, v);
    CurKeyFits(w.b);
  }

  /** A write enabled keeps the invariant if and only if no track is on the line, and the buffer is what the
      guest takes its own track to be -- let go of or not. */
  lemma EnableKeepsExactly(w: World, v: byte)
    requires Coherent(w) && DriveReady(w.b) && Bit(v, 0x80)
    ensures Coherent(w.(b := Command(w.b, v))) <==>
      (w.b.l.phase.Idle? || w.b.l.phase.Stat?) && (Kept(w.b, KeyOf(w.b)) ==> InBuffer(w.b) == w.disk[KeyOf(w.b)])
  {
    hide Command;
    CommandValid(w.b, v);
    var b' := Command(w.b, v);
    assert InBuffer(b') == InBuffer(w.b) && KeyOf(b') == KeyOf(w.b);
  }

  lemma PutKeeps(w: World, v: byte)
    requires Coherent(w) && (Lands(w.b) ==> MayPut(w))
    ensures Coherent(w.(b := DataWrite(w.b, v), disk := Written(w, v)))
  {
    CurKeyFits(w.b);
  }

  /** EXACTLY WHEN A BYTE IS SAFE. A byte that changes the disk as the guest sees it keeps the
      invariant if and only if it may be put. */
  lemma PutKeepsExactly(w: World, v: byte)
    requires Coherent(w) && Lands(w.b) && Kept(w.b, CurKey(w.b))
    requires CurKey(w.b) in w.disk && |w.disk[CurKey(w.b)]| > w.b.p.pSector && w.disk[CurKey(w.b)][w.b.p.pSector] != v
    ensures Coherent(w.(b := DataWrite(w.b, v), disk := Written(w, v))) <==> MayPut(w)
  {
    CurKeyFits(w.b);
    var k, q := CurKey(w.b), w.b.p.pSector;
    assert Written(w, v)[k][q] == v != w.disk[k][q];
    var b' := DataWrite(w.b, v);
    if KeyOf(w.b) == k && Busy(w.b) && w.sent != {} {
      var s :| s in w.sent;
      assert InBuffer(b')[q] == v && s.1[q] == w.disk[k][q];
    }
  }

  lemma LetGoKeeps(w: World)
    requires Coherent(w)
    ensures Coherent(w.(b := LetGo(w.b)))
  {}

  // ---------------------------------------------------------------------------------------
  // Whole runs
  // ---------------------------------------------------------------------------------------

  datatype Event =
    | SelectOut(v: byte) | CommandOut(v: byte) | DataOut(v: byte) | SectorIn(tick: nat) | DataIn
    | StepTimer | IdleTimer | MiniSleeps
    | LinkTurn(h: nat, n: nat, arrived: seq<byte>, more: nat) | ServerTakes(store: Tracks)

  /** What one event makes of a world. The idle timer lets go of the buffer only with the head up,
      except on the Minidisk, which has no head to load. */
  predicate Step(w: World, e: Event, w': World)
    requires Valid(w.b) && AllTracks(w.disk, TrackLen(w.b))
  {
    match e
    case SelectOut(v) => w' == w.(b := Select(w.b, v))
    case CommandOut(v) => w' == w.(b := Command(w.b, v))
    case DataOut(v) => w' == w.(b := DataWrite(w.b, v), disk := Written(w, v))
    case SectorIn(tick) => w' == w.(b := SectorRead(w.b, tick))
    case DataIn => w' == w.(b := DataRead(w.b))
    case StepTimer => w' == w.(b := Settled(w.b))
    case IdleTimer => (w.b.mini || !w.b.p.headLoaded) && w' == w.(b := LetGo(w.b))
    case MiniSleeps => w.b.mini && w' == w.(b := TurnOff(w.b))
    case LinkTurn(h, n, arrived, more) => n <= |w.b.l.tx| && TurnStep(w, w', h, n, arrived, more)
    case ServerTakes(store) => ServerStep(w, store) && w' == w.(store := store)
  }

  /** What is asked of the guest: enable a write, and put its bytes, only while the cache is at rest
      on the track under the head. */
  predicate Disciplined(w: World, e: Event)
    requires Valid(w.b)
  {
    match e
    case CommandOut(v) => DriveReady(w.b) && Bit(v, 0x80) ==> MayEnable(w.b)
    case DataOut(_) => Lands(w.b) ==> MayPut(w)
    case _ => true
  }

  lemma StepKeeps(w: World, e: Event, w': World)
    requires Coherent(w) && Step(w, e, w') && Disciplined(w, e)
    ensures Coherent(w')
  {
    hide Coherent, Select, Command, SectorRead, DataRead, TurnStep, ServerStep, Written, MayPut, MayEnable;
    CoherentValid(w);
    match e
    case SelectOut(v) => SelectValid(w.b, v); PanelKeeps(w, w'.b);
    case CommandOut(v) => EnableKeeps(w, v);
    case DataOut(v) => PutKeeps(w, v);
    case SectorIn(tick) => SectorReadValid(w.b, tick); PanelKeeps(w, w'.b);
    case DataIn => DataReadValid(w.b); PanelKeeps(w, w'.b);
    case StepTimer => PanelKeeps(w, w'.b);
    case IdleTimer => LetGoKeeps(w);
    case MiniSleeps => PanelKeeps(w, w'.b);
    case LinkTurn(h, n, arrived, more) => TurnKeeps(w, w', h, n, arrived, more);
    case ServerTakes(store) => ServerKeeps(w, store);
  }

  /** Worlds, and the events between them. */
  predicate Trail(ws: seq<World>, es: seq<Event>) {
    |ws| == |es| + 1 &&
    forall i :: 0 <= i < |es| ==>
      Valid(ws[i].b) && AllTracks(ws[i].disk, TrackLen(ws[i].b)) && Step(ws[i], es[i], ws[i + 1])
  }

  /** A run of a disciplined guest. */
  predicate Run(ws: seq<World>, es: seq<Event>) {
    Trail(ws, es) && forall i :: 0 <= i < |es| ==> Disciplined(ws[i], es[i])
  }

  /** As the power comes on: nothing in the buffer, nothing owed, and the server's tracks the disk. */
  predicate Start(w: World) {
    && Valid(w.b) && AllTracks(w.store, TrackLen(w.b)) && w.disk == w.store && w.sent == {}
    && w.b.c.key == NO_TRACK && !w.b.c.dirty && w.b.l.phase.Idle?
  }

  lemma {:induction false} RunCoherent(ws: seq<World>, es: seq<Event>, i: nat)
    requires Run(ws, es) && Start(ws[0]) && i < |ws|
    ensures Coherent(ws[i])
  {
    hide Coherent, Step, Disciplined, Valid, AllTracks;
    if i == 0 { StartCoherent(ws[0]); }
    else {
      RunCoherent(ws, es, i - 1);
      StepKeeps(ws[i - 1], es[i - 1], ws[i]);
    }
  }

  lemma StartCoherent(w: World)
    requires Start(w)
    ensures Coherent(w)
  {}

  /** The server's tracks, the one the board owes laid over them. */
  function Overlaid(w: World): (disk: Tracks)
    requires Valid(w.b)
  {
    if Owes(w.b) then w.store[KeyOf(w.b) := InBuffer(w.b)] else w.store
  }

  /** NOTHING IS LOST. In every run of a disciplined guest, at every moment, the server's tracks with
      the one owed laid over them are the disk as the guest has written it -- but for a track whose
      give-up message is in the log. */
  lemma NothingLost(ws: seq<World>, es: seq<Event>, i: nat)
    requires Run(ws, es) && Start(ws[0]) && i < |ws|
    ensures Valid(ws[i].b)
    ensures forall k: nat :: k < NO_TRACK && Kept(ws[i].b, k) ==>
      k in Overlaid(ws[i]) && k in ws[i].disk && Overlaid(ws[i])[k] == ws[i].disk[k]
  {
    RunCoherent(ws, es, i);
    OverlayIsDisk(ws[i]);
  }

  lemma OverlayIsDisk(w: World)
    requires Coherent(w)
    ensures Valid(w.b)
    ensures forall k: nat :: k < NO_TRACK && Kept(w.b, k) ==>
      k in Overlaid(w) && k in w.disk && Overlaid(w)[k] == w.disk[k]
  {
  }

  /** And what the guest reads it wrote: a sector found in the buffer gives the disk's first byte,
      and each IN of the data port the next. */
  lemma GuestReadsDisk(w: World, tick: nat)
    requires Coherent(w) && w.b.c.key == CurKey(w.b) && !w.b.l.phase.Read? && Kept(w.b, CurKey(w.b))
    ensures Valid(w.b) && CurKey(w.b) in w.disk && |w.disk[CurKey(w.b)]| == TrackLen(w.b)
    ensures var at := w.b.p.sectorPos / 2 % Sectors(w.b) * SLOT;
      w.b.p.sectorPos % 2 == 0 ==>
        at < TrackLen(w.b) && SectorRead(w.b, tick).p.readData == w.disk[CurKey(w.b)][at]
    ensures var q := w.b.p.pSector + 1;
      q < TrackLen(w.b) ==> DataRead(w.b).p.readData == w.disk[CurKey(w.b)][q]
  {
    CurKeyFits(w.b);
    var track := w.disk[CurKey(w.b)];
    assert InBuffer(w.b) == track;
    assert forall q :: 0 <= q < TrackLen(w.b) ==> InBuffer(w.b)[q] == w.b.c.buf[q];
  }
}
