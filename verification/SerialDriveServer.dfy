/** The serial drive with a server at the other end of the line.

    The server answers in order, and what it says is a first-in first-out line of bytes: it may be late by
    any time, cut short, lost, or damaged so long as the damage shows. Every byte is tagged with the request
    it answers; the board sees no tags.
 */
module SerialDriveServer {
  import opened Arithmetic
  import opened Basics
  import opened SerialDriveModel
  import opened SerialDriveCache

  /** `line` is what is still on its way, `tags` says of each byte of the receiver and then of the line
      which request it answers, `sends` counts the requests, `older` is how much was on the line when the
      last of them had emptied the receiver, and `heard` is the write the server waits for a track of. */
  datatype Net = Net(w: World, line: seq<byte>, tags: seq<nat>, sends: nat, older: nat, heard: Option<nat>)

  /** What the server makes of a request: whether it gets it, whether it stores, and what it says. */
  datatype Answer = Answer(got: bool, stores: bool, reply: seq<byte>)

  const SILENT := Answer(false, false, [])

  /** The most bytes a reply can have. */
  function Most(b: Board): nat {
    match b.l.phase
    case Idle => 0
    case Read => TrackLen(b) + 2
    case _ => MSG_LEN
  }

  /** A track is sent whole as the server holds it, a write is accepted only when it has been heard, and
      "track written" is said only when it has been. */
  predicate MayAnswer(store: Tracks, heard: Option<nat>, len: nat, req: Request, a: Answer) {
    && (!a.got ==> a == SILENT)
    && (a.stores ==> req.SendTrack? && heard.Some?)
    && match req
       case Nothing => a == SILENT
       case AskRead(k) =>
         |a.reply| <= len + 2 && (GoodTrack(a.reply, len) ==> k in store && a.reply[..len] == store[k])
       case SendTrack(_) => |a.reply| <= MSG_LEN && (GoodOk(WSTA, a.reply) ==> a.stores)
       case _ => |a.reply| <= MSG_LEN
  }

  function Heard(heard: Option<nat>, req: Request, a: Answer): Option<nat> {
    if !a.got then heard else if req.AskWrite? then Some(req.key) else None
  }

  function Stored(store: Tracks, heard: Option<nat>, req: Request, a: Answer): Tracks {
    if a.stores && heard.Some? && req.SendTrack? then store[heard.value := req.data] else store
  }

  /** A turn of the link at host time `h`: `out` bytes go, the line's first `come` arrive, and `more` go at
      once. A command empties the receiver of `flushed` more that have come since; a track does not. */
  datatype Moment = Moment(h: nat, out: nat, come: nat, more: nat, flushed: nat)

  predicate Possible(n: Net, m: Moment) {
    m.out <= |n.w.b.l.tx| && m.come + m.flushed <= |n.line|
  }

  function Turns(n: Net, m: Moment): Turned
    requires Valid(n.w.b) && Possible(n, m)
  {
    Turn(n.w.b, m.h, m.out, n.line[..m.come], m.more)
  }

  /** What is left on the line once a request has gone. */
  function Remains(n: Net, m: Moment, req: Request): seq<byte>
    requires Possible(n, m)
  {
    n.line[m.come + if req.Nothing? || req.SendTrack? then 0 else m.flushed..]
  }

  function Last(tags: seq<nat>, k: nat): seq<nat> {
    if k <= |tags| then tags[|tags| - k..] else tags
  }

  function NetTurn(n: Net, m: Moment, a: Answer): Net
    requires Valid(n.w.b) && Possible(n, m)
  {
    var r := Turns(n, m);
    var left := Remains(n, m, r.req);
    n.(w := World(r.b, Stored(n.w.store, n.heard, r.req, a), NowSent(n.w, r.req), n.w.disk),
       line := left + a.reply,
       tags := Last(n.tags, |r.b.l.rx| + |left|) + seq(|a.reply|, _ => n.sends + 1),
       sends := if r.req.Nothing? then n.sends else n.sends + 1,
       older := if r.req.Nothing? then n.older else |left|,
       heard := Heard(n.heard, r.req, a))
  }

  datatype NetEvent = ByGuest(g: Event) | ByLink(m: Moment, a: Answer)

  predicate NetStep(n: Net, e: NetEvent, n': Net)
    requires Valid(n.w.b) && AllTracks(n.w.disk, TrackLen(n.w.b))
  {
    match e
    case ByGuest(g) => !g.LinkTurn? && Step(n.w, g, n'.w) && n' == n.(w := n'.w)
    case ByLink(m, a) =>
      Possible(n, m) && MayAnswer(n.w.store, n.heard, TrackLen(n.w.b), Turns(n, m).req, a) && n' == NetTurn(n, m, a)
  }

  // ---------------------------------------------------------------------------------------
  // Whose reply it is
  // ---------------------------------------------------------------------------------------

  /** Once a request has gone, the first `older` bytes still to come answer earlier ones, and the rest
      answer it. */
  predicate Wire(n: Net) {
    && |n.tags| == |n.w.b.l.rx| + |n.line|
    && (forall i :: 0 <= i < |n.tags| ==> n.tags[i] <= n.sends)
    && (!n.w.b.l.phase.Idle? ==> forall i :: 0 <= i < |n.tags| ==> (n.tags[i] == n.sends <==> i >= n.older))
  }

  /** The board after the line has moved, as the link finds it. */
  function Found(n: Net, m: Moment): (b: Board)
    requires Valid(n.w.b) && Possible(n, m)
    ensures Valid(b)
    ensures b == n.w.b.(l := n.w.b.l.(rx := n.w.b.l.rx + n.line[..m.come], tx := b.l.tx, deadline := b.l.deadline))
  {
    Receive(Transmit(n.w.b, m.out, m.h), n.line[..m.come], m.h)
  }

  /** What a turn of the link does to the receiver: a request empties it, the end of a reply leaves some of
      it, and otherwise it keeps all. */
  predicate Receives(b: Board, r: Turned) {
    match r.req
    case Nothing =>
      || (r.b.l.phase.Idle? && |r.b.l.rx| <= |b.l.rx|)
      || (r.b.l.phase == b.l.phase && r.b.l.rx == b.l.rx && r.b.l.log == b.l.log
          && KeyOf(r.b) == KeyOf(b) && (!b.l.phase.Read? ==> r.b.c == b.c))
    case AskStat => r.b.l.phase.Stat? && r.b.l.rx == []
    case AskRead(k) => r.b.l.phase.Read? && r.b.l.rx == [] && k == KeyOf(r.b) && r.b.c.secsBuf == 0
    case AskWrite(k) => r.b.l.phase.WritAsk? && r.b.l.rx == [] && k == KeyOf(r.b)
    case SendTrack(data) =>
      && b.l.phase.WritAsk? && |b.l.rx| >= MSG_LEN && GoodOk(WRIT, b.l.rx) && Valid(b) && data == InBuffer(b)
      && r.b.l.phase.WritSta? && r.b.l.rx == [] && r.b.c == b.c
  }

  lemma ReadReceives(b: Board, h: nat)
    requires Valid(b)
    ensures Receives(b, StartRead(b, h)) && StartRead(b, h).b.mini == b.mini
  {
    hide Message;
    CurKeyFits(b);
  }

  lemma FinishReceives(b: Board, ok: bool, h: nat)
    requires Valid(b)
    ensures Receives(b, FinishWrite(b, ok, h)) && FinishWrite(b, ok, h).b.mini == b.mini
    ensures !FinishWrite(b, ok, h).req.SendTrack?
    ensures var r := FinishWrite(b, ok, h); r.req.Nothing? ==> r.b.l.phase.Idle? && r.b.l.rx == b.l.rx
  {
    hide Message, StartRead, CurKey;
    var l := b.l.(phase := Idle, statAt := h + STAT_NS, readAfter := false,
                  tries := if ok then b.l.tries else 0,
                  log := if ok then b.l.log else b.l.log + [KeyOf(b)]);
    ReadReceives(b.(l := l), h);
  }

  lemma IdleReceives(b: Board, h: nat)
    requires Valid(b) && b.l.phase.Idle?
    ensures Receives(b, TurnIdle(b, h)) && TurnIdle(b, h).b.mini == b.mini
  {
    hide Message, StartRead;
    ReadReceives(b, h);
  }

  lemma WriteReceives(b: Board, h: nat, timedOut: bool)
    requires Valid(b)
    ensures b.l.phase.WritAsk? ==> Receives(b, TurnAsk(b, h, timedOut)) && TurnAsk(b, h, timedOut).b.mini == b.mini
    ensures b.l.phase.WritSta? ==> Receives(b, TurnSta(b, h, timedOut)) && TurnSta(b, h, timedOut).b.mini == b.mini
  {
    hide Message, GoodOk, FinishWrite, Sum16;
    FinishReceives(b, false, h);
    if |b.l.rx| >= MSG_LEN {
      FinishReceives(Took(b), false, h);
      FinishReceives(Took(b), GoodOk(WSTA, b.l.rx), h);
    }
  }

  lemma ActReceives(b: Board, h: nat)
    requires Valid(b)
    ensures Receives(b, Act(b, h)) && Act(b, h).b.mini == b.mini
  {
    hide Message, GoodOk, GoodTrack, Good, FinishWrite, Receives, TurnAsk, TurnSta, TurnIdle, Mask;
    match b.l.phase
    case Idle => IdleReceives(b, h);
    case Stat => PlainReceives(b, h, TimedOut(b, h));
    case Read => PlainReceives(b, h, TimedOut(b, h));
    case _ => WriteReceives(b, h, TimedOut(b, h));
  }

  lemma PlainReceives(b: Board, h: nat, timedOut: bool)
    requires Valid(b)
    ensures b.l.phase.Stat? ==> Receives(b, TurnStat(b, h, timedOut)) && TurnStat(b, h, timedOut).b.mini == b.mini
    ensures b.l.phase.Read? ==> Receives(b, TurnRead(b, h, timedOut)) && TurnRead(b, h, timedOut).b.mini == b.mini
  {
    hide Good, GoodTrack, Mask;
  }

  lemma TransmitReceives(b: Board, r: Turned, k: nat, h: nat)
    requires k <= |r.b.l.tx| && Receives(b, r)
    ensures Receives(b, Turned(Transmit(r.b, k, h), r.req))
  {
    hide GoodOk;
  }

  lemma TurnReceives(n: Net, m: Moment)
    requires Valid(n.w.b) && Possible(n, m)
    ensures var r := Turns(n, m); Receives(Found(n, m), r) && r.b.mini == n.w.b.mini
  {
    hide Act, Receives;
    var b := Found(n, m);
    ActReceives(b, m.h);
    TransmitReceives(b, Act(b, m.h), Min(m.more, |Act(b, m.h).b.l.tx|), m.h);
  }

  lemma TurnWired(n: Net, m: Moment, a: Answer)
    requires Valid(n.w.b) && Possible(n, m) && Wire(n) && MayAnswer(n.w.store, n.heard, TrackLen(n.w.b), Turns(n, m).req, a)
    ensures Wire(NetTurn(n, m, a))
  {
    hide Turns, GoodOk, GoodTrack;
    TurnReceives(n, m);
    var r, left, rx := Turns(n, m), Remains(n, m, Turns(n, m).req), Found(n, m).l.rx;
    assert |rx| + |n.line[m.come..]| == |n.tags|;
    assert |r.b.l.rx| + |left| <= |n.tags|;
  }

  lemma GuestKeepsLink(w: World, e: Event, w': World)
    requires Valid(w.b) && AllTracks(w.disk, TrackLen(w.b)) && Step(w, e, w') && !e.LinkTurn?
    ensures w'.b.l == w.b.l && w'.b.mini == w.b.mini
  {
    hide Select, Command, SectorRead, DataRead;
    match e
    case SelectOut(v) => SelectValid(w.b, v);
    case CommandOut(v) => CommandValid(w.b, v);
    case SectorIn(tick) => SectorReadValid(w.b, tick);
    case DataIn => DataReadValid(w.b);
    case _ =>
  }

  lemma StepWired(n: Net, e: NetEvent, n': Net)
    requires Valid(n.w.b) && AllTracks(n.w.disk, TrackLen(n.w.b)) && NetStep(n, e, n') && Wire(n)
    ensures Wire(n')
  {
    hide Step, NetTurn, MayAnswer;
    match e
    case ByGuest(g) => GuestKeepsLink(n.w, g, n'.w);
    case ByLink(m, a) => TurnWired(n, m, a);
  }

  // ---------------------------------------------------------------------------------------
  // What a reply says is so
  // ---------------------------------------------------------------------------------------

  /** All that will have come of a reply. */
  function Whole(n: Net): seq<byte> { n.w.b.l.rx + n.line }

  /** With nothing older before it, what the reply will say is so. */
  predicate Truth(n: Net)
    requires Valid(n.w.b)
  {
    n.older == 0 && !n.w.b.l.phase.Idle? ==>
      && |Whole(n)| <= Most(n.w.b)
      && (n.w.b.l.phase.WritAsk? && GoodOk(WRIT, Whole(n)) ==> n.heard == Some(KeyOf(n.w.b)))
      && (n.w.b.l.phase.WritSta? && GoodOk(WSTA, Whole(n)) ==>
          KeyOf(n.w.b) in n.w.store && n.w.store[KeyOf(n.w.b)] == InBuffer(n.w.b))
      && (n.w.b.l.phase.Read? && GoodTrack(Whole(n), TrackLen(n.w.b)) && Kept(n.w.b, KeyOf(n.w.b)) ==>
          KeyOf(n.w.b) in n.w.store && Whole(n)[..TrackLen(n.w.b)] == n.w.store[KeyOf(n.w.b)])
  }

  lemma GoodStarts(c: Command4, r: seq<byte>, more: seq<byte>)
    requires |r| >= MSG_LEN
    ensures GoodOk(c, r + more) <==> GoodOk(c, r)
  {
    hide Sum16;
    assert (r + more)[..4] == r[..4] && (r + more)[..8] == r[..8];
  }

  lemma TrackStarts(r: seq<byte>, more: seq<byte>, len: nat)
    requires |r| >= len + 2
    ensures GoodTrack(r + more, len) <==> GoodTrack(r, len)
    ensures (r + more)[..len] == r[..len]
  {
    hide Sum16;
    assert (r + more)[..len] == r[..len];
  }

  /** What has come and what is to come, after the line has moved. */
  lemma WholeStays(n: Net, m: Moment)
    requires Valid(n.w.b) && Possible(n, m)
    ensures Found(n, m).l.rx + n.line[m.come..] == Whole(n)
  {
    assert n.line == n.line[..m.come] + n.line[m.come..];
  }

  /** Nothing older is taken for an answer to a READ or a WRIT. STAT replies may be taken for what they are
      not: they carry nothing of the disk. */
  predicate Clear(n: Net) {
    n.w.b.l.phase.Idle? || n.w.b.l.phase.Stat? || n.older == 0
  }

  /** Then the server and its line are all that the cache needs. */
  lemma ClearIsHonest(n: Net, m: Moment)
    requires Coherent(n.w) && Truth(n) && Clear(n) && Possible(n, m)
    ensures Valid(n.w.b) && Honest(n.w, Found(n, m).l.rx)
  {
    hide GoodOk, GoodTrack, Found;
    CoherentValid(n.w);
    var rx, rest, len := Found(n, m).l.rx, n.line[m.come..], TrackLen(n.w.b);
    WholeStays(n, m);
    if n.w.b.l.phase.Read? && GoodTrack(rx, len) {
      TrackMeans(rx, len);
      TrackStarts(rx, rest, len);
    }
    if n.w.b.l.phase.WritSta? && GoodOk(WSTA, rx) {
      OkMeans(WSTA, rx);
      GoodStarts(WSTA, rx, rest);
      var s :| s in n.w.sent;
      assert s.0 in n.w.store && n.w.store[s.0] == s.1;
    }
  }

  lemma OkMeans(c: Command4, r: seq<byte>)
    ensures GoodOk(c, r) ==> |r| >= MSG_LEN
  {}

  lemma WaitIsTrue(n: Net, m: Moment)
    requires Valid(n.w.b) && Possible(n, m) && Truth(n) && Valid(NetTurn(n, m, SILENT).w.b)
    requires Turns(n, m).req.Nothing?
    ensures Truth(NetTurn(n, m, SILENT))
  {
    hide Turns, GoodOk, GoodTrack;
    TurnReceives(n, m);
    WholeStays(n, m);
    var n' := NetTurn(n, m, SILENT);
    if !n'.w.b.l.phase.Idle? {
      assert Whole(n') == Whole(n);
    }
  }

  lemma CommandIsTrue(n: Net, m: Moment, a: Answer)
    requires Valid(n.w.b) && Possible(n, m) && Valid(NetTurn(n, m, a).w.b)
    requires var q := Turns(n, m).req; MayAnswer(n.w.store, n.heard, TrackLen(n.w.b), q, a) && !q.Nothing? && !q.SendTrack?
    ensures Truth(NetTurn(n, m, a))
  {
    hide Turns, GoodOk, GoodTrack;
    TurnReceives(n, m);
    var n' := NetTurn(n, m, a);
    if n'.older == 0 {
      assert Whole(n') == a.reply;
      OkMeans(WRIT, []);
    }
  }

  /** The track goes to the server at the key its WRIT named, and to nowhere else. */
  lemma TrackIsTrue(n: Net, m: Moment, a: Answer)
    requires Valid(n.w.b) && Possible(n, m) && Valid(NetTurn(n, m, a).w.b) && Truth(n) && Clear(n)
    requires var q := Turns(n, m).req; MayAnswer(n.w.store, n.heard, TrackLen(n.w.b), q, a) && q.SendTrack?
    ensures n.heard == Some(KeyOf(n.w.b)) && Turns(n, m).req.data == InBuffer(n.w.b)
    ensures Truth(NetTurn(n, m, a)) && Clear(NetTurn(n, m, a))
  {
    hide Turns, GoodOk, GoodTrack;
    TurnReceives(n, m);
    WholeStays(n, m);
    var n', rx := NetTurn(n, m, a), Found(n, m).l.rx;
    assert |n.line[m.come..]| == 0;
    GoodStarts(WRIT, rx, n.line[m.come..]);
    assert Whole(n') == a.reply;
    assert n'.w.b.c == n.w.b.c;
  }

  /** Every request but a track's must find the line clear; a track's does of itself. */
  predicate Cleared(n: Net, e: NetEvent, n': Net) { e.ByLink? && n'.sends > n.sends ==> Clear(n') }

  lemma WaitStaysClear(n: Net, m: Moment)
    requires Valid(n.w.b) && Possible(n, m) && Clear(n) && Turns(n, m).req.Nothing?
    ensures Clear(NetTurn(n, m, SILENT))
  {
    hide Turns;
    TurnReceives(n, m);
  }

  /** What the board and the server between them keep. */
  predicate Faithful(n: Net) {
    Coherent(n.w) && Wire(n) && Truth(n) && Clear(n)
  }

  lemma LinkKeeps(n: Net, m: Moment, a: Answer)
    requires Faithful(n) && Possible(n, m) && MayAnswer(n.w.store, n.heard, TrackLen(n.w.b), Turns(n, m).req, a)
    ensures Coherent(NetTurn(n, m, a).w)
  {
    hide Coherent, Wire, GoodOk, GoodTrack, Turn, Honest, NowSent;
    CoherentValid(n.w);
    ClearIsHonest(n, m);
    var r := Turns(n, m);
    var w1 := World(r.b, n.w.store, NowSent(n.w, r.req), n.w.disk);
    TurnKeeps(n.w, w1, m.h, m.out, n.line[..m.come], m.more);
    CoherentValid(w1);
    if r.req.SendTrack? {
      TrackIsTrue(n, m, a);
      SentNow(n.w, r.req);
      ServerKeeps(w1, Stored(n.w.store, n.heard, r.req, a));
    }
  }

  lemma SentNow(w: World, req: Request)
    requires Valid(w.b) && req.SendTrack?
    ensures (KeyOf(w.b), req.data) in NowSent(w, req)
  {}

  /** A turn of the link, with its answer. */
  lemma LinkFaithful(n: Net, m: Moment, a: Answer)
    requires Faithful(n) && Possible(n, m) && MayAnswer(n.w.store, n.heard, TrackLen(n.w.b), Turns(n, m).req, a)
    requires Cleared(n, ByLink(m, a), NetTurn(n, m, a))
    ensures Faithful(NetTurn(n, m, a))
  {
    hide Coherent, Wire, Truth, Turns, Clear;
    LinkKeeps(n, m, a);
    CoherentValid(n.w);
    CoherentValid(NetTurn(n, m, a).w);
    TurnWired(n, m, a);
    match Turns(n, m).req
    case Nothing => WaitIsTrue(n, m); WaitStaysClear(n, m);
    case SendTrack(_) => TrackIsTrue(n, m, a);
    case _ => CommandIsTrue(n, m, a);
  }

  lemma GuestKeepsKey(w: World, e: Event, w': World)
    requires Valid(w.b) && AllTracks(w.disk, TrackLen(w.b)) && Step(w, e, w') && !e.LinkTurn?
    ensures KeyOf(w'.b) == KeyOf(w.b) && w'.sent == w.sent
    ensures !e.ServerTakes? ==> w'.store == w.store
  {
    hide Select, Command, SectorRead, DataRead;
    match e
    case SelectOut(v) => SelectValid(w.b, v);
    case CommandOut(v) => CommandValid(w.b, v);
    case SectorIn(tick) => SectorReadValid(w.b, tick);
    case DataIn => DataReadValid(w.b);
    case _ =>
  }

  /** What a write under way has sent is in the buffer still. */
  lemma SentIsBuffered(w: World, w': World)
    requires Coherent(w) && Coherent(w') && w.b.l.phase.WritSta? && w'.b.l == w.b.l && w'.sent == w.sent
    requires KeyOf(w'.b) == KeyOf(w.b) && w'.b.mini == w.b.mini
    ensures InBuffer(w'.b) == InBuffer(w.b)
  {
    var s :| s in w.sent;
    assert s == (KeyOf(w.b), InBuffer(w.b)) && s == (KeyOf(w'.b), InBuffer(w'.b));
  }

  /** A track the server takes late is what it has, or is owed, or was given up. */
  lemma LateTrackIsKnown(w: World, store: Tracks)
    requires Coherent(w) && ServerStep(w, store) && KeyOf(w.b) in w.store
    ensures KeyOf(w.b) in store
    ensures w.b.l.phase.Read? && Kept(w.b, KeyOf(w.b)) ==> store[KeyOf(w.b)] == w.store[KeyOf(w.b)]
    ensures w.b.l.phase.WritSta? && w.store[KeyOf(w.b)] == InBuffer(w.b) ==> store[KeyOf(w.b)] == InBuffer(w.b)
  {}

  lemma GuestFaithful(n: Net, g: Event, n': Net)
    requires Faithful(n)
    requires Valid(n.w.b) && AllTracks(n.w.disk, TrackLen(n.w.b)) && NetStep(n, ByGuest(g), n') && Disciplined(n.w, g)
    ensures Faithful(n')
  {
    hide Coherent, Disciplined, Step, GoodOk, GoodTrack;
    StepKeeps(n.w, g, n'.w);
    GuestKeepsLink(n.w, g, n'.w);
    GuestKeepsKey(n.w, g, n'.w);
    CoherentValid(n.w);
    CoherentValid(n'.w);
    assert Whole(n') == Whole(n);
    if n.w.b.l.phase.WritSta? { SentIsBuffered(n.w, n'.w); }
    if g.ServerTakes? {
      TakesIsServerStep(n.w, g, n'.w);
      LateTrackIsKnown(n.w, n'.w.store);
    }
  }

  lemma TakesIsServerStep(w: World, e: Event, w': World)
    requires Valid(w.b) && AllTracks(w.disk, TrackLen(w.b)) && Step(w, e, w') && e.ServerTakes?
    ensures ServerStep(w, w'.store) && w'.b == w.b
  {}

  // ---------------------------------------------------------------------------------------
  // Whole runs
  // ---------------------------------------------------------------------------------------

  predicate NetStart(n: Net) {
    Start(n.w) && n.w.b.l.rx == [] && n.line == [] && n.tags == [] && n.sends == 0 && n.older == 0 && n.heard.None?
  }

  predicate NetTrail(ns: seq<Net>, es: seq<NetEvent>) {
    && |ns| == |es| + 1 && NetStart(ns[0])
    && forall i :: 0 <= i < |es| ==>
         Valid(ns[i].w.b) && AllTracks(ns[i].w.disk, TrackLen(ns[i].w.b)) && NetStep(ns[i], es[i], ns[i + 1])
  }

  /** Over every run, whatever the guest does and however late the server: the wire is as it should be, and a
      link that waits has asked. */
  lemma {:induction false} TrailWired(ns: seq<Net>, es: seq<NetEvent>, i: nat)
    requires NetTrail(ns, es) && i < |ns|
    ensures Wire(ns[i]) && (ns[i].sends == 0 ==> ns[i].w.b.l.phase.Idle?)
  {
    hide NetStep, Valid, AllTracks, Wire;
    if i > 0 {
      TrailWired(ns, es, i - 1);
      StepWired(ns[i - 1], es[i - 1], ns[i]);
      StepAsks(ns[i - 1], es[i - 1], ns[i]);
    } else {
      StartWired(ns[0]);
    }
  }

  lemma StartWired(n: Net)
    requires NetStart(n)
    ensures Wire(n) && n.w.b.l.phase.Idle?
  {}

  /** The event sends a request. */
  predicate Sends(n: Net, e: NetEvent)
    requires Valid(n.w.b)
  {
    e.ByLink? && Possible(n, e.m) && !Turns(n, e.m).req.Nothing?
  }

  /** What was on the line when that request had emptied the receiver. */
  function LeftBy(n: Net, e: NetEvent): seq<byte>
    requires Valid(n.w.b) && Sends(n, e)
  {
    Remains(n, e.m, Turns(n, e.m).req)
  }

  lemma StepAsks(n: Net, e: NetEvent, n': Net)
    requires Valid(n.w.b) && AllTracks(n.w.disk, TrackLen(n.w.b)) && NetStep(n, e, n')
    ensures n'.sends == n.sends + (if Sends(n, e) then 1 else 0)
    ensures n'.older == if Sends(n, e) then |LeftBy(n, e)| else n.older
    ensures !Sends(n, e) && n.w.b.l.phase.Idle? ==> n'.w.b.l.phase.Idle?
  {
    hide Turns, MayAnswer, Step;
    match e
    case ByGuest(g) => GuestKeepsLink(n.w, g, n'.w);
    case ByLink(m, a) => TurnReceives(n, m);
  }

  /** The last request of a run so far. */
  predicate LastAsked(ns: seq<Net>, es: seq<NetEvent>, j: nat, i: nat) {
    && j < i < |ns| == |es| + 1 && Valid(ns[j].w.b) && Sends(ns[j], es[j]) && ns[i].sends == ns[j].sends + 1
    && ns[i].older == |LeftBy(ns[j], es[j])|
  }

  lemma {:induction false} LastRequest(ns: seq<Net>, es: seq<NetEvent>, i: nat) returns (j: nat)
    requires NetTrail(ns, es) && i < |ns| && ns[i].sends > 0
    ensures LastAsked(ns, es, j, i)
    decreases i
  {
    hide NetStep, AllTracks, Sends, LeftBy, Valid;
    StepAsks(ns[i - 1], es[i - 1], ns[i]);
    if Sends(ns[i - 1], es[i - 1]) {
      j := i - 1;
    } else {
      j := LastRequest(ns, es, i - 1);
    }
  }

  /** WHOSE REPLY IT IS. At any moment of any run, however the line has delayed, cut and lost what the server
      said: the bytes the board has for its last request, made at step `j`, answer that request if and only if
      nothing was left on the line when it had emptied its receiver for it; and if something was, the first
      of them already answers another. */
  lemma ReplyIsItsOwn(ns: seq<Net>, es: seq<NetEvent>, i: nat, m: Moment) returns (j: nat)
    requires NetTrail(ns, es) && i < |ns| && Valid(ns[i].w.b) && Possible(ns[i], m) && !ns[i].w.b.l.phase.Idle?
    requires |Found(ns[i], m).l.rx| > 0
    ensures LastAsked(ns, es, j, i) && |Found(ns[i], m).l.rx| <= |ns[i].tags|
    ensures var n, clear := ns[i], LeftBy(ns[j], es[j]) == [];
      && (clear <==> forall q :: 0 <= q < |Found(n, m).l.rx| ==> n.tags[q] == n.sends)
      && (clear <==> n.tags[0] == n.sends)
  {
    hide NetTrail, LeftBy, Sends;
    TrailWired(ns, es, i);
    j := LastRequest(ns, es, i);
    var n := ns[i];
    assert |Found(n, m).l.rx| == |n.w.b.l.rx| + m.come;
    assert n.tags[0] == n.sends <==> 0 >= n.older;
  }

  predicate Keeps(n: Net, e: NetEvent)
    requires Valid(n.w.b)
  {
    e.ByGuest? ==> Disciplined(n.w, e.g)
  }

  /** A disciplined guest, and a line that is clear whenever a READ or a WRIT goes. */
  predicate NetRun(ns: seq<Net>, es: seq<NetEvent>) {
    NetTrail(ns, es) && forall i :: 0 <= i < |es| ==> Keeps(ns[i], es[i]) && Cleared(ns[i], es[i], ns[i + 1])
  }

  lemma StepFaithful(n: Net, e: NetEvent, n': Net)
    requires Faithful(n) && Valid(n.w.b) && AllTracks(n.w.disk, TrackLen(n.w.b)) && NetStep(n, e, n')
    requires Keeps(n, e) && Cleared(n, e, n')
    ensures Faithful(n')
  {
    hide Faithful, NetTurn, MayAnswer, Step, Disciplined;
    match e
    case ByGuest(g) => GuestFaithful(n, g, n');
    case ByLink(m, a) => LinkFaithful(n, m, a);
  }

  lemma {:induction false} RunFaithful(ns: seq<Net>, es: seq<NetEvent>, i: nat)
    requires NetRun(ns, es) && i < |ns|
    ensures Faithful(ns[i])
  {
    hide Faithful, NetStep, Keeps, Cleared, Valid, AllTracks, NetStart;
    if i == 0 {
      StartFaithful(ns[0]);
    } else {
      RunFaithful(ns, es, i - 1);
      StepFaithful(ns[i - 1], es[i - 1], ns[i]);
    }
  }

  lemma StartFaithful(n: Net)
    requires NetStart(n)
    ensures Faithful(n)
  {
    StartCoherent(n.w);
  }

  /** NOTHING IS LOST, with this server: in every run of a disciplined guest in which no READ or WRIT goes
      while an older reply is on the line, at every moment, the server's tracks with the one owed laid over
      them are the disk as the guest has written it -- but for a track whose give-up message is in the log. */
  lemma NothingIsLost(ns: seq<Net>, es: seq<NetEvent>, i: nat)
    requires NetRun(ns, es) && i < |ns|
    ensures Valid(ns[i].w.b)
    ensures forall k: nat :: k < NO_TRACK && Kept(ns[i].w.b, k) ==>
      k in Overlaid(ns[i].w) && k in ns[i].w.disk && Overlaid(ns[i].w)[k] == ns[i].w.disk[k]
  {
    hide Coherent, Truth, Wire, Clear, NetRun;
    RunFaithful(ns, es, i);
    OverlayIsDisk(ns[i].w);
  }

  /** THE SERVER'S WORD: a write that the board takes for done is one that the server has, at the drive and
      track it was announced for, as it is in the buffer. */
  lemma WriteAcknowledged(ns: seq<Net>, es: seq<NetEvent>, i: nat)
    requires NetRun(ns, es) && i < |es| && es[i].ByLink? && Valid(ns[i].w.b) && Possible(ns[i], es[i].m)
    requires ns[i].w.b.l.phase.WritSta? && GoodOk(WSTA, Found(ns[i], es[i].m).l.rx)
    ensures KeyOf(ns[i].w.b) in ns[i].w.store && ns[i].w.store[KeyOf(ns[i].w.b)] == InBuffer(ns[i].w.b)
    ensures ns[i + 1].w.b.l.phase.Idle? || ns[i + 1].w.b.l.phase.Read?
    ensures ns[i + 1].w.b.l.log == ns[i].w.b.l.log
  {
    hide Coherent, NetRun, GoodOk, Turn;
    StepOf(ns, es, i);
    RunFaithful(ns, es, i);
    var n, m := ns[i], es[i].m;
    WholeStays(n, m);
    OkMeans(WSTA, Found(n, m).l.rx);
    GoodStarts(WSTA, Found(n, m).l.rx, n.line[m.come..]);
    TakenForDone(n, m);
  }

  lemma StepOf(ns: seq<Net>, es: seq<NetEvent>, i: nat)
    requires NetRun(ns, es) && i < |es|
    ensures |ns| == |es| + 1 && Valid(ns[i].w.b) && AllTracks(ns[i].w.disk, TrackLen(ns[i].w.b))
    ensures NetStep(ns[i], es[i], ns[i + 1])
  {}

  lemma TakenForDone(n: Net, m: Moment)
    requires Valid(n.w.b) && Possible(n, m) && n.w.b.l.phase.WritSta? && GoodOk(WSTA, Found(n, m).l.rx)
    ensures var r := Turns(n, m); (r.b.l.phase.Idle? || r.b.l.phase.Read?) && r.b.l.log == n.w.b.l.log
  {
    hide Message, Good, GoodOk, Sum16;
    OkMeans(WSTA, Found(n, m).l.rx);
  }

  // ---------------------------------------------------------------------------------------
  // Reading a track while it comes
  // ---------------------------------------------------------------------------------------

  /** How much of the track has come. */
  function Come(b: Board): nat { Min(|b.l.rx|, TrackLen(b)) }

  /** While a track comes, the buffer starts with what has come, and the sectors counted are whole. */
  predicate Mirrors(b: Board) {
    b.l.phase.Read? ==>
      Come(b) <= |b.c.buf| && b.c.buf[..Come(b)] == b.l.rx[..Come(b)] && b.c.secsBuf == Come(b) / SLOT
  }

  lemma TurnMirrors(n: Net, m: Moment)
    requires Valid(n.w.b) && Possible(n, m)
    ensures Mirrors(Turns(n, m).b)
  {
    hide Turns, GoodOk, GoodTrack;
    TurnReceives(n, m);
    if Turns(n, m).req.Nothing? && Turns(n, m).b.l.phase.Read? {
      ReadMirrors(n, m);
    }
  }

  lemma ReadMirrors(n: Net, m: Moment)
    requires Valid(n.w.b) && Possible(n, m) && n.w.b.l.phase.Read?
    ensures Mirrors(Turns(n, m).b)
  {
    hide GoodTrack;
  }

  lemma GuestMirrors(w: World, e: Event, w': World)
    requires Coherent(w) && Valid(w.b) && AllTracks(w.disk, TrackLen(w.b)) && Step(w, e, w') && !e.LinkTurn?
    requires Disciplined(w, e) && Mirrors(w.b)
    ensures Mirrors(w'.b)
  {
    hide Select, Command, SectorRead, DataRead;
    GuestKeepsLink(w, e, w');
    match e
    case SelectOut(v) => SelectValid(w.b, v);
    case CommandOut(v) => CommandValid(w.b, v);
    case SectorIn(tick) => SectorReadValid(w.b, tick);
    case DataIn => DataReadValid(w.b);
    case _ =>
  }

  lemma StepMirrors(n: Net, e: NetEvent, n': Net)
    requires Faithful(n) && Valid(n.w.b) && AllTracks(n.w.disk, TrackLen(n.w.b)) && NetStep(n, e, n') && Keeps(n, e)
    requires Mirrors(n.w.b)
    ensures Mirrors(n'.w.b)
  {
    hide Step, Disciplined, Mirrors, MayAnswer, Coherent, Truth, Wire;
    match e
    case ByGuest(g) => GuestMirrors(n.w, g, n'.w);
    case ByLink(m, a) => TurnMirrors(n, m);
  }

  lemma {:induction false} RunMirrors(ns: seq<Net>, es: seq<NetEvent>, i: nat)
    requires NetRun(ns, es) && i < |ns|
    ensures Mirrors(ns[i].w.b)
  {
    hide Faithful, NetStep, Keeps, Cleared, Valid, AllTracks;
    if i > 0 {
      RunMirrors(ns, es, i - 1);
      RunFaithful(ns, es, i - 1);
      StepMirrors(ns[i - 1], es[i - 1], ns[i]);
    }
  }

  /** EACH SECTOR AS IT COMES. Of a track that is coming undamaged, a byte that has come is the disk's; and
      the sector port shows a sector only when all of it has come. */
  lemma ReadsAsItComes(ns: seq<Net>, es: seq<NetEvent>, i: nat, tick: nat)
    requires NetRun(ns, es) && i < |ns| && Valid(ns[i].w.b) && ns[i].w.b.l.phase.Read?
    requires var n := ns[i]; GoodTrack(Whole(n), TrackLen(n.w.b)) && Kept(n.w.b, KeyOf(n.w.b))
    ensures var n, b := ns[i], ns[i].w.b;
      KeyOf(b) in n.w.disk && |n.w.disk[KeyOf(b)]| == TrackLen(b) <= |b.c.buf|
      && forall q :: 0 <= q < Come(b) ==> b.c.buf[q] == n.w.disk[KeyOf(b)][q]
    ensures var b := ns[i].w.b; var at := b.p.sectorPos / 2 % Sectors(b) * SLOT;
      b.p.sectorPos % 2 == 0 && at < Come(b) ==>
        SectorRead(b, tick).p.readData == ns[i].w.disk[KeyOf(b)][at]
    ensures var b := ns[i].w.b; var q := b.p.pSector + 1;
      q < Come(b) ==> DataRead(b).p.readData == ns[i].w.disk[KeyOf(b)][q]
    ensures var b := ns[i].w.b; var p := SectorRead(b, tick).p;
      p.sectorPos % 2 == 0 ==> p.sectorPos / 2 % Sectors(b) * SLOT + SLOT <= Come(b)
  {
    hide NetRun, Wire;
    RunFaithful(ns, es, i);
    RunMirrors(ns, es, i);
    CoherentValid(ns[i].w);
    ComingIsDisk(ns[i]);
    ShownIsWhole(ns[i].w.b, tick);
  }

  lemma ComingIsDisk(n: Net)
    requires Coherent(n.w) && Truth(n) && Clear(n) && Mirrors(n.w.b) && n.w.b.l.phase.Read?
    requires GoodTrack(Whole(n), TrackLen(n.w.b)) && Kept(n.w.b, KeyOf(n.w.b))
    ensures var b := n.w.b; forall q :: 0 <= q < Come(b) ==> b.c.buf[q] == n.w.disk[KeyOf(b)][q]
  {
    hide GoodTrack;
    var b := n.w.b;
    TrackMeans(Whole(n), TrackLen(b));
    forall q | 0 <= q < Come(b)
      ensures b.c.buf[q] == n.w.disk[KeyOf(b)][q]
    {
      assert b.c.buf[..Come(b)][q] == b.l.rx[..Come(b)][q];
      assert Whole(n)[..TrackLen(b)][q] == b.l.rx[q];
    }
  }

  lemma ShownIsWhole(b: Board, tick: nat)
    requires Valid(b) && Mirrors(b) && b.l.phase.Read?
    ensures var p := SectorRead(b, tick).p;
      p.sectorPos % 2 == 0 ==> p.sectorPos / 2 % Sectors(b) * SLOT + SLOT <= Come(b)
  {
    var next := (b.p.sectorPos / 2 + 1) % Sectors(b);
    assert (next * 2 + 0xC0) / 2 % Sectors(b) == next;
  }

  // ---------------------------------------------------------------------------------------
  // A server that is not too late
  // ---------------------------------------------------------------------------------------

  /** The turn gives a reply up while some of it, or an older one, is still on its way. */
  predicate Late(n: Net, e: NetEvent)
    requires Valid(n.w.b)
  {
    e.ByLink? && Possible(n, e.m) && !n.w.b.l.phase.Idle? && TimedOut(Found(n, e.m), e.m.h)
    && |Found(n, e.m).l.rx| < Most(n.w.b) && e.m.come < |n.line|
  }

  /** Nothing is on the line but the reply the board waits for. */
  predicate Prompt(n: Net) {
    n.older == 0 && (n.w.b.l.phase.Idle? ==> n.line == []) && (!n.w.b.l.phase.Idle? ==> |Whole(n)| <= Most(n.w.b))
  }

  /** A wait ends with the whole of a reply, or in time run out. */
  lemma WaitEnds(b: Board, h: nat)
    requires Valid(b) && !b.l.phase.Idle? && |b.l.rx| < Most(b) && !TimedOut(b, h)
    ensures Act(b, h).req.Nothing? && Act(b, h).b.l.phase == b.l.phase && Act(b, h).b.l.rx == b.l.rx
  {
    hide Good, GoodOk, GoodTrack, Message;
  }

  lemma TurnPrompt(n: Net, m: Moment, a: Answer)
    requires Valid(n.w.b) && Possible(n, m) && MayAnswer(n.w.store, n.heard, TrackLen(n.w.b), Turns(n, m).req, a)
    requires Prompt(n) && !Late(n, ByLink(m, a))
    ensures Prompt(NetTurn(n, m, a))
  {
    hide Act, GoodOk, GoodTrack;
    TurnReceives(n, m);
    WholeStays(n, m);
    var n', b := NetTurn(n, m, a), Found(n, m);
    if !n.w.b.l.phase.Idle? && |b.l.rx| < Most(b) && !TimedOut(b, m.h) {
      WaitEnds(b, m.h);
      assert Whole(n') == Whole(n);
    } else {
      assert n.line[m.come..] == [];
    }
  }

  /** So long as no reply outlives the second it is waited for, no request ever finds an older one on the
      line: the condition of the theorems above is met. */
  lemma {:induction false} PromptIsClear(ns: seq<Net>, es: seq<NetEvent>, i: nat)
    requires NetTrail(ns, es) && i < |ns|
    requires forall j :: 0 <= j < i ==> !Late(ns[j], es[j])
    ensures Prompt(ns[i]) && ns[i].older == 0
  {
    hide NetStep, Late, Valid, AllTracks;
    if i > 0 {
      PromptIsClear(ns, es, i - 1);
      StepPrompt(ns[i - 1], es[i - 1], ns[i]);
    }
  }

  lemma StepPrompt(n: Net, e: NetEvent, n': Net)
    requires Valid(n.w.b) && AllTracks(n.w.disk, TrackLen(n.w.b)) && NetStep(n, e, n') && Prompt(n) && !Late(n, e)
    ensures Prompt(n')
  {
    hide NetTurn, MayAnswer, Late, Step;
    match e
    case ByGuest(g) => GuestKeepsLink(n.w, g, n'.w);
    case ByLink(m, a) => TurnPrompt(n, m, a);
  }
}
