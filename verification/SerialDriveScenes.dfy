/** Runs of the serial drive built up a step at a time: what the link does on each kind of turn, exactly, and
    what can be reached from power-on.
 */
module SerialDriveScenes {
  import opened Arithmetic
  import opened Basics
  import opened SerialDriveModel
  import opened SerialDriveCache
  import opened SerialDriveServer
  import SerialDriveLink

  // ---------------------------------------------------------------------------------------
  // Reaching a scene
  // ---------------------------------------------------------------------------------------

  /** Guest events that break the discipline. */
  function Breaches(ns: seq<Net>, es: seq<NetEvent>): nat
    requires |ns| == |es| + 1
    decreases |es|
  {
    if |es| == 0 then 0
    else var i := |es| - 1;
      Breaches(ns[..|es|], es[..i]) + if Valid(ns[i].w.b) && Keeps(ns[i], es[i]) then 0 else 1
  }

  /** Requests that find an older reply on the line. */
  function Crossings(ns: seq<Net>, es: seq<NetEvent>): nat
    requires |ns| == |es| + 1
    decreases |es|
  {
    if |es| == 0 then 0
    else var i := |es| - 1;
      Crossings(ns[..|es|], es[..i]) + if Cleared(ns[i], es[i], ns[i + 1]) then 0 else 1
  }

  /** What of a net decides what comes next. */
  datatype Scene = Scene(w: World, line: seq<byte>, heard: Option<nat>)

  predicate Shows(n: Net, s: Scene) { n.w == s.w && n.line == s.line && n.heard == s.heard }

  predicate LeadsTo(ns: seq<Net>, es: seq<NetEvent>, s: Scene, breaches: nat, crossings: nat) {
    |ns| == |es| + 1 && NetTrail(ns, es) && Shows(ns[|es|], s)
    && Breaches(ns, es) <= breaches && Crossings(ns, es) <= crossings
  }

  /** From power-on, with no more than so many breaches and crossings. */
  ghost predicate Reach(s: Scene, breaches: nat, crossings: nat) {
    exists ns: seq<Net>, es: seq<NetEvent> :: LeadsTo(ns, es, s, breaches, crossings)
  }

  lemma TrailGrows(ns: seq<Net>, es: seq<NetEvent>, e: NetEvent, n: Net)
    requires NetTrail(ns, es) && Valid(ns[|es|].w.b) && AllTracks(ns[|es|].w.disk, TrackLen(ns[|es|].w.b))
    requires NetStep(ns[|es|], e, n)
    ensures NetTrail(ns + [n], es + [e])
    ensures Breaches(ns + [n], es + [e]) == Breaches(ns, es) + if Keeps(ns[|es|], e) then 0 else 1
    ensures Crossings(ns + [n], es + [e]) == Crossings(ns, es) + if Cleared(ns[|es|], e, n) then 0 else 1
  {
    hide NetStep, Valid, AllTracks, Keeps, Cleared;
    var ts, fs := ns + [n], es + [e];
    assert ts[..|fs|] == ns && fs[..|es|] == es && fs[|es|] == e && ts[|es|] == ns[|es|] && ts[|fs|] == n;
    forall i | 0 <= i < |fs|
      ensures Valid(ts[i].w.b) && AllTracks(ts[i].w.disk, TrackLen(ts[i].w.b)) && NetStep(ts[i], fs[i], ts[i + 1])
    {
      if i < |es| { assert ts[i] == ns[i] && ts[i + 1] == ns[i + 1] && fs[i] == es[i]; }
    }
  }

  lemma {:induction false} NoFaults(ns: seq<Net>, es: seq<NetEvent>)
    requires |ns| == |es| + 1
    ensures Breaches(ns, es) == 0 ==> forall i :: 0 <= i < |es| ==> Valid(ns[i].w.b) && Keeps(ns[i], es[i])
    ensures Crossings(ns, es) == 0 ==> forall i :: 0 <= i < |es| ==> Cleared(ns[i], es[i], ns[i + 1])
    decreases |es|
  {
    hide Valid, Keeps, Cleared;
    if |es| > 0 {
      var ms, fs := ns[..|es|], es[..|es| - 1];
      NoFaults(ms, fs);
      assert forall i :: 0 <= i < |fs| ==> fs[i] == es[i];
      assert forall i :: 0 <= i < |ms| ==> ms[i] == ns[i];
    }
  }

  /** The guest, the clock or the server's store moves. */
  lemma GuestMove(s: Scene, g: Event, w: World, k: nat, c: nat)
    requires Reach(s, k, c) && Valid(s.w.b) && AllTracks(s.w.disk, TrackLen(s.w.b))
    requires !g.LinkTurn? && Step(s.w, g, w)
    ensures Reach(s.(w := w), k + 1, c)
    ensures Disciplined(s.w, g) ==> Reach(s.(w := w), k, c)
  {
    hide NetTrail, Valid, AllTracks, Step, Disciplined, Breaches, Crossings;
    var ns: seq<Net>, es: seq<NetEvent> :| LeadsTo(ns, es, s, k, c);
    var n := ns[|es|].(w := w);
    TrailGrows(ns, es, ByGuest(g), n);
    var ts, fs := ns + [n], es + [ByGuest(g)];
    assert LeadsTo(ts, fs, s.(w := w), k + 1, c);
    if Disciplined(s.w, g) { assert LeadsTo(ts, fs, s.(w := w), k, c); }
  }

  /** Everything queued goes out at once. */
  const ALL: nat := TRACK_BUF + 2

  /** A turn of the link at host time `h`, in which `come` bytes of the line arrive. */
  lemma LinkMove(s: Scene, h: nat, come: nat, a: Answer, r: Turned, k: nat, c: nat)
    requires Reach(s, k, c) && Valid(s.w.b) && AllTracks(s.w.disk, TrackLen(s.w.b)) && come <= |s.line|
    requires Turn(s.w.b, h, 0, s.line[..come], ALL) == r
    requires MayAnswer(s.w.store, s.heard, TrackLen(s.w.b), r.req, a)
    ensures var s' := Scene(World(r.b, Stored(s.w.store, s.heard, r.req, a), NowSent(s.w, r.req), s.w.disk),
                            s.line[come..] + a.reply, Heard(s.heard, r.req, a));
      && Reach(s', k, c + 1)
      && (r.req.Nothing? || come == |s.line| ==> Reach(s', k, c))
  {
    hide NetTrail, Valid, AllTracks, Breaches, Crossings, Turn, MayAnswer;
    var ns: seq<Net>, es: seq<NetEvent> :| LeadsTo(ns, es, s, k, c);
    var m := Moment(h, 0, come, ALL, 0);
    var n := NetTurn(ns[|es|], m, a);
    TrailGrows(ns, es, ByLink(m, a), n);
    var ts, fs := ns + [n], es + [ByLink(m, a)];
    var s' := Scene(World(r.b, Stored(s.w.store, s.heard, r.req, a), NowSent(s.w, r.req), s.w.disk),
                    s.line[come..] + a.reply, Heard(s.heard, r.req, a));
    assert LeadsTo(ts, fs, s', k, c + 1);
    if r.req.Nothing? || come == |s.line| { assert LeadsTo(ts, fs, s', k, c); }
  }

  // ---------------------------------------------------------------------------------------
  // The turns
  // ---------------------------------------------------------------------------------------

  /** A request has just gone, whole. */
  function Asked(b: Board, phase: Phase): Board {
    b.(l := b.l.(rx := [], tx := [], deadline := b.l.deadline + TIMEOUT_NS, phase := phase))
  }

  /** A reply has just been taken, and the link rests. */
  function Rested(b: Board): Board {
    b.(l := b.l.(rx := [], phase := Idle, statAt := b.l.deadline + STAT_NS, deadline := b.l.deadline + TIMEOUT_NS))
  }

  /** It was waited for in vain. */
  function GivenUp(b: Board): Board {
    b.(l := b.l.(rx := [], phase := Idle, statAt := b.l.deadline + STAT_NS))
  }

  function At(b: Board, arrived: seq<byte>): Turned
    requires Valid(b)
  {
    Turn(b, b.l.deadline, 0, arrived, ALL)
  }

  predicate Quiet(b: Board) { Valid(b) && b.l.tx == [] && b.l.rx == [] }

  lemma StatGoes(b: Board)
    requires Quiet(b) && b.l.phase.Idle? && !b.c.want && !b.c.flushNow && b.l.deadline >= b.l.statAt
    ensures At(b, []) == Turned(Asked(b, Stat), AskStat)
  {
    hide Message, Sum16;
  }

  lemma ReadGoes(b: Board)
    requires Quiet(b) && b.l.phase.Idle? && b.c.want && !b.c.dirty
    ensures At(b, []) == Turned(Asked(b.(c := b.c.(secsBuf := 0, key := CurKey(b))), Read), AskRead(CurKey(b)))
  {
    hide Message, Sum16;
    CurKeyFits(b);
  }

  lemma WriteGoes(b: Board)
    requires Quiet(b) && b.l.phase.Idle? && b.c.dirty && (b.c.want || b.c.flushNow)
    ensures var b' := b.(c := b.c.(dirty := false, flushNow := b.c.flushNow && b.c.want),
                         l := b.l.(readAfter := b.c.want, tries := WRITE_TRIES));
      At(b, []) == Turned(Asked(b', WritAsk), AskWrite(KeyOf(b)))
  {
    hide Message, Sum16;
  }

  const UP: seq<byte> := Message(STAT, 0, 1)   // drive 0 is there
  const OK: seq<byte> := Message(WRIT, 0, 0)
  const WRITTEN: seq<byte> := Message(WSTA, 0, 0)

  lemma RepliesAreGood()
    ensures Good(STAT, UP) && Word(UP, 6) == 1 && GoodOk(WRIT, OK) && GoodOk(WSTA, WRITTEN)
    ensures !GoodOk(WSTA, OK) && !GoodOk(WSTA, UP)
  {
    hide Good;
    SerialDriveLink.MessageRoundTrip(STAT, 0, 1, STAT);
    SerialDriveLink.MessageRoundTrip(STAT, 0, 1, WSTA);
    SerialDriveLink.MessageRoundTrip(WRIT, 0, 0, WRIT);
    SerialDriveLink.MessageRoundTrip(WRIT, 0, 0, WSTA);
    SerialDriveLink.MessageRoundTrip(WSTA, 0, 0, WSTA);
  }

  function Reply(data: seq<byte>): seq<byte> { data + Le(Sum16(data)) }

  lemma StatComes(b: Board)
    requires Quiet(b) && b.l.phase.Stat? && !DriveReady(b)
    ensures At(b, UP) == Turned(Rested(b.(p := b.p.(ready := Mask(1)))), Nothing)
    ensures 0 in Mask(1)
  {
    hide Good, Message, Word;
    RepliesAreGood();
    assert b.l.rx + UP == UP && UP[MSG_LEN..] == [];
    assert Pow2(0) == 1;
  }

  lemma TrackComes(b: Board, data: seq<byte>)
    requires Quiet(b) && b.l.phase.Read? && !b.mini && |data| == TRACK_BUF
    ensures At(b, Reply(data)) == Turned(Rested(b.(c := b.c.(buf := data, secsBuf := 32, want := false))), Nothing)
  {
    hide Sum16;
    SerialDriveLink.TrackRoundTrip(data);
    assert b.l.rx + Reply(data) == Reply(data);
    assert Reply(data)[..TRACK_BUF] == data && b.c.buf[TRACK_BUF..] == [];
  }

  lemma PartComes(b: Board, part: seq<byte>)
    requires Quiet(b) && b.l.phase.Read? && !b.mini && 0 < |part| <= TRACK_BUF
    ensures var l := b.l.(rx := part, deadline := b.l.deadline + TIMEOUT_NS);
      At(b, part) == Turned(b.(c := b.c.(buf := part + b.c.buf[|part|..], secsBuf := |part| / SLOT), l := l), Nothing)
  {
    hide GoodTrack;
    assert part[..|part|] == part;
  }

  lemma TrackEnds(b: Board, data: seq<byte>)
    requires Valid(b) && b.l.tx == [] && b.l.phase.Read? && !b.mini && |data| == TRACK_BUF
    requires |b.l.rx| < |Reply(data)| && b.l.rx == Reply(data)[..|b.l.rx|]
    ensures At(b, Reply(data)[|b.l.rx|..])
         == Turned(Rested(b.(c := b.c.(buf := data, secsBuf := 32, want := false))), Nothing)
  {
    hide Sum16;
    SerialDriveLink.TrackRoundTrip(data);
    assert b.l.rx + Reply(data)[|b.l.rx|..] == Reply(data);
    assert Reply(data)[..TRACK_BUF] == data && b.c.buf[TRACK_BUF..] == [];
  }

  lemma ReadGivenUp(b: Board)
    requires Valid(b) && b.l.tx == [] && b.l.phase.Read? && |b.l.rx| <= TrackLen(b)
    requires b.c.buf[..|b.l.rx|] == b.l.rx
    ensures var k := b.c.key % NO_TRACK + NO_TRACK;
      At(b, []) == Turned(GivenUp(b.(c := b.c.(secsBuf := |b.l.rx| / SLOT, key := k, want := false))), Nothing)
  {
    hide GoodTrack;
    assert b.l.rx + [] == b.l.rx && b.l.rx[..|b.l.rx|] == b.l.rx;
    assert b.l.rx + b.c.buf[|b.l.rx|..] == b.c.buf;
    TrackMeans(b.l.rx, TrackLen(b));
  }

  lemma AskAnswered(b: Board)
    requires Quiet(b) && b.l.phase.WritAsk? && !b.mini
    ensures At(b, OK) == Turned(Asked(b, WritSta), SendTrack(b.c.buf))
  {
    hide Good, GoodOk, Message, Sum16;
    RepliesAreGood();
    assert b.l.rx + OK == OK && b.c.buf[..TrackLen(b)] == b.c.buf;
  }

  lemma WriteDone(b: Board)
    requires Quiet(b) && b.l.phase.WritSta?
    ensures var b' := Rested(b).(l := Rested(b).l.(readAfter := false));
      var r := b'.(c := b.c.(secsBuf := 0, key := CurKey(b)), l := b'.l.(deadline := b.l.deadline));
      At(b, WRITTEN) == if b.l.readAfter then Turned(Asked(r, Read), AskRead(CurKey(b))) else Turned(b', Nothing)
  {
    hide Good, GoodOk, Message, Sum16;
    RepliesAreGood();
    CurKeyFits(b);
    assert b.l.rx + WRITTEN == WRITTEN && WRITTEN[MSG_LEN..] == [];
  }

  lemma WriteAgain(b: Board)
    requires Quiet(b) && Busy(b) && b.l.tries > 1
    ensures At(b, []) == Turned(Asked(b.(l := b.l.(tries := b.l.tries - 1)), WritAsk), AskWrite(KeyOf(b)))
  {
    hide Good, GoodOk, Message, Sum16;
  }

  // ---------------------------------------------------------------------------------------
  // Moves
  // ---------------------------------------------------------------------------------------

  predicate Sized(s: Scene) {
    Quiet(s.w.b) && !s.w.b.mini && AllTracks(s.w.store, TRACK_BUF) && AllTracks(s.w.disk, TRACK_BUF)
  }

  lemma Cut(a: seq<byte>, b: seq<byte>)
    ensures (a + b)[..|a|] == a && (a + b)[|a|..] == b
  {}

  lemma GoWrite(s: Scene, k: nat, c: nat, a: Answer) returns (s': Scene)
    requires Sized(s) && Reach(s, k, c) && s.w.b.l.phase.Idle? && s.w.b.c.dirty && (s.w.b.c.want || s.w.b.c.flushNow)
    requires a == SILENT || (a.got && !a.stores && |a.reply| <= MSG_LEN)
    ensures var b := s.w.b.(c := s.w.b.c.(dirty := false, flushNow := s.w.b.c.flushNow && s.w.b.c.want),
                            l := s.w.b.l.(readAfter := s.w.b.c.want, tries := WRITE_TRIES));
      && s'.w == World(Asked(b, WritAsk), s.w.store, s'.w.sent, s.w.disk) && s'.line == s.line + a.reply
      && s'.heard == if a.got then Some(KeyOf(s.w.b)) else s.heard
    ensures Sized(s') && Reach(s', k, c + 1) && (s.line == [] ==> Reach(s', k, c))
  {
    hide Reach, Turn;
    WriteGoes(s.w.b);
    assert s.line[..0] == [] && s.line[0..] == s.line;
    LinkMove(s, s.w.b.l.deadline, 0, a, At(s.w.b, []), k, c);
    var r := At(s.w.b, []);
    s' := Scene(World(r.b, Stored(s.w.store, s.heard, r.req, a), NowSent(s.w, r.req), s.w.disk),
                s.line[0..] + a.reply, Heard(s.heard, r.req, a));
  }

  lemma GoAgain(s: Scene, k: nat, c: nat, a: Answer) returns (s': Scene)
    requires Sized(s) && Reach(s, k, c) && Busy(s.w.b) && s.w.b.l.tries > 1
    requires a == SILENT || (a.got && !a.stores && |a.reply| <= MSG_LEN)
    ensures var b := s.w.b.(l := s.w.b.l.(tries := s.w.b.l.tries - 1));
      && s'.w == World(Asked(b, WritAsk), s.w.store, s'.w.sent, s.w.disk) && s'.line == s.line + a.reply
      && s'.heard == if a.got then Some(KeyOf(s.w.b)) else s.heard
    ensures Sized(s') && Reach(s', k, c + 1) && (s.line == [] ==> Reach(s', k, c))
  {
    hide Reach, Turn;
    WriteAgain(s.w.b);
    assert s.line[..0] == [] && s.line[0..] == s.line;
    LinkMove(s, s.w.b.l.deadline, 0, a, At(s.w.b, []), k, c);
    var r := At(s.w.b, []);
    s' := Scene(World(r.b, Stored(s.w.store, s.heard, r.req, a), NowSent(s.w, r.req), s.w.disk),
                s.line[0..] + a.reply, Heard(s.heard, r.req, a));
  }

  /** The write is accepted, and its track goes: the server stores it and says so, or never hears it. */
  lemma GoTrack(s: Scene, k: nat, c: nat, rest: seq<byte>, stores: bool) returns (s': Scene)
    requires Sized(s) && Reach(s, k, c) && s.w.b.l.phase.WritAsk? && s.line == OK + rest
    requires stores ==> s.heard.Some?
    ensures s'.w == World(Asked(s.w.b, WritSta), if stores then s.w.store[s.heard.value := s.w.b.c.buf] else s.w.store,
                          s'.w.sent, s.w.disk)
    ensures s'.w.sent == s.w.sent + {(KeyOf(s.w.b), s.w.b.c.buf)}
    ensures s'.line == rest + (if stores then WRITTEN else []) && s'.heard == if stores then None else s.heard
    ensures Sized(s') && Reach(s', k, c + 1) && (rest == [] ==> Reach(s', k, c))
  {
    hide Reach, Turn, GoodOk;
    AskAnswered(s.w.b);
    Cut(OK, rest);
    OkMeans(WSTA, []);
    var a := if stores then Answer(true, true, WRITTEN) else SILENT;
    LinkMove(s, s.w.b.l.deadline, MSG_LEN, a, At(s.w.b, OK), k, c);
    var r := At(s.w.b, OK);
    s' := Scene(World(r.b, Stored(s.w.store, s.heard, r.req, a), NowSent(s.w, r.req), s.w.disk),
                s.line[MSG_LEN..] + a.reply, Heard(s.heard, r.req, a));
  }

  lemma GoDone(s: Scene, k: nat, c: nat, rest: seq<byte>) returns (s': Scene)
    requires Sized(s) && Reach(s, k, c) && s.w.b.l.phase.WritSta? && !s.w.b.l.readAfter && s.line == WRITTEN + rest
    ensures s'.w == World(Rested(s.w.b), s.w.store, s.w.sent, s.w.disk) && s'.line == rest && s'.heard == s.heard
    ensures Sized(s') && Reach(s', k, c)
  {
    hide Reach, Turn;
    WriteDone(s.w.b);
    Cut(WRITTEN, rest);
    LinkMove(s, s.w.b.l.deadline, MSG_LEN, SILENT, At(s.w.b, WRITTEN), k, c);
    var r := At(s.w.b, WRITTEN);
    s' := Scene(World(r.b, Stored(s.w.store, s.heard, r.req, SILENT), NowSent(s.w, r.req), s.w.disk),
                s.line[MSG_LEN..] + [], Heard(s.heard, r.req, SILENT));
  }

  /** The write is done, and the read behind it goes. */
  lemma GoDoneThenRead(s: Scene, k: nat, c: nat) returns (s': Scene)
    requires Sized(s) && Reach(s, k, c) && s.w.b.l.phase.WritSta? && s.w.b.l.readAfter && s.line == WRITTEN
    ensures var b, at := s.w.b, s.w.b.l.deadline;
      && s'.w == World(Asked(b.(c := b.c.(secsBuf := 0, key := CurKey(b)),
                               l := b.l.(readAfter := false, statAt := at + STAT_NS)), Read),
                       s.w.store, s.w.sent, s.w.disk)
      && CurKey(b) in s.w.store && s'.line == Reply(s.w.store[CurKey(b)]) && s'.heard.None?
    ensures Sized(s') && Reach(s', k, c)
  {
    hide Reach, Turn, GoodTrack;
    WriteDone(s.w.b);
    CurKeyFits(s.w.b);
    Cut(WRITTEN, []);
    assert s.line + [] == s.line;
    var a := Answer(true, false, Reply(s.w.store[CurKey(s.w.b)]));
    ReplyIsTrack(s.w.store[CurKey(s.w.b)]);
    LinkMove(s, s.w.b.l.deadline, MSG_LEN, a, At(s.w.b, WRITTEN), k, c);
    var r := At(s.w.b, WRITTEN);
    s' := Scene(World(r.b, Stored(s.w.store, s.heard, r.req, a), NowSent(s.w, r.req), s.w.disk),
                s.line[MSG_LEN..] + a.reply, Heard(s.heard, r.req, a));
  }

  lemma ReplyIsTrack(data: seq<byte>)
    ensures |Reply(data)| == |data| + 2 && Reply(data)[..|data|] == data
  {
    assert Reply(data)[..|data|] == data;
  }

  /** A read goes; its answer is the track, or nothing. */
  lemma GoRead(s: Scene, k: nat, c: nat, got: bool) returns (s': Scene)
    requires Sized(s) && Reach(s, k, c) && s.w.b.l.phase.Idle? && s.w.b.c.want && !s.w.b.c.dirty
    ensures var b := s.w.b;
      && s'.w == World(Asked(b.(c := b.c.(secsBuf := 0, key := CurKey(b))), Read), s.w.store, s.w.sent, s.w.disk)
      && CurKey(b) in s.w.store && s'.line == s.line + (if got then Reply(s.w.store[CurKey(b)]) else [])
    ensures Sized(s') && Reach(s', k, c + 1) && (s.line == [] ==> Reach(s', k, c))
  {
    hide Reach, Turn, GoodTrack;
    ReadGoes(s.w.b);
    CurKeyFits(s.w.b);
    var a := if got then Answer(true, false, Reply(s.w.store[CurKey(s.w.b)])) else SILENT;
    ReplyIsTrack(s.w.store[CurKey(s.w.b)]);
    TrackMeans([], TRACK_BUF);
    assert s.line[..0] == [] && s.line[0..] == s.line;
    LinkMove(s, s.w.b.l.deadline, 0, a, At(s.w.b, []), k, c);
    var r := At(s.w.b, []);
    s' := Scene(World(r.b, Stored(s.w.store, s.heard, r.req, a), NowSent(s.w, r.req), s.w.disk),
                s.line[0..] + a.reply, Heard(s.heard, r.req, a));
  }

  lemma GoTrackComes(s: Scene, k: nat, c: nat, data: seq<byte>) returns (s': Scene)
    requires Sized(s) && Reach(s, k, c) && s.w.b.l.phase.Read? && |data| == TRACK_BUF && s.line == Reply(data)
    ensures s' == Scene(World(Rested(s.w.b.(c := s.w.b.c.(buf := data, secsBuf := 32, want := false))),
                              s.w.store, s.w.sent, s.w.disk), [], s.heard)
    ensures Sized(s') && Reach(s', k, c)
  {
    hide Reach, Turn;
    TrackComes(s.w.b, data);
    ReplyIsTrack(data);
    assert s.line[..|s.line|] == s.line && s.line[|s.line|..] + [] == [];
    LinkMove(s, s.w.b.l.deadline, |s.line|, SILENT, At(s.w.b, Reply(data)), k, c);
    s' := Scene(World(At(s.w.b, Reply(data)).b, s.w.store, s.w.sent, s.w.disk), [], s.heard);
  }

  /** A read is waited for in vain, with what there is of its answer still on the line. */
  lemma GoReadGivenUp(s: Scene, k: nat, c: nat) returns (s': Scene)
    requires Valid(s.w.b) && s.w.b.l.tx == [] && !s.w.b.mini
    requires AllTracks(s.w.store, TRACK_BUF) && AllTracks(s.w.disk, TRACK_BUF)
    requires Reach(s, k, c) && s.w.b.l.phase.Read?
    requires |s.w.b.l.rx| <= TRACK_BUF && s.w.b.c.buf[..|s.w.b.l.rx|] == s.w.b.l.rx
    ensures var b := s.w.b;
      var c := b.c.(secsBuf := |b.l.rx| / SLOT, key := b.c.key % NO_TRACK + NO_TRACK, want := false);
      s' == s.(w := s.w.(b := GivenUp(b.(c := c))))
    ensures Sized(s') && Reach(s', k, c)
  {
    hide Reach, Turn;
    ReadGivenUp(s.w.b);
    assert s.line[..0] == [] && s.line[0..] + [] == s.line;
    LinkMove(s, s.w.b.l.deadline, 0, SILENT, At(s.w.b, []), k, c);
    s' := s.(w := s.w.(b := At(s.w.b, []).b));
  }

  /** A read goes, and its answer is cut short. */
  lemma GoReadCut(s: Scene, k: nat, c: nat, n: nat) returns (s': Scene)
    requires Sized(s) && Reach(s, k, c) && s.w.b.l.phase.Idle? && s.w.b.c.want && !s.w.b.c.dirty && n <= TRACK_BUF
    requires s.line == []
    ensures var b := s.w.b;
      && s'.w == World(Asked(b.(c := b.c.(secsBuf := 0, key := CurKey(b))), Read), s.w.store, s.w.sent, s.w.disk)
      && CurKey(b) in s.w.store && s'.line == s.w.store[CurKey(b)][..n]
    ensures Sized(s') && Reach(s', k, c)
  {
    hide Reach, Turn, GoodTrack;
    ReadGoes(s.w.b);
    CurKeyFits(s.w.b);
    var a := Answer(true, false, s.w.store[CurKey(s.w.b)][..n]);
    TrackMeans(a.reply, TRACK_BUF);
    assert s.line[..0] == [] && s.line[0..] + a.reply == a.reply;
    LinkMove(s, s.w.b.l.deadline, 0, a, At(s.w.b, []), k, c);
    var r := At(s.w.b, []);
    s' := Scene(World(r.b, Stored(s.w.store, s.heard, r.req, a), NowSent(s.w, r.req), s.w.disk),
                s.line[0..] + a.reply, Heard(s.heard, r.req, a));
  }

  /** The first part of a track comes. */
  lemma GoPart(s: Scene, k: nat, c: nat, n: nat) returns (s': Scene)
    requires Sized(s) && Reach(s, k, c) && s.w.b.l.phase.Read? && 0 < n <= TRACK_BUF && n <= |s.line|
    ensures var b, part := s.w.b, s.line[..n];
      && Valid(b) && Valid(s'.w.b) && s'.line == s.line[n..] && s'.heard == s.heard
      && s'.w == s.w.(b := b.(c := b.c.(buf := part + b.c.buf[n..], secsBuf := n / SLOT),
                              l := b.l.(rx := part, deadline := b.l.deadline + TIMEOUT_NS)))
    ensures Reach(s', k, c)
  {
    hide Reach, Turn;
    PartComes(s.w.b, s.line[..n]);
    assert s.line[n..] + [] == s.line[n..];
    LinkMove(s, s.w.b.l.deadline, n, SILENT, At(s.w.b, s.line[..n]), k, c);
    s' := Scene(s.w.(b := At(s.w.b, s.line[..n]).b), s.line[n..], s.heard);
  }

  /** The rest of it comes. */
  lemma GoTrackEnds(s: Scene, k: nat, c: nat, data: seq<byte>) returns (s': Scene)
    requires Valid(s.w.b) && s.w.b.l.tx == [] && !s.w.b.mini
    requires AllTracks(s.w.store, TRACK_BUF) && AllTracks(s.w.disk, TRACK_BUF)
    requires Reach(s, k, c) && s.w.b.l.phase.Read? && |data| == TRACK_BUF && |s.w.b.l.rx| <= TRACK_BUF
    requires |Reply(data)| == TRACK_BUF + 2
    requires s.w.b.l.rx == Reply(data)[..|s.w.b.l.rx|] && s.line == Reply(data)[|s.w.b.l.rx|..]
    ensures s' == Scene(World(Rested(s.w.b.(c := s.w.b.c.(buf := data, secsBuf := 32, want := false))),
                              s.w.store, s.w.sent, s.w.disk), [], s.heard)
    ensures Sized(s') && Reach(s', k, c)
  {
    hide Reach, Turn;
    TrackEnds(s.w.b, data);
    assert s.line[..|s.line|] == s.line && s.line[|s.line|..] + [] == [];
    LinkMove(s, s.w.b.l.deadline, |s.line|, SILENT, At(s.w.b, s.line), k, c);
    s' := Scene(World(At(s.w.b, s.line).b, s.w.store, s.w.sent, s.w.disk), [], s.heard);
  }

  // ---------------------------------------------------------------------------------------
  // The guest's moves
  // ---------------------------------------------------------------------------------------

  /** Drive 0 is ready and selected, its head up, nothing is owed, nothing is on the line, and the next
      byte the guest puts is a sector's first. */
  predicate Resting(s: Scene) {
    var b := s.w.b;
    && Sized(s) && b.l.phase.Idle? && s.line == [] && b.l.log == [] && !b.c.dirty && DriveReady(b)
    && b.p.cur == 0 && !b.p.headLoaded && b.p.byteCount == 0 && b.p.pSector == 0 && b.p.sectorPos % 2 == 1
  }

  /** The board the card's constructor leaves. */
  const POWER := PowerOn(false, 0)

  lemma StartsAtPower(disk: Tracks) returns (s: Scene)
    requires AllTracks(disk, TRACK_BUF)
    ensures s == Scene(World(POWER, disk, {}, disk), [], None) && Reach(s, 0, 0) && Sized(s)
  {
    s := Scene(World(POWER, disk, {}, disk), [], None);
    var n := Net(s.w, [], [], 0, 0, None);
    assert NetTrail([n], []);
    assert LeadsTo([n], [], s, 0, 0);
  }

  /** The server is asked which drives are there, and has the first. */
  lemma StatDone(s: Scene, k: nat, c: nat) returns (s': Scene)
    requires Sized(s) && Reach(s, k, c) && s.w.b == POWER && s.line == []
    ensures var b := Rested(Asked(POWER, Stat).(p := POWER.p.(ready := Mask(1))));
      s' == Scene(World(b, s.w.store, s.w.sent, s.w.disk), [], None)
    ensures 0 in Mask(1) && Sized(s') && Reach(s', k, c)
  {
    hide Reach, Turn, Good, GoodOk, GoodTrack;
    StatGoes(POWER);
    var a := Answer(true, false, UP);
    LinkMove(s, 0, 0, a, At(POWER, []), k, c);
    assert s.line[..0] == [] && s.line[0..] + UP == UP;
    var m := Scene(World(Asked(POWER, Stat), s.w.store, s.w.sent, s.w.disk), UP, None);
    StatComes(m.w.b);
    assert UP[..MSG_LEN] == UP && UP[MSG_LEN..] + [] == [];
    LinkMove(m, m.w.b.l.deadline, MSG_LEN, SILENT, At(m.w.b, UP), k, c);
    s' := Scene(World(At(m.w.b, UP).b, s.w.store, s.w.sent, s.w.disk), [], None);
  }

  /** The guest finds the track it wants is not in the buffer. */
  lemma Wants(s: Scene, k: nat, c: nat) returns (s': Scene)
    requires Sized(s) && Reach(s, k, c) && s.w.b.p.sectorPos % 2 == 1 && s.w.b.c.key != CurKey(s.w.b)
    ensures var b := s.w.b;
      s' == s.(w := s.w.(b := b.(p := b.p.(status := b.p.status.(enwd := true), sectorPos := 0xFF),
                                 c := b.c.(want := true))))
    ensures Sized(s') && Reach(s', k, c)
  {
    hide Reach;
    s' := s.(w := s.w.(b := SectorRead(s.w.b, s.w.b.p.tickSeen)));
    GuestMove(s, SectorIn(s.w.b.p.tickSeen), s'.w, k, c);
  }

  /** Write enable. It is a breach unless the cache is at rest on the track under the head. */
  lemma Enables(s: Scene, k: nat, c: nat) returns (s': Scene)
    requires Sized(s.(w := s.w.(b := s.w.b.(l := s.w.b.l.(rx := []))))) && Reach(s, k, c) && DriveReady(s.w.b)
    ensures var b := s.w.b;
      s' == s.(w := s.w.(b := b.(p := b.p.(status := b.p.status.(enwd := false)), c := b.c.(dirty := true))))
    ensures Reach(s', k + 1, c) && Valid(s.w.b) && (MayEnable(s.w.b) ==> Reach(s', k, c))
  {
    hide Reach;
    s' := s.(w := s.w.(b := Command(s.w.b, 0x80)));
    GuestMove(s, CommandOut(0x80), s'.w, k, c);
  }

  /** A step in, one track. */
  lemma StepsIn(s: Scene, k: nat, c: nat) returns (s': Scene)
    requires Sized(s) && Reach(s, k, c) && DriveReady(s.w.b)
    ensures var b, d := s.w.b, s.w.b.p.cur;
      && s'.w.b.p.tracks == b.p.tracks[d := NextTrack(b.p.tracks[d], false)]
      && s'.w.b.p.sectorPos == 0xFF && DriveReady(s'.w.b)
      && s' == s.(w := s.w.(b := b.(p := b.p.(status := s'.w.b.p.status, sectorPos := 0xFF,
                                              tracks := s'.w.b.p.tracks))))
    ensures Sized(s') && Reach(s', k, c)
  {
    hide Reach, NextTrack;
    s' := s.(w := s.w.(b := Command(s.w.b, 1)));
    CommandValid(s.w.b, 1);
    GuestMove(s, CommandOut(1), s'.w, k, c);
  }

  function Headed(t: seq<byte>, v: byte): (r: seq<byte>)
    requires |t| > 0
    ensures |r| == |t|
  {
    t[0 := v]
  }

  /** Byte `v` goes in at the head of the track. It is a breach unless the discipline allows it. */
  lemma Puts(s: Scene, k: nat, c: nat, v: byte) returns (s': Scene)
    requires Valid(s.w.b) && !s.w.b.mini && AllTracks(s.w.disk, TRACK_BUF) && Reach(s, k, c)
    requires s.w.b.p.byteCount == 0 && s.w.b.p.pSector == 0
    ensures var b, i := s.w.b, CurKey(s.w.b);
      && i in s.w.disk && |s.w.disk[i]| == TRACK_BUF == |b.c.buf|
      && s'.w.b == b.(p := b.p.(byteCount := 1, pSector := 1), c := b.c.(buf := b.c.buf[0 := v]))
      && s' == s.(w := s.w.(b := s'.w.b, disk := s.w.disk[i := Headed(s.w.disk[i], v)]))
    ensures Valid(s'.w.b) && AllTracks(s'.w.disk, TRACK_BUF)
    ensures Reach(s', k + 1, c) && (MayPut(s.w) ==> Reach(s', k, c))
  {
    hide Reach;
    CurKeyFits(s.w.b);
    s' := s.(w := s.w.(b := DataWrite(s.w.b, v), disk := Written(s.w, v)));
    GuestMove(s, DataOut(v), s'.w, k, c);
  }

  /** The head has been up long enough for the buffer to be let go of. */
  lemma LetsGo(s: Scene, k: nat, c: nat) returns (s': Scene)
    requires Sized(s) && Reach(s, k, c) && !s.w.b.p.headLoaded
    ensures s' == s.(w := s.w.(b := LetGo(s.w.b)))
    ensures Sized(s') && Reach(s', k, c)
  {
    hide Reach;
    s' := s.(w := s.w.(b := LetGo(s.w.b)));
    GuestMove(s, IdleTimer, s'.w, k, c);
  }

  /** The track the guest wants comes, whole and at once. */
  lemma Fetch(s: Scene, k: nat, c: nat) returns (s': Scene)
    requires Resting(s) && Reach(s, k, c) && s.w.b.c.want
    ensures Resting(s') && Reach(s', k, c) && s'.w == s.w.(b := s'.w.b)
    ensures var b, i := s.w.b, CurKey(s.w.b);
      && i in s.w.store && s'.w.b.p == b.p
      && s'.w.b.c == b.c.(buf := s.w.store[i], key := i, secsBuf := 32, want := false)
  {
    hide Reach;
    var m := GoRead(s, k, c, true);
    assert [] + m.line == m.line;
    s' := GoTrackComes(m, k, c, s.w.store[CurKey(s.w.b)]);
  }

  /** A drive just turned on, its first drive selected, and that drive's first track in the buffer. */
  lemma Begin(disk: Tracks) returns (s: Scene)
    requires AllTracks(disk, TRACK_BUF)
    ensures Resting(s) && Reach(s, 0, 0) && s.w.store == disk && s.w.disk == disk
    ensures CurKey(s.w.b) == 0 && s.w.b.p.tracks[0] == 0 && s.w.b.c.key == 0 && s.w.b.c.buf == disk[0]
    ensures !s.w.b.c.want && !s.w.b.c.flushNow
  {
    hide Reach;
    s := StartsAtPower(disk);
    s := StatDone(s, 0, 0);
    var m := s.(w := s.w.(b := Select(s.w.b, 0)));
    GuestMove(s, SelectOut(0), m.w, 0, 0);
    s := Wants(m, 0, 0);
    s := Fetch(s, 0, 0);
  }
}
