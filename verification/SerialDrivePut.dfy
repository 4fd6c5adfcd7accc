/** Exactly when a byte put in the track buffer is safe: when nothing that the line and the server can do
    from there loses it without a word.
 */
module SerialDrivePut {
  import opened Basics
  import opened SerialDriveModel
  import opened SerialDriveCache
  import opened SerialDriveServer
  import opened SerialDriveScenes
  import opened SerialDriveFaults

  predicate ByLink(e: Event) { e.LinkTurn? || e.ServerTakes? }

  predicate LinkTrail(ws: seq<World>, es: seq<Event>, w: World) {
    Trail(ws, es) && ws[0] == w && forall i :: 0 <= i < |es| ==> ByLink(es[i])
  }

  /** The line and the server alone, from here, can lose track `k` and nobody be told. */
  ghost predicate CanLose(w: World, k: nat) {
    exists ws: seq<World>, es: seq<Event> :: LosesBy(ws, es, w, k)
  }

  predicate LosesBy(ws: seq<World>, es: seq<Event>, w: World, k: nat) {
    |ws| == |es| + 1 && LinkTrail(ws, es, w) && Lost(ws[|es|], k)
  }

  /** The reply that a write waits for. */
  function Awaited(l: Link): Command4 { if l.phase.WritAsk? then WRIT else WSTA }

  /** What has come of a reply can still turn out good. */
  ghost predicate Hopeful(c: Command4, rx: seq<byte>) {
    exists more: seq<byte> :: GoodOk(c, rx + more)
  }

  /** The last try of the write under way can only fail, and be logged. */
  ghost predicate Hopeless(l: Link) {
    (l.phase.WritAsk? || l.phase.WritSta?) && l.tries <= 1 && !Hopeful(Awaited(l), l.rx)
  }

  /** The guest puts `v`. */
  function Put(w: World, v: byte): World
    requires Valid(w.b) && AllTracks(w.disk, TrackLen(w.b))
  {
    w.(b := DataWrite(w.b, v), disk := Written(w, v))
  }

  /** A byte of a sector of the track under the head, of which no give-up has been logged, and not the byte
      that is there. */
  predicate Differs(w: World, v: byte)
    requires Valid(w.b)
  {
    Lands(w.b) && Kept(w.b, CurKey(w.b)) && CurKey(w.b) in w.disk && w.b.p.pSector < |w.disk[CurKey(w.b)]|
    && w.disk[CurKey(w.b)][w.b.p.pSector] != v
  }

  // ---------------------------------------------------------------------------------------
  // A loss, built from its end
  // ---------------------------------------------------------------------------------------

  lemma AlreadyLost(w: World, k: nat)
    requires Lost(w, k)
    ensures CanLose(w, k)
  {
    assert LosesBy([w], [], w, k);
  }

  lemma LostAfter(w: World, e: Event, w': World, k: nat)
    requires Valid(w.b) && AllTracks(w.disk, TrackLen(w.b)) && Step(w, e, w') && ByLink(e) && CanLose(w', k)
    ensures CanLose(w, k)
  {
    hide Step, Valid, AllTracks, Lost;
    var ws: seq<World>, es: seq<Event> :| LosesBy(ws, es, w', k);
    var us, fs := [w] + ws, [e] + es;
    forall i | 0 <= i < |fs|
      ensures Valid(us[i].b) && AllTracks(us[i].disk, TrackLen(us[i].b)) && Step(us[i], fs[i], us[i + 1]) && ByLink(fs[i])
    {
      if i > 0 { assert fs[i] == es[i - 1] && us[i] == ws[i - 1] && us[i + 1] == ws[i]; }
    }
    assert LosesBy(us, fs, w, k);
  }

  /** A write is under way, and `was`, which is no longer the disk's track `k`, has gone out in it. */
  predicate Overtaken(w: World, k: nat, was: seq<byte>) {
    var len := TrackLen(w.b);
    && Valid(w.b) && AllTracks(w.store, len) && AllTracks(w.disk, len) && Busy(w.b) && !w.b.c.dirty
    && KeyOf(w.b) == k && k !in w.b.l.log && (k, was) in w.sent && |was| == len && was != w.disk[k]
  }

  function After(w: World, arrived: seq<byte>): World
    requires Valid(w.b)
  {
    var r := Turn(w.b, 0, 0, arrived, 0);
    World(r.b, w.store, NowSent(w, r.req), w.disk)
  }

  lemma StaEnds(b: Board, more: seq<byte>)
    requires Valid(b) && b.l.phase.WritSta? && GoodOk(WSTA, b.l.rx + more)
    ensures var r := Turn(b, 0, 0, more, 0);
      && Valid(r.b) && r.b.mini == b.mini && !Busy(r.b) && r.b.l.log == b.l.log && r.b.c.dirty == b.c.dirty
  {
    hide GoodOk, Message, Sum16;
    OkMeans(WSTA, b.l.rx + more);
    CurKeyFits(b);
  }

  /** "Track written", said of the old one. */
  lemma StaLoses(w: World, k: nat, was: seq<byte>, more: seq<byte>)
    requires Overtaken(w, k, was) && w.b.l.phase.WritSta? && GoodOk(WSTA, w.b.l.rx + more)
    ensures CanLose(w, k)
  {
    hide CanLose, GoodOk, Turn;
    var w1 := w.(store := w.store[k := was]);
    StaEnds(w.b, more);
    var w2 := After(w1, more);
    AlreadyLost(w2, k);
    LostAfter(w1, LinkTurn(0, 0, more, 0), w2, k);
    LostAfter(w, ServerTakes(w1.store), w1, k);
  }

  lemma AskEnds(b: Board, more: seq<byte>)
    requires Valid(b) && b.l.phase.WritAsk? && GoodOk(WRIT, b.l.rx + more)
    ensures var r := Turn(b, 0, 0, more, 0);
      && Valid(r.b) && r.b.mini == b.mini && r.b.l.phase.WritSta? && r.b.l.rx == [] && r.b.l.log == b.l.log && r.b.c == b.c
      && r.req.SendTrack?
  {
    hide GoodOk, Message, Sum16;
    OkMeans(WRIT, b.l.rx + more);
  }

  /** The write is accepted, its track goes, and "track written" comes, of the old one. */
  lemma AskLoses(w: World, k: nat, was: seq<byte>, more: seq<byte>)
    requires Overtaken(w, k, was) && w.b.l.phase.WritAsk? && GoodOk(WRIT, w.b.l.rx + more)
    ensures CanLose(w, k)
  {
    hide CanLose, GoodOk, Turn;
    AskEnds(w.b, more);
    var w1 := After(w, more);
    RepliesAreGood();
    assert w1.b.l.rx + WRITTEN == WRITTEN;
    StaLoses(w1, k, was, WRITTEN);
    LostAfter(w, LinkTurn(0, 0, more, 0), w1, k);
  }

  lemma TryEnds(b: Board, more: seq<byte>)
    requires Valid(b) && Busy(b) && b.l.tries > 1 && |b.l.rx + more| >= MSG_LEN && !GoodOk(Awaited(b.l), b.l.rx + more)
    ensures var r := Turn(b, 0, 0, more, 0);
      && Valid(r.b) && r.b.mini == b.mini && r.b.l.phase.WritAsk? && r.b.l.rx == [] && r.b.l.log == b.l.log && r.b.c == b.c
      && r.req.AskWrite?
  {
    hide GoodOk, Message, Sum16;
  }

  /** What has come is no good: the write is asked again, and then goes as above. */
  lemma TryLoses(w: World, k: nat, was: seq<byte>)
    requires Overtaken(w, k, was) && w.b.l.tries > 1 && !Hopeful(Awaited(w.b.l), w.b.l.rx)
    ensures CanLose(w, k)
  {
    hide CanLose, GoodOk, Turn;
    var more := seq(MSG_LEN, _ => 0);
    assert |w.b.l.rx + more| >= MSG_LEN;
    TryEnds(w.b, more);
    var w1 := After(w, more);
    RepliesAreGood();
    assert w1.b.l.rx + OK == OK;
    AskLoses(w1, k, was, OK);
    LostAfter(w, LinkTurn(0, 0, more, 0), w1, k);
  }

  lemma OvertakenLoses(w: World, k: nat, was: seq<byte>)
    requires Overtaken(w, k, was) && !Hopeless(w.b.l)
    ensures CanLose(w, k)
  {
    hide CanLose, GoodOk, Turn;
    if Hopeful(Awaited(w.b.l), w.b.l.rx) {
      var more: seq<byte> :| GoodOk(Awaited(w.b.l), w.b.l.rx + more);
      if w.b.l.phase.WritAsk? { AskLoses(w, k, was, more); } else { StaLoses(w, k, was, more); }
    } else {
      TryLoses(w, k, was);
    }
  }

  /** A byte that may not be put, and whose write is not beyond hope, can be lost, or is already. */
  lemma PutLoses(w: World, v: byte)
    requires Coherent(w) && Differs(w, v) && !MayPut(w) && !(Hopeless(w.b.l) && KeyOf(w.b) == CurKey(w.b))
    ensures CanLose(Put(w, v), CurKey(w.b))
  {
    hide CanLose, Hopeless;
    CurKeyFits(w.b);
    var k, q, w1 := CurKey(w.b), w.b.p.pSector, Put(w, v);
    assert w1.disk[k][q] == v != w.disk[k][q];
    if KeyOf(w.b) == k && Busy(w.b) {
      var s :| s in w.sent;
      assert s == (k, w.disk[k]);
      assert w1.b.l == w.b.l;
      OvertakenLoses(w1, k, s.1);
    } else {
      AlreadyLost(w1, k);
    }
  }

  // ---------------------------------------------------------------------------------------
  // And a byte that is safe
  // ---------------------------------------------------------------------------------------

  /** The last try of the write of track `k` can only fail; or it has, and that was logged. */
  ghost predicate Dying(w: World, k: nat) {
    || k in w.b.l.log
    || (Valid(w.b) && Hopeless(w.b.l) && KeyOf(w.b) == k && k in w.disk && w.disk[k] == InBuffer(w.b))
  }

  lemma DyingIsNotLost(w: World, k: nat)
    requires Dying(w, k)
    ensures !Lost(w, k)
  {}

  lemma FinishLogs(b: Board, ok: bool, h: nat, k: nat)
    requires Valid(b) && k in b.l.log
    ensures k in FinishWrite(b, ok, h).b.l.log
  {
    hide Message, Sum16;
  }

  lemma ActLogs(b: Board, h: nat, k: nat)
    requires Valid(b) && k in b.l.log
    ensures k in Act(b, h).b.l.log
  {
    hide Message, Good, GoodOk, GoodTrack, Sum16, Mask, FinishWrite;
    FinishLogs(b, false, h, k);
    if |b.l.rx| >= MSG_LEN {
      FinishLogs(Took(b), false, h, k);
      FinishLogs(Took(b), GoodOk(WSTA, b.l.rx), h, k);
    }
  }

  lemma LogStays(b: Board, h: nat, n: nat, arrived: seq<byte>, more: nat, k: nat)
    requires Valid(b) && n <= |b.l.tx| && k in b.l.log
    ensures k in Turn(b, h, n, arrived, more).b.l.log
  {
    hide Act;
    ActLogs(Receive(Transmit(b, n, h), arrived, h), h, k);
  }

  lemma HopefulBefore(c: Command4, rx: seq<byte>, arrived: seq<byte>)
    requires Hopeful(c, rx + arrived)
    ensures Hopeful(c, rx)
  {
    hide GoodOk;
    var more: seq<byte> :| GoodOk(c, rx + arrived + more);
    assert rx + arrived + more == rx + (arrived + more);
  }

  lemma HopelessStays(c: Command4, rx: seq<byte>, arrived: seq<byte>)
    requires !Hopeful(c, rx)
    ensures !Hopeful(c, rx + arrived) && !GoodOk(c, rx + arrived)
  {
    hide GoodOk;
    if Hopeful(c, rx + arrived) { HopefulBefore(c, rx, arrived); }
    assert rx + arrived + [] == rx + arrived;
  }

  lemma LastTryTurns(b: Board, h: nat, n: nat, arrived: seq<byte>, more: nat)
    requires Valid(b) && n <= |b.l.tx| && Hopeless(b.l)
    ensures var b' := Turn(b, h, n, arrived, more).b;
      || KeyOf(b) in b'.l.log
      || (b'.c == b.c && b'.mini == b.mini && Valid(b') && b'.l.rx == b.l.rx + arrived
          && b'.l.tries == b.l.tries && b'.l.phase == b.l.phase)
  {
    hide Message, Good, GoodOk, GoodTrack, Sum16, Hopeful;
    HopelessStays(Awaited(b.l), b.l.rx, arrived);
  }

  lemma DyingStays(w: World, e: Event, w': World, k: nat)
    requires Valid(w.b) && AllTracks(w.disk, TrackLen(w.b)) && Step(w, e, w') && ByLink(e) && Dying(w, k)
    ensures Dying(w', k)
  {
    hide Turn, Hopeful, GoodOk, GoodTrack;
    if e.LinkTurn? {
      if k in w.b.l.log {
        LogStays(w.b, e.h, e.n, e.arrived, e.more, k);
      } else {
        LastTryTurns(w.b, e.h, e.n, e.arrived, e.more);
        HopelessStays(Awaited(w.b.l), w.b.l.rx, e.arrived);
      }
    }
  }

  lemma {:induction false} DyingForever(ws: seq<World>, es: seq<Event>, w: World, k: nat)
    requires LinkTrail(ws, es, w) && Dying(w, k)
    ensures !Lost(ws[|es|], k)
    decreases |es|
  {
    hide Step, Valid, AllTracks, Dying, Lost;
    DyingIsNotLost(w, k);
    if |es| > 0 {
      DyingStays(w, es[0], ws[1], k);
      assert LinkTrail(ws[1..], es[1..], ws[1]) by {
        assert forall i :: 0 <= i < |es| - 1 ==> es[1..][i] == es[i + 1];
      }
      DyingForever(ws[1..], es[1..], ws[1], k);
    }
  }

  lemma LinkStepKeeps(w: World, e: Event, w': World)
    requires Coherent(w) && Valid(w.b) && AllTracks(w.disk, TrackLen(w.b)) && Step(w, e, w') && ByLink(e)
    ensures Coherent(w')
  {
    hide Coherent, Step;
    StepKeeps(w, e, w');
  }

  lemma {:induction false} CoherentForever(ws: seq<World>, es: seq<Event>, w: World, k: nat)
    requires LinkTrail(ws, es, w) && Coherent(w)
    ensures !Lost(ws[|es|], k)
    decreases |es|
  {
    hide Step, Coherent, Overlaid;
    OverlayIsDisk(w);
    if |es| > 0 {
      LinkStepKeeps(w, es[0], ws[1]);
      assert LinkTrail(ws[1..], es[1..], ws[1]) by {
        assert forall i :: 0 <= i < |es| - 1 ==> es[1..][i] == es[i + 1];
      }
      CoherentForever(ws[1..], es[1..], ws[1], k);
    }
  }

  /** EXACTLY WHEN A BYTE IS SAFE. Put in a track that is all right so far, a new byte can be lost by the line
      and the server, and nobody told, if and only if the discipline forbids it -- unless the write under
      way is on its last try and what has come of its reply is already no good: then it will be logged. */
  lemma PutLosesExactly(w: World, v: byte)
    requires Coherent(w) && Differs(w, v)
    ensures CanLose(Put(w, v), CurKey(w.b)) <==> !MayPut(w) && !(Hopeless(w.b.l) && KeyOf(w.b) == CurKey(w.b))
  {
    hide CanLose, Hopeless;
    CurKeyFits(w.b);
    var k, w1 := CurKey(w.b), Put(w, v);
    if MayPut(w) {
      PutKeeps(w, v);
      Never(w1, k);
    } else if Hopeless(w.b.l) && KeyOf(w.b) == k {
      PutIsDying(w, v);
      Never(w1, k);
    } else {
      PutLoses(w, v);
    }
  }

  lemma Never(w: World, k: nat)
    requires Coherent(w) || Dying(w, k)
    ensures !CanLose(w, k)
  {
    hide Coherent, Dying, Lost, Step;
    if CanLose(w, k) {
      var ws: seq<World>, es: seq<Event> :| LosesBy(ws, es, w, k);
      if Coherent(w) { CoherentForever(ws, es, w, k); } else { DyingForever(ws, es, w, k); }
    }
  }

  lemma PutIsDying(w: World, v: byte)
    requires Coherent(w) && Differs(w, v) && Hopeless(w.b.l) && KeyOf(w.b) == CurKey(w.b)
    ensures Dying(Put(w, v), CurKey(w.b))
  {
    hide Hopeful;
    CurKeyFits(w.b);
    var k, q := CurKey(w.b), w.b.p.pSector;
    assert InBuffer(Put(w, v).b) == InBuffer(w.b)[q := v];
  }
}
