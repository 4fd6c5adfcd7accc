/** Where the serial drive loses what the guest wrote, or shows it another track, and says nothing: runs from
    power-on, of any disk.
 */
module SerialDriveFaults {
  import opened Basics
  import opened SerialDriveModel
  import opened SerialDriveCache
  import opened SerialDriveServer
  import opened SerialDriveScenes

  /** What the guest has written to track `k` is neither at the server nor owed to it, and no message says so. */
  predicate Lost(w: World, k: nat) {
    Valid(w.b) && k < NO_TRACK && k !in w.b.l.log && k in Overlaid(w) && k in w.disk && Overlaid(w)[k] != w.disk[k]
  }

  /** A run that comes to `s`, with the guest disciplined and the line clear if nothing is held against them. */
  lemma RunTo(s: Scene, k: nat, c: nat) returns (ns: seq<Net>, es: seq<NetEvent>)
    requires Reach(s, k, c)
    ensures NetTrail(ns, es) && Breaches(ns, es) <= k && Crossings(ns, es) <= c && ns[|es|].w == s.w
    ensures k == 0 ==> forall i :: 0 <= i < |es| ==> Valid(ns[i].w.b) && Keeps(ns[i], es[i])
    ensures c == 0 ==> forall i :: 0 <= i < |es| ==> Cleared(ns[i], es[i], ns[i + 1])
  {
    hide NetTrail, Valid, Keeps, Cleared, Breaches, Crossings;
    ns, es :| LeadsTo(ns, es, s, k, c);
    NoFaults(ns, es);
  }

  /** Some request of the run finds an older reply on the line. */
  predicate Crosses(ns: seq<Net>, es: seq<NetEvent>)
    requires |ns| == |es| + 1
  {
    exists i :: 0 <= i < |es| && !Cleared(ns[i], es[i], ns[i + 1])
  }

  /** It is the line that is at fault when a disciplined guest loses a track. */
  lemma LossCrosses(ns: seq<Net>, es: seq<NetEvent>, k: nat)
    requires NetTrail(ns, es) && forall i :: 0 <= i < |es| ==> Valid(ns[i].w.b) && Keeps(ns[i], es[i])
    requires Lost(ns[|es|].w, k)
    ensures Crosses(ns, es)
  {
    hide NetStep, Keeps, Cleared, Overlaid, Valid;
    if !Crosses(ns, es) {
      assert NetRun(ns, es);
      NothingIsLost(ns, es, |es|);
      assert false;
    }
  }

  // ---------------------------------------------------------------------------------------
  // Late replies, and a disciplined guest
  // ---------------------------------------------------------------------------------------

  /** A track written and read back while the buffer is being let go of leaves a write-back asked for, with
      the track still in the buffer. */
  lemma FlushLeftOver(disk: Tracks) returns (s: Scene)
    requires AllTracks(disk, TRACK_BUF)
    ensures Resting(s) && Reach(s, 0, 0) && s.w.store == disk && s.w.disk == disk
    ensures CurKey(s.w.b) == 0 && s.w.b.c.key == 0 && s.w.b.c.buf == disk[0] && !s.w.b.c.want && s.w.b.c.flushNow
  {
    hide Reach, Turn, Good, GoodOk, GoodTrack;
    s := Begin(disk);
    s := Enables(s, 0, 0);
    s := LetsGo(s, 0, 0);
    s := Wants(s, 0, 0);
    s := GoWrite(s, 0, 0, Answer(true, false, OK));
    assert [] + OK == OK && OK + [] == OK;
    s := GoTrack(s, 0, 0, [], true);
    assert [] + WRITTEN == WRITTEN && disk[0 := disk[0]] == disk;
    s := GoDoneThenRead(s, 0, 0);
    s := GoTrackComes(s, 0, 0, disk[0]);
  }

  /** Three tries of one write, each accepted late. The second WSTA and the third acceptance are still on
      their way when it is done. */
  lemma RepliesLeftOver(disk: Tracks) returns (s: Scene)
    requires AllTracks(disk, TRACK_BUF)
    ensures Resting(s.(line := [])) && Reach(s, 0, 4) && s.w.store == disk && s.w.disk == disk && s.line == OK + WRITTEN
    ensures CurKey(s.w.b) == 0 && s.w.b.c.key == 0 && s.w.b.c.buf == disk[0] && !s.w.b.c.want && !s.w.b.c.flushNow
  {
    hide Reach, Turn, Good, GoodOk, GoodTrack;
    s := FlushLeftOver(disk);
    var ok := Answer(true, false, OK);
    assert disk[0 := disk[0]] == disk;
    s := Enables(s, 0, 0);
    s := GoWrite(s, 0, 0, ok);
    s := GoAgain(s, 0, 0, ok);
    assert [] + OK + OK == OK + OK;
    s := GoTrack(s, 0, 1, OK, true);
    s := GoAgain(s, 0, 2, ok);
    assert OK + WRITTEN + OK == OK + (WRITTEN + OK);
    s := GoTrack(s, 0, 3, WRITTEN + OK, true);
    assert WRITTEN + OK + WRITTEN == WRITTEN + (OK + WRITTEN);
    s := GoDone(s, 0, 4, OK + WRITTEN);
  }

  /** A LATE WSTA. The guest keeps to the discipline; the server answers in order, and is late. The guest's
      byte goes out in a write whose WRIT and track are both lost, and whose two replies are those of the
      write before it. The board takes it for done; the server never has it; nothing is logged. */
  lemma LateWriteReply(disk: Tracks, v: byte) returns (ns: seq<Net>, es: seq<NetEvent>)
    requires AllTracks(disk, TRACK_BUF) && disk[0][0] != v
    ensures NetTrail(ns, es) && forall i :: 0 <= i < |es| ==> Valid(ns[i].w.b) && Keeps(ns[i], es[i])
    ensures Crosses(ns, es)
    ensures var w := ns[|es|].w; Lost(w, 0) && w.b.l.log == [] && w.store == disk && w.disk[0] == Headed(disk[0], v)
  {
    hide Reach, Turn, Good, GoodOk, GoodTrack, NetTrail, Keeps;
    var s := RepliesLeftOver(disk);
    s := Enables(s, 0, 4);
    s := Puts(s, 0, 4, v);
    s := LetsGo(s, 0, 4);
    s := GoWrite(s, 0, 4, SILENT);
    assert OK + WRITTEN + [] == OK + WRITTEN;
    s := GoTrack(s, 0, 5, WRITTEN, false);
    assert WRITTEN + [] == WRITTEN;
    s := GoDone(s, 0, 6, []);
    assert Headed(disk[0], v)[0] == v;
    ns, es := RunTo(s, 0, 6);
    LossCrosses(ns, es, 0);
  }

  /** The guest's first track, asked for again and about to come. */
  lemma FirstTrackComing(disk: Tracks) returns (s: Scene)
    requires AllTracks(disk, TRACK_BUF)
    ensures Sized(s) && Reach(s, 0, 0) && s.w.b.l.phase.Read? && s.line == Reply(disk[0]) && |s.line| == TRACK_BUF + 2
    ensures s.w.store == disk && s.w.disk == disk && s.w.b.c.key == 0 && s.w.b.p.cur == 0 && s.w.b.p.tracks[0] == 0
    ensures DriveReady(s.w.b) && !s.w.b.c.dirty && s.w.b.p.byteCount == 0 && s.w.b.p.pSector == 0 && s.w.b.l.log == []
  {
    hide Reach, Turn, GoodTrack;
    s := Begin(disk);
    s := LetsGo(s, 0, 0);
    s := Wants(s, 0, 0);
    s := GoRead(s, 0, 0, true);
    ReplyIsTrack(disk[0]);
    assert [] + s.line == s.line;
  }

  /** A LATE TRACK. The guest keeps to the discipline; the server answers in order, and is late by more than
      the second a track is waited for. The next track asked for is never sent, and the first is taken for
      it: the guest reads the one for the other, and writes it back there. */
  lemma LateTrack(disk: Tracks) returns (ns: seq<Net>, es: seq<NetEvent>)
    requires AllTracks(disk, TRACK_BUF) && disk[0] != disk[1]
    ensures NetTrail(ns, es) && forall i :: 0 <= i < |es| ==> Valid(ns[i].w.b) && Keeps(ns[i], es[i])
    ensures Crosses(ns, es)
    ensures var w := ns[|es|].w;
      Lost(w, 1) && w.b.l.log == [] && w.disk == disk && w.b.c.key == CurKey(w.b) == 1 && InBuffer(w.b) == disk[0]
  {
    hide Reach, Turn, Good, GoodOk, GoodTrack, NetTrail, Keeps;
    var s := FirstTrackComing(disk);
    s := GoReadGivenUp(s, 0, 0);
    s := StepsIn(s, 0, 0);
    s := Wants(s, 0, 0);
    s := GoRead(s, 0, 0, false);
    assert s.line + [] == s.line;
    s := GoTrackComes(s, 0, 1, disk[0]);
    s := Enables(s, 0, 1);
    ns, es := RunTo(s, 0, 1);
    LossCrosses(ns, es, 1);
  }

  // ---------------------------------------------------------------------------------------
  // An undisciplined guest, and a line that is always clear
  // ---------------------------------------------------------------------------------------

  /** One breach of the discipline, no older reply ever on the line, and track `k` lost without a word. */
  predicate LosesByOneBreach(ns: seq<Net>, es: seq<NetEvent>, k: nat) {
    && NetTrail(ns, es) && Breaches(ns, es) <= 1 && (forall i :: 0 <= i < |es| ==> Cleared(ns[i], es[i], ns[i + 1]))
    && Lost(ns[|es|].w, k) && ns[|es|].w.b.l.log == []
  }

  /** A write enabled while the track is still coming: the byte put in what had come is covered by the rest. */
  lemma EnabledWhileReading(disk: Tracks, v: byte) returns (ns: seq<Net>, es: seq<NetEvent>)
    requires AllTracks(disk, TRACK_BUF) && disk[0][0] != v
    ensures LosesByOneBreach(ns, es, 0)
  {
    hide Reach, Turn, GoodTrack, NetTrail, Cleared, Breaches;
    var s := FirstTrackComing(disk);
    s := GoPart(s, 0, 0, SLOT);
    s := Enables(s, 0, 0);
    s := Puts(s, 1, 0, v);
    s := GoTrackEnds(s, 1, 0, disk[0]);
    assert Headed(disk[0], v)[0] == v;
    ns, es := RunTo(s, 1, 0);
  }

  /** A write enabled while the last one's track is on its way, with a read of the same track behind it: the
      byte put there is covered by the read. */
  lemma EnabledWhileWriting(disk: Tracks, v: byte) returns (ns: seq<Net>, es: seq<NetEvent>)
    requires AllTracks(disk, TRACK_BUF) && disk[0][0] != v
    ensures LosesByOneBreach(ns, es, 0)
  {
    hide Reach, Turn, Good, GoodOk, GoodTrack, NetTrail, Cleared, Breaches;
    var s := TrackOnItsWay(disk);
    s := Enables(s, 0, 0);
    s := Puts(s, 1, 0, v);
    s := GoDoneThenRead(s, 1, 0);
    s := GoTrackComes(s, 1, 0, disk[0]);
    assert Headed(disk[0], v)[0] == v;
    ns, es := RunTo(s, 1, 0);
  }

  /** The guest's first track going out to be written, with a read of it to follow. */
  lemma TrackOnItsWay(disk: Tracks) returns (s: Scene)
    requires AllTracks(disk, TRACK_BUF)
    ensures Sized(s) && Reach(s, 0, 0) && s.w.b.l.phase.WritSta? && s.w.b.l.readAfter && s.line == WRITTEN
    ensures s.w.b.l.log == []
    ensures s.w.store == disk && s.w.disk == disk && CurKey(s.w.b) == 0 && KeyOf(s.w.b) == 0 && s.w.b.c.buf == disk[0]
    ensures DriveReady(s.w.b) && !s.w.b.c.dirty && s.w.b.p.byteCount == 0 && s.w.b.p.pSector == 0
  {
    hide Reach, Turn, Good, GoodOk, GoodTrack;
    s := Begin(disk);
    s := Enables(s, 0, 0);
    s := LetsGo(s, 0, 0);
    s := Wants(s, 0, 0);
    s := GoWrite(s, 0, 0, Answer(true, false, OK));
    assert [] + OK == OK && OK + [] == OK;
    s := GoTrack(s, 0, 0, [], true);
    assert [] + WRITTEN == WRITTEN && disk[0 := disk[0]] == disk;
  }

  /** A write enabled after a read that was cut short: the buffer is one track as far as it came and the last
      one beyond, and is owed to the new one. */
  lemma EnabledAfterFailedRead(disk: Tracks, n: nat) returns (ns: seq<Net>, es: seq<NetEvent>)
    requires AllTracks(disk, TRACK_BUF) && 0 < n < TRACK_BUF && disk[0][n..] != disk[1][n..]
    ensures LosesByOneBreach(ns, es, 1)
    ensures var b := ns[|es|].w.b; InBuffer(b) == disk[1][..n] + disk[0][n..] && KeyOf(b) == 1
  {
    hide Reach, Turn, GoodTrack, NetTrail, Cleared, Breaches;
    var s := Begin(disk);
    s := StepsIn(s, 0, 0);
    s := Wants(s, 0, 0);
    s := GoReadCut(s, 0, 0, n);
    assert s.line[..n] == s.line;
    s := GoPart(s, 0, 0, n);
    s := GoReadGivenUp(s, 0, 0);
    s := Enables(s, 0, 0);
    var mixed := disk[1][..n] + disk[0][n..];
    assert mixed[n..] == disk[0][n..];
    ns, es := RunTo(s, 1, 0);
  }

  /** A byte put with no write enabled. */
  lemma PutWithoutEnable(disk: Tracks, v: byte) returns (ns: seq<Net>, es: seq<NetEvent>)
    requires AllTracks(disk, TRACK_BUF) && disk[0][0] != v
    ensures LosesByOneBreach(ns, es, 0)
  {
    hide Reach, NetTrail, Cleared, Breaches;
    var s := Begin(disk);
    s := Puts(s, 0, 0, v);
    assert Headed(disk[0], v)[0] == v;
    ns, es := RunTo(s, 1, 0);
  }

  /** A byte put while the track it belongs to is already on its way. */
  lemma PutWhileWriting(disk: Tracks, v: byte) returns (ns: seq<Net>, es: seq<NetEvent>)
    requires AllTracks(disk, TRACK_BUF) && disk[0][0] != v
    ensures LosesByOneBreach(ns, es, 0)
  {
    hide Reach, Turn, Good, GoodOk, GoodTrack, NetTrail, Cleared, Breaches;
    var s := TrackOnItsWay(disk);
    s := Puts(s, 0, 0, v);
    s := GoDoneThenRead(s, 1, 0);
    assert Headed(disk[0], v)[0] == v;
    ns, es := RunTo(s, 1, 0);
  }
}
