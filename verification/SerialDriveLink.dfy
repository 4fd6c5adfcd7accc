/** The link on its own: every transaction ends, and what is sent is understood. */
module SerialDriveLink {
  import opened Arithmetic
  import opened Basics
  import opened SerialDriveModel

  /** Bytes still wanted of a reply of `want`. */
  function ToCome(rx: seq<byte>, want: nat): nat {
    if |rx| < want then want - |rx| else 0
  }

  /** The most bytes and one-second waits one try of a write can take: two replies. */
  const TRY: nat := 2 * (MSG_LEN + 1)

  /** And a track to be read. */
  function ReadWork(b: Board): nat { TrackLen(b) + 3 }

  /** The most bytes and one-second waits before the link is idle again. */
  function Work(b: Board): int {
    var after := if b.l.readAfter then ReadWork(b) else 0;
    match b.l.phase
    case Idle => 0
    case Stat => ToCome(b.l.rx, MSG_LEN) + 1
    case Read => ToCome(b.l.rx, TrackLen(b) + 2) + 1
    case WritAsk => after + (b.l.tries - 1) * TRY + MSG_LEN + 1 + ToCome(b.l.rx, MSG_LEN) + 1
    case WritSta => after + (b.l.tries - 1) * TRY + ToCome(b.l.rx, MSG_LEN) + 1
  }

  /** A write under way has one, two or three tries left, and nothing that is whole is left unread. */
  predicate Going(b: Board) {
    && Valid(b)
    && (if b.l.phase.WritAsk? || b.l.phase.WritSta? then 1 <= b.l.tries <= WRITE_TRIES else !b.l.readAfter)
    && (!b.l.phase.Idle? && !b.l.phase.Read? ==> |b.l.rx| < MSG_LEN)
    && (b.l.phase.Read? ==> |b.l.rx| < TrackLen(b) + 2)
  }

  /** The line: `n` bytes went and `arrived` came. */
  function Heard(b: Board, h: nat, n: nat, arrived: seq<byte>): Board
    requires n <= |b.l.tx|
  {
    Receive(Transmit(b, n, h), arrived, h)
  }

  lemma ReadStartsGoing(b: Board, h: nat)
    requires Valid(b) && !b.l.readAfter
    ensures Going(StartRead(b, h).b) && Work(StartRead(b, h).b) == ReadWork(b)
  {
    hide Message;
    CurKeyFits(b);
  }

  lemma FinishGoing(b: Board, ok: bool, h: nat)
    requires Valid(b) && 1 <= b.l.tries <= WRITE_TRIES && (b.l.phase.WritAsk? || b.l.phase.WritSta?)
    ensures var r := FinishWrite(b, ok, h);
      && Going(r.b)
      && Work(r.b) <= (if b.l.readAfter then ReadWork(b) else 0) + (b.l.tries - 1) * TRY
      && (r.req.AskWrite? ==> !ok && 1 <= r.b.l.tries == b.l.tries - 1)
  {
    hide Message, StartRead;
    if ok || b.l.tries <= 1 {
      var b1 := b.(l := b.l.(phase := Idle, statAt := h + STAT_NS, readAfter := false,
                             tries := if ok then b.l.tries else 0,
                             log := if ok then b.l.log else b.l.log + [KeyOf(b)]));
      ReadStartsGoing(b1, h);
    }
  }

  /** The same board, with more heard and less to say. */
  predicate Later(b: Board, b2: Board) {
    b2 == b.(l := b.l.(rx := b2.l.rx, tx := b2.l.tx, deadline := b2.l.deadline)) && |b2.l.rx| >= |b.l.rx|
  }

  /** Less work is left after a turn that heard a byte or ran out of time, and never more. */
  predicate Nearer(b: Board, b2: Board, h: nat, r: Turned) {
    && Going(r.b) && Work(r.b) <= Work(b)
    && (|b2.l.rx| > |b.l.rx| || TimedOut(b2, h) ==> Work(r.b) < Work(b))
    && (r.req.AskWrite? ==> 1 <= r.b.l.tries == b.l.tries - 1)
  }

  lemma WriteNearer(b: Board, b2: Board, h: nat)
    requires Going(b) && Later(b, b2) && (b.l.phase.WritAsk? || b.l.phase.WritSta?)
    ensures Nearer(b, b2, h, Act(b2, h))
  {
    hide Message, FinishWrite, GoodOk, Good, GoodTrack, Mask, Sum16;
    FinishGoing(b2, false, h);
    if |b2.l.rx| >= MSG_LEN {
      FinishGoing(Took(b2), false, h);
      FinishGoing(Took(b2), GoodOk(WSTA, b2.l.rx), h);
    }
  }

  lemma ReadNearer(b: Board, b2: Board, h: nat)
    requires Going(b) && Later(b, b2) && (b.l.phase.Stat? || b.l.phase.Read?)
    ensures Nearer(b, b2, h, Act(b2, h))
  {
    hide Message, FinishWrite, GoodOk, Good, GoodTrack, Mask, Sum16;
  }

  lemma ActGoing(b: Board, b2: Board, h: nat)
    requires Going(b) && !b.l.phase.Idle? && Later(b, b2)
    ensures Nearer(b, b2, h, Act(b2, h))
  {
    hide Act, Going, Nearer;
    if b.l.phase.WritAsk? || b.l.phase.WritSta? { WriteNearer(b, b2, h); } else { ReadNearer(b, b2, h); }
  }

  /** A TRANSACTION ENDS. On a turn that hears a byte or waits out its second with nothing left to
      send, the work left drops; on no other turn does it grow; and when none is left the link is
      idle. A write is asked again only with a try fewer left, so at most three WRITs go out. */
  lemma TransactionEnds(b: Board, h: nat, n: nat, arrived: seq<byte>, more: nat)
    requires Going(b) && !b.l.phase.Idle? && n <= |b.l.tx|
    ensures Work(b) > 0
    ensures var r := Turn(b, h, n, arrived, more);
      && Going(r.b) && 0 <= Work(r.b) <= Work(b) && (Work(r.b) == 0 <==> r.b.l.phase.Idle?)
      && (|arrived| > 0 || TimedOut(Heard(b, h, n, arrived), h) ==> Work(r.b) < Work(b))
      && (r.req.AskWrite? ==> 1 <= r.b.l.tries == b.l.tries - 1)
  {
    hide Act;
    var b2 := Heard(b, h, n, arrived);
    ActGoing(b, b2, h);
    var r := Act(b2, h);
    TransmitGoing(r.b, Min(more, |r.b.l.tx|), h);
    WorkPositive(b);
    WorkPositive(r.b);
  }

  lemma TransmitGoing(b: Board, n: nat, h: nat)
    requires Going(b) && n <= |b.l.tx|
    ensures var b' := Transmit(b, n, h); Going(b') && Work(b') == Work(b) && b'.l.phase == b.l.phase && b'.l.tries == b.l.tries
  {}

  lemma WorkPositive(b: Board)
    requires Going(b)
    ensures Work(b) >= 0 && (Work(b) == 0 <==> b.l.phase.Idle?)
  {}

  /** And it never has more to do than three tries of a write and a read after it. */
  lemma TransactionBegins(b: Board, h: nat)
    requires Going(b) && b.l.phase.Idle?
    ensures var r := TurnIdle(b, h);
      && Going(r.b) && Work(r.b) <= WRITE_TRIES * TRY + ReadWork(b)
      && (r.req.AskWrite? ==> r.b.l.tries == WRITE_TRIES)
  {
    hide Message;
    CurKeyFits(b);
  }

  /** A request is waited for one second from when it goes; a link come to rest asks for the status a tenth of a
      second later; and a write begun from rest has three tries. */
  predicate Timed(b: Board, r: Turned, h: nat) {
    && (!r.req.Nothing? ==> r.b.l.deadline == h + 1_000_000_000)
    && (!b.l.phase.Idle? && r.b.l.phase.Idle? ==> r.b.l.statAt == h + 100_000_000)
    && (b.l.phase.Idle? && r.req.AskWrite? ==> r.b.l.tries == 3)
    && (r.req.AskStat? ==> h >= b.l.statAt)
  }

  lemma FinishTimes(b: Board, ok: bool, h: nat)
    requires Valid(b) && !b.l.phase.Idle?
    ensures Timed(b, FinishWrite(b, ok, h), h)
  {
    hide Message;
  }

  lemma IdleTimes(b: Board, h: nat)
    requires Valid(b) && b.l.phase.Idle?
    ensures Timed(b, TurnIdle(b, h), h)
  {
    hide Message;
  }

  lemma PlainTimes(b: Board, h: nat, timedOut: bool)
    requires Valid(b) && !b.l.phase.Idle?
    ensures b.l.phase.Stat? ==> Timed(b, TurnStat(b, h, timedOut), h)
    ensures b.l.phase.Read? ==> Timed(b, TurnRead(b, h, timedOut), h)
  {
    hide Good, GoodTrack, Mask;
  }

  lemma WriteTimes(b: Board, h: nat, timedOut: bool)
    requires Valid(b) && !b.l.phase.Idle?
    ensures b.l.phase.WritAsk? ==> Timed(b, TurnAsk(b, h, timedOut), h)
    ensures b.l.phase.WritSta? ==> Timed(b, TurnSta(b, h, timedOut), h)
  {
    hide GoodOk, FinishWrite, Sum16;
    FinishTimes(b, false, h);
    if |b.l.rx| >= MSG_LEN {
      FinishTimes(Took(b), false, h);
      FinishTimes(Took(b), GoodOk(WSTA, b.l.rx), h);
    }
  }

  /** The link keeps these times in every turn. */
  lemma LinkTimes(b: Board, h: nat)
    requires Valid(b)
    ensures Timed(b, Act(b, h), h)
  {
    hide Timed, TurnIdle, TurnStat, TurnRead, TurnAsk, TurnSta;
    match b.l.phase
    case Idle => IdleTimes(b, h);
    case Stat => PlainTimes(b, h, TimedOut(b, h));
    case Read => PlainTimes(b, h, TimedOut(b, h));
    case _ => WriteTimes(b, h, TimedOut(b, h));
  }

  /** And every byte that moves gives a reply another second. */
  lemma LineTimes(b: Board, n: nat, arrived: seq<byte>, h: nat)
    requires n <= |b.l.tx|
    ensures Heard(b, h, n, arrived).l.deadline == if n > 0 || |arrived| > 0 then h + 1_000_000_000 else b.l.deadline
    ensures TimedOut(b, h) <==> b.l.tx == [] && h >= b.l.deadline
  {}

  /** One turn of the link: what the line takes and brings, and when. */
  datatype Moment = Moment(h: nat, n: nat, arrived: seq<byte>, more: nat)

  /** The link is not idle at the start of any of these turns. */
  predicate Lasts(b: Board, ms: seq<Moment>)
    requires Going(b)
    decreases |ms|
  {
    |ms| > 0 ==>
      && !b.l.phase.Idle? && ms[0].n <= |b.l.tx|
      && (TransactionEnds(b, ms[0].h, ms[0].n, ms[0].arrived, ms[0].more);
          Lasts(Turn(b, ms[0].h, ms[0].n, ms[0].arrived, ms[0].more).b, ms[1..]))
  }

  /** The turns that hear a byte, or wait a second out with nothing left to say. */
  function Stirs(b: Board, ms: seq<Moment>): nat
    requires Going(b) && Lasts(b, ms)
    decreases |ms|
  {
    if |ms| == 0 then 0
    else
      var m := ms[0];
      TransactionEnds(b, m.h, m.n, m.arrived, m.more);
      (if |m.arrived| > 0 || TimedOut(Heard(b, m.h, m.n, m.arrived), m.h) then 1 else 0)
      + Stirs(Turn(b, m.h, m.n, m.arrived, m.more).b, ms[1..])
  }

  /** However a transaction goes, it has no more of those turns in it than its work: after that many the
      link is idle. */
  lemma {:induction false} WithinItsWork(b: Board, ms: seq<Moment>)
    requires Going(b) && Lasts(b, ms)
    ensures Stirs(b, ms) <= Work(b)
    decreases |ms|
  {
    hide Turn, Work, TimedOut, Heard;
    if |ms| == 0 {
      WorkPositive(b);
    } else {
      var m := ms[0];
      TransactionEnds(b, m.h, m.n, m.arrived, m.more);
      WithinItsWork(Turn(b, m.h, m.n, m.arrived, m.more).b, ms[1..]);
    }
  }

  // ---------------------------------------------------------------------------------------
  // Messages
  // ---------------------------------------------------------------------------------------

  lemma Body(c: Command4, p1: nat, p2: nat)
    requires p1 < 0x10000 && p2 < 0x10000
    ensures var m := Message(c, p1, p2); var body := Ascii(c) + Le(p1) + Le(p2);
      m[..8] == body && m[..4] == Ascii(c) && m[4..6] == Le(p1) && m[6..8] == Le(p2) && m[8..10] == Le(Sum16(body))
  {
    hide Sum16, Ascii;
  }

  /** A message that is not damaged is taken for what it is, and for nothing else. */
  lemma MessageRoundTrip(c: Command4, p1: nat, p2: nat, d: Command4)
    requires p1 < 0x10000 && p2 < 0x10000
    ensures Good(d, Message(c, p1, p2)) <==> d == c
    ensures Word(Message(c, p1, p2), 4) == p1 && Word(Message(c, p1, p2), 6) == p2
  {
    hide Sum16;
    var m := Message(c, p1, p2);
    Body(c, p1, p2);
    assert m[4] == Le(p1)[0] && m[5] == Le(p1)[1] && m[6] == Le(p2)[0] && m[7] == Le(p2)[1];
    assert m[8] == m[8..10][0] && m[9] == m[8..10][1];
    assert m[1] == m[..4][1] == Ascii(c)[1] && m[0] == m[..4][0] == Ascii(c)[0];
  }

  /** A track goes out with the sum it will be checked by. */
  lemma TrackRoundTrip(data: seq<byte>)
    ensures GoodTrack(data + Le(Sum16(data)), |data|)
  {
    var r := data + Le(Sum16(data));
    assert r[..|data|] == data;
  }
}
