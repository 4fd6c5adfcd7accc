/** The bytes on the serial line, as a server that knows only the protocol's letters reads them: whatever a run
    puts on the line is, message by message, what the board asked. */
module SerialDriveWire {
  import opened Arithmetic
  import opened Basics
  import opened SerialDriveModel
  import opened SerialDriveCache
  import opened SerialDriveServer

  // ---------------------------------------------------------------------------------------
  // The server's reading
  // ---------------------------------------------------------------------------------------

  /** What one message tells the server: the selected drive, or 0FFH, and head status with its track; a track of a
      drive wanted or offered, with its length; a track's bytes. */
  datatype Told =
    | Drive(selected: nat, head: nat, track: nat)
    | Wants(drive: nat, track: nat, bytes: nat)
    | Offers(drive: nat, track: nat, bytes: nat)
    | Track(data: seq<byte>)

  function Total(s: seq<byte>): nat {
    if |s| == 0 then 0 else s[0] + Total(s[1..])
  }

  /** Four letters. */
  predicate Spells(b: seq<byte>, w: string) {
    |b| >= 4 && |w| == 4 && forall i :: 0 <= i < 4 ==> b[i] as int == w[i] as int
  }

  /** A message for a server of `len`-byte tracks: ten bytes, or a track and two. The last two bytes are the sum
      of the rest, low byte first. */
  function Parse(b: seq<byte>, len: nat): Option<Told> {
    var n := |b| - 2;
    if n < 0 || (b[n] as int) + 256 * (b[n + 1] as int) != Total(b[..n]) % 65536 then None
    else if n == len then Some(Track(b[..n]))
    else if n != 8 then None
    else
      var drive, track := (b[5] as int) / 16, (b[4] as int) + 256 * ((b[5] as int) % 16);
      var word := (b[6] as int) + 256 * (b[7] as int);
      if Spells(b, "STAT") then Some(Drive(b[4], b[5], word))
      else if Spells(b, "READ") then Some(Wants(drive, track, word))
      else if Spells(b, "WRIT") then Some(Offers(drive, track, word))
      else None
  }

  lemma {:induction false} TotalAppend(s: seq<byte>, v: byte)
    ensures Total(s + [v]) == Total(s) + v
  {
    if |s| > 0 {
      assert (s + [v])[1..] == s[1..] + [v];
      TotalAppend(s[1..], v);
    } else {
      assert (s + [v])[1..] == [];
    }
  }

  lemma ModSum(a: nat, b: nat)
    ensures (a % 65536 + b) % 65536 == (a + b) % 65536
  {}

  lemma SumLast(s: seq<byte>)
    requires |s| > 0
    ensures Sum16(s) == (Sum16(s[..|s| - 1]) + s[|s| - 1]) % 65536
  {}

  /** The sum the board works out is the bytes' total in sixteen bits. */
  lemma {:induction false} SumIsTotal(s: seq<byte>)
    ensures Sum16(s) == Total(s) % 65536
    decreases |s|
  {
    hide Sum16, Total;
    if |s| > 0 {
      var n := |s| - 1;
      SumIsTotal(s[..n]);
      SumLast(s);
      TotalAppend(s[..n], s[n]);
      assert s[..n] + [s[n]] == s;
      ModSum(Total(s[..n]), s[n]);
    } else {
      NoSum(s);
    }
  }

  lemma NoSum(s: seq<byte>)
    requires s == []
    ensures Sum16(s) == 0 && Total(s) == 0
  {}

  /** What a board of these drives and this state has to say for a request. */
  predicate Says(b: Board, req: Request, told: Option<Told>)
    requires |b.p.tracks| == 8 && b.p.cur < 8
  {
    var len := if b.mini then 2192 else 4384;
    match req
    case Nothing => told == None
    case AskStat =>
      told == Some(Drive(if b.p.status.ready then 255 else b.p.cur,
                         if !b.p.status.ready && b.p.headLoaded then 255 else 0, b.p.tracks[b.p.cur]))
    case AskRead(k) => told == Some(Wants(b.p.cur, b.p.tracks[b.p.cur], len)) && k == 4096 * b.p.cur + b.p.tracks[b.p.cur]
    case AskWrite(k) => told == Some(Offers(k / 4096, k % 4096, len)) && k == b.c.key % 32768
    case SendTrack(data) => told == Some(Track(data)) && |b.c.buf| == 4384 && data == b.c.buf[..len]
  }

  // ---------------------------------------------------------------------------------------
  // One turn
  // ---------------------------------------------------------------------------------------

  /** The ten bytes of a message, one by one. */
  lemma MessageBytes(c: Command4, p1: nat, p2: nat)
    requires p1 < 65536 && p2 < 65536
    ensures var m := Message(c, p1, p2);
      && |m| == 10 && m[..4] == Ascii(c)
      && m[4] == p1 % 256 && m[5] == p1 / 256 && m[6] == p2 % 256 && m[7] == p2 / 256
      && (m[8] as int) + 256 * (m[9] as int) == Total(m[..8]) % 65536
  {
    hide Sum16, Ascii;
    var body := Ascii(c) + Le(p1) + Le(p2);
    var m := Message(c, p1, p2);
    assert m == body + Le(Sum16(body)) && m[..8] == body;
    assert body[..4] == Ascii(c) && m[..4] == body[..4];
    assert body[4] == Le(p1)[0] && body[5] == Le(p1)[1] && body[6] == Le(p2)[0] && body[7] == Le(p2)[1];
    assert m[8] == Le(Sum16(body))[0] && m[9] == Le(Sum16(body))[1];
    SumIsTotal(body);
  }

  lemma LettersSpell(c: Command4, m: seq<byte>)
    requires |m| == 10 && m[..4] == Ascii(c)
    ensures Spells(m, "STAT") <==> c == STAT
    ensures Spells(m, "READ") <==> c == READ
    ensures Spells(m, "WRIT") <==> c == WRIT
  {
    assert m[0] == m[..4][0] && m[1] == m[..4][1] && m[2] == m[..4][2] && m[3] == m[..4][3];
  }

  lemma MessageParses(c: Command4, p1: nat, p2: nat, len: nat)
    requires p1 < 65536 && p2 < 65536 && len != 8
    ensures c == STAT ==> Parse(Message(c, p1, p2), len) == Some(Drive(p1 % 256, p1 / 256, p2))
    ensures c == READ ==> Parse(Message(c, p1, p2), len) == Some(Wants(p1 / 4096, p1 % 4096, p2))
    ensures c == WRIT ==> Parse(Message(c, p1, p2), len) == Some(Offers(p1 / 4096, p1 % 4096, p2))
  {
    hide Message, Ascii, Total, Spells;
    var m := Message(c, p1, p2);
    MessageBytes(c, p1, p2);
    LettersSpell(c, m);
    assert p1 / 256 / 16 == p1 / 4096 && p1 % 256 + 256 * (p1 / 256 % 16) == p1 % 4096;
  }

  lemma TrackParses(data: seq<byte>)
    ensures Parse(data + Le(Sum16(data)), |data|) == Some(Track(data))
  {
    hide Sum16, Total;
    var b := data + Le(Sum16(data));
    assert b[..|data|] == data && b[|data|] == Le(Sum16(data))[0] && b[|data| + 1] == Le(Sum16(data))[1];
    SumIsTotal(data);
  }

  /** The turn has queued `q` behind what was already to go, and `q` says what the turn asks. */
  predicate Queues(b: Board, r: Turned, q: seq<byte>)
    requires |b.p.tracks| == 8 && b.p.cur < 8
  {
    && r.b.l.tx == b.l.tx + q && Says(b, r.req, Parse(q, if b.mini then 2192 else 4384))
    && (r.req.Nothing? ==> q == [])
  }

  lemma NothingQueued(b: Board, r: Turned)
    requires Valid(b) && r.req.Nothing? && r.b.l.tx == b.l.tx
    ensures Queues(b, r, [])
  {
    assert b.l.tx + [] == b.l.tx;
  }

  lemma ReadQueues(b: Board, h: nat) returns (q: seq<byte>)
    requires Valid(b)
    ensures Queues(b, StartRead(b, h), q)
  {
    hide Message, Parse;
    CurKeyFits(b);
    q := Message(READ, CurKey(b), TrackLen(b));
    MessageParses(READ, CurKey(b), TrackLen(b), TrackLen(b));
  }

  lemma WriteQueues(b: Board, h: nat) returns (q: seq<byte>)
    requires Valid(b)
    ensures Queues(b, StartWrite(b, h), q)
  {
    hide Message, Parse;
    q := Message(WRIT, KeyOf(b), TrackLen(b));
    MessageParses(WRIT, KeyOf(b), TrackLen(b), TrackLen(b));
  }

  lemma TrackQueues(b: Board, h: nat) returns (q: seq<byte>)
    requires Valid(b)
    ensures Queues(b, SendTheTrack(b, h), q)
  {
    hide Parse, Sum16;
    var data := b.c.buf[..TrackLen(b)];
    q := data + Le(Sum16(data));
    TrackParses(data);
  }

  lemma FinishQueues(b: Board, ok: bool, h: nat) returns (q: seq<byte>)
    requires Valid(b)
    ensures Queues(b, FinishWrite(b, ok, h), q)
  {
    hide Message, Parse, StartRead;
    if !ok && b.l.tries > 1 {
      q := Message(WRIT, KeyOf(b), TrackLen(b));
      MessageParses(WRIT, KeyOf(b), TrackLen(b), TrackLen(b));
    } else {
      var l := b.l.(phase := Idle, statAt := h + STAT_NS, readAfter := false,
                    tries := if ok then b.l.tries else 0,
                    log := if ok then b.l.log else b.l.log + [KeyOf(b)]);
      if b.l.readAfter {
        q := ReadQueues(b.(l := l), h);
      } else {
        q := [];
        NothingQueued(b, FinishWrite(b, ok, h));
      }
    }
  }

  lemma StatusQueues(b: Board, h: nat) returns (q: seq<byte>)
    requires Valid(b) && !b.c.want && !b.c.flushNow && h >= b.l.statAt
    ensures Queues(b, TurnIdle(b, h), q)
  {
    hide Message, Parse;
    var p1 := if DriveReady(b) then b.p.cur + (if b.p.headLoaded then 0xFF00 else 0) else 0xFF;
    q := Message(STAT, p1, b.p.tracks[b.p.cur]);
    MessageParses(STAT, p1, b.p.tracks[b.p.cur], TrackLen(b));
  }

  lemma IdleQueues(b: Board, h: nat) returns (q: seq<byte>)
    requires Valid(b)
    ensures Queues(b, TurnIdle(b, h), q)
  {
    hide Message, Parse, StartRead, StartWrite;
    if b.c.want && !b.c.dirty {
      q := ReadQueues(b, h);
    } else if b.c.want {
      q := WriteQueues(b.(l := b.l.(readAfter := true)), h);
    } else if b.c.flushNow && b.c.dirty {
      q := WriteQueues(b.(c := b.c.(flushNow := false), l := b.l.(readAfter := false)), h);
    } else if !b.c.flushNow && h >= b.l.statAt {
      q := StatusQueues(b, h);
    } else {
      q := [];
      NothingQueued(b, TurnIdle(b, h));
    }
  }

  lemma AskQueues(b: Board, h: nat, timedOut: bool) returns (q: seq<byte>)
    requires Valid(b)
    ensures Queues(b, TurnAsk(b, h, timedOut), q)
  {
    hide Message, Parse, SendTheTrack, FinishWrite, GoodOk;
    if |b.l.rx| >= MSG_LEN {
      if GoodOk(WRIT, b.l.rx) { q := TrackQueues(Took(b), h); } else { q := FinishQueues(Took(b), false, h); }
    } else if timedOut {
      q := FinishQueues(b, false, h);
    } else {
      q := [];
      NothingQueued(b, TurnAsk(b, h, timedOut));
    }
  }

  lemma StaQueues(b: Board, h: nat, timedOut: bool) returns (q: seq<byte>)
    requires Valid(b)
    ensures Queues(b, TurnSta(b, h, timedOut), q)
  {
    hide Message, Parse, FinishWrite, GoodOk;
    if |b.l.rx| >= MSG_LEN {
      q := FinishQueues(Took(b), GoodOk(WSTA, b.l.rx), h);
    } else if timedOut {
      q := FinishQueues(b, false, h);
    } else {
      q := [];
      NothingQueued(b, TurnSta(b, h, timedOut));
    }
  }

  lemma ListeningQueues(b: Board, h: nat, timedOut: bool)
    requires Valid(b)
    ensures Queues(b, TurnStat(b, h, timedOut), []) && Queues(b, TurnRead(b, h, timedOut), [])
  {
    hide Good, GoodTrack, Mask, Parse;
    NothingQueued(b, TurnStat(b, h, timedOut));
    NothingQueued(b, TurnRead(b, h, timedOut));
  }

  lemma ActQueues(b: Board, h: nat) returns (q: seq<byte>)
    requires Valid(b)
    ensures Queues(b, Act(b, h), q)
  {
    hide Queues, TurnIdle, TurnAsk, TurnSta, TurnStat, TurnRead;
    q := [];
    match b.l.phase {
      case Idle => q := IdleQueues(b, h);
      case WritAsk => q := AskQueues(b, h, TimedOut(b, h));
      case WritSta => q := StaQueues(b, h, TimedOut(b, h));
      case _ => ListeningQueues(b, h, TimedOut(b, h));
    }
  }

  // ---------------------------------------------------------------------------------------
  // Whole runs
  // ---------------------------------------------------------------------------------------

  /** What an event puts on the line: a turn's first bytes to go, and those that follow at once. */
  function Goes(n: Net, e: NetEvent): seq<byte>
    requires Valid(n.w.b) && (e.ByLink? ==> Possible(n, e.m))
  {
    if e.ByGuest? then []
    else
      var tx := Act(Found(n, e.m), e.m.h).b.l.tx;
      n.w.b.l.tx[..e.m.out] + tx[..Min(e.m.more, |tx|)]
  }

  /** Every byte that the first `i` events of a run put on the line. */
  function Gone(ns: seq<Net>, es: seq<NetEvent>, i: nat): seq<byte>
    requires NetTrail(ns, es) && i <= |es|
  {
    if i == 0 then []
    else
      assert NetStep(ns[i - 1], es[i - 1], ns[i]);
      Gone(ns, es, i - 1) + Goes(ns[i - 1], es[i - 1])
  }

  function Joined(ms: seq<seq<byte>>): seq<byte> {
    if |ms| == 0 then [] else Joined(ms[..|ms| - 1]) + ms[|ms| - 1]
  }

  /** Message `q` is what event `e` asked, as the server reads it; and empty if it asked nothing. */
  predicate Read(n: Net, e: NetEvent, q: seq<byte>)
    requires Valid(n.w.b) && (e.ByLink? ==> Possible(n, e.m))
  {
    if e.ByGuest? then q == []
    else
      var req := Turns(n, e.m).req;
      Says(n.w.b, req, Parse(q, if n.w.b.mini then 2192 else 4384)) && (req.Nothing? ==> q == [])
  }

  lemma TurnSays(n: Net, m: Moment, a: Answer) returns (q: seq<byte>)
    requires Valid(n.w.b) && Possible(n, m)
    ensures Read(n, ByLink(m, a), q)
    ensures n.w.b.l.tx + q == Goes(n, ByLink(m, a)) + Turns(n, m).b.l.tx
  {
    hide Act, Says, Parse;
    var b := Found(n, m);
    q := ActQueues(b, m.h);
    var r := Act(b, m.h);
    SaysSame(n.w.b, b, r.req, Parse(q, if b.mini then 2192 else 4384));
    assert n.w.b.l.tx == n.w.b.l.tx[..m.out] + b.l.tx;
    assert r.b.l.tx == r.b.l.tx[..Min(m.more, |r.b.l.tx|)] + Turns(n, m).b.l.tx;
  }

  lemma SaysSame(b: Board, d: Board, req: Request, told: Option<Told>)
    requires Valid(b) && d.mini == b.mini && d.p == b.p && d.c == b.c
    ensures Says(b, req, told) == Says(d, req, told)
  {}

  lemma EventSays(n: Net, e: NetEvent, n': Net) returns (q: seq<byte>)
    requires Valid(n.w.b) && AllTracks(n.w.disk, TrackLen(n.w.b)) && NetStep(n, e, n')
    ensures e.ByLink? ==> Possible(n, e.m)
    ensures Read(n, e, q) && n.w.b.l.tx + q == Goes(n, e) + n'.w.b.l.tx
  {
    hide Turns, Goes, MayAnswer, Step, Says, Parse;
    match e {
      case ByLink(m, a) => q := TurnSays(n, m, a);
      case ByGuest(g) =>
        q := [];
        GuestKeepsLink(n.w, g, n'.w);
        assert Goes(n, e) == [] by { GuestSilent(n, e); }
        assert n.w.b.l.tx + [] == [] + n'.w.b.l.tx;
    }
  }

  lemma GuestSilent(n: Net, e: NetEvent)
    requires Valid(n.w.b) && e.ByGuest?
    ensures Goes(n, e) == []
  {}

  /** EVERY BYTE IS A MESSAGE. Over every run, whatever the line takes and when: what has gone out, and what is
      still to go, are the messages of the turns in order, each of them read by the server as what the board
      asked in that turn -- the drive and track under the head for a READ, the buffer's own for a WRIT, the
      buffer byte for byte for a track -- and there is nothing else. */
  lemma {:induction false} LineSays(ns: seq<Net>, es: seq<NetEvent>, i: nat) returns (ms: seq<seq<byte>>)
    requires NetTrail(ns, es) && i <= |es|
    ensures |ms| == i && ns[0].w.b.l.tx + Joined(ms) == Gone(ns, es, i) + ns[i].w.b.l.tx
    ensures forall j :: 0 <= j < i ==>
      Valid(ns[j].w.b) && (es[j].ByLink? ==> Possible(ns[j], es[j].m)) && Read(ns[j], es[j], ms[j])
    decreases i
  {
    hide NetStep, Valid, AllTracks, Read, Goes;
    ms := [];
    if i > 0 {
      var before := LineSays(ns, es, i - 1);
      var q := EventSays(ns[i - 1], es[i - 1], ns[i]);
      ms := before + [q];
      assert ms[..i - 1] == before;
      Shuffle(ns[0].w.b.l.tx, Joined(before), Gone(ns, es, i - 1), ns[i - 1].w.b.l.tx, q,
              Goes(ns[i - 1], es[i - 1]), ns[i].w.b.l.tx);
    }
  }

  lemma Shuffle(first: seq<byte>, said: seq<byte>, gone: seq<byte>, tx: seq<byte>, q: seq<byte>, now: seq<byte>, tx': seq<byte>)
    requires first + said == gone + tx && tx + q == now + tx'
    ensures first + (said + q) == (gone + now) + tx'
  {
    assert first + (said + q) == (first + said) + q;
    assert (gone + tx) + q == gone + (tx + q);
    assert gone + (now + tx') == (gone + now) + tx';
  }

  // ---------------------------------------------------------------------------------------
  // What the board takes a reply for
  // ---------------------------------------------------------------------------------------

  /** Ten bytes and more, the last two of the ten the sum of the eight before, low byte first. */
  predicate Summed(r: seq<byte>) {
    |r| >= 10 && (r[8] as int) + 256 * (r[9] as int) == Total(r[..8]) % 65536
  }

  /** A reply is taken by its letters and its sum, a write's only with its first word zero, and a track by its
      sum alone. */
  lemma TakesByLetters(r: seq<byte>, len: nat)
    ensures Good(STAT, r) <==> Summed(r) && Spells(r, "STAT")
    ensures GoodOk(WRIT, r) <==> Summed(r) && Spells(r, "WRIT") && r[4] == 0 && r[5] == 0
    ensures GoodOk(WSTA, r) <==> Summed(r) && Spells(r, "WSTA") && r[4] == 0 && r[5] == 0
    ensures GoodTrack(r, len) <==>
      |r| >= len + 2 && (r[len] as int) + 256 * (r[len + 1] as int) == Total(r[..len]) % 65536
  {
    hide Total;
    if |r| >= len + 2 { SumIsTotal(r[..len]); }
    if |r| >= 10 {
      SumIsTotal(r[..8]);
      ReplySpells(r);
    }
  }

  lemma ReplySpells(r: seq<byte>)
    requires |r| >= 4
    ensures r[..4] == Ascii(STAT) <==> Spells(r, "STAT")
    ensures r[..4] == Ascii(WRIT) <==> Spells(r, "WRIT")
    ensures r[..4] == Ascii(WSTA) <==> Spells(r, "WSTA")
  {
    var q := r[..4];
    assert q[0] == r[0] && q[1] == r[1] && q[2] == r[2] && q[3] == r[3];
    assert Spells(r, "STAT") ==> r[0] == 83 && r[1] == 84 && r[2] == 65 && r[3] == 84;
    assert Spells(r, "WRIT") ==> r[0] == 87 && r[1] == 82 && r[2] == 73 && r[3] == 84;
    assert Spells(r, "WSTA") ==> r[0] == 87 && r[1] == 83 && r[2] == 84 && r[3] == 65;
  }

  /** A STAT reply's second word is the drives that are ready: drive 0 in its low bit. */
  lemma ReadyAsTold(b: Board, h: nat, timedOut: bool)
    requires Valid(b) && Summed(b.l.rx) && Spells(b.l.rx, "STAT")
    ensures var ready, v := TurnStat(b, h, timedOut).b.p.ready, b.l.rx[6];
      && (0 in ready <==> v % 2 == 1) && (1 in ready <==> v / 2 % 2 == 1)
      && (2 in ready <==> v / 4 % 2 == 1) && (3 in ready <==> v / 8 % 2 == 1)
      && (4 in ready <==> v / 16 % 2 == 1) && (5 in ready <==> v / 32 % 2 == 1)
      && (6 in ready <==> v / 64 % 2 == 1) && (7 in ready <==> v / 128 == 1)
  {
    hide Good, Mask, Summed, Spells;
    SummedLong(b.l.rx);
    TakesByLetters(b.l.rx, 0);
    LowMask(Word(b.l.rx, 6), b.l.rx[6], b.l.rx[7]);
  }

  /** And a drive selected that it no longer calls ready leaves the status and sector ports at FF; nothing else of
      the panel changes. */
  lemma GoneAsTold(b: Board, h: nat, timedOut: bool)
    requires Valid(b) && Summed(b.l.rx) && Spells(b.l.rx, "STAT")
    ensures var n := TurnStat(b, h, timedOut).b;
      && (DriveReady(b) && b.p.cur !in n.p.ready ==> Value(n, 0) == 255 && Value(n, 1) == 255)
      && (!DriveReady(b) || b.p.cur in n.p.ready ==> n.p == b.p.(ready := n.p.ready))
  {
    hide Good, Mask, Summed, Spells;
    SummedLong(b.l.rx);
    TakesByLetters(b.l.rx, 0);
  }

  lemma SummedLong(r: seq<byte>)
    requires Summed(r)
    ensures |r| >= 10
  {}

  lemma LowMask(w: nat, v: byte, hi: byte)
    requires w == v as int + 256 * (hi as int)
    ensures var m := Mask(w);
      && (0 in m <==> v % 2 == 1) && (1 in m <==> v / 2 % 2 == 1) && (2 in m <==> v / 4 % 2 == 1)
      && (3 in m <==> v / 8 % 2 == 1) && (4 in m <==> v / 16 % 2 == 1) && (5 in m <==> v / 32 % 2 == 1)
      && (6 in m <==> v / 64 % 2 == 1) && (7 in m <==> v / 128 == 1)
  {
    hide Mask, Pow2;
    Powers();
    MaskBits(w);
    LowBit(w, v, 1, 128 * hi);
    LowBit(w, v, 2, 64 * hi);
    LowBit(w, v, 4, 32 * hi);
    LowBit(w, v, 8, 16 * hi);
    LowBit(w, v, 16, 8 * hi);
    LowBit(w, v, 32, 4 * hi);
    LowBit(w, v, 64, 2 * hi);
    LowBit(w, v, 128, 1 * hi);
  }

  lemma MaskBits(w: nat)
    ensures forall d :: 0 <= d < 8 ==> (d in Mask(w) <==> w / Pow2(d) % 2 == 1)
  {
    hide Pow2;
  }

  lemma LowBit(w: nat, v: nat, p: nat, m: nat)
    requires p > 0 && w == v + 2 * m * p
    ensures w / p % 2 == v / p % 2
  {
    var q, r := v / p, v % p;
    MulSum(q, 2 * m, p);
    Quotient(v, p);
    DivUnique(w, p, q + 2 * m, r);
    EvenMore(q, m);
  }

  lemma Quotient(v: nat, p: nat)
    requires p > 0
    ensures v == v / p * p + v % p && v % p < p
  {}

  lemma EvenMore(q: nat, m: nat)
    ensures (q + 2 * m) % 2 == q % 2
  {}

  lemma MulSum(a: nat, b: nat, c: nat)
    ensures (a + b) * c == a * c + b * c
  {}

  lemma Powers()
    ensures Pow2(0) == 1 && Pow2(1) == 2 && Pow2(2) == 4 && Pow2(3) == 8
    ensures Pow2(4) == 16 && Pow2(5) == 32 && Pow2(6) == 64 && Pow2(7) == 128
  {
    assert Pow2(2) == 4;
    assert Pow2(4) == 16;
    assert Pow2(6) == 64;
  }
}
