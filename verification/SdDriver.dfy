/** The guest's side of the SD card: the bytes it sends, the two ways drivers read an answer, and the
    card that both boards share.
 */
module SdDriver {
  import opened Basics
  import opened Card
  import opened SdCard
  import IdeCard
  import IdeDriver

  /** A command's two bytes. */
  function Ask(cmd: byte): seq<byte> { [0x33, cmd] }

  /** What the driver takes for success and for failure. */
  const GOOD: byte := 0x00
  const BAD: byte := 0x1A

  function Send(s: Sd, bytes: seq<byte>): (n: Sd)
    requires Valid(s)
    ensures Valid(n)
    decreases |bytes|
  {
    if |bytes| == 0 then s else Send(Feed(s, bytes[0]), bytes[1..])
  }

  lemma {:induction false} SendJoins(s: Sd, a: seq<byte>, b: seq<byte>)
    requires Valid(s)
    ensures Send(s, a + b) == Send(Send(s, a), b)
    decreases |a|
  {
    hide Feed;
    if |a| == 0 {
      assert a + b == b;
    } else {
      SendJoins(Feed(s, a[0]), a[1..], b);
      assert (a + b)[1..] == a[1..] + b;
    }
  }

  // ---------------------------------------------------------------------------------------
  // Commands
  // ---------------------------------------------------------------------------------------

  /** The buffer with argument bytes from `at` on. */
  function Laid(buf: seq<byte>, at: nat, bytes: seq<byte>): (r: seq<byte>)
    requires at + |bytes| <= |buf|
    ensures |r| == |buf|
  {
    buf[..at] + bytes + buf[at + |bytes|..]
  }

  lemma LaidOne(buf: seq<byte>, at: nat, bytes: seq<byte>)
    requires 0 < |bytes| && at + |bytes| <= |buf|
    ensures Laid(buf[at := bytes[0]], at + 1, bytes[1..]) == Laid(buf, at, bytes)
  {}

  /** When the arguments are in, the command runs on them. */
  lemma {:induction false} ArgumentsRun(s: Sd, bytes: seq<byte>)
    requires Valid(s) && s.stage == Collect && |bytes| == s.need - s.got
    ensures var k := s.(buf := Laid(s.buf, s.got, bytes), got := s.need, stage := Idle);
      Valid(k) && Send(s, bytes) == Complete(k)
    decreases |bytes|
  {
    hide Complete, Laid;
    LaidOne(s.buf, s.got, bytes);
    if |bytes| > 1 {
      ArgumentsRun(Feed(s, bytes[0]), bytes[1..]);
    } else {
      LaidNone(s.buf[s.got := bytes[0]], s.got + 1, bytes[1..]);
    }
  }

  lemma LaidNone(buf: seq<byte>, at: nat, bytes: seq<byte>)
    requires bytes == [] && at <= |buf|
    ensures Laid(buf, at, bytes) == buf
  {}

  lemma CommandStarts(s: Sd, cmd: byte)
    requires Valid(s) && s.stage == Idle
    ensures Send(s, Ask(cmd)) == Start(s.(stage := Cmd), cmd)
  {
    hide Start;
    var a := Feed(s, LEAD);
    assert Send(s, Ask(cmd)) == Send(a, [cmd]) by { assert Ask(cmd)[1..] == [cmd]; }
    assert Send(a, [cmd]) == Send(Feed(a, cmd), []) by { assert [cmd][1..] == []; }
  }

  /** A command with arguments, from an idle board. */
  lemma CommandRuns(s: Sd, cmd: byte, bytes: seq<byte>)
    requires Valid(s) && s.stage == Idle && Needs(cmd) > 0 && |bytes| == Needs(cmd)
    ensures var k := s.(cmd := cmd, need := |bytes|, got := |bytes|, buf := Laid(s.buf, 0, bytes));
      Valid(k) && Send(s, Ask(cmd) + bytes) == Complete(k)
  {
    hide Complete, Laid, Send;
    CommandStarts(s, cmd);
    SendJoins(s, Ask(cmd), bytes);
    var g := Send(s, Ask(cmd));
    assert g == Gather(s.(stage := Cmd), cmd) by { NotOthers(s.(stage := Cmd), cmd); }
    ArgumentsRun(g, bytes);
  }

  lemma NotOthers(s: Sd, cmd: byte)
    requires Valid(s) && Needs(cmd) > 0
    ensures Start(s, cmd) == Gather(s, cmd)
  {}

  function SetLbaBytes(lba: nat): seq<byte> { Ask(0x91) + HighFirst(lba) }

  /** Four bytes of an address, the highest first. */
  function HighFirst(n: nat): seq<byte> {
    [n / 0x100_0000 % 0x100, n / 0x1_0000 % 0x100, n / 0x100 % 0x100, n % 0x100]
  }

  lemma LbaSet(s: Sd, lba: nat)
    requires Valid(s) && s.stage == Idle && lba < 0x1_0000_0000
    ensures var n := Send(s, SetLbaBytes(lba));
      n.stage == Idle && n.lba == lba && n.cards == s.cards && n.cur == s.cur && n.answer == [GOOD] && n.taken == 0
  {
    hide Send;
    CommandRuns(s, SET_LBA, HighFirst(lba));
    BigEndian(lba);
    var k := s.(cmd := SET_LBA, need := 4, got := 4, buf := Laid(s.buf, 0, HighFirst(lba)));
    assert k.buf[0] == HighFirst(lba)[0] && k.buf[1] == HighFirst(lba)[1] && k.buf[2] == HighFirst(lba)[2]
           && k.buf[3] == HighFirst(lba)[3];
  }

  lemma BigEndian(n: nat)
    requires n < 0x1_0000_0000
    ensures var w := HighFirst(n);
      (w[0] as int) * 0x100_0000 + (w[1] as int) * 0x1_0000 + (w[2] as int) * 0x100 + w[3] == n
  {
    assert n == n / 0x100 * 0x100 + n % 0x100;
    assert n / 0x100 == n / 0x1_0000 * 0x100 + n / 0x100 % 0x100;
    assert n / 0x1_0000 == n / 0x100_0000 * 0x100 + n / 0x1_0000 % 0x100;
  }

  /** The commands without arguments, by their codes: a socket selected answers whether a card is in it; the firmware
      version; the card's type, its size in sectors, the highest byte first, and its two registers of zeros; and a
      reset selects socket 0 and has nothing to say. */
  lemma PlainCommands(s: Sd, cmd: byte)
    requires Valid(s) && s.stage == Idle && 0x80 <= cmd <= 0x95
    ensures var n, here := Send(s, Ask(cmd)), if s.cards[s.cur].Some? then GOOD else BAD;
      && (cmd == 0x80 || cmd == 0x82 ==> n.cur == 0 && n.answer == [if s.cards[0].Some? then GOOD else BAD])
      && (cmd == 0x81 || cmd == 0x83 ==> n.cur == 1 && n.answer == [if s.cards[1].Some? then GOOD else BAD])
      && (cmd == 0x88 ==> n.cur == 0 && n.answer == [] && n.lba == 0)
      && (cmd == 0x90 ==> n.answer == [2, 1, 5, GOOD])
      && (cmd == 0x92 ==> n.answer == [0, here])
      && (cmd == 0x93 ==>
            n.answer == HighFirst(if s.cards[s.cur].Some? then |s.cards[s.cur].value.bytes| / 512 else 0) + [here])
      && (cmd == 0x94 || cmd == 0x95 ==> n.answer == seq(16, _ => 0) + [here])
      && (cmd >= 0x90 && cmd != 0x91 ==> n.cur == s.cur && n.lba == s.lba)
      && n.cards == s.cards
  {
    hide Send;
    CommandStarts(s, cmd);
  }

  /** FORMAT's count is two bytes, the low one first, and it fills on from the address set. */
  lemma FormatRuns(s: Sd, lo: byte, hi: byte)
    requires Valid(s) && s.stage == Idle && s.cards[s.cur].Some? && !s.cards[s.cur].value.readOnly
    ensures var n := Send(s, Ask(0x87) + [lo, hi]);
      var f := Format(s.cards[s.cur].value, s.lba, lo + (hi as int) * 256);
      && n.stage == Idle && n.cur == s.cur && n.cards == s.cards[s.cur := Some(f.card)] && n.lba == f.at
      && n.answer == [if f.ok then GOOD else BAD]
  {
    hide Send, Format;
    CommandRuns(s, 0x87, [lo, hi]);
  }

  lemma {:induction false} TextPasses(s: Sd, text: seq<byte>)
    requires Valid(s) && s.stage == CollectDisp && 0 !in text
    ensures Send(s, text) == s
    decreases |text|
  {
    hide Start, Complete;
    if |text| > 0 { TextPasses(s, text[1..]); }
  }

  /** A line to display is taken up to its zero byte, and leaves the cards and the address alone. */
  lemma DisplayTakes(s: Sd, text: seq<byte>)
    requires Valid(s) && s.stage == Idle && 0 !in text
    ensures var n := Send(Send(Send(s, Ask(0x96)), text), [0]);
      n.answer == [GOOD] && n.stage == Idle && n.cards == s.cards && n.cur == s.cur && n.lba == s.lba
  {
    CommandStarts(s, 0x96);
    var d := Send(s, Ask(0x96));
    TextPasses(d, text);
    NoBytes(Feed(d, 0), []);
  }

  /** The status port: bit 7 a byte to read, bits 1 and 2 the cards in the two sockets. */
  lemma StatusBits(s: Sd)
    requires Valid(s)
    ensures var v := Poll(s).v;
      && (v / 128 == 1 <==> !s.gap && s.taken < |s.answer|)
      && (v / 2 % 2 == 1 <==> s.cards[0].Some?) && (v / 4 % 2 == 1 <==> s.cards[1].Some?)
      && v % 2 == 0 && v / 8 % 16 == 0
  {}

  /** The other way to set it, in sixteen bits: the track byte and the sector byte. */
  lemma TrackAndSectorSet(s: Sd, track: byte, sector: byte)
    requires Valid(s) && s.stage == Idle
    ensures var n := Send(s, Ask(0x84) + [track, sector]);
      n.stage == Idle && n.lba == (track as int) * 0x100 + sector && n.cards == s.cards && n.cur == s.cur
  {
    hide Send;
    CommandRuns(s, SET_TRK_SEC, [track, sector]);
  }

  /** A sector written by the driver is that block of the card stored, or nothing and ERR. */
  lemma SdWrites(s: Sd, lba: nat, data: seq<byte>)
    requires Valid(s) && s.stage == Idle && lba < 0x1_0000_0000 && |data| == SECTOR && s.cards[s.cur].Some?
    ensures var n, c := Send(Send(s, SetLbaBytes(lba)), Ask(0x86) + data),
                        StoreBlock(s.cards[s.cur].value, lba, data);
      && n.stage == Idle && n.cur == s.cur && n.answer == [if c.Some? then GOOD else BAD] && n.taken == 0
      && n.cards == if c.Some? then s.cards[s.cur := c] else s.cards
  {
    hide Send, StoreBlock, SetLbaBytes;
    LbaSet(s, lba);
    var a := Send(s, SetLbaBytes(lba));
    CommandRuns(a, WRITE, data);
    assert Laid(a.buf, 0, data)[..SECTOR] == data;
  }

  /** A sector asked for is answered with that block and OK, or with zeros and ERR past the end. */
  lemma SdReads(s: Sd, lba: nat)
    requires Valid(s) && s.stage == Idle && lba < 0x1_0000_0000 && s.cards[s.cur].Some?
    ensures var n, b := Send(Send(s, SetLbaBytes(lba)), Ask(0x85)), Block(s.cards[s.cur].value, lba);
      && n.stage == Idle && n.cur == s.cur && n.cards == s.cards && n.taken == 0 && !n.gap
      && n.answer == if b.Some? then b.value + [GOOD] else seq(SECTOR, _ => 0) + [BAD]
  {
    hide Send, Block, SetLbaBytes;
    LbaSet(s, lba);
    CommandStarts(Send(s, SetLbaBytes(lba)), READ);
  }

  lemma EchoTakes(s: Sd, v: byte)
    requires Valid(s) && s.stage == CollectEchoData
    ensures s.got + 1 < s.need ==> Feed(s, v) == s.(buf := s.buf[s.got := v], got := s.got + 1)
    ensures var n := Feed(s, v);
      s.got + 1 == s.need ==>
        n.answer == s.buf[s.got := v][..s.need] + [GOOD] && n.stage == Idle && n.taken == 0 && !n.gap
  {
    hide Start, Complete;
  }

  lemma {:induction false} EchoGathers(s: Sd, bytes: seq<byte>)
    requires Valid(s) && s.stage == CollectEchoData && |bytes| == s.need - s.got
    ensures Send(s, bytes).answer == s.buf[..s.got] + bytes + [GOOD] && Send(s, bytes).stage == Idle
    ensures Send(s, bytes).taken == 0 && !Send(s, bytes).gap
    decreases |bytes|
  {
    hide Feed, Valid;
    EchoRoom(s);
    EchoTakes(s, bytes[0]);
    var n := Feed(s, bytes[0]);
    if |bytes| > 1 {
      EchoGathers(n, bytes[1..]);
      assert n.buf[..n.got] + bytes[1..] == s.buf[..s.got] + bytes;
    } else {
      NoBytes(n, bytes[1..]);
      assert s.buf[s.got := bytes[0]][..s.need] == s.buf[..s.got] + bytes;
    }
  }

  lemma EchoRoom(s: Sd)
    requires Valid(s) && s.stage == CollectEchoData
    ensures s.got < s.need <= |s.buf|
  {}

  /** A payload comes back whole with OK after it; of a longer one than 1024 bytes, the first 1024. */
  lemma EchoReturns(s: Sd, length: nat, payload: seq<byte>)
    requires Valid(s) && s.stage == Idle && length < 65536 && |payload| == if length > 1024 then 1024 else length
    ensures var n := Send(s, Ask(0x97) + [length / 0x100, length % 0x100] + payload);
      n.answer == payload + [GOOD] && n.stage == Idle && n.taken == 0 && !n.gap
  {
    hide Send, Complete;
    var size: seq<byte> := [length / 0x100, length % 0x100];
    SendJoins(s, Ask(0x97) + size, payload);
    SendJoins(s, Ask(0x97), size);
    CommandStarts(s, ECHO);
    var a := Send(s, Ask(0x97));
    TwoBytes(a, size);
    var b := Send(a, size);
    if |payload| == 0 {
      NoBytes(b, payload);
    } else {
      EchoGathers(b, payload);
      assert b.buf[..0] + payload == payload;
    }
  }

  lemma TwoBytes(s: Sd, two: seq<byte>)
    requires Valid(s) && |two| == 2
    ensures Send(s, two) == Feed(Feed(s, two[0]), two[1])
  {
    hide Feed;
    NoBytes(Feed(Feed(s, two[0]), two[1]), two[1..][1..]);
  }

  lemma NoBytes(s: Sd, none: seq<byte>)
    requires Valid(s) && none == []
    ensures Send(s, none) == s
  {}

  // ---------------------------------------------------------------------------------------
  // Reading an answer
  // ---------------------------------------------------------------------------------------

  datatype Waited = Waited(s: Sd, polls: nat, ok: bool)

  /** Poll until the ready bit is as wanted, giving up after `patience` polls. */
  function Await(s: Sd, high: bool, patience: nat): (w: Waited)
    requires Valid(s)
    ensures Valid(w.s)
    decreases patience
  {
    if patience == 0 then Waited(s, 0, false)
    else
      var k := Poll(s);
      if Ready(k) == high then Waited(k.s, 1, true)
      else
        var w := Await(k.s, high, patience - 1);
        w.(polls := w.polls + 1)
  }

  datatype Received = Received(s: Sd, data: seq<byte>, polls: nat, ok: bool)

  /** `n` bytes: wait for ready and read; a strict driver then waits for ready to drop, a lax one
      does not. */
  function Receive(s: Sd, n: nat, strict: bool, patience: nat): (r: Received)
    requires Valid(s)
    ensures Valid(r.s)
    decreases n
  {
    if n == 0 then Received(s, [], 0, true)
    else
      var up := Await(s, true, patience);
      var k := Take(up.s);
      var down := if strict then Await(k.s, false, patience) else Waited(k.s, 0, true);
      var rest := Receive(down.s, n - 1, strict, patience);
      Received(rest.s, [k.v] + rest.data, up.polls + down.polls + rest.polls, up.ok && down.ok && rest.ok)
  }

  lemma ReadyMeans(s: Sd)
    requires Valid(s)
    ensures Ready(Poll(s)) <==> !s.gap && s.taken < |s.answer|
    ensures Poll(s).s == s.(gap := false)
  {}

  lemma AwaitUp(s: Sd, patience: nat)
    requires Valid(s) && s.taken < |s.answer| && patience >= 2
    ensures Await(s, true, patience) == Waited(s.(gap := false), if s.gap then 2 else 1, true)
  {
    hide Poll, Ready;
    ReadyMeans(s);
    ReadyMeans(s.(gap := false));
  }

  lemma AwaitDown(s: Sd, patience: nat)
    requires Valid(s) && s.gap && patience >= 1
    ensures Await(s, false, patience) == Waited(s.(gap := false), 1, true)
  {
    hide Poll, Ready;
    ReadyMeans(s);
  }

  /** Strict or lax, a driver reads exactly what was queued, each byte once and in order, in at most two
      polls a byte. */
  lemma {:induction false} Handshake(s: Sd, n: nat, strict: bool, patience: nat)
    requires Valid(s) && n <= |s.answer| - s.taken && patience >= 2
    ensures var r := Receive(s, n, strict, patience);
      && r.ok && r.data == s.answer[s.taken..s.taken + n]
      && r.s == s.(taken := s.taken + n, gap := r.s.gap)
      && r.polls <= 2 * n + if strict && s.gap then 1 else 0
    decreases n
  {
    hide Poll, Ready, Await, Valid, Receive, Take;
    if n == 0 {
      ReceiveNone(s, strict, patience);
    } else {
      ReceiveOne(s, n, strict, patience);
      Handshake(s.(taken := s.taken + 1, gap := !strict), n - 1, strict, patience);
      FirstOf(s.answer, s.taken, n);
    }
  }

  lemma ReceiveNone(s: Sd, strict: bool, patience: nat)
    requires Valid(s)
    ensures Receive(s, 0, strict, patience) == Received(s, [], 0, true)
  {}

  /** The first byte of several, and the rest. */
  lemma ReceiveOne(s: Sd, n: nat, strict: bool, patience: nat)
    requires Valid(s) && 0 < n <= |s.answer| - s.taken && patience >= 2
    ensures Valid(s.(taken := s.taken + 1, gap := !strict))
    ensures var rest := Receive(s.(taken := s.taken + 1, gap := !strict), n - 1, strict, patience);
      var polls := (if s.gap then 2 else 1) + if strict then 1 else 0;
      Receive(s, n, strict, patience)
      == Received(rest.s, [s.answer[s.taken]] + rest.data, polls + rest.polls, rest.ok)
  {
    hide Poll, Ready, Await, Valid, Take;
    HandshakeValid(s);
    AwaitUp(s, patience);
    if strict { AwaitDown(Take(s.(gap := false)).s, patience); }
  }

  lemma FirstOf(data: seq<byte>, i: nat, n: nat)
    requires 0 < n && i + n <= |data|
    ensures data[i..i + n] == [data[i]] + data[i + 1..i + n]
  {}

  /** The state between a byte ready and its neighbour. */
  lemma HandshakeValid(s: Sd)
    requires Valid(s) && s.taken < |s.answer|
    ensures Valid(s.(gap := false))
    ensures var k := Take(s.(gap := false));
      Valid(k.s) && Valid(k.s.(gap := false)) && k.v == s.answer[s.taken] && k.s == s.(taken := s.taken + 1, gap := true)
  {}

  /** With every byte taken, or after a byte out to the status port, none waits and a read floats. */
  lemma NoneWaits(s: Sd)
    requires Valid(s)
    ensures Poll(Flush(s)).v / 128 == 0 && Take(Flush(s)).v == 255
    ensures s.taken == |s.answer| ==> Poll(s).v / 128 == 0 && Take(s) == Took(s, 255)
  {}

  // ---------------------------------------------------------------------------------------
  // One card, two boards
  // ---------------------------------------------------------------------------------------

  /** What the SD board reads of block `lba` of the card in its selected socket. */
  function SdBlock(s: Sd, lba: nat): seq<byte>
    requires Valid(s)
  {
    var n := Send(Send(s, SetLbaBytes(lba)), Ask(0x85));
    Receive(n, SECTOR + 1, true, 2).data
  }

  function SdStores(s: Sd, lba: nat, data: seq<byte>): (n: Sd)
    requires Valid(s)
    ensures Valid(n)
  {
    Send(Send(s, SetLbaBytes(lba)), Ask(0x86) + data)
  }

  lemma SdBlockIs(s: Sd, lba: nat)
    requires Valid(s) && s.stage == Idle && lba < 0x1_0000_0000 && s.cards[s.cur].Some?
    ensures var b := Block(s.cards[s.cur].value, lba);
      SdBlock(s, lba) == if b.Some? then b.value + [GOOD] else seq(SECTOR, _ => 0) + [BAD]
  {
    hide Send, Receive, SetLbaBytes, Block;
    SdReads(s, lba);
    var n := Send(Send(s, SetLbaBytes(lba)), Ask(0x85));
    Handshake(n, SECTOR + 1, true, 2);
    assert n.answer[0..SECTOR + 1] == n.answer;
  }

  /** The same card reads the same through either board, every block of it. */
  lemma BoardsAgree(e: IdeCard.Ide, s: Sd, lba: nat)
    requires IdeCard.Valid(e) && Valid(s) && s.stage == Idle && lba < 0x1000_0000
    requires e.cards[e.cur] == s.cards[s.cur] && s.cards[s.cur].Some? && Block(s.cards[s.cur].value, lba).Some?
    ensures SdBlock(s, lba) == IdeDriver.ReadSector(e, lba).data + [GOOD]
  {
    hide SdBlock, Block;
    IdeDriver.IdeReads(e, lba);
    SdBlockIs(s, lba);
  }

  /** The board with a card put in its selected socket. */
  function Holding(s: Sd, card: Option<Medium>): (n: Sd)
    requires Valid(s)
    ensures Valid(n) && n.stage == s.stage && n.cards[n.cur] == card
  {
    s.(cards := s.cards[s.cur := card])
  }

  function IdeHolding(e: IdeCard.Ide, card: Option<Medium>): (n: IdeCard.Ide)
    requires IdeCard.Valid(e)
    ensures IdeCard.Valid(n) && n.cards[n.cur] == card
  {
    e.(cards := e.cards[e.cur := card])
  }

  /** A sector written through the IDE board is read by the SD board when the card is moved over, and
      every other sector reads there as it did. */
  lemma IdeToSd(e: IdeCard.Ide, s: Sd, lba: nat, data: seq<byte>, other: nat)
    requires IdeCard.Valid(e) && e.cards[e.cur].Some? && lba < 0x1000_0000 && |data| == SECTOR
    requires Valid(s) && s.stage == Idle && StoreBlock(e.cards[e.cur].value, lba, data).Some?
    requires other != lba && other < 0x1_0000_0000 && Block(e.cards[e.cur].value, other).Some?
    ensures var n := IdeDriver.WriteSector(e, lba, data);
      && var before, after := Holding(s, e.cards[e.cur]), Holding(s, n.cards[n.cur]);
      && SdBlock(after, lba) == data + [GOOD] && SdBlock(after, other) == SdBlock(before, other)
  {
    hide SdBlock, StoreBlock, Block, Holding;
    IdeDriver.IdeWrites(e, lba, data);
    var n := IdeDriver.WriteSector(e, lba, data);
    BlockStored(e.cards[e.cur].value, lba, data, other);
    var before, after := Holding(s, e.cards[e.cur]), Holding(s, n.cards[n.cur]);
    SdBlockIs(after, lba);
    SdBlockIs(after, other);
    SdBlockIs(before, other);
  }

  /** And the other way about. */
  lemma SdToIde(s: Sd, e: IdeCard.Ide, lba: nat, data: seq<byte>, other: nat)
    requires Valid(s) && s.stage == Idle && s.cards[s.cur].Some? && lba < 0x1000_0000 && |data| == SECTOR
    requires IdeCard.Valid(e) && StoreBlock(s.cards[s.cur].value, lba, data).Some?
    requires other != lba && other < 0x1000_0000 && Block(s.cards[s.cur].value, other).Some?
    ensures var n := SdStores(s, lba, data);
      && var before, after := IdeHolding(e, s.cards[s.cur]), IdeHolding(e, n.cards[n.cur]);
      && n.answer == [GOOD] && IdeDriver.ReadSector(after, lba).data == data
      && IdeDriver.ReadSector(after, other).data == IdeDriver.ReadSector(before, other).data
  {
    hide StoreBlock, Block, Send, IdeHolding;
    SdWrites(s, lba, data);
    var n := SdStores(s, lba, data);
    BlockStored(s.cards[s.cur].value, lba, data, other);
    var before, after := IdeHolding(e, s.cards[s.cur]), IdeHolding(e, n.cards[n.cur]);
    IdeDriver.IdeReads(after, lba);
    IdeDriver.IdeReads(after, other);
    IdeDriver.IdeReads(before, other);
  }

  // ---------------------------------------------------------------------------------------
  // FORMAT
  // ---------------------------------------------------------------------------------------

  /** How far past `at` sector `k` is, sector numbers going round at thirty-two bits. */
  function Past(at: nat, k: nat): nat {
    (k - at) % 0x1_0000_0000
  }

  /** How many sectors a FORMAT got through. */
  function Reach(f: Filled, at: nat, count: nat): nat {
    if f.ok then count else Past(at, f.at)
  }

  /** The sectors filled are `count` from `at` on, or those before the first that is refused, and never
      the first of the card. Every other sector that was there reads as before. */
  lemma {:induction false} FormatFills(m: Medium, at: nat, count: nat, k: nat)
    requires at < 0x1_0000_0000 && count <= 0x1_0000_0000 && k < 0x1_0000_0000
    ensures var f := Format(m, at, count);
      && (k != 0 && Past(at, k) < Reach(f, at, count) ==> Block(f.card, k) == Some(seq(512, _ => 0xE5)))
      && ((k == 0 || Past(at, k) >= Reach(f, at, count)) && Block(m, k).Some? ==> Block(f.card, k) == Block(m, k))
      && f.at == (at + Reach(f, at, count)) % 0x1_0000_0000 && Reach(f, at, count) <= count
      && (!f.ok ==> StoreBlock(f.card, f.at, seq(SECTOR, _ => FILL)).None? && Past(at, f.at) < count)
    decreases count
  {
    hide Block, StoreBlock, Past;
    var f := Format(m, at, count);
    PastNext(at, k);
    PastNext(at, f.at);
    if count == 0 {
      Rounds(at, 0);
    } else {
      var next := (at + 1) % 0x1_0000_0000;
      if at == 0 {
        FormatFills(m, next, count - 1, k);
        Rounds(at, Reach(f, next, count - 1));
      } else {
        var fill := seq(SECTOR, _ => FILL);
        var n := StoreBlock(m, at, fill);
        if n.Some? {
          BlockStored(m, at, fill, k);
          FormatFills(n.value, next, count - 1, k);
          Rounds(at, Reach(f, next, count - 1));
        } else {
          Rounds(at, 0);
        }
      }
    }
  }

  lemma PastNext(at: nat, k: nat)
    requires at < 0x1_0000_0000 && k < 0x1_0000_0000
    ensures var next := (at + 1) % 0x1_0000_0000;
      && Past(at, at) == 0 && Past(at, k) < 0x1_0000_0000
      && if k == at then Past(next, k) == 0xFFFF_FFFF else Past(next, k) == Past(at, k) - 1
  {}

  lemma Rounds(at: nat, r: nat)
    requires at < 0x1_0000_0000
    ensures ((at + 1) % 0x1_0000_0000 + r) % 0x1_0000_0000 == (at + (r + 1)) % 0x1_0000_0000
    ensures at % 0x1_0000_0000 == at
  {}
}
