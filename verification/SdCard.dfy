/** The Dual SD board: a command stream in, a queue of answer bytes out, one byte at a time behind a
    ready bit.
 */
module SdCard {
  import opened Basics
  import opened Card

  const BUF: nat := 1024

  const LEAD: byte := 0x33
  const OK: byte := 0x00
  const ERR: byte := 0x1A
  const FILL: byte := 0xE5

  const INIT1: byte := 0x80
  const INIT2: byte := 0x81
  const SEL1: byte := 0x82
  const SEL2: byte := 0x83
  const SET_TRK_SEC: byte := 0x84
  const READ: byte := 0x85
  const WRITE: byte := 0x86
  const FORMAT: byte := 0x87
  const RESET: byte := 0x88
  const FW_VER: byte := 0x90
  const SET_LBA: byte := 0x91
  const TYPE: byte := 0x92
  const CAP: byte := 0x93
  const CID: byte := 0x94
  const CSD: byte := 0x95
  const DISP: byte := 0x96
  const ECHO: byte := 0x97

  datatype Stage = Idle | Cmd | Collect | CollectDisp | CollectEchoLen | CollectEchoData

  /** `answer` is what is queued, `taken` of it read; `gap` the low interval after a byte is read. */
  datatype Sd = Sd(cards: seq<Option<Medium>>, cur: nat, stage: Stage, cmd: byte, lba: nat,
                   need: nat, got: nat, buf: seq<byte>, answer: seq<byte>, taken: nat, gap: bool)

  predicate Valid(s: Sd) {
    && |s.cards| == 2 && s.cur < 2 && |s.buf| == BUF && s.lba < 0x1_0000_0000
    && s.taken <= |s.answer| <= BUF + 1
    && (s.stage == Collect || s.stage == CollectEchoData ==> s.got < s.need <= BUF)
    && (s.stage == Collect ==>
          || ((s.cmd == SET_TRK_SEC || s.cmd == FORMAT) && s.need == 2)
          || (s.cmd == WRITE && s.need == SECTOR)
          || (s.cmd == SET_LBA && s.need == 4))
    && (s.stage == CollectEchoLen ==> s.got < 2)
  }

  function Reply(s: Sd, bytes: seq<byte>): Sd {
    s.(stage := Idle, answer := bytes, taken := 0, gap := false)
  }

  function Here(s: Sd): (m: Option<Medium>)
    requires Valid(s)
  {
    s.cards[s.cur]
  }

  function Present(m: Option<Medium>): byte {
    if m.Some? then OK else ERR
  }

  /** The sector and OK, or 512 zeros and ERR. */
  function ReadAnswer(s: Sd): (r: seq<byte>)
    requires Valid(s)
    ensures |r| == SECTOR + 1
  {
    var b := if Here(s).Some? then Block(Here(s).value, s.lba) else None;
    if b.Some? then b.value + [OK] else seq(SECTOR, _ => 0) + [ERR]
  }

  /** Big-endian, cut to thirty-two bits. */
  function Word32(n: nat): seq<byte> {
    [n / 0x100_0000 % 0x100, n / 0x1_0000 % 0x100, n / 0x100 % 0x100, n % 0x100]
  }

  function InfoAnswer(s: Sd, cmd: byte): (r: seq<byte>)
    requires Valid(s)
    ensures |r| <= 17
  {
    var m := Here(s);
    if cmd == FW_VER then [2, 1, 5, OK]
    else if cmd == TYPE then [0, Present(m)]
    else if cmd == CAP then Word32(if m.Some? then |m.value.bytes| / SECTOR else 0) + [Present(m)]
    else seq(16, _ => 0) + [Present(m)]
  }

  predicate IsInfo(cmd: byte) {
    cmd == FW_VER || cmd == TYPE || cmd == CAP || cmd == CID || cmd == CSD
  }

  predicate IsSelect(cmd: byte) {
    cmd == INIT1 || cmd == INIT2 || cmd == SEL1 || cmd == SEL2
  }

  function Needs(cmd: byte): nat {
    if cmd == SET_TRK_SEC || cmd == FORMAT then 2
    else if cmd == WRITE then SECTOR
    else if cmd == SET_LBA then 4
    else 0
  }

  function Selected(s: Sd, cmd: byte): (n: Sd)
    requires Valid(s)
    ensures Valid(n)
  {
    var d := if cmd == INIT1 || cmd == SEL1 then 0 else 1;
    Reply(s.(cur := d, cmd := cmd), [Present(s.cards[d])])
  }

  function Restart(s: Sd): (n: Sd)
    requires Valid(s)
    ensures Valid(n)
  {
    Sd(s.cards, 0, Idle, 0, 0, 0, 0, seq(BUF, _ => 0), [], 0, false)
  }

  function Gather(s: Sd, cmd: byte): (n: Sd)
    requires Valid(s)
    ensures Valid(n)
  {
    s.(cmd := cmd,
       stage := if Needs(cmd) > 0 then Collect else if cmd == DISP then CollectDisp
                else if cmd == ECHO then CollectEchoLen else Idle,
       need := if Needs(cmd) > 0 then Needs(cmd) else s.need,
       got := if Needs(cmd) > 0 || cmd == ECHO then 0 else s.got)
  }

  function Start(s: Sd, cmd: byte): (n: Sd)
    requires Valid(s)
    ensures Valid(n)
  {
    if IsSelect(cmd) then Selected(s, cmd)
    else if cmd == READ then Reply(s.(cmd := cmd), ReadAnswer(s))
    else if cmd == RESET then Restart(s)
    else if IsInfo(cmd) then Reply(s.(cmd := cmd), InfoAnswer(s, cmd))
    else Gather(s, cmd)
  }

  /** `count` sectors filled from `at` on, the first sector of the card left alone; it ends at the
      first that cannot be written. */
  datatype Filled = Filled(card: Medium, at: nat, ok: bool)

  function Format(m: Medium, at: nat, count: nat): (f: Filled)
    requires at < 0x1_0000_0000
    ensures f.at < 0x1_0000_0000
    decreases count
  {
    if count == 0 then Filled(m, at, true)
    else if at == 0 then Format(m, 1, count - 1)
    else
      var n := StoreBlock(m, at, seq(SECTOR, _ => FILL));
      if n.None? then Filled(m, at, false) else Format(n.value, (at + 1) % 0x1_0000_0000, count - 1)
  }

  function Stored(s: Sd): Option<Medium>
    requires Valid(s)
  {
    if Here(s).None? then None else StoreBlock(Here(s).value, s.lba, s.buf[..SECTOR])
  }

  function Written(s: Sd): (n: Sd)
    requires Valid(s)
    ensures Valid(n)
  {
    var c := Stored(s);
    Reply(s.(cards := if c.Some? then s.cards[s.cur := c] else s.cards), [if c.Some? then OK else ERR])
  }

  function Formatted(s: Sd): (n: Sd)
    requires Valid(s)
    ensures Valid(n)
  {
    if Here(s).None? || Here(s).value.readOnly then Reply(s, [ERR])
    else
      var f := Format(Here(s).value, s.lba, s.buf[0] + (s.buf[1] as int) * 0x100);
      Reply(s.(cards := s.cards[s.cur := Some(f.card)], lba := f.at), [if f.ok then OK else ERR])
  }

  /** The last argument byte is in: run the command. */
  function Complete(s: Sd): (n: Sd)
    requires Valid(s)
    ensures Valid(n)
  {
    if s.cmd == WRITE then Written(s)
    else if s.cmd == FORMAT then Formatted(s)
    else if s.cmd == SET_TRK_SEC then Reply(s.(lba := (s.buf[0] as int) * 0x100 + s.buf[1]), [OK])
    else if s.cmd == SET_LBA then
      Reply(s.(lba := (s.buf[0] as int) * 0x100_0000 + (s.buf[1] as int) * 0x1_0000
                      + (s.buf[2] as int) * 0x100 + s.buf[3]), [OK])
    else s.(stage := Idle)
  }

  /** An argument byte kept. */
  function Keep(s: Sd, v: byte): Sd
    requires Valid(s)
  {
    s.(buf := if s.got < BUF then s.buf[s.got := v] else s.buf, got := s.got + 1)
  }

  /** The two length bytes of an ECHO, the high one first, and no more than the buffer holds. */
  function EchoLength(s: Sd): (n: nat)
    requires Valid(s)
    ensures n <= BUF
  {
    var n := (s.buf[0] as int) * 0x100 + s.buf[1];
    if n > BUF then BUF else n
  }

  function TakeArgument(s: Sd, v: byte): (n: Sd)
    requires Valid(s) && s.stage == Collect
    ensures Valid(n)
  {
    if s.got + 1 < s.need then Keep(s, v) else Complete(Keep(s, v).(stage := Idle))
  }

  function TakeLength(s: Sd, v: byte): (n: Sd)
    requires Valid(s) && s.stage == CollectEchoLen
    ensures Valid(n)
  {
    if s.got == 0 then Keep(s, v)
    else
      var k := Keep(s, v).(stage := Idle);
      if EchoLength(k) == 0 then Reply(k, [OK])
      else k.(got := 0, need := EchoLength(k), stage := CollectEchoData)
  }

  function TakeEcho(s: Sd, v: byte): (n: Sd)
    requires Valid(s) && s.stage == CollectEchoData
    ensures Valid(n)
  {
    if s.got + 1 < s.need then Keep(s, v)
    else
      var k := Keep(s, v);
      Reply(k, k.buf[..s.need] + [OK])
  }

  /** A byte out to the data port. */
  function Feed(s: Sd, v: byte): (n: Sd)
    requires Valid(s)
    ensures Valid(n)
  {
    match s.stage
    case Idle => s.(stage := if v == LEAD then Cmd else Idle)
    case Cmd => Start(s, v)
    case Collect => TakeArgument(s, v)
    case CollectDisp => if v == 0 then Reply(s, [OK]) else s
    case CollectEchoLen => TakeLength(s, v)
    case CollectEchoData => TakeEcho(s, v)
  }

  datatype Took = Took(s: Sd, v: byte)

  /** A byte in from the data port. */
  function Take(s: Sd): (k: Took)
    requires Valid(s)
    ensures Valid(k.s)
  {
    var more := s.taken < |s.answer|;
    Took(s.(gap := s.gap || more, taken := if more then s.taken + 1 else s.taken),
         if more then s.answer[s.taken] else 0xFF)
  }

  /** A byte in from the status port: a byte is there to read (80H), and which cards are in. */
  function Poll(s: Sd): (k: Took)
    requires Valid(s)
    ensures Valid(k.s)
  {
    Took(s.(gap := false),
         (if !s.gap && s.taken < |s.answer| then 0x80 else 0)
         + (if s.cards[0].Some? then 0x02 else 0) + (if s.cards[1].Some? then 0x04 else 0))
  }

  predicate Ready(k: Took) { Bit(k.v, 0x80) }

  /** A byte out to the status port. */
  function Flush(s: Sd): (n: Sd)
    requires Valid(s)
    ensures Valid(n)
  {
    s.(answer := [], taken := 0, gap := false)
  }
}
