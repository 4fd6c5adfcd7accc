/** The IDE card board: an 8255 whose port C strobes an ATA drive's registers. */
module IdeCard {
  import opened Basics
  import opened Card

  const WORDS: nat := 256

  const CS0: byte := 0x08
  const WR: byte := 0x20
  const RD: byte := 0x40
  const RST: byte := 0x80

  const R_DATA: byte := 0x08
  const R_ERR: byte := 0x09
  const R_SEC_CNT: byte := 0x0A
  const R_SECTOR: byte := 0x0B
  const R_CYL_LSB: byte := 0x0C
  const R_CYL_MSB: byte := 0x0D
  const R_SHD: byte := 0x0E
  const R_CMD: byte := 0x0F    // the status register when read

  const C_RECAL: byte := 0x10
  const C_READ: byte := 0x20
  const C_WRITE: byte := 0x30
  const C_INIT: byte := 0x91
  const C_SPIN_DOWN: byte := 0xE0
  const C_SPIN_UP: byte := 0xE1
  const C_IDENTIFY: byte := 0xEC

  const FLOAT: byte := 0xFF

  datatype Phase = Idle | ReadData | WriteData

  datatype Latches = Latches(aOut: byte, bOut: byte, aIn: byte, bIn: byte, cfg: byte, ctrl: byte)

  datatype Registers = Registers(err: byte, secCnt: byte, sector: byte, cylLsb: byte, cylMsb: byte, shd: byte)

  datatype Transfer = Transfer(phase: Phase, word: nat, lba: nat, err: bool, buf: seq<byte>)

  /** Two sockets, the one selected, and the engine. */
  datatype Ide = Ide(cards: seq<Option<Medium>>, cur: nat, p: Latches, r: Registers, t: Transfer)

  predicate Valid(e: Ide) {
    && |e.cards| == 2 && e.cur < 2 && |e.t.buf| == SECTOR
    && (e.t.phase != Idle ==> e.t.word < WORDS)
  }

  function Lba(r: Registers): nat {
    r.sector + r.cylLsb * 0x100 + r.cylMsb * 0x1_0000 + r.shd % 16 * 0x100_0000
  }

  function Status(e: Ide): byte
    requires Valid(e)
  {
    0x40 + (if e.t.phase != Idle then 0x08 else 0) + (if e.t.err then 0x01 else 0)
  }

  function Command(e: Ide, cmd: byte): (n: Ide)
    requires Valid(e)
    ensures Valid(n) && n == e.(t := n.t)
  {
    var m := e.cards[e.cur];
    var lba := Lba(e.r);
    var block := if cmd == C_READ && m.Some? then Block(m.value, lba) else None;
    var reading := block.Some? || (cmd == C_IDENTIFY && m.Some?);
    var writing := cmd == C_WRITE && m.Some?;
    var quiet := cmd == C_RECAL || cmd == C_INIT || cmd == C_SPIN_DOWN || cmd == C_SPIN_UP;
    e.(t := Transfer(if reading then ReadData else if writing then WriteData else Idle, 0, lba,
                     !reading && !writing && !quiet,
                     if block.Some? then block.value else if cmd == C_IDENTIFY then seq(SECTOR, _ => 0) else e.t.buf))
  }

  function WriteReg(e: Ide, reg: byte, v: byte): (n: Ide)
    requires Valid(e)
    ensures Valid(n)
  {
    if reg == R_CMD then Command(e, v)
    else e.(r := Registers(if reg == R_ERR then v else e.r.err, if reg == R_SEC_CNT then v else e.r.secCnt,
                           if reg == R_SECTOR then v else e.r.sector, if reg == R_CYL_LSB then v else e.r.cylLsb,
                           if reg == R_CYL_MSB then v else e.r.cylMsb, if reg == R_SHD then v else e.r.shd))
  }

  function ReadReg(e: Ide, reg: byte): byte
    requires Valid(e)
  {
    if e.cards[e.cur].None? then FLOAT
    else if reg == R_CMD then Status(e)
    else if reg == R_ERR then e.r.err
    else if reg == R_SEC_CNT then e.r.secCnt
    else if reg == R_SECTOR then e.r.sector
    else if reg == R_CYL_LSB then e.r.cylLsb
    else if reg == R_CYL_MSB then e.r.cylMsb
    else if reg == R_SHD then e.r.shd
    else FLOAT
  }

  /** The card in the selected socket with the buffer stored, if it takes it. */
  function Committed(e: Ide): Option<Medium>
    requires Valid(e)
  {
    if e.cards[e.cur].None? then None else StoreBlock(e.cards[e.cur].value, e.t.lba, e.t.buf)
  }

  function Commit(e: Ide): (n: Ide)
    requires Valid(e)
    ensures Valid(n)
  {
    var c := Committed(e);
    e.(cards := if c.Some? then e.cards[e.cur := c] else e.cards,
       t := e.t.(err := e.t.err || c.None?, phase := Idle))
  }

  function Gathered(e: Ide): (t: Transfer)
    requires Valid(e) && e.t.phase == WriteData
    ensures |t.buf| == SECTOR
  {
    e.t.(buf := e.t.buf[2 * e.t.word := e.p.aOut][2 * e.t.word + 1 := e.p.bOut], word := e.t.word + 1,
         phase := if e.t.word + 1 < WORDS then WriteData else Idle)
  }

  /** A data word out: the low byte first. The last one commits the sector. */
  function PushWord(e: Ide): (n: Ide)
    requires Valid(e)
    ensures Valid(n)
  {
    if e.t.phase != WriteData then e
    else if e.t.word + 1 < WORDS then e.(t := Gathered(e))
    else Commit(e.(t := Gathered(e)))
  }

  /** A data word in: the low byte on port A. */
  function PresentWord(e: Ide): (n: Ide)
    requires Valid(e)
    ensures Valid(n)
  {
    var on := e.t.phase == ReadData;
    e.(p := e.p.(aIn := if on then e.t.buf[2 * e.t.word] else FLOAT,
                 bIn := if on then e.t.buf[2 * e.t.word + 1] else FLOAT),
       t := e.t.(word := if on then e.t.word + 1 else e.t.word,
                 phase := if on && e.t.word + 1 >= WORDS then Idle else e.t.phase))
  }

  predicate Rises(was: byte, now: byte, mask: nat)
    requires mask > 0
  {
    Bit(now, mask) && !Bit(was, mask)
  }

  function DropTransfer(e: Ide): (n: Ide)
    requires Valid(e)
    ensures Valid(n)
  {
    e.(t := e.t.(phase := Idle, word := 0, err := false))
  }

  /** The strobes act as they rise, and only with the chip selected. */
  function Strobe(e: Ide, v: byte, was: byte): (n: Ide)
    requires Valid(e)
    ensures Valid(n)
  {
    var reg := v % 16;
    if !Bit(v, CS0) then e
    else if Rises(was, v, WR) then (if reg == R_DATA then PushWord(e) else WriteReg(e, reg, e.p.aOut))
    else if !Rises(was, v, RD) then e
    else if reg == R_DATA then PresentWord(e)
    else e.(p := e.p.(aIn := ReadReg(e, reg)))
  }

  function OutC(e: Ide, v: byte): (n: Ide)
    requires Valid(e)
    ensures Valid(n)
  {
    var held := e.(p := e.p.(ctrl := v));
    Strobe(if Rises(e.p.ctrl, v, RST) then DropTransfer(held) else held, v, e.p.ctrl)
  }

  /** An OUT to one of the board's five ports. */
  function Out(e: Ide, port: nat, v: byte): (n: Ide)
    requires Valid(e)
    ensures Valid(n)
  {
    if port == 2 then OutC(e, v)
    else e.(p := e.p.(aOut := if port == 0 then v else e.p.aOut, bOut := if port == 1 then v else e.p.bOut,
                      cfg := if port == 3 then v else e.p.cfg),
            cur := if port == 4 then v % 2 else e.cur)
  }

  function In(e: Ide, port: nat): byte
    requires Valid(e)
  {
    if port == 0 then e.p.aIn else if port == 1 then e.p.bIn else if port == 2 then e.p.ctrl
    else if port == 3 then e.p.cfg else if port == 4 then e.cur else 0xFF
  }
}
