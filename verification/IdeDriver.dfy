/** The guest's side of the IDE card: the port sequences the BIOS makes, and what they do to the card. */
module IdeDriver {
  import opened Basics
  import opened Card
  import opened IdeCard

  /** A register write: the byte on port A, and a pulse of WR with the register selected. */
  function PutReg(e: Ide, reg: byte, v: byte): (n: Ide)
    requires Valid(e) && 0x09 <= reg <= 0x0F
    ensures Valid(n)
  {
    Out(Out(Out(Out(e, 0, v), 2, reg), 2, reg + 0x20), 2, reg)
  }

  datatype Took = Took(e: Ide, v: byte)

  function TakeReg(e: Ide, reg: byte): (k: Took)
    requires Valid(e) && 0x09 <= reg <= 0x0F
    ensures Valid(k.e)
  {
    var n := Out(Out(e, 2, reg), 2, reg + 0x40);
    Took(Out(n, 2, reg), In(n, 0))
  }

  function PutWord(e: Ide, lo: byte, hi: byte): (n: Ide)
    requires Valid(e)
    ensures Valid(n)
  {
    Out(Out(Out(Out(Out(e, 0, lo), 1, hi), 2, 0x08), 2, 0x28), 2, 0x08)
  }

  datatype TookWord = TookWord(e: Ide, lo: byte, hi: byte)

  function TakeWord(e: Ide): (k: TookWord)
    requires Valid(e)
    ensures Valid(k.e)
  {
    var n := Out(Out(e, 2, 0x08), 2, 0x48);
    TookWord(Out(n, 2, 0x08), In(n, 0), In(n, 1))
  }

  function PutWords(e: Ide, data: seq<byte>, k: nat): (n: Ide)
    requires Valid(e) && |data| == SECTOR && k <= WORDS
    ensures Valid(n)
    decreases WORDS - k
  {
    if k == WORDS then e else PutWords(PutWord(e, data[2 * k], data[2 * k + 1]), data, k + 1)
  }

  datatype TookWords = TookWords(e: Ide, data: seq<byte>)

  function TakeWords(e: Ide, k: nat): (r: TookWords)
    requires Valid(e) && k <= WORDS
    ensures Valid(r.e) && |r.data| == 2 * (WORDS - k)
    decreases WORDS - k
  {
    if k == WORDS then TookWords(e, [])
    else
      var w := TakeWord(e);
      var rest := TakeWords(w.e, k + 1);
      TookWords(rest.e, [w.lo, w.hi] + rest.data)
  }

  /** The address goes into the four registers a byte at a time, and the command after it. */
  function Begin(e: Ide, lba: nat, cmd: byte): (n: Ide)
    requires Valid(e) && lba < 0x1000_0000
    ensures Valid(n)
  {
    PutReg(PutReg(PutReg(PutReg(PutReg(e, 0x0B, lba % 0x100), 0x0C, lba / 0x100 % 0x100),
                         0x0D, lba / 0x1_0000 % 0x100), 0x0E, 0xE0 + lba / 0x100_0000), 0x0F, cmd)
  }

  function WriteSector(e: Ide, lba: nat, data: seq<byte>): (n: Ide)
    requires Valid(e) && lba < 0x1000_0000 && |data| == SECTOR
    ensures Valid(n)
  {
    PutWords(Begin(e, lba, 0x30), data, 0)
  }

  function ReadSector(e: Ide, lba: nat): (r: TookWords)
    requires Valid(e) && lba < 0x1000_0000
    ensures Valid(r.e)
  {
    TakeWords(Begin(e, lba, 0x20), 0)
  }

  // ---------------------------------------------------------------------------------------
  // What a pulse does
  // ---------------------------------------------------------------------------------------

  lemma Lines(was: byte, reg: byte)
    requires R_DATA <= reg <= R_CMD
    ensures Bit(reg, CS0) && !Bit(reg, WR) && !Bit(reg, RD) && !Bit(reg, RST)
    ensures var w: byte := reg + WR; Bit(w, CS0) && Bit(w, WR) && !Bit(w, RD) && !Bit(w, RST) && w % 16 == reg
    ensures var r: byte := reg + RD; Bit(r, CS0) && !Bit(r, WR) && Bit(r, RD) && !Bit(r, RST) && r % 16 == reg
    ensures reg % 16 == reg
  {}

  /** With a register selected and no strobe, port C only remembers. */
  lemma Selects(e: Ide, reg: byte)
    requires Valid(e) && R_DATA <= reg <= R_CMD
    ensures Out(e, 2, reg) == e.(p := e.p.(ctrl := reg))
  {
    hide Bit, PushWord, WriteReg, PresentWord, ReadReg, DropTransfer;
    Lines(e.p.ctrl, reg);
  }

  lemma Writes(e: Ide, reg: byte)
    requires Valid(e) && R_DATA <= reg <= R_CMD && e.p.ctrl == reg
    ensures var n := e.(p := e.p.(ctrl := reg + WR));
      Out(e, 2, reg + WR) == if reg == R_DATA then PushWord(n) else WriteReg(n, reg, e.p.aOut)
  {
    hide Bit, PushWord, WriteReg, PresentWord, ReadReg, DropTransfer;
    Lines(e.p.ctrl, reg);
  }

  lemma Presents(e: Ide, reg: byte)
    requires Valid(e) && R_DATA <= reg <= R_CMD && e.p.ctrl == reg
    ensures var n := e.(p := e.p.(ctrl := reg + RD));
      Out(e, 2, reg + RD) == if reg == R_DATA then PresentWord(n) else n.(p := n.p.(aIn := ReadReg(n, reg)))
  {
    hide Bit, PushWord, WriteReg, PresentWord, ReadReg, DropTransfer;
    Lines(e.p.ctrl, reg);
  }

  lemma PutRegMeans(e: Ide, reg: byte, v: byte)
    requires Valid(e) && R_ERR <= reg <= R_CMD
    ensures var n := WriteReg(e, reg, v); PutReg(e, reg, v) == n.(p := e.p.(aOut := v, ctrl := reg))
  {
    hide Out, WriteReg;
    var a := Out(e, 0, v);
    OutA(e, v);
    Selects(a, reg);
    var b := Out(a, 2, reg);
    Writes(b, reg);
    WriteRegApart(e, b.(p := b.p.(ctrl := reg + WR)), reg, v);
    Selects(Out(b, 2, reg + WR), reg);
  }

  lemma OutA(e: Ide, v: byte)
    requires Valid(e)
    ensures Out(e, 0, v) == e.(p := e.p.(aOut := v))
    ensures Out(e, 1, v) == e.(p := e.p.(bOut := v))
  {}

  /** Registers and latches are apart. */
  lemma WriteRegApart(e: Ide, f: Ide, reg: byte, v: byte)
    requires Valid(e) && f == e.(p := f.p)
    ensures WriteReg(f, reg, v) == WriteReg(e, reg, v).(p := f.p)
  {}

  lemma PutWordMeans(e: Ide, lo: byte, hi: byte)
    requires Valid(e)
    ensures var n := PushWord(e.(p := e.p.(aOut := lo, bOut := hi)));
      PutWord(e, lo, hi) == n.(p := e.p.(aOut := lo, bOut := hi, ctrl := R_DATA))
  {
    hide Out, PushWord;
    var a := Out(e, 0, lo);
    OutA(e, lo);
    var b := Out(a, 1, hi);
    OutA(a, hi);
    Selects(b, R_DATA);
    var c := Out(b, 2, R_DATA);
    Writes(c, R_DATA);
    PushApart(b, c.(p := c.p.(ctrl := R_DATA + WR)));
    Selects(Out(c, 2, R_DATA + WR), R_DATA);
  }

  lemma PushApart(e: Ide, f: Ide)
    requires Valid(e) && f == e.(p := f.p) && f.p == e.p.(ctrl := f.p.ctrl)
    ensures PushWord(f) == PushWord(e).(p := f.p)
  {}

  lemma TakeWordMeans(e: Ide)
    requires Valid(e)
    ensures var k, n := TakeWord(e), PresentWord(e);
      && k.lo == n.p.aIn && k.hi == n.p.bIn && k.e == n.(p := n.p.(ctrl := R_DATA))
  {
    hide Out, PresentWord;
    Selects(e, R_DATA);
    var a := Out(e, 2, R_DATA);
    Presents(a, R_DATA);
    PresentApart(e, a.(p := a.p.(ctrl := R_DATA + RD)));
    Selects(Out(a, 2, R_DATA + RD), R_DATA);
  }

  lemma PresentApart(e: Ide, f: Ide)
    requires Valid(e) && f == e.(p := f.p) && f.p == e.p.(ctrl := f.p.ctrl)
    ensures PresentWord(f) == PresentWord(e).(p := PresentWord(e).p.(ctrl := f.p.ctrl))
  {}

  lemma TakeRegMeans(e: Ide, reg: byte)
    requires Valid(e) && R_ERR <= reg <= R_CMD
    ensures var k := TakeReg(e, reg);
      k.v == ReadReg(e, reg) && k.e == e.(p := e.p.(aIn := ReadReg(e, reg), ctrl := reg))
  {
    hide Out, ReadReg;
    Selects(e, reg);
    var a := Out(e, 2, reg);
    Presents(a, reg);
    ReadRegApart(e, a.(p := a.p.(ctrl := reg + RD)), reg);
    Selects(Out(a, 2, reg + RD), reg);
  }

  lemma ReadRegApart(e: Ide, f: Ide, reg: byte)
    requires Valid(e) && f == e.(p := f.p)
    ensures ReadReg(f, reg) == ReadReg(e, reg)
  {}

  // ---------------------------------------------------------------------------------------
  // What a transfer does
  // ---------------------------------------------------------------------------------------

  lemma Address(r: Registers, lba: nat)
    requires lba < 0x1000_0000
    requires r.sector == lba % 0x100 && r.cylLsb == lba / 0x100 % 0x100 && r.cylMsb == lba / 0x1_0000 % 0x100
    requires r.shd == 0xE0 + lba / 0x100_0000
    ensures Lba(r) == lba
  {
    assert lba == lba / 0x100 * 0x100 + lba % 0x100;
    assert lba / 0x100 == lba / 0x1_0000 * 0x100 + lba / 0x100 % 0x100;
    assert lba / 0x1_0000 == lba / 0x100_0000 * 0x100 + lba / 0x1_0000 % 0x100;
  }

  lemma BeginMeans(e: Ide, lba: nat, cmd: byte)
    requires Valid(e) && lba < 0x1000_0000 && e.cards[e.cur].Some?
    ensures var n, b := Begin(e, lba, cmd), Block(e.cards[e.cur].value, lba);
      && n.cards == e.cards && n.cur == e.cur
      && (cmd == C_READ ==> n.t == Transfer(if b.Some? then ReadData else Idle, 0, lba, b.None?,
                                            if b.Some? then b.value else e.t.buf))
      && (cmd == C_WRITE ==> n.t == Transfer(WriteData, 0, lba, false, e.t.buf))
  {
    hide PutReg, Lba;
    PutRegMeans(e, R_SECTOR, lba % 0x100);
    var a := PutReg(e, R_SECTOR, lba % 0x100);
    PutRegMeans(a, R_CYL_LSB, lba / 0x100 % 0x100);
    var b := PutReg(a, R_CYL_LSB, lba / 0x100 % 0x100);
    PutRegMeans(b, R_CYL_MSB, lba / 0x1_0000 % 0x100);
    var c := PutReg(b, R_CYL_MSB, lba / 0x1_0000 % 0x100);
    PutRegMeans(c, R_SHD, 0xE0 + lba / 0x100_0000);
    var d := PutReg(c, R_SHD, 0xE0 + lba / 0x100_0000);
    PutRegMeans(d, R_CMD, cmd);
    Address(d.r, lba);
  }

  lemma {:induction false} PutWordsMeans(e: Ide, data: seq<byte>, k: nat)
    requires Valid(e) && |data| == SECTOR && k < WORDS && e.cards[e.cur].Some?
    requires e.t.phase == WriteData && e.t.word == k && e.t.buf[..2 * k] == data[..2 * k]
    ensures var n, c := PutWords(e, data, k), StoreBlock(e.cards[e.cur].value, e.t.lba, data);
      && n.cur == e.cur && n.t.phase == Idle && n.t.err == (e.t.err || c.None?)
      && n.cards == if c.Some? then e.cards[e.cur := c] else e.cards
    decreases WORDS - k
  {
    hide PutWord, StoreBlock;
    PutWordMeans(e, data[2 * k], data[2 * k + 1]);
    var n := PutWord(e, data[2 * k], data[2 * k + 1]);
    assert n.t.buf[..2 * k + 2] == data[..2 * k + 2];
    if k + 1 < WORDS {
      PutWordsMeans(n, data, k + 1);
    } else {
      assert n.t.buf == data;
    }
  }

  lemma {:induction false} TakeWordsMeans(e: Ide, k: nat)
    requires Valid(e) && k < WORDS && e.t.phase == ReadData && e.t.word == k
    ensures var r := TakeWords(e, k);
      && r.data == e.t.buf[2 * k..] && r.e.cards == e.cards && r.e.cur == e.cur
      && r.e.t.phase == Idle && r.e.t.err == e.t.err
    decreases WORDS - k
  {
    hide TakeWord;
    TakeWordMeans(e);
    var w := TakeWord(e);
    if k + 1 < WORDS {
      TakeWordsMeans(w.e, k + 1);
    }
    assert e.t.buf[2 * k..] == [e.t.buf[2 * k], e.t.buf[2 * k + 1]] + e.t.buf[2 * k + 2..];
  }

  /** A sector written by the BIOS, whatever state the board was in, is that block of the card stored,
      or nothing and an error when the card will not take it; the other socket is not touched. */
  lemma IdeWrites(e: Ide, lba: nat, data: seq<byte>)
    requires Valid(e) && lba < 0x1000_0000 && |data| == SECTOR && e.cards[e.cur].Some?
    ensures var n, c := WriteSector(e, lba, data), StoreBlock(e.cards[e.cur].value, lba, data);
      && n.cur == e.cur && n.cards == (if c.Some? then e.cards[e.cur := c] else e.cards)
      && n.t.phase == Idle && n.t.err == c.None?
      && TakeReg(n, 0x0F).v == if c.Some? then 0x40 else 0x41
  {
    hide Begin, PutWords, TakeReg, StoreBlock;
    BeginMeans(e, lba, C_WRITE);
    var b := Begin(e, lba, C_WRITE);
    PutWordsMeans(b, data, 0);
    TakeRegMeans(PutWords(b, data, 0), R_CMD);
  }

  /** A sector read is that block of the card; past its end the drive never asks to be read, and says
      so. */
  lemma IdeReads(e: Ide, lba: nat)
    requires Valid(e) && lba < 0x1000_0000 && e.cards[e.cur].Some?
    ensures var r, b := ReadSector(e, lba), Block(e.cards[e.cur].value, lba);
      && r.e.cards == e.cards && r.e.cur == e.cur
      && (b.Some? ==> r.data == b.value && TakeReg(r.e, 0x0F).v == 0x40)
      && TakeReg(Begin(e, lba, 0x20), 0x0F).v == if b.Some? then 0x48 else 0x41
  {
    hide Begin, TakeWords, TakeReg, Block;
    BeginMeans(e, lba, C_READ);
    var b := Begin(e, lba, C_READ);
    TakeRegMeans(b, R_CMD);
    if Block(e.cards[e.cur].value, lba).Some? {
      TakeWordsMeans(b, 0);
      TakeRegMeans(TakeWords(b, 0).e, R_CMD);
    } else {
      NothingToTake(b, 0);
    }
  }

  lemma {:induction false} NothingToTake(e: Ide, k: nat)
    requires Valid(e) && k <= WORDS && e.t.phase == Idle
    ensures TakeWords(e, k).e.cards == e.cards && TakeWords(e, k).e.cur == e.cur
    decreases WORDS - k
  {
    if k < WORDS {
      TakeWordMeans(e);
      NothingToTake(TakeWord(e).e, k + 1);
    }
  }

  /** The last word of a sector is stored on the card selected then: a guest that selects the other
      socket before it writes the other's card. */
  lemma SelectMovesTheWrite(e: Ide, drive: byte, lo: byte, hi: byte)
    requires Valid(e) && e.t.phase == WriteData && e.t.word == WORDS - 1
    ensures var n, d := PutWord(Out(e, 4, drive), lo, hi), drive % 2;
      var c := if e.cards[d].None? then None else StoreBlock(e.cards[d].value, e.t.lba, e.t.buf[510 := lo][511 := hi]);
      && n.cards[1 - d] == e.cards[1 - d]
      && n.cards[d] == if c.Some? then c else e.cards[d]
  {
    hide PutWord, StoreBlock;
    PutWordMeans(Out(e, 4, drive), lo, hi);
  }

  /** The other commands, with a card in the selected socket: IDENTIFY reads 512 zeros, recalibrate, set parameters
      and the two that set the spindle do nothing, and any other is an error. */
  lemma OtherCommands(e: Ide, cmd: byte)
    requires Valid(e) && e.cards[e.cur].Some? && cmd != 0x20 && cmd != 0x30
    ensures var n := PutReg(e, 0x0F, cmd); var status := TakeReg(n, 0x0F).v;
      && n.cards == e.cards && n.cur == e.cur
      && (cmd == 0xEC ==> status == 0x48 && TakeWords(n, 0).data == seq(512, _ => 0))
      && (cmd == 0x10 || cmd == 0x91 || cmd == 0xE0 || cmd == 0xE1 ==> status == 0x40)
      && (cmd != 0xEC && cmd != 0x10 && cmd != 0x91 && cmd != 0xE0 && cmd != 0xE1 ==> status == 0x41)
  {
    hide PutReg, TakeReg, TakeWords, Lba, Block;
    PutRegMeans(e, R_CMD, cmd);
    var n := PutReg(e, 0x0F, cmd);
    TakeRegMeans(n, R_CMD);
    if cmd == 0xEC {
      TakeWordsMeans(n, 0);
      assert n.t.buf[0..] == n.t.buf;
    }
  }

  /** A register written reads back, and no other changes; so do the board's own three ports. */
  lemma RegistersHold(e: Ide, reg: byte, v: byte, other: byte)
    requires Valid(e) && e.cards[e.cur].Some? && 0x09 <= reg <= 0x0E && 0x09 <= other <= 0x0E
    ensures TakeReg(PutReg(e, reg, v), other).v == if other == reg then v else TakeReg(e, other).v
  {
    hide PutReg, TakeReg;
    PutRegMeans(e, reg, v);
    TakeRegMeans(PutReg(e, reg, v), other);
    TakeRegMeans(e, other);
  }

  lemma PortsHold(e: Ide, port: nat, v: byte, other: nat)
    requires Valid(e) && 2 <= port <= 4 && 2 <= other <= 4 && other != port
    ensures In(Out(e, port, v), port) == (if port == 4 then v % 2 else v) && In(Out(e, port, v), other) == In(e, other)
    ensures port != 2 ==> Out(e, port, v).t == e.t && Out(e, port, v).cards == e.cards && Out(e, port, v).r == e.r
  {
    hide Bit, Command, StoreBlock;
  }

  /** A rising reset line drops the transfer in hand, and its error; the cards and the registers stay. */
  lemma ResetDrops(e: Ide)
    requires Valid(e) && e.p.ctrl < 0x80
    ensures var n := Out(e, 2, 0x80);
      n.t.phase == Idle && !n.t.err && n.cards == e.cards && n.r == e.r && n.cur == e.cur && n.t.buf == e.t.buf
  {
    assert !Bit(0x80, CS0) && !Bit(e.p.ctrl, RST) && Bit(0x80, RST);
  }
}
