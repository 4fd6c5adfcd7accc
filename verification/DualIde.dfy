/** The IDE card board, changed in place: each method is proved to do what its function in IdeCard says. */
module DualIde {
  import opened Basics
  import opened Card
  import opened IdeCard
  import Spec = IdeCard

  class DualIdeBoard {
    var cards: seq<Option<Medium>>
    var curDrive: nat
    var ports: Latches
    var regs: Registers
    var phase: Phase
    var wordIdx: nat
    var lba: nat
    var err: bool
    const buf: array<byte>

    ghost predicate Valid()
      reads this, buf
    {
      buf.Length == SECTOR && Spec.Valid(State())
    }

    ghost function State(): Ide
      reads this, buf
    {
      Ide(cards, curDrive, ports, regs, Transfer(phase, wordIdx, lba, err, buf[..]))
    }

    constructor ()
      ensures Valid() && fresh(buf)
      ensures State() == Ide([None, None], 0, Latches(0, 0, 0, 0, 0, 0), Registers(0, 0, 0, 0, 0, 0xE0),
                             Transfer(Idle, 0, 0, false, seq(SECTOR, _ => 0)))
    {
      cards, curDrive := [None, None], 0;
      ports, regs := Latches(0, 0, 0, 0, 0, 0), Registers(0, 0, 0, 0, 0, 0xE0);
      phase, wordIdx, lba, err := Idle, 0, 0, false;
      buf := new byte[SECTOR](_ => 0);
      new;
      assert buf[..] == seq(SECTOR, _ => 0);
    }

    method Fill(bytes: seq<byte>)
      requires buf.Length == SECTOR == |bytes|
      modifies buf
      ensures buf[..] == bytes
    {
      for i := 0 to SECTOR
        invariant buf[..i] == bytes[..i]
      {
        buf[i] := bytes[i];
      }
      assert buf[..] == buf[..SECTOR] && bytes == bytes[..SECTOR];
    }

    method ResetTransfer()
      requires Valid()
      modifies this`phase, this`wordIdx, this`err
      ensures Valid() && State() == DropTransfer(old(State()))
    {
      phase, wordIdx, err := Idle, 0, false;
    }

    method DoCommand(cmd: byte)
      requires Valid()
      modifies this`phase, this`wordIdx, this`lba, this`err, buf
      ensures Valid() && State() == Command(old(State()), cmd)
    {
      hide Block, Lba;
      err, wordIdx, lba := false, 0, Lba(regs);
      var m := cards[curDrive];
      if cmd == C_READ {
        var block := if m.Some? then Block(m.value, lba) else None;
        if block.None? {
          err, phase := true, Idle;
          return;
        }
        Fill(block.value);
        phase := ReadData;
      } else if cmd == C_WRITE {
        if m.None? {
          err, phase := true, Idle;
          return;
        }
        phase := WriteData;
      } else if cmd == C_RECAL || cmd == C_INIT || cmd == C_SPIN_DOWN || cmd == C_SPIN_UP {
        phase := Idle;
      } else if cmd == C_IDENTIFY {
        Fill(seq(SECTOR, _ => 0));
        phase := if m.Some? then ReadData else Idle;
        err := m.None?;
      } else {
        err, phase := true, Idle;
      }
    }

    method WriteReg8(reg: byte, v: byte)
      requires Valid()
      modifies this`regs, this`phase, this`wordIdx, this`lba, this`err, buf
      ensures Valid() && State() == WriteReg(old(State()), reg, v)
    {
      hide Command;
      if reg == R_CMD {
        DoCommand(v);
      } else if reg == R_ERR {
        regs := regs.(err := v);
      } else if reg == R_SEC_CNT {
        regs := regs.(secCnt := v);
      } else if reg == R_SECTOR {
        regs := regs.(sector := v);
      } else if reg == R_CYL_LSB {
        regs := regs.(cylLsb := v);
      } else if reg == R_CYL_MSB {
        regs := regs.(cylMsb := v);
      } else if reg == R_SHD {
        regs := regs.(shd := v);
      }
    }

    /** The sector is in: the card takes it, or the error is kept. */
    method CommitWrite()
      requires Valid()
      modifies this`cards, this`err, this`phase
      ensures Valid() && State() == Commit(old(State()))
    {
      hide StoreBlock;
      phase := Idle;
      var m := cards[curDrive];
      if m.None? {
        err := true;
        return;
      }
      var stored := StoreBlock(m.value, lba, buf[..]);
      if stored.Some? {
        cards := cards[curDrive := stored];
      } else {
        err := true;
      }
    }

    method PushWriteWord()
      requires Valid()
      modifies this`cards, this`err, this`phase, this`wordIdx, buf
      ensures Valid() && State() == PushWord(old(State()))
    {
      hide Commit;
      if phase != WriteData {
        return;
      }
      buf[wordIdx * 2], buf[wordIdx * 2 + 1] := ports.aOut, ports.bOut;
      wordIdx := wordIdx + 1;
      assert buf[..] == old(buf[..])[2 * old(wordIdx) := ports.aOut][2 * old(wordIdx) + 1 := ports.bOut];
      if wordIdx >= WORDS {
        phase := Idle;
        CommitWrite();
      }
    }

    method PresentReadWord()
      requires Valid()
      modifies this`ports, this`wordIdx, this`phase
      ensures Valid() && State() == PresentWord(old(State()))
    {
      if phase != ReadData {
        ports := ports.(aIn := FLOAT, bIn := FLOAT);
        return;
      }
      ports := ports.(aIn := buf[wordIdx * 2], bIn := buf[wordIdx * 2 + 1]);
      wordIdx := wordIdx + 1;
      if wordIdx >= WORDS {
        phase := Idle;
      }
    }

    method StatusByte() returns (v: byte)
      requires Valid()
      ensures v == Status(State())
    {
      v := 0x40;
      if phase != Idle {
        v := v + 0x08;
      }
      if err {
        v := v + 0x01;
      }
    }

    /** An empty socket floats. */
    method ReadReg8(reg: byte) returns (v: byte)
      requires Valid()
      ensures v == ReadReg(State(), reg)
    {
      hide Status;
      if cards[curDrive].None? {
        v := FLOAT;
      } else if reg == R_CMD {
        v := StatusByte();
      } else {
        v := if reg == R_ERR then regs.err else if reg == R_SEC_CNT then regs.secCnt
             else if reg == R_SECTOR then regs.sector else if reg == R_CYL_LSB then regs.cylLsb
             else if reg == R_CYL_MSB then regs.cylMsb else if reg == R_SHD then regs.shd else FLOAT;
      }
    }

    method WriteCtrl(v: byte)
      requires Valid()
      modifies this, buf
      ensures Valid() && State() == OutC(old(State()), v)
    {
      hide PushWord, PresentWord, WriteReg, ReadReg, DropTransfer, Bit;
      var was := ports.ctrl;
      ports := ports.(ctrl := v);
      if Rises(was, v, RST) {
        ResetTransfer();
      }
      if !Bit(v, CS0) {
        return;
      }
      var reg := v % 16;
      if Rises(was, v, WR) {
        if reg == R_DATA {
          PushWriteWord();
        } else {
          WriteReg8(reg, ports.aOut);
        }
      } else if Rises(was, v, RD) {
        if reg == R_DATA {
          PresentReadWord();
        } else {
          var v := ReadReg8(reg);
          ports := ports.(aIn := v);
        }
      }
    }

    /** An OUT to the board. */
    method Write(port: nat, v: byte)
      requires Valid()
      modifies this, buf
      ensures Valid() && State() == Out(old(State()), port, v)
    {
      hide OutC;
      if port == 0 {
        ports := ports.(aOut := v);
      } else if port == 1 {
        ports := ports.(bOut := v);
      } else if port == 2 {
        WriteCtrl(v);
      } else if port == 3 {
        ports := ports.(cfg := v);
      } else if port == 4 {
        curDrive := v % 2;
      }
    }

    /** An IN from the board, which changes nothing. */
    method Read(port: nat) returns (v: byte)
      requires Valid()
      ensures v == In(State(), port)
    {
      v := if port == 0 then ports.aIn else if port == 1 then ports.bIn else if port == 2 then ports.ctrl
           else if port == 3 then ports.cfg else if port == 4 then curDrive else 0xFF;
    }
  }
}
