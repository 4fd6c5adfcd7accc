/** The Dual SD board, changed in place: each method is proved to do what its function in SdCard says.
 */
module DualSd {
  import opened Basics
  import opened Card
  import opened SdCard
  import Spec = SdCard

  class DualSdBoard {
    var cards: seq<Option<Medium>>
    var curDrive: nat
    var stage: Stage
    var cmd: byte
    var lba: nat
    var need: nat
    var got: nat
    const inBuf: array<byte>
    const out: array<byte>
    var outLen: nat
    var outPtr: nat
    var readGap: bool

    ghost predicate Valid()
      reads this, inBuf, out
    {
      inBuf.Length == BUF && out.Length == BUF + 1 && inBuf != out && outLen <= out.Length && Spec.Valid(State())
    }

    ghost function State(): Sd
      requires outLen <= out.Length
      reads this, inBuf, out
    {
      Sd(cards, curDrive, stage, cmd, lba, need, got, inBuf[..], out[..outLen], outPtr, readGap)
    }

    constructor ()
      ensures Valid() && fresh(inBuf) && fresh(out)
      ensures State() == Sd([None, None], 0, Idle, 0, 0, 0, 0, seq(BUF, _ => 0), [], 0, false)
    {
      cards, curDrive, stage, cmd, lba, need, got := [None, None], 0, Idle, 0, 0, 0, 0;
      outLen, outPtr, readGap := 0, 0, false;
      inBuf := new byte[BUF](_ => 0);
      out := new byte[BUF + 1];
      new;
      assert inBuf[..] == seq(BUF, _ => 0);
    }

    /** Everything but the input state is as it should be: what holds while a command runs. */
    ghost predicate Shaped()
      reads this, inBuf, out
    {
      && inBuf.Length == BUF && out.Length == BUF + 1 && inBuf != out && outLen <= out.Length
      && |cards| == 2 && curDrive < 2 && lba < 0x1_0000_0000 && outPtr <= outLen
    }

    /** Clear the queue and put an answer in it. */
    method Answer(bytes: seq<byte>)
      requires Shaped() && |bytes| <= BUF + 1
      modifies this`outLen, this`outPtr, this`readGap, this`stage, out
      ensures Valid() && State() == Reply(old(State()), bytes)
    {
      outLen, outPtr, readGap := 0, 0, false;
      for i := 0 to |bytes|
        invariant outLen == i && outPtr == 0 && !readGap && out[..i] == bytes[..i]
        invariant inBuf[..] == old(inBuf[..])
      {
        out[outLen] := bytes[i];
        outLen := outLen + 1;
      }
      assert bytes[..|bytes|] == bytes;
      stage := Idle;
    }

    method FlushOut()
      requires Valid()
      modifies this`outLen, this`outPtr, this`readGap
      ensures Valid() && State() == Flush(old(State()))
    {
      outLen, outPtr, readGap := 0, 0, false;
    }

    method SelectDrive(d: nat)
      requires Shaped() && d < 2
      modifies this`curDrive, this`outLen, this`outPtr, this`readGap, this`stage, out
      ensures Valid() && State() == Reply(old(State()).(cur := d), [Present(cards[d])])
    {
      curDrive := d;
      Answer([if cards[d].Some? then OK else ERR]);
    }

    method ReadSector() returns (bytes: seq<byte>)
      requires Shaped()
      ensures var m := cards[curDrive]; var b := if m.Some? then Block(m.value, lba) else None;
        bytes == if b.Some? then b.value + [OK] else seq(SECTOR, _ => 0) + [ERR]
    {
      var m := cards[curDrive];
      if m.None? {
        return seq(SECTOR, _ => 0) + [ERR];
      }
      var block := Block(m.value, lba);
      if block.None? {
        return seq(SECTOR, _ => 0) + [ERR];
      }
      bytes := block.value + [OK];
    }

    method ClearInput()
      requires inBuf.Length == BUF
      modifies inBuf
      ensures inBuf[..] == seq(BUF, _ => 0)
    {
      for i := 0 to BUF
        invariant inBuf[..i] == seq(i, _ => 0)
      {
        inBuf[i] := 0;
      }
      assert inBuf[..] == inBuf[..BUF];
    }

    method ResetEngine()
      requires Shaped()
      modifies this`curDrive, this`stage, this`cmd, this`lba, this`need, this`got, this`outLen, this`outPtr, this`readGap,
               inBuf
      ensures Valid() && State() == Sd(cards, 0, Idle, 0, 0, 0, 0, seq(BUF, _ => 0), [], 0, false)
    {
      stage, cmd, lba, need, got, outLen, outPtr, readGap, curDrive := Idle, 0, 0, 0, 0, 0, 0, false, 0;
      ClearInput();
    }

    method StartCommand(v: byte)
      requires Valid()
      modifies this, inBuf, out
      ensures Valid() && State() == Start(old(State()), v)
    {
      hide Block;
      cmd := v;
      if v == INIT1 || v == SEL1 {
        SelectDrive(0);
      } else if v == INIT2 || v == SEL2 {
        SelectDrive(1);
      } else if v == READ {
        var bytes := ReadSector();
        Answer(bytes);
      } else if v == RESET {
        ResetEngine();
      } else if IsInfo(v) {
        Report(v);
      } else {
        Expect(v);
      }
    }

    /** The report commands. */
    method Report(v: byte)
      requires Shaped() && IsInfo(v)
      modifies this`outLen, this`outPtr, this`readGap, this`stage, out
      ensures Valid()
      ensures var m := cards[curDrive];
        State() == Reply(old(State()),
                         if v == FW_VER then [2, 1, 5, OK]
                         else if v == TYPE then [0, Present(m)]
                         else if v == CAP then Word32(if m.Some? then |m.value.bytes| / SECTOR else 0) + [Present(m)]
                         else seq(16, _ => 0) + [Present(m)])
    {
      hide Word32;
      var m := cards[curDrive];
      var status := if m.Some? then OK else ERR;
      if v == FW_VER {
        Answer([2, 1, 5, OK]);
      } else if v == TYPE {
        Answer([0, status]);
      } else if v == CAP {
        FourBytes(if m.Some? then |m.value.bytes| / SECTOR else 0);
        Answer(Word32(if m.Some? then |m.value.bytes| / SECTOR else 0) + [status]);
      } else {
        Answer(seq(16, _ => 0) + [status]);
      }
    }

    /** The commands that wait for bytes. */
    method Expect(v: byte)
      requires Shaped() && cmd == v && !IsSelect(v) && v != READ && v != RESET && !IsInfo(v)
      modifies this`stage, this`need, this`got
      ensures Valid()
      ensures stage == if Needs(v) > 0 then Collect else if v == DISP then CollectDisp
                       else if v == ECHO then CollectEchoLen else Idle
      ensures need == if Needs(v) > 0 then Needs(v) else old(need)
      ensures got == if Needs(v) > 0 || v == ECHO then 0 else old(got)
    {
      if v == SET_TRK_SEC || v == FORMAT {
        need, got, stage := 2, 0, Collect;
      } else if v == WRITE {
        need, got, stage := SECTOR, 0, Collect;
      } else if v == SET_LBA {
        need, got, stage := 4, 0, Collect;
      } else if v == DISP {
        stage := CollectDisp;
      } else if v == ECHO {
        got, stage := 0, CollectEchoLen;
      } else {
        stage := Idle;
      }
    }

    method DoWrite() returns (ok: bool)
      requires Shaped()
      modifies this`cards
      ensures var m := old(cards)[curDrive];
        var c := if m.Some? then StoreBlock(m.value, lba, inBuf[..SECTOR]) else None;
        ok == c.Some? && cards == if c.Some? then old(cards)[curDrive := c] else old(cards)
    {
      var m := cards[curDrive];
      if m.None? || m.value.readOnly {
        return false;
      }
      var stored := StoreBlock(m.value, lba, inBuf[..SECTOR]);
      if stored.None? {
        return false;
      }
      cards := cards[curDrive := stored];
      ok := true;
    }

    /** Fills `count` sectors from the current one, and leaves the current one past them. */
    method DoFormat(count: nat) returns (ok: bool)
      requires Shaped()
      modifies this`cards, this`lba
      ensures Shaped()
      ensures var m := old(cards)[curDrive];
        if m.None? || m.value.readOnly then !ok && cards == old(cards) && lba == old(lba)
        else cards[curDrive].Some? && Filled(cards[curDrive].value, lba, ok) == Format(m.value, old(lba), count)
             && cards == old(cards)[curDrive := cards[curDrive]]
    {
      hide StoreBlock;
      var m := cards[curDrive];
      if m.None? || m.value.readOnly {
        return false;
      }
      var card, s, left := m.value, lba, count;
      ok := true;
      while left > 0
        invariant s < 0x1_0000_0000 && Format(card, s, left) == Format(m.value, lba, count)
      {
        if s != 0 {
          var stored := StoreBlock(card, s, seq(SECTOR, _ => FILL));
          if stored.None? {
            ok := false;
            break;
          }
          card := stored.value;
        }
        left := left - 1;
        s := (s + 1) % 0x1_0000_0000;
      }
      cards := cards[curDrive := Some(card)];
      lba := s;
    }

    method CompleteCollect()
      requires Valid() && stage == Idle
      modifies this`cards, this`lba, this`outLen, this`outPtr, this`readGap, this`stage, out
      ensures Valid() && State() == Complete(old(State()))
    {
      hide StoreBlock, Format;
      if cmd == SET_TRK_SEC {
        lba := (inBuf[0] as int) * 0x100 + inBuf[1];
        Answer([OK]);
      } else if cmd == WRITE {
        var ok := DoWrite();
        Answer([if ok then OK else ERR]);
      } else if cmd == FORMAT {
        var ok := DoFormat(inBuf[0] + (inBuf[1] as int) * 0x100);
        Answer([if ok then OK else ERR]);
      } else if cmd == SET_LBA {
        lba := (inBuf[0] as int) * 0x100_0000 + (inBuf[1] as int) * 0x1_0000 + (inBuf[2] as int) * 0x100 + inBuf[3];
        Answer([OK]);
      }
    }

    method KeepByte(v: byte)
      requires Shaped()
      modifies this`got, inBuf
      ensures inBuf[..] == if old(got) < BUF then old(inBuf[..])[old(got) := v] else old(inBuf[..])
      ensures got == old(got) + 1
    {
      if got < BUF {
        inBuf[got] := v;
      }
      got := got + 1;
    }

    method CollectArgument(v: byte)
      requires Valid() && stage == Collect
      modifies this, inBuf, out
      ensures Valid() && State() == TakeArgument(old(State()), v)
    {
      hide Complete;
      KeepByte(v);
      if got >= need {
        stage := Idle;
        CompleteCollect();
      }
    }

    method CollectLength(v: byte)
      requires Valid() && stage == CollectEchoLen
      modifies this, inBuf, out
      ensures Valid() && State() == TakeLength(old(State()), v)
    {
      KeepByte(v);
      if got < 2 {
        return;
      }
      stage := Idle;
      var size := (inBuf[0] as int) * 0x100 + inBuf[1];
      if size > BUF {
        size := BUF;
      }
      if size == 0 {
        Answer([OK]);
      } else {
        got, need, stage := 0, size, CollectEchoData;
      }
    }

    method CollectEcho(v: byte)
      requires Valid() && stage == CollectEchoData
      modifies this, inBuf, out
      ensures Valid() && State() == TakeEcho(old(State()), v)
    {
      KeepByte(v);
      if got >= need {
        Answer(inBuf[..need] + [OK]);
      }
    }

    /** An OUT to the data port. */
    method FeedInput(v: byte)
      requires Valid()
      modifies this, inBuf, out
      ensures Valid() && State() == Feed(old(State()), v)
    {
      hide Start, TakeArgument, TakeLength, TakeEcho;
      match stage {
        case Idle =>
          if v == LEAD {
            stage := Cmd;
          }
        case Cmd =>
          StartCommand(v);
        case Collect =>
          CollectArgument(v);
        case CollectDisp =>
          if v == 0 {
            Answer([OK]);
          }
        case CollectEchoLen =>
          CollectLength(v);
        case CollectEchoData =>
          CollectEcho(v);
      }
    }

    /** An IN from the data port. */
    method InData() returns (v: byte)
      requires Valid()
      modifies this`outPtr, this`readGap
      ensures Valid() && Took(State(), v) == Take(old(State()))
    {
      if outPtr < outLen {
        readGap := true;
        v := out[outPtr];
        outPtr := outPtr + 1;
      } else {
        v := 0xFF;
      }
    }

    /** An IN from the status port. */
    method StatusByte() returns (v: byte)
      requires Valid()
      modifies this`readGap
      ensures Valid() && Took(State(), v) == Poll(old(State()))
    {
      v := 0;
      if cards[0].Some? {
        v := v + 0x02;
      }
      if cards[1].Some? {
        v := v + 0x04;
      }
      if readGap {
        readGap := false;
        return;
      }
      if outPtr < outLen {
        v := v + 0x80;
      }
    }
  }

  lemma FourBytes(n: nat)
    ensures |Word32(n)| == 4
  {}
}
