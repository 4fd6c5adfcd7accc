/** The serial-drive board: ports that set flags, and a link that talks to the server a turn at a
    time. Each method computes the model's function of the same name. */
module SerialDrive {
  import opened Arithmetic
  import opened Basics
  import opened SerialDriveModel
  import Model = SerialDriveModel

  /** The sum of `s[..n]`'s bytes, in sixteen bits. */
  method SumOf(s: seq<byte>) returns (sum: nat)
    ensures sum == Sum16(s)
  {
    sum := 0;
    for i := 0 to |s|
      invariant sum == Sum16(s[..i])
    {
      assert s[..i + 1][..i] == s[..i];
      sum := (sum + s[i]) % 0x10000;
    }
    assert s[..|s|] == s;
  }

  lemma Bounds(b: Board)
    requires Valid(b)
    ensures |b.p.tracks| == 8 && b.p.cur < 8 && |b.c.buf| == TRACK_BUF
  {}

  class Card {
    const mini: bool
    const buf: array<byte>
    var p: Panel
    var key: nat
    var secsBuf: nat
    var dirty: bool
    var want: bool
    var flushNow: bool
    var l: Link

    ghost function Abs(): Board
      reads this, buf
    {
      Board(mini, p, Cache(buf[..], key, secsBuf, dirty, want, flushNow), l)
    }

    ghost predicate Ok()
      reads this, buf
    {
      Valid(Abs())
    }

    /** Power-on. */
    constructor (mini: bool, tick: nat)
      ensures Ok() && fresh(buf) && Abs() == PowerOn(mini, tick)
    {
      this.mini := mini;
      buf := new byte[TRACK_BUF](_ => 0);
      p := Panel(ALL_HIGH, 0xFF, 0, {}, 0, [0, 0, 0, 0, 0, 0, 0, 0], false, false, 0, 0, tick);
      key, secsBuf, dirty, want, flushNow := NO_TRACK, 0, false, false, false;
      l := Link(Idle, 0, 0, 0, false, [], [], []);
      new;
      assert buf[..] == seq(TRACK_BUF, _ => 0);
    }

    method Select(v: byte)
      requires Ok()
      modifies this`p
      ensures Abs() == Model.Select(old(Abs()), v)
    {
      p := p.(status := ALL_HIGH, sectorPos := 0xFF, intsOn := false, headLoaded := false);
      if Bit(v, 0x80) { return; }
      p := p.(cur := v % 8);
      if p.cur !in p.ready { return; }
      p := p.(status := INIT.(track0 := p.tracks[p.cur] != 0));
      if mini { p := p.(status := p.status.(head := false), headLoaded := true); }
    }

    method Command(v: byte)
      requires Ok()
      modifies this`p, this`dirty
      ensures Abs() == Model.Command(old(Abs()), v)
    {
      hide NextTrack, Bit, Valid;
      Bounds(Abs());
      CommandBits(v);
      if p.status.ready { return; }
      if v % 16 != 0 { HeadCommand(v); }
      OtherCommands(v);
      assert buf[..] == old(buf[..]);
    }

    /** Write enable, and the interrupts. */
    method OtherCommands(v: byte)
      modifies this`p, this`dirty
      ensures dirty == (old(dirty) || Bit(v, 0x80))
      ensures p == old(p).(intsOn := !Bit(v, 0x20) && (old(p).intsOn || Bit(v, 0x10)),
                           status := old(p).status.(enwd := old(p).status.enwd && !Bit(v, 0x80)))
    {
      if Bit(v, 0x80) {
        dirty := true;
        p := p.(status := p.status.(enwd := false));
      }
      if Bit(v, 0x20) { p := p.(intsOn := false); }
      else if Bit(v, 0x10) { p := p.(intsOn := true); }
    }

    /** A step, then unload, then load. */
    method HeadCommand(v: byte)
      requires |p.tracks| == 8 && p.cur < 8
      modifies this`p
      ensures var step, out, was := v % 4 != 0, Bit(v, 2), old(p);
        var load, unload := Bit(v, 4) && !mini, Bit(v, 8) && !mini;
        p == was.(
          sectorPos := if step || !mini then 0xFF else was.sectorPos,
          tracks := if step then was.tracks[was.cur := NextTrack(was.tracks[was.cur], out)] else was.tracks,
          headLoaded := load || (was.headLoaded && !unload),
          status := was.status.(
            move := was.status.move || step,
            head := !load && (was.status.head || step || unload),
            track0 := if step then (if out then was.status.track0 && was.tracks[was.cur] != 1 else true)
                      else was.status.track0))
    {
      hide NextTrack, Bit;
      if !mini { p := p.(sectorPos := 0xFF); }
      if v % 4 != 0 { Step(Bit(v, 2)); }
      MoveHead(Bit(v, 4) && !mini, Bit(v, 8) && !mini);
    }

    /** The head, up and then down. */
    method MoveHead(load: bool, unload: bool)
      modifies this`p
      ensures p == old(p).(headLoaded := load || (old(p).headLoaded && !unload),
                           status := old(p).status.(head := !load && (old(p).status.head || unload)))
    {
      if unload { p := p.(headLoaded := false, status := p.status.(head := true)); }
      if load { p := p.(headLoaded := true, status := p.status.(head := false)); }
    }

    method Step(out: bool)
      requires |p.tracks| == 8 && p.cur < 8
      modifies this`p
      ensures p == old(p).(sectorPos := 0xFF,
        tracks := old(p).tracks[old(p).cur := NextTrack(old(p).tracks[old(p).cur], out)],
        status := old(p).status.(move := true, head := true,
          track0 := if out then old(p).status.track0 && old(p).tracks[old(p).cur] != 1 else true))
    {
      var t := p.tracks[p.cur];
      p := p.(sectorPos := 0xFF, status := p.status.(move := true, head := true));
      if out {
        if t > 0 {
          t := t - 1;
          if t == 0 { p := p.(status := p.status.(track0 := false)); }
        }
      } else {
        p := p.(status := p.status.(track0 := true));
        if t < 0xFFF { t := t + 1; }
      }
      p := p.(tracks := p.tracks[p.cur := t]);
    }

    /** After the 8080 has read the sector port. */
    method SectorRead(tick: nat)
      requires Ok()
      modifies this`p, this`want
      ensures Abs() == Model.SectorRead(old(Abs()), tick)
    {
      hide Valid;
      Bounds(Abs());
      var sectors := if mini then 16 else 32;
      FindSector(sectors);
      if key != p.cur * 0x1000 + p.tracks[p.cur] {
        want := true;
        p := p.(sectorPos := 0xFF);
      } else { NextPosition(tick, sectors); }
      assert buf[..] == old(buf[..]);
    }

    /** An IN: the value first, and what it sets off after. */
    method In(port: nat, tick: nat) returns (v: byte)
      requires Ok()
      modifies this`p, this`want
      ensures v == Model.Value(old(Abs()), port) && Abs() == Model.InPort(old(Abs()), port, tick)
    {
      match port
      case 0 => v := p.status.Byte();
      case 1 =>
        v := p.sectorPos;
        SectorRead(tick);
      case 2 =>
        v := DataRead();
      case _ => v := 0;
    }

    /** If the value just read had sector true, the sector's first byte goes out. */
    method FindSector(sectors: nat)
      requires (sectors == 16 || sectors == 32) && buf.Length == TRACK_BUF
      modifies this`p
      ensures var was, found := old(p), old(p).sectorPos % 2 == 0; var at := was.sectorPos / 2 % sectors * SLOT;
        p == was.(
          status := was.status.(enwd := true, nrda := was.status.nrda && !found),
          byteCount := if found then 0 else was.byteCount,
          pSector := if found then at else was.pSector,
          readData := if found then buf[at] else was.readData)
    {
      p := p.(status := p.status.(enwd := true));
      if p.sectorPos % 2 == 0 {
        var at := p.sectorPos / 2 % sectors * SLOT;
        p := p.(byteCount := 0, pSector := at, readData := buf[at], status := p.status.(nrda := false));
      }
    }

    /** On to the next sector, if its time has come and it has arrived; sector true lasts one read. */
    method NextPosition(tick: nat, sectors: nat)
      requires sectors == 16 || sectors == 32
      modifies this`p
      ensures var was := old(p); var next := (was.sectorPos / 2 + 1) % sectors;
        p == if tick != was.tickSeen && next < secsBuf then was.(sectorPos := next * 2 + 0xC0, tickSeen := tick)
             else was.(sectorPos := was.sectorPos + 1 - was.sectorPos % 2)
    {
      if tick != p.tickSeen {
        var next := (p.sectorPos / 2 + 1) % sectors;
        if next < secsBuf {
          p := p.(sectorPos := next * 2 + 0xC0, tickSeen := tick);
          return;
        }
      }
      p := p.(sectorPos := p.sectorPos + 1 - p.sectorPos % 2);
    }

    method DataRead() returns (v: byte)
      requires Ok()
      modifies this`p
      ensures v == old(p.readData) && Abs() == Model.DataRead(old(Abs()))
    {
      v := p.readData;
      p := p.(byteCount := p.byteCount + 1);
      if p.byteCount >= SLOT { p := p.(status := p.status.(nrda := true)); }
      p := p.(pSector := p.pSector + 1);
      p := p.(readData := if p.pSector < buf.Length then buf[p.pSector] else 0);
    }

    method DataWrite(v: byte)
      requires Ok()
      modifies this`p, buf
      ensures Abs() == Model.DataWrite(old(Abs()), v)
    {
      p := p.(byteCount := p.byteCount + 1);
      if p.byteCount > SLOT { return; }
      if p.pSector < buf.Length {
        buf[p.pSector] := v;
        assert buf[..] == old(buf[..])[p.pSector := v];
      }
      p := p.(pSector := p.pSector + 1);
    }

    /** The idle time is up. */
    method LetGo()
      requires Ok()
      modifies this`key, this`flushNow
      ensures Abs() == Model.LetGo(old(Abs()))
    {
      if key < NO_TRACK { key := key + NO_TRACK; }
      if dirty { flushNow := true; }
    }

    // -------------------------------------------------------------------------------------
    // The link
    // -------------------------------------------------------------------------------------

    method Transmit(n: nat, h: nat)
      requires n <= |l.tx|
      modifies this`l
      ensures l == old(l).(tx := old(l).tx[n..], deadline := if n > 0 then h + TIMEOUT_NS else old(l).deadline)
    {
      if n > 0 { l := l.(tx := l.tx[n..], deadline := h + TIMEOUT_NS); }
    }

    /** A command goes out, and whatever has come is thrown away. */
    method Send(c: Command4, p1: nat, p2: nat, h: nat)
      requires p1 < 0x10000 && p2 < 0x10000
      modifies this`l
      ensures l == Model.Send(old(l), Message(c, p1, p2), h, old(l).phase)
    {
      var body := Ascii(c) + Le(p1) + Le(p2);
      var sum := SumOf(body);
      l := l.(rx := [], tx := l.tx + (body + Le(sum)), deadline := h + TIMEOUT_NS);
    }

    /** Ten bytes of reply are taken, good or not. */
    method TakeReply(c: Command4) returns (good: bool, code: nat, data: nat)
      requires |l.rx| >= MSG_LEN
      modifies this`l
      ensures good == Good(c, old(l).rx) && code == Word(old(l).rx, 4) && data == Word(old(l).rx, 6)
      ensures l == old(l).(rx := old(l).rx[MSG_LEN..])
    {
      var sum := SumOf(l.rx[..8]);
      good := l.rx[..4] == Ascii(c) && sum == Word(l.rx, 8);
      code, data := Word(l.rx, 4), Word(l.rx, 6);
      l := l.(rx := l.rx[MSG_LEN..]);
    }

    method StartRead(h: nat)
      requires Ok()
      modifies this`secsBuf, this`key, this`l
      ensures Ok() && Abs() == Model.StartRead(old(Abs()), h).b
    {
      hide Sum16, Message, Ascii;
      secsBuf := 0;
      key := p.cur * 0x1000 + p.tracks[p.cur];
      Send(READ, key, if mini then 16 * SLOT else 32 * SLOT, h);
      l := l.(phase := Read);
      assert buf[..] == old(buf[..]);
    }

    method StartWrite(h: nat)
      requires Ok()
      modifies this`dirty, this`l
      ensures Ok() && Abs() == Model.StartWrite(old(Abs()), h).b
    {
      hide Sum16, Message, Ascii;
      l := l.(tries := WRITE_TRIES);
      dirty := false;
      Send(WRIT, key % NO_TRACK, if mini then 16 * SLOT else 32 * SLOT, h);
      l := l.(phase := WritAsk);
      assert buf[..] == old(buf[..]);
    }

    method SendTheTrack(h: nat)
      requires Ok()
      modifies this`l
      ensures Ok() && Abs() == Model.SendTheTrack(old(Abs()), h).b
    {
      hide Sum16;
      var len := if mini then 16 * SLOT else 32 * SLOT;
      var data := buf[..len];
      var sum := SumOf(data);
      l := l.(rx := [], tx := l.tx + (data + Le(sum)), deadline := h + TIMEOUT_NS, phase := WritSta);
      assert data == old(buf[..])[..len] && buf[..] == old(buf[..]);
    }

    method FinishWrite(ok: bool, h: nat)
      requires Ok()
      modifies this`secsBuf, this`key, this`l
      ensures Ok() && Abs() == Model.FinishWrite(old(Abs()), ok, h).b
    {
      hide Sum16, Message, Ascii, Model.StartRead;
      if !ok && l.tries > 1 {
        l := l.(tries := l.tries - 1);
        Send(WRIT, key % NO_TRACK, if mini then 16 * SLOT else 32 * SLOT, h);
        l := l.(phase := WritAsk);
        assert buf[..] == old(buf[..]);
        return;
      }
      if !ok { l := l.(tries := 0, log := l.log + [key % NO_TRACK]); }
      l := l.(phase := Idle, statAt := h + STAT_NS);
      assert buf[..] == old(buf[..]);
      if l.readAfter {
        l := l.(readAfter := false);
        StartRead(h);
      }
    }

    method TurnIdle(h: nat)
      requires Ok()
      modifies this`secsBuf, this`key, this`dirty, this`flushNow, this`l
      ensures Ok() && Abs() == Model.TurnIdle(old(Abs()), h).b
    {
      hide Sum16, Message, Ascii, Model.StartRead, Model.StartWrite;
      if want {
        if dirty {
          l := l.(readAfter := true);
          StartWrite(h);
        } else { StartRead(h); }
      } else if flushNow {
        flushNow := false;
        if dirty {
          l := l.(readAfter := false);
          StartWrite(h);
        }
      } else if h >= l.statAt {
        Send(STAT, if p.status.ready then 0xFF else p.cur + (if p.headLoaded then 0xFF00 else 0), p.tracks[p.cur], h);
        l := l.(phase := Stat);
      }
    }

    method TurnStat(h: nat, timedOut: bool)
      requires Ok()
      modifies this`p, this`l
      ensures Ok() && Abs() == Model.TurnStat(old(Abs()), h, timedOut).b
    {
      hide Good, Mask;
      if |l.rx| >= MSG_LEN {
        var good, code, data := TakeReply(STAT);
        if good {
          p := p.(ready := Mask(data));
          if !p.status.ready && p.cur !in p.ready { p := p.(status := ALL_HIGH, sectorPos := 0xFF); }
        }
        l := l.(phase := Idle, statAt := h + STAT_NS);
      } else if timedOut {
        l := l.(phase := Idle, statAt := h + STAT_NS);
      }
      assert buf[..] == old(buf[..]);
    }

    /** The track so far, over the buffer; each sector is readable as soon as it is there. */
    method TurnRead(h: nat, timedOut: bool)
      requires Ok()
      modifies this`secsBuf, this`key, this`want, this`l, buf
      ensures Ok() && Abs() == Model.TurnRead(old(Abs()), h, timedOut).b
    {
      hide Sum16;
      var len := if mini then 16 * SLOT else 32 * SLOT;
      var got := Min(|l.rx|, len);
      forall i | 0 <= i < got { buf[i] := l.rx[i]; }
      assert buf[..] == l.rx[..got] + old(buf[..])[got..];
      secsBuf := got / SLOT;
      var done, bad := false, false;
      if |l.rx| >= len + 2 {
        var sum := SumOf(l.rx[..len]);
        done, bad := true, sum != Word(l.rx, len);
      } else if timedOut {
        done, bad := true, true;
      }
      if bad && key < NO_TRACK { key := key + NO_TRACK; }
      if done {
        want := false;
        l := l.(rx := [], phase := Idle, statAt := h + STAT_NS);
      }
    }

    method TurnAsk(h: nat, timedOut: bool)
      requires Ok()
      modifies this`secsBuf, this`key, this`l
      ensures Ok() && Abs() == Model.TurnAsk(old(Abs()), h, timedOut).b
    {
      hide Good, Sum16, Model.FinishWrite, Model.SendTheTrack;
      if |l.rx| >= MSG_LEN {
        var good, code, _ := TakeReply(WRIT);
        assert buf[..] == old(buf[..]);
        if good && code == 0 { SendTheTrack(h); } else { FinishWrite(false, h); }
      } else if timedOut { FinishWrite(false, h); }
    }

    method TurnSta(h: nat, timedOut: bool)
      requires Ok()
      modifies this`secsBuf, this`key, this`l
      ensures Ok() && Abs() == Model.TurnSta(old(Abs()), h, timedOut).b
    {
      hide Good, Sum16, Model.FinishWrite;
      if |l.rx| >= MSG_LEN {
        var good, code, _ := TakeReply(WSTA);
        assert buf[..] == old(buf[..]);
        FinishWrite(good && code == 0, h);
      } else if timedOut { FinishWrite(false, h); }
    }

    /** What can go goes, and what has come is taken in. */
    method Move(h: nat, n: nat, arrived: seq<byte>)
      requires Ok() && n <= |l.tx|
      modifies this`l
      ensures Ok() && Abs() == Model.Receive(Model.Transmit(old(Abs()), n, h), arrived, h)
    {
      Transmit(n, h);
      if |arrived| > 0 { l := l.(rx := l.rx + arrived, deadline := h + TIMEOUT_NS); }
      else { assert l.rx + arrived == l.rx; }
      assert buf[..] == old(buf[..]);
    }

    method Act(h: nat)
      requires Ok()
      modifies this, buf
      ensures Ok() && Abs() == Model.Act(old(Abs()), h).b
    {
      hide Model.TurnIdle, Model.TurnStat, Model.TurnRead, Model.TurnAsk, Model.TurnSta;
      var timedOut := |l.tx| == 0 && h >= l.deadline;
      match l.phase {
        case Idle => TurnIdle(h);
        case Stat => TurnStat(h, timedOut);
        case Read => TurnRead(h, timedOut);
        case WritAsk => TurnAsk(h, timedOut);
        case WritSta => TurnSta(h, timedOut);
      }
    }

    /** ONE TURN OF THE LINK: move what bytes can move, act on the state, and say it at once. */
    method Turn(h: nat, n: nat, arrived: seq<byte>, more: nat)
      requires Ok() && n <= |l.tx|
      modifies this, buf
      ensures Ok() && Abs() == Model.Turn(old(Abs()), h, n, arrived, more).b
    {
      hide Model.Act;
      Move(h, n, arrived);
      Act(h);
      var k := Min(more, |l.tx|);
      assert l.tx[0..] == l.tx;
      Move(h, k, []);
      assert l.rx + [] == l.rx;
    }
  }
}
