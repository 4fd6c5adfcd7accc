/** The bank-switched memory board, changed in place: each method is proved to do what its function in
    BankMem and BankMemCards says.
 */
module MemBank {
  import opened Basics
  import opened BankMem
  import opened BankMemCards

  class MemBankBoard {
    const card: Card
    var segs: seq<Segment>
    var latch: byte
    var bankEnable: byte

    ghost function State(): Board
      reads this
    {
      Board(card, segs, latch, bankEnable)
    }

    ghost predicate Valid()
      reads this
    {
      Shaped(segs)
    }

    /** Planes over one window, the first of them live. */
    constructor Planar(l: Layout, fill: Fill)
      requires Sound(l)
      ensures Valid() && State() == Board(l.card, Planes(l, fill), 0, 0xFF) && Live(State(), Some(0))
    {
      card, latch, bankEnable := l.card, 0, 0xFF;
      segs := [];
      new;
      var i := 0;
      while i < l.n
        invariant 0 <= i <= l.n && latch == 0 && bankEnable == 0xFF
        invariant segs == seq(i, k requires 0 <= k < i => Plane(l, k, fill))
      {
        segs := segs + [Plane(l, i, fill)];
        i := i + 1;
      }
      if l.partition != Whole {
        segs := segs + [CommonSegment(l, fill)];
      }
      PlanesLive(l, fill, 0, 0xFF);
    }

    /** A segment for every cell of the PROM's map, board by board. */
    constructor ByCells(oasis: bool, boards: nat, fill: Fill)
      requires 1 <= boards <= 2
      ensures Valid() && State() == Eram3(oasis, boards, 0xFF, fill) && Live(State(), Some(0))
    {
      card, latch, bankEnable := Expandoram3, 0, 0xFF;
      segs := [];
      new;
      BuildCells(oasis, boards, fill);
      CellsShaped(oasis, 16 * boards, fill);
      Eram3Live(oasis, boards, 0xFF, fill);
      var carried := SelectEram3Page(0);
    }

    method BuildCells(oasis: bool, boards: nat, fill: Fill)
      requires 1 <= boards <= 2
      modifies this`segs
      ensures segs == Cells(oasis, 16 * boards, fill)
    {
      hide Prom, Ram, CellSegment;
      segs := [];
      for bd := 0 to boards
        invariant segs == Cells(oasis, 16 * bd, fill)
      {
        for bk := 0 to 4
          invariant segs == Cells(oasis, 16 * bd + 4 * bk, fill)
        {
          for q := 0 to 4
            invariant segs == Cells(oasis, 16 * bd + 4 * bk + q, fill)
          {
            BuildCell(oasis, bd * 4 + bk, q, fill);
          }
        }
      }
    }

    /** One cell of the PROM, if there is one. */
    method BuildCell(oasis: bool, bank: nat, q: nat, fill: Fill)
      requires bank < 8 && q < 4 && segs == Cells(oasis, 4 * bank + q, fill)
      modifies this`segs
      ensures segs == Cells(oasis, 4 * bank + q + 1, fill)
    {
      hide Prom, Ram, CellSegment;
      var c := Prom(oasis, 4 * bank + q);
      if c.NoCell? { return; }
      CellParts(oasis, bank, q, fill, |segs|);
      segs := segs + [Segment(0x4000 * c.a, 0x4000 * c.a + 0x3FFF, Ram(fill, |segs|, 0x4000), false, false,
                              c.Shared?, if c.Page? then c.page else 0, bank, q)];
    }

    /** Which segments a page has, less the banks that are off; and whether the card carries the page. */
    method SelectEram3Page(page: nat) returns (carried: bool)
      requires Valid() && card == Expandoram3
      modifies this`segs
      ensures Valid() && State() == old(State()).(segs := Enables(old(State()), Some(page)))
      ensures carried <==> exists i :: 0 <= i < |segs| && !segs[i].common && segs[i].key == page
    {
      hide Shaped, Switch, Enables;
      ShapedBanks(segs);
      ghost var b0, was := State(), segs;
      ghost var want := Enables(State(), Some(page));
      carried := false;
      for i := 0 to |segs|
        invariant Merged(segs, want, was, i)
        invariant carried <==> exists k :: 0 <= k < i && !want[k].common && want[k].key == page
      {
        EnabledAt(b0, Some(page), i);
        var s := segs[i];
        var on := Switch(bankEnable, s.bank);
        if s.common {
          segs := segs[i := s.(enabled := on)];
        } else {
          var mine := s.key == page;
          carried := carried || mine;
          segs := segs[i := s.(enabled := mine && on)];
        }
      }
      AllMerged(segs, want, was);
      EnablesSame(b0, Some(page));
      StaysShaped(was, want);
    }

    /** The one-hot byte of a Vector, or none. */
    method OneHot(data: byte) returns (want: Option<nat>)
      ensures want == OneBit(data)
    {
      var h := if Bit(data, 0x40) then data - 0x40 else data;
      var bit := 1;
      for i := 0 to 8
        invariant bit == [1, 2, 4, 8, 16, 32, 64, 128, 256][i]
        invariant forall k :: 0 <= k < i ==> h != [1, 2, 4, 8, 16, 32, 64, 128][k]
      {
        if h == bit {
          return Some(i);
        }
        bit := bit * 2;
      }
      want := None;
      assert h != [1, 2, 4, 8, 16, 32, 64, 128][0] && h != [1, 2, 4, 8, 16, 32, 64, 128][1]
             && h != [1, 2, 4, 8, 16, 32, 64, 128][2] && h != [1, 2, 4, 8, 16, 32, 64, 128][3]
             && h != [1, 2, 4, 8, 16, 32, 64, 128][4] && h != [1, 2, 4, 8, 16, 32, 64, 128][5]
             && h != [1, 2, 4, 8, 16, 32, 64, 128][7];
    }

    /** The page's own segments live, the other pages' not, the common memory as it was. */
    method EnablePage(page: nat)
      requires Valid() && card != Expandoram3
      modifies this`segs
      ensures Valid() && State() == old(State()).(segs := Enables(old(State()), Some(page)))
    {
      hide Shaped, Switch, Enables;
      ShapedBanks(segs);
      ghost var b0, was := State(), segs;
      ghost var want := Enables(State(), Some(page));
      for i := 0 to |segs|
        invariant Merged(segs, want, was, i)
      {
        EnabledAt(b0, Some(page), i);
        if !segs[i].common {
          segs := segs[i := segs[i].(enabled := segs[i].key == page)];
        }
      }
      AllMerged(segs, want, was);
      EnablesSame(b0, Some(page));
      StaysShaped(was, want);
    }

    /** A byte out to the select port. */
    method SelectByte(data: byte)
      requires Valid()
      modifies this`segs, this`latch
      ensures Valid() && State() == Select(old(State()), data)
    {
      hide Shaped, Enables, OneBit;
      latch := data;
      match card {
        case Vector =>
          var want := OneHot(data);
          if want.Some? {
            EnablesIgnoreLatch(old(State()), State(), want);
            EnablePage(want.value);
          }
        case Expandoram2 =>
          EnablesIgnoreLatch(old(State()), State(), Some(data % 16));
          EnablePage(data % 16);
        case Expandoram3 =>
          EnablesIgnoreLatch(old(State()), State(), Some(data % 16));
          var carried := SelectEram3Page(data % 16);
      }
    }

    /** The select latch clears, and page 0 comes in; no byte of RAM changes. */
    method ApplyReset()
      requires Valid()
      modifies this`segs, this`latch
      ensures Valid() && State() == Reset(old(State()))
    {
      hide Shaped, Enables, Reset;
      latch := 0;
      StepSame(State(), ResetLine);
      StaysShaped(segs, Reset(State()).segs);
      ResetLeaves(old(State()), State());
      if card == Expandoram3 {
        var carried := SelectEram3Page(0);
        return;
      }
      ghost var b0, was := State(), segs;
      ghost var want := Reset(State()).segs;
      for i := 0 to |segs|
        invariant Merged(segs, want, was, i) && latch == 0
      {
        ResetAt(b0, i);
        segs := segs[i := segs[i].(enabled := segs[i].resetEnabled)];
      }
      AllMerged(segs, want, was);
    }

    method SetBankEnable(mask: byte)
      requires Valid()
      modifies this`segs, this`bankEnable
      ensures Valid() && State() == SetSwitch(old(State()), mask)
    {
      hide Shaped, Enables;
      if mask != 0xFF && card != Expandoram3 {
        return;
      }
      bankEnable := mask;
      if card == Expandoram3 {
        var carried := SelectEram3Page(latch % 16);
      }
    }

    /** The first live segment over an address; how many there are is for the report of a fight, which
        with a page in never comes (NoFight). */
    method FindOwner(a: nat) returns (first: Option<nat>, count: nat)
      ensures first == Owner(segs, a)
      ensures forall p :: Live(State(), p) ==> count <= 1
    {
      hide Live;
      first, count := None, 0;
      for i := 0 to |segs|
        invariant first == Owner(segs[..i], a) && (count == 0 <==> first.None?)
        invariant forall p :: Live(State(), p) ==> count <= 1
      {
        assert segs[..i + 1][..i] == segs[..i];
        if !segs[i].enabled || a < segs[i].lo || a > segs[i].hi {
          continue;
        }
        if first.None? {
          first := Some(i);
        }
        count := count + 1;
        forall p | Live(State(), p)
          ensures count <= 1
        {
          NoFight(State(), p, first.value, i, a);
        }
      }
      assert segs[..|segs|] == segs;
    }

    method ReadByte(a: nat) returns (v: byte)
      requires Valid()
      ensures v == Read(State(), a)
    {
      hide Shaped, Owner;
      var s, count := FindOwner(a);
      if s.None? {
        return 0xFF;
      }
      ShapedRam(segs, s.value);
      v := segs[s.value].ram[a - segs[s.value].lo];
    }

    method WriteByte(a: nat, v: byte)
      requires Valid()
      modifies this`segs
      ensures Valid() && State() == Write(old(State()), a, v)
    {
      hide Shaped, Owner;
      StepSame(State(), Put(a, v));
      StaysShaped(segs, Write(State(), a, v).segs);
      var s, count := FindOwner(a);
      if s.Some? {
        ShapedRam(segs, s.value);
        segs := segs[s.value := Stored(segs[s.value], a, v)];
      }
    }
  }

  /** A pass over the segments, as far as the `i`th. */
  predicate Merged(now: seq<Segment>, want: seq<Segment>, was: seq<Segment>, i: nat) {
    && |now| == |was| == |want| && i <= |now|
    && (forall k :: 0 <= k < i ==> now[k] == want[k])
    && (forall k :: i <= k < |now| ==> now[k] == was[k])
  }

  lemma AllMerged(now: seq<Segment>, want: seq<Segment>, was: seq<Segment>)
    requires Merged(now, want, was, |now|)
    ensures now == want
  {}

  lemma EnabledAt(b: Board, p: Option<nat>, i: nat)
    requires (forall k :: 0 <= k < |b.segs| ==> b.segs[k].bank < 8) && i < |b.segs|
    ensures Enables(b, p)[i]
            == b.segs[i].(enabled := if b.segs[i].common && b.card != Expandoram3 then b.segs[i].enabled
                                     else Belongs(b.segs[i], p) && BankOn(b, b.segs[i]))
  {}

  lemma ResetAt(b: Board, i: nat)
    requires Shaped(b.segs) && i < |b.segs| && b.card != Expandoram3
    ensures |Reset(b).segs| == |b.segs| && Reset(b).segs[i] == b.segs[i].(enabled := b.segs[i].resetEnabled)
  {}

  lemma ResetLeaves(b: Board, c: Board)
    requires Shaped(b.segs) && c == b.(latch := 0)
    ensures Reset(b) == c.(segs := Reset(c).segs) && |Reset(c).segs| == |c.segs|
    ensures c.card == Expandoram3 ==> Reset(c).segs == Enables(c, Some(0))
  {}

  lemma CellParts(oasis: bool, bank: nat, q: nat, fill: Fill, slot: nat)
    requires bank < 8 && q < 4 && !Prom(oasis, 4 * bank + q).NoCell?
    ensures var c := Prom(oasis, 4 * bank + q);
      CellSegment(oasis, 4 * bank + q, fill, slot)
      == Segment(0x4000 * c.a, 0x4000 * c.a + 0x3FFF, Ram(fill, slot, 0x4000), false, false, c.Shared?,
                 if c.Page? then c.page else 0, bank, q)
  {
    hide Prom, Ram;
    assert (4 * bank + q) / 4 == bank && (4 * bank + q) % 4 == q;
  }

  lemma ShapedBanks(segs: seq<Segment>)
    requires Shaped(segs)
    ensures forall i :: 0 <= i < |segs| ==> segs[i].bank < 8
  {}

  lemma ShapedRam(segs: seq<Segment>, i: nat)
    requires Shaped(segs) && i < |segs|
    ensures |segs[i].ram| == segs[i].hi - segs[i].lo + 1
  {}

  lemma EnablesSame(b: Board, p: Option<nat>)
    requires Shaped(b.segs)
    ensures forall i :: 0 <= i < |b.segs| ==> SameBut(b.segs[i], Enables(b, p)[i])
  {}

  lemma EnablesIgnoreLatch(b: Board, c: Board, p: Option<nat>)
    requires Shaped(b.segs) && c == b.(latch := c.latch)
    ensures Enables(c, p) == Enables(b, p)
  {}
}
