/** How each card's segments are laid out, and that every layout has one page at a time.
 */
module BankMemCards {
  import opened Basics
  import opened BankMem

  /** What a chip holds when power is applied: segment by segment, byte by byte. */
  type Fill = (nat, nat) -> byte

  function Ram(fill: Fill, i: nat, n: nat): (r: seq<byte>)
    ensures |r| == n
  {
    seq(n, k requires 0 <= k < n => fill(i, k))
  }

  // ---------------------------------------------------------------------------------------
  // Planes: the Vector and the ExpandoRAM II
  // ---------------------------------------------------------------------------------------

  datatype Partition = Whole | Ex48 | Ex32

  /** `n` planes over one window, and the common memory above them if the card is partitioned. */
  datatype Layout = Layout(card: Card, n: nat, lo: nat, hi: nat, partition: Partition)

  function CommonBase(p: Partition): nat {
    match p
    case Whole => 0x1_0000
    case Ex48 => 0xC000
    case Ex32 => 0x8000
  }

  /** A Vector's window is a setting; an ExpandoRAM II's is everything below its common memory. */
  predicate Sound(l: Layout) {
    && 1 <= l.n <= MaxPages(l)
    && (l.card == Vector ==> l.lo <= l.hi < 0x1_0000 && l.partition == Whole)
    && (l.card != Vector ==> l.card == Expandoram2 && l.lo == 0 && l.hi == CommonBase(l.partition) - 1)
  }

  function MaxPages(l: Layout): nat {
    if l.card == Vector then 8 else if l.partition == Whole then 10 else 11
  }

  /** Page A of an EX-48 is a single 16K cell. */
  function PlaneLo(l: Layout, i: nat): nat {
    if l.card == Expandoram2 && l.partition == Ex48 && i == 10 then 0x8000 else l.lo
  }

  function Plane(l: Layout, i: nat, fill: Fill): Segment
    requires PlaneLo(l, i) <= l.hi
  {
    Segment(PlaneLo(l, i), l.hi, Ram(fill, i, l.hi - PlaneLo(l, i) + 1), i == 0, i == 0, false, i, 0, 0)
  }

  function CommonSegment(l: Layout, fill: Fill): Segment
    requires l.partition != Whole
  {
    Segment(CommonBase(l.partition), 0xFFFF, Ram(fill, l.n, 0x1_0000 - CommonBase(l.partition)), true, true, true, 0, 0, 0)
  }

  function Planes(l: Layout, fill: Fill): (segs: seq<Segment>)
    requires Sound(l)
    ensures |segs| == l.n + if l.partition == Whole then 0 else 1
  {
    seq(l.n, i requires 0 <= i < l.n => Plane(l, i, fill))
    + if l.partition == Whole then [] else [CommonSegment(l, fill)]
  }

  /** The addresses of page `p`: its window, and the common memory, which is every page's. */
  predicate PlaneCarries(l: Layout, p: nat, a: nat) {
    (p < l.n && PlaneLo(l, p) <= a <= l.hi) || (l.partition != Whole && CommonBase(l.partition) <= a < 0x1_0000)
  }

  /** A card just built has page 0 in, and holds for each page exactly that page's addresses. */
  lemma PlanesLive(l: Layout, fill: Fill, latch: byte, bankEnable: byte)
    requires Sound(l)
    ensures Live(Board(l.card, Planes(l, fill), latch, bankEnable), Some(0))
    ensures forall p: nat, a: nat :: Holder(Planes(l, fill), Some(p), a).Some? <==> PlaneCarries(l, p, a)
  {
    hide Holder, Ram;
    var segs := Planes(l, fill);
    forall p: nat, a: nat
      ensures Holder(segs, Some(p), a).Some? <==> PlaneCarries(l, p, a)
    {
      if p < l.n { assert segs[p] == Plane(l, p, fill); }
      if l.partition != Whole { assert segs[l.n] == CommonSegment(l, fill); }
    }
  }

  /** The RAM of a card, and what its settings say it should be. */
  function RamOf(segs: seq<Segment>): nat {
    if |segs| == 0 then 0 else RamOf(segs[..|segs| - 1]) + |segs[|segs| - 1].ram|
  }

  function RamBytes(l: Layout): nat
    requires Sound(l)
  {
    var common := 0x1_0000 - CommonBase(l.partition);
    if l.card == Expandoram2 && l.partition == Ex48 && l.n == 11 then common + 10 * (l.hi - l.lo + 1) + 0x4000
    else common + l.n * (l.hi - l.lo + 1)
  }

  /** Page A of an EX-48, the eleventh, is not a whole window. */
  function Planned(l: Layout, k: nat): nat
    requires Sound(l)
  {
    if k == 11 && l.partition == Ex48 then 10 * (l.hi - l.lo + 1) + 0x4000 else k * (l.hi - l.lo + 1)
  }

  lemma PlannedStep(l: Layout, fill: Fill, k: nat)
    requires Sound(l) && 0 < k <= l.n
    ensures Planned(l, k) == Planned(l, k - 1) + |Plane(l, k - 1, fill).ram|
  {
    hide Ram;
  }

  lemma {:induction false} PlanesRam(l: Layout, fill: Fill, k: nat)
    requires Sound(l) && k <= l.n
    ensures RamOf(Planes(l, fill)[..k]) == Planned(l, k)
  {
    hide Planned, Plane;
    var segs := Planes(l, fill);
    if k > 0 {
      PlanesRam(l, fill, k - 1);
      PlannedStep(l, fill, k);
      assert segs[..k][..k - 1] == segs[..k - 1] && segs[k - 1] == Plane(l, k - 1, fill);
    } else {
      NonePlanned(l);
    }
  }

  lemma NonePlanned(l: Layout)
    requires Sound(l)
    ensures Planned(l, 0) == 0
  {}

  /** Every byte the settings count is there, and no other. */
  lemma RamIsCounted(l: Layout, fill: Fill)
    requires Sound(l)
    ensures RamOf(Planes(l, fill)) == RamBytes(l)
  {
    hide Ram;
    PlanesRam(l, fill, l.n);
    var segs := Planes(l, fill);
    if l.partition == Whole {
      assert segs[..l.n] == segs;
    } else {
      assert segs[..|segs| - 1] == segs[..l.n] && segs[l.n] == CommonSegment(l, fill);
    }
  }

  // ---------------------------------------------------------------------------------------
  // Cells: the ExpandoRAM III
  // ---------------------------------------------------------------------------------------

  /** A cell of the PROM's map: the page and the quarter of the address space it answers. */
  datatype Cell = Page(page: nat, a: nat) | Shared(a: nat) | NoCell

  /** By board, bank and RAM quarter; the pages below a shared top quarter. */
  function Cpm(i: nat): Cell
    requires i < 32
  {
    match i
    case 0 => Page(0, 0) case 1 => Page(1, 0) case 2 => Page(2, 0) case 3 => Page(3, 0)
    case 4 => Page(0, 1) case 5 => Page(1, 1) case 6 => Page(2, 1) case 7 => Page(3, 1)
    case 8 => Page(0, 2) case 9 => Page(1, 2) case 10 => Page(2, 2) case 11 => Page(3, 2)
    case 12 => Shared(3) case 13 => Page(4, 0) case 14 => Page(4, 1) case 15 => Page(4, 2)
    case 16 => Page(5, 0) case 17 => Page(6, 0) case 18 => Page(7, 0) case 19 => Page(8, 0)
    case 20 => Page(5, 1) case 21 => Page(6, 1) case 22 => Page(7, 1) case 23 => Page(8, 1)
    case 24 => Page(5, 2) case 25 => Page(6, 2) case 26 => Page(7, 2) case 27 => Page(8, 2)
    case 28 => NoCell case 29 => Page(9, 2) case 30 => Page(9, 1) case 31 => Page(9, 0)
  }

  /** The same, with the pages above a shared bottom quarter. */
  function Oasis(i: nat): Cell
    requires i < 32
  {
    match i
    case 0 => Shared(0) case 1 => Page(4, 1) case 2 => Page(4, 2) case 3 => Page(4, 3)
    case 4 => Page(0, 1) case 5 => Page(1, 1) case 6 => Page(2, 1) case 7 => Page(3, 1)
    case 8 => Page(0, 2) case 9 => Page(1, 2) case 10 => Page(2, 2) case 11 => Page(3, 2)
    case 12 => Page(0, 3) case 13 => Page(1, 3) case 14 => Page(2, 3) case 15 => Page(3, 3)
    case 16 => Page(9, 3) case 17 => Page(9, 2) case 18 => Page(9, 1) case 19 => NoCell
    case 20 => Page(5, 1) case 21 => Page(6, 1) case 22 => Page(7, 1) case 23 => Page(8, 1)
    case 24 => Page(5, 2) case 25 => Page(6, 2) case 26 => Page(7, 2) case 27 => Page(8, 2)
    case 28 => Page(5, 3) case 29 => Page(6, 3) case 30 => Page(7, 3) case 31 => Page(8, 3)
  }

  function Prom(oasis: bool, i: nat): Cell
    requires i < 32
  {
    if oasis then Oasis(i) else Cpm(i)
  }

  /** Where the map keeps a quarter of a page. */
  function Where(oasis: bool, page: nat, a: nat): nat
    requires a < 4
  {
    if oasis then
      (if page < 4 then 4 * a + page else if page == 4 then a
       else if page < 9 then 16 + 4 * a + page - 5 else 16 + 3 - a)
    else
      (if page < 4 then 4 * a + page else if page == 4 then 13 + a
       else if page < 9 then 16 + 4 * a + page - 5 else 31 - a)
  }

  function SharedQuarter(oasis: bool): nat { if oasis then 0 else 3 }

  /** Each cell is the one place for its quarter of its page, and no page has the shared quarter. */
  lemma CellIsWhere(oasis: bool, i: nat)
    requires i < 32
    ensures match Prom(oasis, i)
            case Page(p, a) => p < 10 && a < 4 && a != SharedQuarter(oasis) && Where(oasis, p, a) == i && (p < 5 <==> i < 16)
            case Shared(a) => a == SharedQuarter(oasis) && i == (if oasis then 0 else 12)
            case NoCell => i >= 16
  {}

  /** And every other quarter of every page has a place. */
  lemma WhereIsCell(oasis: bool, page: nat, a: nat)
    requires page < 10 && a < 4 && a != SharedQuarter(oasis)
    ensures Where(oasis, page, a) < 32 && Prom(oasis, Where(oasis, page, a)) == Page(page, a)
    ensures Where(oasis, page, a) < 16 <==> page < 5
  {}

  function Quarter(c: Cell): nat { if c.NoCell? then 0 else c.a }

  /** The segment of a built cell. */
  function CellSegment(oasis: bool, i: nat, fill: Fill, slot: nat): Segment
    requires i < 32 && !Prom(oasis, i).NoCell?
  {
    var c := Prom(oasis, i);
    Segment(0x4000 * Quarter(c), 0x4000 * Quarter(c) + 0x3FFF, Ram(fill, slot, 0x4000), false, false, c.Shared?,
            if c.Page? then c.page else 0, i / 4, i % 4)
  }

  /** The segments of the first `k` cells. */
  function Cells(oasis: bool, k: nat, fill: Fill): (segs: seq<Segment>)
    requires k <= 32
  {
    if k == 0 then []
    else
      var before := Cells(oasis, k - 1, fill);
      if Prom(oasis, k - 1).NoCell? then before else before + [CellSegment(oasis, k - 1, fill, |before|)]
  }

  function At(s: Segment): nat { 4 * s.bank + s.quarter }

  /** The segment stands for its cell. */
  predicate IsCell(oasis: bool, s: Segment, fill: Fill, slot: nat) {
    At(s) < 32 && !Prom(oasis, At(s)).NoCell? && s == CellSegment(oasis, At(s), fill, slot)
  }

  lemma CellsApart(oasis: bool, i: nat, j: nat, fill: Fill, m: nat, n: nat)
    requires i < j < 32 && !Prom(oasis, i).NoCell? && !Prom(oasis, j).NoCell?
    ensures Apart(CellSegment(oasis, i, fill, m), CellSegment(oasis, j, fill, n))
  {
    hide Prom, Where, Ram;
    CellIsWhere(oasis, i);
    CellIsWhere(oasis, j);
  }

  lemma CellIsAt(oasis: bool, i: nat, fill: Fill, slot: nat)
    requires i < 32 && !Prom(oasis, i).NoCell?
    ensures At(CellSegment(oasis, i, fill, slot)) == i
  {}

  lemma NewCell(oasis: bool, i: nat, fill: Fill, slot: nat)
    requires i < 32 && !Prom(oasis, i).NoCell?
    ensures var s := CellSegment(oasis, i, fill, slot); At(s) == i && IsCell(oasis, s, fill, slot)
  {
    hide Prom, Ram, CellSegment, At;
    CellIsAt(oasis, i, fill, slot);
  }

  lemma CellsStep(oasis: bool, k: nat, fill: Fill)
    requires k <= 32
    ensures k == 0 ==> Cells(oasis, k, fill) == []
    ensures k > 0 ==>
      var before := Cells(oasis, k - 1, fill);
      Cells(oasis, k, fill)
      == before + if Prom(oasis, k - 1).NoCell? then [] else [CellSegment(oasis, k - 1, fill, |before|)]
  {
    hide Prom, CellSegment;
  }

  lemma {:induction false} CellsAre(oasis: bool, k: nat, fill: Fill)
    requires k <= 32
    ensures var segs := Cells(oasis, k, fill);
      && (forall i :: 0 <= i < |segs| ==> IsCell(oasis, segs[i], fill, i) && At(segs[i]) < k)
      && (forall i, j :: 0 <= i < j < |segs| ==> At(segs[i]) < At(segs[j]))
      && (forall c :: 0 <= c < k && !Prom(oasis, c).NoCell? ==> exists i :: 0 <= i < |segs| && At(segs[i]) == c)
  {
    hide Prom, Ram, CellSegment, At, IsCell, Cells;
    CellsStep(oasis, k, fill);
    if k > 0 {
      CellsAre(oasis, k - 1, fill);
      var before, segs := Cells(oasis, k - 1, fill), Cells(oasis, k, fill);
      if !Prom(oasis, k - 1).NoCell? {
        NewCell(oasis, k - 1, fill, |before|);
        assert segs[|before|] == CellSegment(oasis, k - 1, fill, |before|);
      }
      forall c | 0 <= c < k && !Prom(oasis, c).NoCell?
        ensures exists i :: 0 <= i < |segs| && At(segs[i]) == c
      {
        if c < k - 1 {
          var i :| 0 <= i < |before| && At(before[i]) == c;
          assert segs[i] == before[i];
        }
      }
    }
  }

  /** One or two boards, page 0 in. */
  function Eram3(oasis: bool, boards: nat, bankEnable: byte, fill: Fill): (b: Board)
    requires 1 <= boards <= 2
    ensures Shaped(b.segs)
  {
    CellsShaped(oasis, 16 * boards, fill);
    var b := Board(Expandoram3, Cells(oasis, 16 * boards, fill), 0, bankEnable);
    b.(segs := Enables(b, Some(0)))
  }

  lemma TwoCells(oasis: bool, k: nat, fill: Fill, i: nat, j: nat)
    requires k <= 32 && i < j < |Cells(oasis, k, fill)|
    ensures Apart(Cells(oasis, k, fill)[i], Cells(oasis, k, fill)[j])
  {
    hide Prom, Ram, Cells, CellSegment, Apart;
    CellsAre(oasis, k, fill);
    var s, t := Cells(oasis, k, fill)[i], Cells(oasis, k, fill)[j];
    assert IsCell(oasis, s, fill, i);
    assert IsCell(oasis, t, fill, j);
    CellsApart(oasis, At(s), At(t), fill, i, j);
  }

  lemma OneCell(oasis: bool, k: nat, fill: Fill, i: nat)
    requires k <= 32 && i < |Cells(oasis, k, fill)|
    ensures var s := Cells(oasis, k, fill)[i];
      s.lo <= s.hi < 0x1_0000 && |s.ram| == s.hi - s.lo + 1 && s.bank < 8
  {
    hide Prom, Ram, Cells, At;
    CellsAre(oasis, k, fill);
    var s := Cells(oasis, k, fill)[i];
    assert IsCell(oasis, s, fill, i);
    CellIsWhere(oasis, At(s));
  }

  lemma CellsShaped(oasis: bool, k: nat, fill: Fill)
    requires k <= 32
    ensures Shaped(Cells(oasis, k, fill))
  {
    hide Prom, Ram, Cells;
    CellsAre(oasis, k, fill);
    var segs := Cells(oasis, k, fill);
    forall i, j | 0 <= i < j < |segs|
      ensures Apart(segs[i], segs[j])
    {
      TwoCells(oasis, k, fill, i, j);
    }
    forall i | 0 <= i < |segs|
      ensures segs[i].lo <= segs[i].hi < 0x1_0000 && |segs[i].ram| == segs[i].hi - segs[i].lo + 1 && segs[i].bank < 8
    {
      OneCell(oasis, k, fill, i);
    }
  }

  /** Five pages a board, each three quarters of the address space, and the shared quarter. */
  predicate CellCarries(oasis: bool, boards: nat, p: nat, a: nat) {
    a < 0x1_0000 && (p < 5 * boards || a / 0x4000 == SharedQuarter(oasis))
  }

  /** The cards built hold every address of every page they carry, and of no other. */
  lemma CellsCarry(oasis: bool, boards: nat, fill: Fill, p: nat, a: nat)
    requires 1 <= boards <= 2
    ensures Holder(Cells(oasis, 16 * boards, fill), Some(p), a).Some? <==> CellCarries(oasis, boards, p, a)
  {
    hide Prom, Ram, Cells, Holder, Where, CellSegment, Shaped, Covers, Belongs, At;
    var segs := Cells(oasis, 16 * boards, fill);
    CellsAre(oasis, 16 * boards, fill);
    CellsShaped(oasis, 16 * boards, fill);
    var h := Holder(segs, Some(p), a);
    if h.Some? {
      assert IsCell(oasis, segs[h.value], fill, h.value);
      CellAnswers(oasis, At(segs[h.value]), fill, h.value, p, a);
    }
    if CellCarries(oasis, boards, p, a) {
      CellFor(oasis, boards, p, a);
      var c :| 0 <= c < 16 * boards && Holds(oasis, c, p, a / 0x4000);
      var i :| 0 <= i < |segs| && At(segs[i]) == c;
      assert IsCell(oasis, segs[i], fill, i);
      CellAnswers(oasis, c, fill, i, p, a);
      OneHolder(segs, Some(p), a, i);
    }
  }

  /** What a cell's segment answers. */
  lemma CellAnswers(oasis: bool, i: nat, fill: Fill, slot: nat, p: nat, a: nat)
    requires i < 32 && !Prom(oasis, i).NoCell?
    ensures var s, c := CellSegment(oasis, i, fill, slot), Prom(oasis, i);
      Belongs(s, Some(p)) && Covers(s, a) <==> a / 0x4000 == c.a && (c.Shared? || c.page == p)
    ensures Prom(oasis, i).a < 4
    ensures Prom(oasis, i).Shared? ==> Prom(oasis, i).a == SharedQuarter(oasis)
    ensures Prom(oasis, i).Page? ==> (Prom(oasis, i).page < 5 <==> i < 16) && Prom(oasis, i).page < 10
  {
    hide Prom, Ram, Where;
    CellIsWhere(oasis, i);
  }

  /** The cell that holds an address of a page. */
  lemma CellFor(oasis: bool, boards: nat, p: nat, a: nat)
    requires 1 <= boards <= 2 && CellCarries(oasis, boards, p, a)
    ensures exists c :: 0 <= c < 16 * boards && Holds(oasis, c, p, a / 0x4000)
  {
    hide Prom, Where;
    var quarter := a / 0x4000;
    if quarter == SharedQuarter(oasis) {
      SharedIsThere(oasis);
      assert Holds(oasis, if oasis then 0 else 12, p, quarter);
    } else {
      WhereIsCell(oasis, p, quarter);
      assert Holds(oasis, Where(oasis, p, quarter), p, quarter);
    }
  }

  predicate Holds(oasis: bool, c: nat, p: nat, quarter: nat) {
    c < 32 && (Prom(oasis, c) == Page(p, quarter) || Prom(oasis, c) == Shared(quarter))
  }

  lemma SharedIsThere(oasis: bool)
    ensures Prom(oasis, if oasis then 0 else 12) == Shared(SharedQuarter(oasis))
  {}

  /** A card just built has page 0 in, less the banks that are switched off. */
  lemma Eram3Live(oasis: bool, boards: nat, bankEnable: byte, fill: Fill)
    requires 1 <= boards <= 2
    ensures Live(Eram3(oasis, boards, bankEnable, fill), Some(0))
  {
    hide Cells, Shaped;
    CellsShaped(oasis, 16 * boards, fill);
  }
}
