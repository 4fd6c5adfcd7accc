/** Bank-switched memory: segments of RAM over windows of the address space, and a select byte that says
    which of them drive the bus. The Vector, ExpandoRAM II and ExpandoRAM III cards, of which one page is
    in at a time.
 */
module BankMem {
  import opened Basics

  datatype Card = Vector | Expandoram2 | Expandoram3

  /** `key` is the page a banked segment belongs to; `bank` its bit of the bank-enable switch, and with
      `quarter` its place on an ExpandoRAM III. */
  datatype Segment = Segment(lo: nat, hi: nat, ram: seq<byte>, enabled: bool, resetEnabled: bool, common: bool,
                             key: nat, bank: nat, quarter: nat)

  datatype Board = Board(card: Card, segs: seq<Segment>, latch: byte, bankEnable: byte)

  predicate Covers(s: Segment, a: nat) { s.lo <= a <= s.hi }

  predicate Overlap(s: Segment, t: Segment) { s.lo <= t.hi && t.lo <= s.hi }

  /** Windows that meet belong to two different pages. */
  predicate Apart(s: Segment, t: Segment) {
    Overlap(s, t) ==> !s.common && !t.common && s.key != t.key
  }

  predicate Shaped(segs: seq<Segment>) {
    && (forall i :: 0 <= i < |segs| ==> segs[i].lo <= segs[i].hi < 0x1_0000
                                        && |segs[i].ram| == segs[i].hi - segs[i].lo + 1 && segs[i].bank < 8)
    && (forall i, j :: 0 <= i < j < |segs| ==> Apart(segs[i], segs[j]))
  }

  predicate Switch(mask: byte, bank: nat)
    requires bank < 8
  {
    Bit(mask, [1, 2, 4, 8, 16, 32, 64, 128][bank])
  }

  /** The ExpandoRAM III's switch passes the bank's enable or does not; the others have none. */
  predicate BankOn(b: Board, s: Segment)
    requires s.bank < 8
  {
    b.card == Expandoram3 ==> Switch(b.bankEnable, s.bank)
  }

  /** Would the segment answer if page `p` were in? */
  predicate Belongs(s: Segment, p: Option<nat>) { s.common || p == Some(s.key) }

  /** Page `p` is in: every segment is live exactly when it belongs to the page and its bank is on. */
  predicate Live(b: Board, p: Option<nat>) {
    && Shaped(b.segs)
    && (forall i :: 0 <= i < |b.segs| ==> b.segs[i].enabled == (Belongs(b.segs[i], p) && BankOn(b, b.segs[i])))
    && (if b.card == Expandoram3 then p == Some(b.latch % 16)
        else forall i :: 0 <= i < |b.segs| ==> b.segs[i].resetEnabled == Belongs(b.segs[i], Some(0)))
  }

  // ---------------------------------------------------------------------------------------
  // The card
  // ---------------------------------------------------------------------------------------

  /** The Vector's one bank bit; bit 6 is not looked at. */
  function OneBit(data: byte): Option<nat> {
    var h := if Bit(data, 0x40) then data - 0x40 else data;
    if h == 1 then Some(0) else if h == 2 then Some(1) else if h == 4 then Some(2) else if h == 8 then Some(3)
    else if h == 16 then Some(4) else if h == 32 then Some(5) else if h == 128 then Some(7) else None
  }

  /** The page a select byte names; a byte that names none leaves the Vector as it was. */
  function PageOf(card: Card, p: Option<nat>, data: byte): Option<nat> {
    if card != Vector then Some(data % 16) else if OneBit(data).Some? then OneBit(data) else p
  }

  function Enables(b: Board, p: Option<nat>): (segs: seq<Segment>)
    requires forall i :: 0 <= i < |b.segs| ==> b.segs[i].bank < 8
    ensures |segs| == |b.segs|
    ensures forall i :: 0 <= i < |segs| ==>
              segs[i] == b.segs[i].(enabled := if b.segs[i].common && b.card != Expandoram3 then b.segs[i].enabled
                                               else Belongs(b.segs[i], p) && BankOn(b, b.segs[i]))
  {
    seq(|b.segs|, i requires 0 <= i < |b.segs| =>
      b.segs[i].(enabled := if b.segs[i].common && b.card != Expandoram3 then b.segs[i].enabled
                            else Belongs(b.segs[i], p) && BankOn(b, b.segs[i])))
  }

  function Select(b: Board, data: byte): Board
    requires Shaped(b.segs)
  {
    b.(latch := data,
       segs := if b.card == Vector && OneBit(data).None? then b.segs else Enables(b, PageOf(b.card, None, data)))
  }

  function Reset(b: Board): Board
    requires Shaped(b.segs)
  {
    b.(latch := 0,
       segs := if b.card == Expandoram3 then Enables(b, Some(0))
               else seq(|b.segs|, i requires 0 <= i < |b.segs| => b.segs[i].(enabled := b.segs[i].resetEnabled)))
  }

  /** The switch takes effect at once, on the page that is in. The other cards have only FFH. */
  function SetSwitch(b: Board, mask: byte): Board
    requires Shaped(b.segs)
  {
    b.(bankEnable := if b.card == Expandoram3 || mask == 0xFF then mask else b.bankEnable,
       segs := if b.card == Expandoram3 then Enables(b.(bankEnable := mask), Some(b.latch % 16)) else b.segs)
  }

  /** The first live segment over an address. */
  function Owner(segs: seq<Segment>, a: nat): (r: Option<nat>)
    ensures r.Some? ==> r.value < |segs| && segs[r.value].enabled && Covers(segs[r.value], a)
    ensures r.None? ==> forall i :: 0 <= i < |segs| ==> !(segs[i].enabled && Covers(segs[i], a))
  {
    if |segs| == 0 then None
    else if Owner(segs[..|segs| - 1], a).Some? then Owner(segs[..|segs| - 1], a)
    else if segs[|segs| - 1].enabled && Covers(segs[|segs| - 1], a) then Some(|segs| - 1)
    else None
  }

  function Read(b: Board, a: nat): byte
    requires Shaped(b.segs)
  {
    var o := Owner(b.segs, a);
    if o.Some? then b.segs[o.value].ram[a - b.segs[o.value].lo] else 0xFF
  }

  function Stored(s: Segment, a: nat, v: byte): Segment
    requires Covers(s, a) && |s.ram| == s.hi - s.lo + 1
  {
    s.(ram := s.ram[a - s.lo := v])
  }

  function Write(b: Board, a: nat, v: byte): Board
    requires Shaped(b.segs)
  {
    var o := Owner(b.segs, a);
    b.(segs := if o.Some? then b.segs[o.value := Stored(b.segs[o.value], a, v)] else b.segs)
  }

  datatype Op = Choose(data: byte) | ResetLine | Switches(mask: byte) | Put(addr: nat, v: byte)

  function Step(b: Board, op: Op): Board
    requires Shaped(b.segs)
  {
    match op
    case Choose(data) => Select(b, data)
    case ResetLine => Reset(b)
    case Switches(mask) => SetSwitch(b, mask)
    case Put(a, v) => Write(b, a, v)
  }

  /** The page in after an operation. */
  function NextPage(card: Card, p: Option<nat>, op: Op): Option<nat> {
    match op
    case Choose(data) => PageOf(card, p, data)
    case ResetLine => Some(0)
    case Switches(_) => p
    case Put(_, _) => p
  }

  // ---------------------------------------------------------------------------------------
  // One page at a time
  // ---------------------------------------------------------------------------------------

  /** Of the windows live at once, no two meet: no address is ever answered twice. */
  lemma NoFight(b: Board, p: Option<nat>, i: nat, j: nat, a: nat)
    requires Live(b, p) && i < |b.segs| && j < |b.segs|
    requires b.segs[i].enabled && b.segs[j].enabled && Covers(b.segs[i], a) && Covers(b.segs[j], a)
    ensures i == j
  {
    assert i < j ==> Apart(b.segs[i], b.segs[j]);
    assert j < i ==> Apart(b.segs[j], b.segs[i]);
  }

  predicate SameBut(s: Segment, t: Segment) { t == s.(enabled := t.enabled, ram := t.ram) && |t.ram| == |s.ram| }

  lemma StaysShaped(was: seq<Segment>, now: seq<Segment>)
    requires Shaped(was) && |now| == |was| && forall i :: 0 <= i < |was| ==> SameBut(was[i], now[i])
    ensures Shaped(now)
  {
    forall i, j | 0 <= i < j < |now|
      ensures Apart(now[i], now[j])
    {
      assert Apart(was[i], was[j]) && SameBut(was[i], now[i]) && SameBut(was[j], now[j]);
    }
    forall i | 0 <= i < |now|
      ensures now[i].lo <= now[i].hi < 0x1_0000 && |now[i].ram| == now[i].hi - now[i].lo + 1 && now[i].bank < 8
    {
      assert SameBut(was[i], now[i]);
    }
  }

  lemma StepSame(b: Board, op: Op)
    requires Shaped(b.segs)
    ensures var n := Step(b, op); |n.segs| == |b.segs| && forall i :: 0 <= i < |b.segs| ==> SameBut(b.segs[i], n.segs[i])
  {}

  /** Every operation leaves exactly the segments of its page live. */
  lemma StepLive(b: Board, p: Option<nat>, op: Op)
    requires Live(b, p)
    ensures Live(Step(b, op), NextPage(b.card, p, op))
  {
    hide Shaped;
    StepSame(b, op);
    var n, q := Step(b, op), NextPage(b.card, p, op);
    StaysShaped(b.segs, n.segs);
    forall i | 0 <= i < |n.segs|
      ensures n.segs[i].enabled == (Belongs(n.segs[i], q) && BankOn(n, n.segs[i]))
      ensures n.card != Expandoram3 ==> n.segs[i].resetEnabled == Belongs(n.segs[i], Some(0))
    {
      assert SameBut(b.segs[i], n.segs[i]);
    }
  }

  // ---------------------------------------------------------------------------------------
  // A byte for every page and address
  // ---------------------------------------------------------------------------------------

  /** The segment that holds address `a` of page `p`, live or not. */
  function Holder(segs: seq<Segment>, p: Option<nat>, a: nat): (r: Option<nat>)
    ensures r.Some? ==> r.value < |segs| && Belongs(segs[r.value], p) && Covers(segs[r.value], a)
    ensures r.None? ==> forall i :: 0 <= i < |segs| ==> !(Belongs(segs[i], p) && Covers(segs[i], a))
  {
    if |segs| == 0 then None
    else if Holder(segs[..|segs| - 1], p, a).Some? then Holder(segs[..|segs| - 1], p, a)
    else if Belongs(segs[|segs| - 1], p) && Covers(segs[|segs| - 1], a) then Some(|segs| - 1)
    else None
  }

  lemma OneHolder(segs: seq<Segment>, p: Option<nat>, a: nat, i: nat)
    requires Shaped(segs) && i < |segs| && Belongs(segs[i], p) && Covers(segs[i], a)
    ensures Holder(segs, p, a) == Some(i)
  {
    hide Holder;
    var h := Holder(segs, p, a).value;
    assert i < h ==> Apart(segs[i], segs[h]);
    assert h < i ==> Apart(segs[h], segs[i]);
  }

  function Cell(segs: seq<Segment>, p: Option<nat>, a: nat): Option<byte>
    requires Shaped(segs)
  {
    var h := Holder(segs, p, a);
    if h.Some? then Some(segs[h.value].ram[a - segs[h.value].lo]) else None
  }

  predicate Answered(b: Board, p: Option<nat>, a: nat)
    requires Shaped(b.segs)
  {
    var h := Holder(b.segs, p, a);
    h.Some? && BankOn(b, b.segs[h.value])
  }

  /** With page `p` in, the live segment over an address is the one that holds it for `p`. */
  lemma OwnerIsHolder(b: Board, p: Option<nat>, a: nat)
    requires Live(b, p)
    ensures Owner(b.segs, a) == if Answered(b, p, a) then Holder(b.segs, p, a) else None
  {
    hide Owner, Holder;
    var o := Owner(b.segs, a);
    if o.Some? { OneHolder(b.segs, p, a, o.value); }
  }

  /** A read is the byte the page in holds; an address no live segment answers floats. */
  lemma ReadIsCell(b: Board, p: Option<nat>, a: nat)
    requires Live(b, p)
    ensures Answered(b, p, a) ==> Cell(b.segs, p, a) == Some(Read(b, a))
    ensures !Answered(b, p, a) ==> Read(b, a) == 0xFF
  {
    hide Owner, Holder;
    OwnerIsHolder(b, p, a);
  }

  lemma {:induction false} SameHolder(was: seq<Segment>, now: seq<Segment>, p: Option<nat>, a: nat)
    requires Shaped(was) && |now| == |was| && forall i :: 0 <= i < |was| ==> SameBut(was[i], now[i])
    ensures Shaped(now) && Holder(now, p, a) == Holder(was, p, a)
  {
    hide Holder;
    StaysShaped(was, now);
    var h, n := Holder(was, p, a), Holder(now, p, a);
    if h.Some? {
      assert SameBut(was[h.value], now[h.value]);
      OneHolder(now, p, a, h.value);
    }
    if n.Some? {
      assert SameBut(was[n.value], now[n.value]);
      OneHolder(was, p, a, n.value);
    }
  }

  /** Does the operation, with page `p` in, write address `a` of page `q`? */
  predicate Touches(b: Board, p: Option<nat>, op: Op, q: Option<nat>, a: nat)
    requires Shaped(b.segs)
  {
    op.Put? && op.addr == a && Answered(b, p, a) && Holder(b.segs, p, a) == Holder(b.segs, q, a)
  }

  /** A write changes the one byte it names, in the page that is in; nothing else changes a byte. */
  lemma StepCell(b: Board, p: Option<nat>, op: Op, q: Option<nat>, a: nat)
    requires Live(b, p)
    ensures Shaped(Step(b, op).segs)
    ensures Cell(Step(b, op).segs, q, a) == if Touches(b, p, op, q, a) then Some(op.v) else Cell(b.segs, q, a)
  {
    hide Owner, Holder, BankOn, Belongs;
    StepSame(b, op);
    var n := Step(b, op);
    SameHolder(b.segs, n.segs, q, a);
    if op.Put? {
      OwnerIsHolder(b, p, op.addr);
      HolderCovers(b.segs, q, a);
    } else {
      StepKeepsRam(b, op);
    }
  }

  lemma HolderCovers(segs: seq<Segment>, p: Option<nat>, a: nat)
    ensures Holder(segs, p, a).Some? ==> Covers(segs[Holder(segs, p, a).value], a)
  {}

  lemma StepKeepsRam(b: Board, op: Op)
    requires Shaped(b.segs) && !op.Put?
    ensures |Step(b, op).segs| == |b.segs|
    ensures forall i :: 0 <= i < |b.segs| ==> Step(b, op).segs[i].ram == b.segs[i].ram
  {}

  /** Two pages hold different bytes at a banked address, and the same byte at a common one. */
  lemma PagesApart(segs: seq<Segment>, p: nat, q: nat, a: nat)
    requires Shaped(segs) && Holder(segs, Some(p), a).Some? && p != q
    ensures var h := Holder(segs, Some(p), a);
      if segs[h.value].common then Holder(segs, Some(q), a) == h else Holder(segs, Some(q), a) != h
  {
    hide Holder;
    var h := Holder(segs, Some(p), a).value;
    if segs[h].common { OneHolder(segs, Some(q), a, h); }
  }

  // ---------------------------------------------------------------------------------------
  // Whole runs
  // ---------------------------------------------------------------------------------------

  function Run(b: Board, ops: seq<Op>): (n: Board)
    requires Shaped(b.segs)
    ensures Shaped(n.segs)
    decreases |ops|
  {
    if |ops| == 0 then b
    else
      StepSame(b, ops[0]);
      StaysShaped(b.segs, Step(b, ops[0]).segs);
      Run(Step(b, ops[0]), ops[1..])
  }

  function PageAfter(card: Card, p: Option<nat>, ops: seq<Op>): Option<nat>
    decreases |ops|
  {
    if |ops| == 0 then p else PageAfter(card, NextPage(card, p, ops[0]), ops[1..])
  }

  /** No operation of the run writes address `a` of page `q`. */
  predicate LeavesAlone(b: Board, p: Option<nat>, ops: seq<Op>, q: Option<nat>, a: nat)
    requires Live(b, p)
    decreases |ops|
  {
    |ops| > 0 ==>
      && !Touches(b, p, ops[0], q, a)
      && (StepLive(b, p, ops[0]);
          LeavesAlone(Step(b, ops[0]), NextPage(b.card, p, ops[0]), ops[1..], q, a))
  }

  lemma {:induction false} RunLive(b: Board, p: Option<nat>, ops: seq<Op>)
    requires Live(b, p)
    ensures Live(Run(b, ops), PageAfter(b.card, p, ops)) && Run(b, ops).card == b.card
    decreases |ops|
  {
    hide Shaped;
    if |ops| > 0 {
      StepLive(b, p, ops[0]);
      SameCard(b, ops[0]);
      RunLive(Step(b, ops[0]), NextPage(b.card, p, ops[0]), ops[1..]);
    }
  }

  lemma SameCard(b: Board, op: Op)
    requires Shaped(b.segs)
    ensures Step(b, op).card == b.card
  {}

  lemma {:induction false} RunKeepsCell(b: Board, p: Option<nat>, ops: seq<Op>, q: Option<nat>, a: nat)
    requires Live(b, p) && LeavesAlone(b, p, ops, q, a)
    ensures Cell(Run(b, ops).segs, q, a) == Cell(b.segs, q, a)
    decreases |ops|
  {
    hide Shaped, Cell, Touches, Step;
    if |ops| > 0 {
      StepLive(b, p, ops[0]);
      StepCell(b, p, ops[0], q, a);
      RunKeepsCell(Step(b, ops[0]), NextPage(b.card, p, ops[0]), ops[1..], q, a);
    }
  }

  /** The board after a write with page `p` in, which is in still. */
  function Written(b: Board, p: Option<nat>, a: nat, v: byte): (w: Board)
    requires Live(b, p)
    ensures Live(w, p) && w == Step(b, Put(a, v))
  {
    StepLive(b, p, Put(a, v));
    Write(b, a, v)
  }

  /** A byte written while a page is in is what that page gives when it is in again, whatever the run
      between did to other pages, other addresses, the reset line or the switch. */
  lemma PageRemembers(b: Board, p: Option<nat>, a: nat, v: byte, ops: seq<Op>)
    requires Live(b, p) && Answered(b, p, a) && LeavesAlone(Written(b, p, a, v), p, ops, p, a)
    requires PageAfter(b.card, p, ops) == p && Answered(Run(Written(b, p, a, v), ops), p, a)
    ensures Read(Run(Written(b, p, a, v), ops), a) == v
  {
    hide Shaped, Owner, Holder, Read;
    var w := Written(b, p, a, v);
    StepCell(b, p, Put(a, v), p, a);
    RunKeepsCell(w, p, ops, p, a);
    RunLive(w, p, ops);
    ReadIsCell(Run(w, ops), p, a);
  }
}
