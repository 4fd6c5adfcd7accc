/** Which segments a byte out to the select port brings in, in plain numbers, and that a page put away comes back
    with what was written in it. */
module BankMemPages {
  import opened Basics
  import opened BankMem
  import opened BankMemCards

  /** A Vector's bank `k` is one bit of the select byte, with or without bit 6; and bit 6 is no bank. */
  predicate OneHot(v: byte, k: nat) {
    && k < 8 && k != 6
    && (v == [1, 2, 4, 8, 16, 32, 64, 128][k] || v - 0x40 == [1, 2, 4, 8, 16, 32, 64, 128][k])
  }

  lemma OneHotIs(v: byte, k: nat)
    ensures OneHot(v, k) <==> OneBit(v) == Some(k)
  {}

  lemma NotHot(v: byte)
    requires forall k: nat :: !OneHot(v, k)
    ensures OneBit(v).None?
  {
    if OneBit(v).Some? { OneHotIs(v, OneBit(v).value); }
  }

  /** The switch an ExpandoRAM III's segment is behind: bit 0 for bank 0. */
  predicate SwitchedOn(mask: byte, s: Segment) {
    s.bank < 8 && mask / [1, 2, 4, 8, 16, 32, 64, 128][s.bank] % 2 == 1
  }

  /** WHAT A SELECT BRINGS IN. With any page in: on either ExpandoRAM the banked segments whose page is the low four
      bits of the byte are live and no others -- less, on the III, the banks that are switched off -- and on the
      Vector those of the one bank the byte has the bit of; a byte with no such bit changes nothing. */
  lemma SelectPicks(b: Board, p: Option<nat>, v: byte, i: nat)
    requires Live(b, p) && i < |b.segs| && !b.segs[i].common
    ensures |Step(b, Choose(v)).segs| == |b.segs|
    ensures var n, s := Step(b, Choose(v)), b.segs[i];
      && n.segs[i] == s.(enabled := n.segs[i].enabled)
      && (b.card == Expandoram2 ==> (n.segs[i].enabled <==> s.key == v % 16))
      && (b.card == Expandoram3 ==> (n.segs[i].enabled <==> s.key == v % 16 && SwitchedOn(b.bankEnable, s)))
      && (b.card == Vector ==> forall k: nat :: OneHot(v, k) ==> (n.segs[i].enabled <==> s.key == k))
      && (b.card == Vector && (forall k: nat :: !OneHot(v, k)) ==> n.segs[i] == s)
  {
    hide OneBit, OneHot, Apart;
    StepSame(b, Choose(v));
    forall k: nat
      ensures OneHot(v, k) ==> OneBit(v) == Some(k)
    {
      OneHotIs(v, k);
    }
    if forall k: nat :: !OneHot(v, k) { NotHot(v); }
  }

  /** A reset brings in page 0, and a change of the ExpandoRAM III's switches the banks now on of the page that
      is in. */
  lemma ResetPicks(b: Board, p: Option<nat>, i: nat)
    requires Live(b, p) && i < |b.segs| && !b.segs[i].common
    ensures |Step(b, ResetLine).segs| == |b.segs|
    ensures var n, s := Step(b, ResetLine), b.segs[i];
      n.segs[i] == s.(enabled := s.key == 0 && (b.card == Expandoram3 ==> SwitchedOn(b.bankEnable, s)))
  {
    StepSame(b, ResetLine);
  }

  lemma SwitchesPick(b: Board, p: Option<nat>, mask: byte, i: nat)
    requires Live(b, p) && i < |b.segs| && !b.segs[i].common && b.card == Expandoram3
    ensures |Step(b, Switches(mask)).segs| == |b.segs|
    ensures var n, s := Step(b, Switches(mask)), b.segs[i];
      n.segs[i] == s.(enabled := s.key == b.latch % 16 && SwitchedOn(mask, s)) && n.bankEnable == mask
  {
    StepSame(b, Switches(mask));
  }

  /** The other cards have no such switch: it can only be set as if there were all on, and changes no segment. */
  lemma NoSwitches(b: Board, mask: byte)
    requires Shaped(b.segs) && b.card != Expandoram3
    ensures Step(b, Switches(mask)) == b.(bankEnable := if mask == 255 then 255 else b.bankEnable)
  {}

  /** The addresses of a page of an ExpandoRAM II: all of them on a card of whole pages, and below the common memory
      on one of 48K or 32K pages; but the eleventh page of 48K is its top 16K. */
  lemma PageAddresses(l: Layout, fill: Fill, p: nat, a: nat)
    requires Sound(l) && l.card == Expandoram2
    ensures var held := Holder(Planes(l, fill), Some(p), a).Some?;
      && (l.partition.Whole? ==> (held <==> p < l.n <= 10 && a < 65536))
      && (l.partition.Ex48? ==> (held <==> a < 65536 && (a >= 49152 || (p < l.n <= 11 && (p == 10 ==> a >= 32768)))))
      && (l.partition.Ex32? ==> (held <==> a < 65536 && (a >= 32768 || p < l.n <= 11)))
  {
    hide Holder, Planes;
    PlanesLive(l, fill, 0, 0);
  }

  // ---------------------------------------------------------------------------------------
  // Over runs
  // ---------------------------------------------------------------------------------------

  lemma {:induction false} RunSame(b: Board, ops: seq<Op>)
    requires Shaped(b.segs)
    ensures var n := Run(b, ops);
      && |n.segs| == |b.segs| && n.card == b.card && forall i :: 0 <= i < |b.segs| ==> SameBut(b.segs[i], n.segs[i])
    decreases |ops|
  {
    hide Shaped, Step;
    if |ops| > 0 {
      StepSame(b, ops[0]);
      SameCard(b, ops[0]);
      StaysShaped(b.segs, Step(b, ops[0]).segs);
      RunSame(Step(b, ops[0]), ops[1..]);
    }
  }

  lemma {:induction false} RunThen(b: Board, ops: seq<Op>, op: Op)
    requires Shaped(b.segs)
    ensures Run(b, ops + [op]) == Step(Run(b, ops), op)
    decreases |ops|
  {
    hide Shaped, Step;
    if |ops| > 0 {
      assert (ops + [op])[1..] == ops[1..] + [op];
      StepSame(b, ops[0]);
      StaysShaped(b.segs, Step(b, ops[0]).segs);
      RunThen(Step(b, ops[0]), ops[1..], op);
    } else {
      StepSame(b, op);
      StaysShaped(b.segs, Step(b, op).segs);
      assert (ops + [op])[1..] == [];
    }
  }

  /** On a card of planes, after any run, a select brings in the plane of that number: the low four bits of the
      byte on an ExpandoRAM II, the one bit's place on a Vector. */
  lemma PlaneSelected(l: Layout, fill: Fill, latch: byte, bankEnable: byte, ops: seq<Op>, v: byte, i: nat)
    requires Sound(l) && i < l.n && Shaped(Planes(l, fill))
    ensures var n := Run(Board(l.card, Planes(l, fill), latch, bankEnable), ops + [Choose(v)]);
      && i < |n.segs|
      && (l.card == Expandoram2 ==> (n.segs[i].enabled <==> i == v % 16))
      && (l.card == Vector ==> forall k: nat :: OneHot(v, k) ==> (n.segs[i].enabled <==> i == k))
  {
    hide Live, OneHot, Run, Step;
    var b := Board(l.card, Planes(l, fill), latch, bankEnable);
    PlanesLive(l, fill, latch, bankEnable);
    RunLive(b, Some(0), ops);
    RunSame(b, ops);
    RunThen(b, ops, Choose(v));
    var m := Run(b, ops);
    assert b.segs[i] == Plane(l, i, fill) && SameBut(b.segs[i], m.segs[i]);
    SelectPicks(m, PageAfter(b.card, Some(0), ops), v, i);
  }

  /** No operation of the run writes address `a` while segment `i` is live. */
  predicate Spares(b: Board, ops: seq<Op>, i: nat, a: nat)
    requires Shaped(b.segs) && i < |b.segs|
    decreases |ops|
  {
    |ops| > 0 ==>
      && !(ops[0].Put? && ops[0].addr == a && b.segs[i].enabled)
      && (StepSame(b, ops[0]);
          StaysShaped(b.segs, Step(b, ops[0]).segs);
          Spares(Step(b, ops[0]), ops[1..], i, a))
  }

  lemma SparesByte(b: Board, op: Op, i: nat, a: nat)
    requires Shaped(b.segs) && i < |b.segs| && Covers(b.segs[i], a)
    requires !(op.Put? && op.addr == a && b.segs[i].enabled)
    ensures var n := Step(b, op);
      && |n.segs| == |b.segs| && SameBut(b.segs[i], n.segs[i]) && |b.segs[i].ram| == b.segs[i].hi - b.segs[i].lo + 1
      && n.segs[i].ram[a - b.segs[i].lo] == b.segs[i].ram[a - b.segs[i].lo]
  {
    StepSame(b, op);
    if !op.Put? { StepKeepsRam(b, op); }
  }

  lemma {:induction false} RunKeepsByte(b: Board, ops: seq<Op>, i: nat, a: nat)
    requires Shaped(b.segs) && i < |b.segs| && Covers(b.segs[i], a) && Spares(b, ops, i, a)
    ensures var n := Run(b, ops);
      && |n.segs| == |b.segs| && SameBut(b.segs[i], n.segs[i]) && |b.segs[i].ram| == b.segs[i].hi - b.segs[i].lo + 1
      && n.segs[i].ram[a - b.segs[i].lo] == b.segs[i].ram[a - b.segs[i].lo]
    decreases |ops|
  {
    hide Shaped, Step;
    if |ops| > 0 {
      SparesByte(b, ops[0], i, a);
      StepSame(b, ops[0]);
      StaysShaped(b.segs, Step(b, ops[0]).segs);
      RunKeepsByte(Step(b, ops[0]), ops[1..], i, a);
    } else {
      ShapedOne(b.segs, i);
    }
  }

  lemma ShapedOne(segs: seq<Segment>, i: nat)
    requires Shaped(segs) && i < |segs|
    ensures |segs[i].ram| == segs[i].hi - segs[i].lo + 1 && segs[i].bank < 8
  {}

  /** Two select bytes name one page: the low four bits, or a Vector's one bit. */
  ghost predicate OnePage(card: Card, x: byte, z: byte) {
    if card == Vector then exists k: nat :: OneHot(x, k) && OneHot(z, k) else x % 16 == z % 16
  }

  /** A select that names the page a live segment was brought in by brings it in again. */
  lemma ComesBack(b: Board, p: Option<nat>, x: byte, m: Board, q: Option<nat>, z: byte, i: nat)
    requires Live(b, p) && Live(m, q) && m.card == b.card && i < |b.segs| == |m.segs| && SameBut(b.segs[i], m.segs[i])
    requires OnePage(b.card, x, z) && |Step(b, Choose(x)).segs| == |b.segs| && Step(b, Choose(x)).segs[i].enabled
    requires b.card == Expandoram3 ==> SwitchedOn(m.bankEnable, m.segs[i])
    ensures |Step(m, Choose(z)).segs| == |m.segs| && Step(m, Choose(z)).segs[i].enabled
  {
    hide OneHot, Step, Shaped;
    ShapedAll(m.segs);
    if b.segs[i].common {
      CommonStays(m, q, z, i);
    } else {
      SelectPicks(b, p, x, i);
      SelectPicks(m, q, z, i);
    }
  }

  lemma ShapedAll(segs: seq<Segment>)
    requires Shaped(segs)
    ensures forall i :: 0 <= i < |segs| ==> segs[i].bank < 8
  {}

  lemma CommonStays(b: Board, p: Option<nat>, v: byte, i: nat)
    requires Live(b, p) && i < |b.segs| && b.segs[i].common
    requires b.card == Expandoram3 ==> SwitchedOn(b.bankEnable, b.segs[i])
    ensures |Step(b, Choose(v)).segs| == |b.segs| && Step(b, Choose(v)).segs[i].enabled
  {
    StepSame(b, Choose(v));
  }

  /** The one live segment over an address is what a read or a write of it reaches. */
  lemma LiveAnswers(b: Board, p: Option<nat>, a: nat, i: nat)
    requires Live(b, p) && i < |b.segs| && b.segs[i].enabled && Covers(b.segs[i], a)
    ensures Owner(b.segs, a) == Some(i)
  {
    hide Owner;
    NoFight(b, p, i, Owner(b.segs, a).value, a);
  }

  /** A PAGE PUT AWAY COMES BACK. `x` goes out and brings in segment `i`; `v` is written in it; then any run of
      selects, resets, switches and writes, none of them to that address with the segment live; then `z`, which
      names the page `x` did: the address reads `v` again. */
  lemma PageComesBack(b: Board, p: Option<nat>, x: byte, i: nat, a: nat, v: byte, run: seq<Op>, z: byte)
    requires Live(b, p) && OnePage(b.card, x, z)
    requires var b1 := Run(b, [Choose(x)]); i < |b1.segs| && b1.segs[i].enabled && Covers(b1.segs[i], a)
    requires var b2 := Run(Run(b, [Choose(x)]), [Put(a, v)]);
      && i < |b2.segs| && Spares(b2, run, i, a)
      && (b.card == Expandoram3 ==> SwitchedOn(Run(b2, run).bankEnable, b2.segs[i]))
    ensures Read(Run(Run(Run(Run(b, [Choose(x)]), [Put(a, v)]), run), [Choose(z)]), a) == v
  {
    hide Shaped, Step, Run, Owner, Spares, Live, OnePage, SwitchedOn;
    ShapedOf(b, p);
    var b1 := RunOne(b, p, Choose(x));
    var p1 := NextPage(b.card, p, Choose(x));
    var b2 := RunOne(b1, p1, Put(a, v));
    PutLands(b1, p1, a, v, i);
    var m := Run(b2, run);
    RunLive(b2, p1, run);
    RunSame(b2, run);
    RunKeepsByte(b2, run, i, a);
    var q := PageAfter(b2.card, p1, run);
    SwitchedSame(b2.segs[i], m.segs[i], m.bankEnable);
    ComesBack(b, p, x, m, q, z, i);
    var e := RunOne(m, q, Choose(z));
    StepKeepsRam(m, Choose(z));
    LiveReads(e, NextPage(m.card, q, Choose(z)), a, i);
  }

  lemma ShapedOf(b: Board, p: Option<nat>)
    requires Live(b, p)
    ensures Shaped(b.segs)
  {}

  lemma SwitchedSame(s: Segment, t: Segment, mask: byte)
    requires SameBut(s, t)
    ensures SwitchedOn(mask, t) == SwitchedOn(mask, s)
  {}

  lemma RunOne(b: Board, p: Option<nat>, op: Op) returns (n: Board)
    requires Live(b, p)
    ensures n == Run(b, [op]) == Step(b, op) && n.card == b.card && Live(n, NextPage(b.card, p, op)) && Shaped(n.segs)
    ensures |n.segs| == |b.segs| && forall i :: 0 <= i < |b.segs| ==> SameBut(b.segs[i], n.segs[i])
  {
    n := Step(b, op);
    RunThen(b, [], op);
    assert [] + [op] == [op];
    SameCard(b, op);
    StepLive(b, p, op);
    StepSame(b, op);
  }

  lemma PutLands(b: Board, p: Option<nat>, a: nat, v: byte, i: nat)
    requires Live(b, p) && i < |b.segs| && b.segs[i].enabled && Covers(b.segs[i], a)
    ensures var n := Step(b, Put(a, v));
      && |n.segs| == |b.segs| && SameBut(b.segs[i], n.segs[i]) && |n.segs[i].ram| == n.segs[i].hi - n.segs[i].lo + 1
      && n.segs[i].ram[a - n.segs[i].lo] == v
  {
    hide Owner;
    LiveAnswers(b, p, a, i);
  }

  lemma LiveReads(b: Board, p: Option<nat>, a: nat, i: nat)
    requires Live(b, p) && i < |b.segs| && b.segs[i].enabled && Covers(b.segs[i], a)
    ensures Shaped(b.segs) && |b.segs[i].ram| == b.segs[i].hi - b.segs[i].lo + 1
    ensures Read(b, a) == b.segs[i].ram[a - b.segs[i].lo]
  {
    hide Owner;
    LiveAnswers(b, p, a, i);
  }
}
