/** The Dazzler II keeps its own copy of the memory it shows, taken as the bus writes go by; and when that
    copy makes the same picture as the memory would.
 */
module Dazzler2 {
  import opened Basics
  import opened Dazzler

  const TOP: nat := 0x1_0000
  const CARD_RAM: nat := 4096

  type Memory = m: seq<byte> | |m| == TOP witness seq(TOP, _ => 0)
  type CardRam = r: seq<byte> | |r| == CARD_RAM witness seq(CARD_RAM, _ => 0)

  /** The first card reads main memory from the base on, round past the top. */
  function MainView(mem: Memory, base: nat): View {
    seq(MAX_BYTES, i requires 0 <= i < MAX_BYTES => mem[(base + i) % TOP])
  }

  /** The second reads the first half of its own. */
  function CardView(ram: CardRam): View {
    ram[..MAX_BYTES]
  }

  datatype Write = Write(addr: nat, v: byte)

  /** A write below the base, or 4 KB or more past it, is not the card's. */
  function Snoop(ram: CardRam, base: nat, w: Write): CardRam {
    if base <= w.addr < base + CARD_RAM then ram[w.addr - base := w.v] else ram
  }

  datatype Machine = Machine(mem: Memory, ram: CardRam)

  predicate Addresses(ws: seq<Write>) {
    forall k :: 0 <= k < |ws| ==> ws[k].addr < TOP
  }

  /** RAM takes the writes, and the card watches, its base unchanged. */
  function Writes(m: Machine, base: nat, ws: seq<Write>): Machine
    requires Addresses(ws)
    decreases |ws|
  {
    if |ws| == 0 then m
    else Writes(Machine(m.mem[ws[0].addr := ws[0].v], Snoop(m.ram, base, ws[0])), base, ws[1..])
  }

  predicate Touched(ws: seq<Write>, addr: nat) {
    exists k :: 0 <= k < |ws| && ws[k].addr == addr
  }

  /** A byte written since, or the same before, is the same on the card. */
  lemma {:induction false} WrittenIsCopied(m: Machine, base: nat, ws: seq<Write>, off: nat)
    requires Addresses(ws) && off < CARD_RAM && base + off < TOP
    requires Touched(ws, base + off) || m.ram[off] == m.mem[base + off]
    ensures var n := Writes(m, base, ws); n.ram[off] == n.mem[base + off]
    decreases |ws|
  {
    if |ws| > 0 {
      var n := Machine(m.mem[ws[0].addr := ws[0].v], Snoop(m.ram, base, ws[0]));
      if ws[0].addr != base + off && m.ram[off] != m.mem[base + off] {
        var k :| 0 <= k < |ws| && ws[k].addr == base + off;
        assert ws[1..][k - 1].addr == base + off;
      }
      WrittenIsCopied(n, base, ws[1..], off);
    }
  }

  /** With every byte of the picture below 10000H, and each written since the base was set, the two cards
      draw the same picture. */
  lemma SamePicture(m: Machine, base: nat, ws: seq<Write>, on: bool, format: byte)
    requires Addresses(ws) && base + Length(format) <= TOP
    requires forall a :: base <= a < base + Length(format) ==> Touched(ws, a)
    ensures var n := Writes(m, base, ws);
      Draw(on, format, CardView(n.ram)) == Draw(on, format, MainView(n.mem, base))
  {
    hide Draw, Touched, Length;
    LengthBound(format);
    var n := Writes(m, base, ws);
    forall off | 0 <= off < Length(format)
      ensures CardView(n.ram)[off] == MainView(n.mem, base)[off]
    {
      assert Touched(ws, base + off);
      WrittenIsCopied(m, base, ws, off);
    }
    DrawDepends(on, format, CardView(n.ram), MainView(n.mem, base));
  }

  /** Past the top there is no such thing: the first card goes round to address 0, and the second never
      catches a write there. */
  lemma {:induction false} PastTheTop(m: Machine, base: nat, ws: seq<Write>, off: nat)
    requires Addresses(ws) && off < MAX_BYTES && base + off >= TOP
    ensures CardView(Writes(m, base, ws).ram)[off] == CardView(m.ram)[off]
    decreases |ws|
  {
    if |ws| > 0 {
      PastTheTop(Machine(m.mem[ws[0].addr := ws[0].v], Snoop(m.ram, base, ws[0])), base, ws[1..], off);
    }
  }
}
