/** What the Dazzler puts where, byte by byte and in plain numbers: the elements of the surface, and the address each
    is read from. */
module DazzlerPlaces {
  import opened Basics
  import opened Dazzler
  import opened Dazzler2
  import opened DazzlerBoard

  /** The byte of column `c` of row `r` of quadrant `q`. */
  function ByteAt(view: View, q: nat, r: nat, c: nat): byte
    requires q < 4 && r < 32 && c < 16
  {
    view[512 * q + 16 * r + c]
  }

  /** The element at a place of a picture, or -1 past its edge. */
  function At(p: Picture, x: nat, y: nat): int {
    if y < |p.rows| && x < |p.rows[y]| then p.rows[y][x] else -1
  }

  lemma RowsAre(format: byte, view: View)
    ensures var p := Draw(true, format, view);
      && |p.rows| == (if format / 64 % 2 == 1 then 64 else 32) * (if format / 32 % 2 == 1 then 2 else 1)
      && (forall y :: 0 <= y < |p.rows| ==> |p.rows[y]| == |p.rows|)
      && p.color == (format / 16 % 2 == 1)
  {
    hide Element;
  }

  lemma RowIs(format: byte, view: View, x: nat, y: nat)
    requires x < Side(format) && y < Side(format)
    ensures At(Draw(true, format, view), x, y) == Element(format, view, x, y)
  {
    hide Element, Side;
  }

  /** OUT OF X4: a byte is two elements side by side, its low four bits on the left. */
  lemma NibblesShow(format: byte, view: View, q: nat, r: nat, c: nat)
    requires format / 64 % 2 == 0 && q < (if format / 32 % 2 == 1 then 4 else 1) && r < 32 && c < 16
    ensures var p, v := Draw(true, format, view), ByteAt(view, q, r, c);
      var x, y := q % 2 * 32 + 2 * c, q / 2 * 32 + r;
      At(p, x, y) == v % 16 && At(p, x + 1, y) == v / 16
  {
    hide Draw, OffsetOf, Drawn, At;
    var x, y := q % 2 * 32 + 2 * c, q / 2 * 32 + r;
    Nibble(format, q, r, c, 0);
    Nibble(format, q, r, c, 1);
    RowIs(format, view, x, y);
    RowIs(format, view, x + 1, y);
    NibbleDrawn(format, ByteAt(view, q, r, c));
  }

  lemma Nibble(format: byte, q: nat, r: nat, c: nat, part: nat)
    requires format / 64 % 2 == 0 && q < (if format / 32 % 2 == 1 then 4 else 1) && r < 32 && c < 16 && part < 2
    ensures var x, y := q % 2 * 32 + 2 * c + part, q / 2 * 32 + r;
      x < Side(format) && y < Side(format) && OffsetOf(format, x, y) == 512 * q + 16 * r + c && PartOf(format, x, y) == part
  {
    NibbleDigits(q % 2 * 32 + 2 * c + part, q / 2 * 32 + r, q % 2, q / 2, r, c, part);
  }

  lemma NibbleDrawn(format: byte, v: byte)
    requires format / 64 % 2 == 0
    ensures Drawn(format, v, 0) == v % 16 && Drawn(format, v, 1) == v / 16
  {}

  /** IN X4: a byte is eight elements, two squares of four side by side, each the picture's color or black by its
      own bit: the low four bits are the left square's, its upper row first. */
  lemma BitsShow(format: byte, view: View, q: nat, r: nat, c: nat)
    requires format / 64 % 2 == 1 && q < (if format / 32 % 2 == 1 then 4 else 1) && r < 32 && c < 16
    ensures var p, v, ink := Draw(true, format, view), ByteAt(view, q, r, c), format % 16;
      var x, y := q % 2 * 64 + 4 * c, q / 2 * 64 + 2 * r;
      && At(p, x, y) == (if v % 2 == 1 then ink else 0)
      && At(p, x + 1, y) == (if v / 2 % 2 == 1 then ink else 0)
      && At(p, x, y + 1) == (if v / 4 % 2 == 1 then ink else 0)
      && At(p, x + 1, y + 1) == (if v / 8 % 2 == 1 then ink else 0)
      && At(p, x + 2, y) == (if v / 16 % 2 == 1 then ink else 0)
      && At(p, x + 3, y) == (if v / 32 % 2 == 1 then ink else 0)
      && At(p, x + 2, y + 1) == (if v / 64 % 2 == 1 then ink else 0)
      && At(p, x + 3, y + 1) == (if v / 128 == 1 then ink else 0)
  {
    hide *;
    Fine(format, view, q, r, c, 0, 0, 0);
    Fine(format, view, q, r, c, 0, 0, 1);
    Fine(format, view, q, r, c, 0, 1, 0);
    Fine(format, view, q, r, c, 0, 1, 1);
    Fine(format, view, q, r, c, 1, 0, 0);
    Fine(format, view, q, r, c, 1, 0, 1);
    Fine(format, view, q, r, c, 1, 1, 0);
    Fine(format, view, q, r, c, 1, 1, 1);
    BitDrawn(format, ByteAt(view, q, r, c));
  }

  /** One of the eight: in the left square or the right, in its upper row or lower, left in it or right. */
  lemma Fine(format: byte, view: View, q: nat, r: nat, c: nat, right: nat, down: nat, side: nat)
    requires format / 64 % 2 == 1 && q < (if format / 32 % 2 == 1 then 4 else 1) && r < 32 && c < 16
    requires right < 2 && down < 2 && side < 2
    ensures var x, y := q % 2 * 64 + 4 * c + 2 * right + side, q / 2 * 64 + 2 * r + down;
      At(Draw(true, format, view), x, y) == Drawn(format, ByteAt(view, q, r, c), 4 * right + 2 * down + side)
  {
    hide Draw, Drawn, At, OffsetOf, PartOf, Side, Bit;
    var x, y := q % 2 * 64 + 4 * c + 2 * right + side, q / 2 * 64 + 2 * r + down;
    FinePart(format, q, r, c, right, down, side);
    RowIs(format, view, x, y);
  }

  lemma FinePart(format: byte, q: nat, r: nat, c: nat, right: nat, down: nat, side: nat)
    requires format / 64 % 2 == 1 && q < (if format / 32 % 2 == 1 then 4 else 1) && r < 32 && c < 16
    requires right < 2 && down < 2 && side < 2
    ensures var x, y := q % 2 * 64 + 4 * c + 2 * right + side, q / 2 * 64 + 2 * r + down;
      && x < Side(format) && y < Side(format)
      && OffsetOf(format, x, y) == 512 * q + 16 * r + c && PartOf(format, x, y) == 4 * right + 2 * down + side
  {
    var x, y := q % 2 * 64 + 4 * c + 2 * right + side, q / 2 * 64 + 2 * r + down;
    XDigits(x, q % 2, c, right, side);
    YDigits(y, q / 2, r, down);
  }

  lemma BitDrawn(format: byte, v: byte)
    requires format / 64 % 2 == 1
    ensures var ink := format % 16;
      && Drawn(format, v, 0) == (if v % 2 == 1 then ink else 0) && Drawn(format, v, 1) == (if v / 2 % 2 == 1 then ink else 0)
      && Drawn(format, v, 2) == (if v / 4 % 2 == 1 then ink else 0) && Drawn(format, v, 3) == (if v / 8 % 2 == 1 then ink else 0)
      && Drawn(format, v, 4) == (if v / 16 % 2 == 1 then ink else 0) && Drawn(format, v, 5) == (if v / 32 % 2 == 1 then ink else 0)
      && Drawn(format, v, 6) == (if v / 64 % 2 == 1 then ink else 0) && Drawn(format, v, 7) == (if v / 128 == 1 then ink else 0)
  {}

  /** No element of either picture is left over: each is in one of those places. */
  lemma EveryElement(format: byte, x: nat, y: nat) returns (q: nat, r: nat, c: nat)
    requires var side := (if format / 64 % 2 == 1 then 64 else 32) * (if format / 32 % 2 == 1 then 2 else 1);
      x < side && y < side
    ensures q < (if format / 32 % 2 == 1 then 4 else 1) && r < 32 && c < 16
    ensures format / 64 % 2 == 0 ==> q % 2 * 32 + 2 * c <= x < q % 2 * 32 + 2 * c + 2 && y == q / 2 * 32 + r
    ensures format / 64 % 2 == 1 ==>
      q % 2 * 64 + 4 * c <= x < q % 2 * 64 + 4 * c + 4 && q / 2 * 64 + 2 * r <= y < q / 2 * 64 + 2 * r + 2
  {
    if format / 64 % 2 == 0 {
      assert x / 32 < 2 && y / 32 < 2;
      QuadrantDigits(x / 32, y / 32);
      q, r, c := x / 32 + y / 32 * 2, y % 32, x % 32 / 2;
    } else {
      assert x / 64 < 2 && y / 64 < 2;
      QuadrantDigits(x / 64, y / 64);
      q, r, c := x / 64 + y / 64 * 2, y % 64 / 2, x % 64 / 4;
    }
  }

  lemma QuadrantDigits(right: nat, down: nat)
    requires right < 2 && down < 2
    ensures var q := right + down * 2; q < 4 && q % 2 == right && q / 2 == down
    ensures down == 0 && right == 0 ==> right + down * 2 == 0
  {}

  // ---------------------------------------------------------------------------------------
  // On the surface, and from memory
  // ---------------------------------------------------------------------------------------

  lemma SurfaceIs(s: array2<byte>, p: Picture, x: nat, y: nat)
    requires Shows(s, p) && At(p, x, y) >= 0
    ensures x < s.Length0 && y < s.Length1 && s[x, y] == At(p, x, y)
  {
    assert s[0, y] == p.rows[y][0];
  }

  /** A surface showing the picture, as Render leaves it, out of X4. */
  lemma SurfaceNibbles(s: array2<byte>, format: byte, view: View, q: nat, r: nat, c: nat)
    requires Shows(s, Draw(true, format, view))
    requires format / 64 % 2 == 0 && q < (if format / 32 % 2 == 1 then 4 else 1) && r < 32 && c < 16
    ensures var x, y, v := q % 2 * 32 + 2 * c, q / 2 * 32 + r, view[512 * q + 16 * r + c];
      x + 1 < s.Length0 && y < s.Length1 && s[x, y] == v % 16 && s[x + 1, y] == v / 16
  {
    hide Draw, Shows, At;
    var p, x, y := Draw(true, format, view), q % 2 * 32 + 2 * c, q / 2 * 32 + r;
    NibblesShow(format, view, q, r, c);
    SurfaceIs(s, p, x, y);
    SurfaceIs(s, p, x + 1, y);
  }

  /** And in X4. */
  lemma SurfaceBits(s: array2<byte>, format: byte, view: View, q: nat, r: nat, c: nat)
    requires Shows(s, Draw(true, format, view))
    requires format / 64 % 2 == 1 && q < (if format / 32 % 2 == 1 then 4 else 1) && r < 32 && c < 16
    ensures var x, y, v, ink := q % 2 * 64 + 4 * c, q / 2 * 64 + 2 * r, view[512 * q + 16 * r + c], format % 16;
      && x + 3 < s.Length0 && y + 1 < s.Length1
      && s[x, y] == (if v % 2 == 1 then ink else 0) && s[x + 1, y] == (if v / 2 % 2 == 1 then ink else 0)
      && s[x, y + 1] == (if v / 4 % 2 == 1 then ink else 0) && s[x + 1, y + 1] == (if v / 8 % 2 == 1 then ink else 0)
      && s[x + 2, y] == (if v / 16 % 2 == 1 then ink else 0) && s[x + 3, y] == (if v / 32 % 2 == 1 then ink else 0)
      && s[x + 2, y + 1] == (if v / 64 % 2 == 1 then ink else 0) && s[x + 3, y + 1] == (if v / 128 == 1 then ink else 0)
  {
    hide Draw, Shows, At;
    var p, x, y := Draw(true, format, view), q % 2 * 64 + 4 * c, q / 2 * 64 + 2 * r;
    BitsShow(format, view, q, r, c);
    SurfaceIs(s, p, x, y);
    SurfaceIs(s, p, x + 1, y);
    SurfaceIs(s, p, x, y + 1);
    SurfaceIs(s, p, x + 1, y + 1);
    SurfaceIs(s, p, x + 2, y);
    SurfaceIs(s, p, x + 3, y);
    SurfaceIs(s, p, x + 2, y + 1);
    SurfaceIs(s, p, x + 3, y + 1);
  }

  /** FROM ADDRESS TO SCREEN. From power-on, after any history: an OUT of the control port with bit 7 set, an OUT of
      the format port out of X4, and a turn that can paint put the byte at 512 times the control byte's low seven
      bits, and so far on, in its place on the screen. */
  lemma ScreenShowsMemory(c0: Card, shown: Option<Picture>, events: seq<Event>, u: byte, format: byte, mem: Memory,
                          q: nat, r: nat, c: nat)
    requires u >= 128 && format / 64 % 2 == 0 && q < (if format / 32 % 2 == 1 then 4 else 1) && r < 32 && c < 16
    ensures var w := Step(Step(Run(Scene(Power(c0), shown), events), Event.OutControl(u)), Event.OutFormat(format));
      var p := Step(w, HostTurn(MainView(mem, w.card.base), true, true)).shown;
      var x, y, v := q % 2 * 32 + 2 * c, q / 2 * 32 + r, mem[(512 * (u % 128) + 512 * q + 16 * r + c) % 65536];
      p.Some? && At(p.value, x, y) == v % 16 && At(p.value, x + 1, y) == v / 16
  {
    hide Draw, Changed, Step, Run, Faithful, At;
    var w0 := Run(Scene(Power(c0), shown), events);
    PowerFaithful(c0, shown);
    ScreenIsRight(Scene(Power(c0), shown), events, MainView(mem, 0));
    var w1 := Step(w0, Event.OutControl(u));
    var w := Step(w1, Event.OutFormat(format));
    StepFaithful(w0, Event.OutControl(u));
    StepFaithful(w1, Event.OutFormat(format));
    SetAs(w0, u, format);
    TurnShows(w, MainView(mem, w.card.base));
    NibblesShow(format, MainView(mem, w.card.base), q, r, c);
  }

  lemma PowerFaithful(c: Card, shown: Option<Picture>)
    ensures Faithful(Scene(Power(c), shown))
  {}

  lemma SetAs(w: Scene, u: byte, format: byte)
    ensures var c := Step(Step(w, Event.OutControl(u)), Event.OutFormat(format)).card;
      c.on == (u >= 128) && c.base == 512 * (u % 128) && c.format == format
  {}

  /** A reset, or an OUT of the control port with bit 7 clear, leaves every element black at the next turn that can
      paint, whatever the format and memory. */
  lemma OffIsBlack(w: Scene, e: Event, view: View, x: nat, y: nat)
    requires Faithful(w) && (e.ResetLine? || e.PowerOn? || (e.OutControl? && e.v < 128))
    ensures var p := Step(Step(w, e), HostTurn(view, true, true)).shown; p.Some? && At(p.value, x, y) <= 0
  {
    hide Draw, Changed, Faithful;
    StepFaithful(w, e);
    TurnShows(Step(w, e), view);
    DrawnOff(Step(w, e).card.format, view, x, y);
  }

  lemma DrawnOff(format: byte, view: View, x: nat, y: nat)
    ensures At(Draw(false, format, view), x, y) <= 0
  {
    hide Side;
  }

  /** ONE REPAINT IS ENOUGH. After a turn that could paint, nothing having been set, the card sees a change only when
      it is on and a byte of the picture is no longer what it then was. */
  lemma OneRepaint(w: Scene, view: View, later: View)
    requires Faithful(w)
    ensures var c := Step(w, HostTurn(view, true, true)).card;
      Changed(c, later) <==> c.on && exists i :: 0 <= i < Length(c.format) && later[i] != view[i]
  {
    hide Draw, Length;
    LengthBound(w.card.format);
    var c := Step(w, HostTurn(view, true, true)).card;
    if Changed(w.card, view) {
      assert c.on ==> forall i :: 0 <= i < Length(c.format) ==> c.shadow[i] == view[i];
    }
  }
}
