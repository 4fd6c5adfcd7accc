/** The Dazzler's card, changed in place: painting is proved to make the picture that Dazzler.Draw says.
 */
module DazzlerBoard {
  import opened Basics
  import opened Dazzler

  /** A surface shows a picture. */
  ghost predicate Shows(s: array2<byte>, p: Picture)
    reads s
  {
    && |p.rows| == s.Length0 == s.Length1
    && forall x, y :: 0 <= x < s.Length0 && 0 <= y < s.Length1 ==> |p.rows[y]| == s.Length0 && s[x, y] == p.rows[y][x]
  }

  /** The element at a place is the one drawn from a part of a byte, or it is not. */
  lemma OnePlace(format: byte, x: nat, y: nat, off: nat, part: nat)
    requires x < Side(format) && y < Side(format) && off < Length(format) && part < Parts(format)
    ensures x == XOf(format, off, part) && y == YOf(format, off, part)
            <==> OffsetOf(format, x, y) == off && PartOf(format, x, y) == part
  {
    hide XOf, YOf, OffsetOf, PartOf, Side, Length, Parts;
    PartThere(format, off, part);
    ElementThere(format, x, y);
  }

  class DazzlerCard {
    var on: bool
    var base: nat
    var format: byte
    var dirty: bool
    var shadowOn: bool
    var shadowBase: nat
    var shadowFormat: byte
    const shadow: array<byte>

    ghost predicate Valid()
      reads this, shadow
    {
      shadow.Length == MAX_BYTES
    }

    ghost function State(): Card
      requires Valid()
      reads this, shadow
    {
      Card(on, base, format, dirty, shadowOn, shadowBase, shadowFormat, shadow[..])
    }

    constructor ()
      ensures Valid() && fresh(shadow) && State() == Power(State())
    {
      on, base, format, dirty, shadowOn, shadowBase, shadowFormat := false, 0, 0, true, false, 0, 0;
      shadow := new byte[MAX_BYTES](_ => 0);
      new;
      assert shadow[..] == seq(MAX_BYTES, _ => 0);
    }

    method OutControl(v: byte)
      requires Valid()
      modifies this
      ensures Valid() && State() == Control(old(State()), v)
    {
      var newOn, newBase := Bit(v, 0x80), v % 128 * 512;
      if newOn != on || newBase != base {
        dirty := true;
      }
      on, base := newOn, newBase;
    }

    method OutFormat(v: byte)
      requires Valid()
      modifies this
      ensures Valid() && State() == SetFormat(old(State()), v)
    {
      if v != format {
        dirty := true;
      }
      format := v;
    }

    method FrameChanged(view: View) returns (changed: bool)
      requires Valid()
      ensures changed == Changed(State(), view)
    {
      hide Length;
      LengthBound(format);
      if dirty || on != shadowOn {
        return true;
      }
      if !on {
        return false;
      }
      if base != shadowBase || format != shadowFormat {
        return true;
      }
      for i := 0 to Length(format)
        invariant forall k :: 0 <= k < i ==> view[k] == shadow[..][k]
      {
        if view[i] != shadow[i] {
          assert view[i] != shadow[..][i];
          return true;
        }
      }
      changed := false;
    }

    /** One part of a byte on the surface, if it draws anything. */
    static method PutPart(s: array2<byte>, f: byte, off: nat, part: nat, v: byte, cx: nat, cy: nat)
      requires s.Length0 == s.Length1 == Side(f) && off < Length(f) && part < Parts(f) && part < 8
      requires cx == XOf(f, off, part) && cy == YOf(f, off, part)
      modifies s
      ensures forall x, y :: 0 <= x < Side(f) && 0 <= y < Side(f) ==>
                s[x, y] == if OffsetOf(f, x, y) == off && PartOf(f, x, y) == part && (X4(f) ==> Bit(v, Weight(part)))
                           then Drawn(f, v, part) else old(s[x, y])
    {
      hide XOf, YOf, OffsetOf, PartOf, Side, Length, Parts, X4, Bit, Drawn;
      PlaceIsInside(f, off, part);
      if !X4(f) || Bit(v, Weight(part)) {
        s[cx, cy] := Drawn(f, v, part);
      }
      forall x, y | 0 <= x < Side(f) && 0 <= y < Side(f)
        ensures s[x, y] == if OffsetOf(f, x, y) == off && PartOf(f, x, y) == part && (X4(f) ==> Bit(v, Weight(part)))
                           then Drawn(f, v, part) else old(s[x, y])
      {
        OnePlace(f, x, y, off, part);
      }
    }

    /** A byte in X4: eight elements, two cells of four side by side. */
    static method PaintFine(s: array2<byte>, f: byte, off: nat, v: byte, cx: nat, cy: nat)
      requires s.Length0 == s.Length1 == Side(f) && off < Length(f) && X4(f)
      requires cx == XOf(f, off, 0) && cy == YOf(f, off, 0)
      modifies s
      ensures Painted(s, f, off, v, old(Elements(s)))
    {
      hide XOf, YOf, OffsetOf, PartOf, Side, Length, X4, Bit, Drawn;
      ghost var was := Elements(s);
      CellPlaces(f, off);
      PutPart(s, f, off, 0, v, cx, cy);
      PutPart(s, f, off, 1, v, cx + 1, cy);
      PutPart(s, f, off, 2, v, cx, cy + 1);
      PutPart(s, f, off, 3, v, cx + 1, cy + 1);
      PutPart(s, f, off, 4, v, cx + 2, cy);
      PutPart(s, f, off, 5, v, cx + 3, cy);
      PutPart(s, f, off, 6, v, cx + 2, cy + 1);
      PutPart(s, f, off, 7, v, cx + 3, cy + 1);
      forall x, y | 0 <= x < Side(f) && 0 <= y < Side(f)
        ensures s[x, y] == Brushed(f, off, v, x, y, was(x, y))
      {
        PartBound(f, x, y);
      }
    }

    /** A byte otherwise: the low nibble, and the high one to its right. */
    static method PaintCoarse(s: array2<byte>, f: byte, off: nat, v: byte, ex: nat, ey: nat)
      requires s.Length0 == s.Length1 == Side(f) && off < Length(f) && !X4(f)
      requires ex == XOf(f, off, 0) && ey == YOf(f, off, 0)
      modifies s
      ensures Painted(s, f, off, v, old(Elements(s)))
    {
      hide OffsetOf, PartOf, Side, Length, X4, Bit, Drawn;
      ghost var was := Elements(s);
      PutPart(s, f, off, 0, v, ex, ey);
      PutPart(s, f, off, 1, v, ex + 1, ey);
      forall x, y | 0 <= x < Side(f) && 0 <= y < Side(f)
        ensures s[x, y] == Brushed(f, off, v, x, y, was(x, y))
      {
        PartBound(f, x, y);
      }
    }

    static method Clear(s: array2<byte>)
      modifies s
      ensures forall x, y :: 0 <= x < s.Length0 && 0 <= y < s.Length1 ==> s[x, y] == 0
    {
      for i := 0 to s.Length0
        invariant forall x, y :: 0 <= x < i && 0 <= y < s.Length1 ==> s[x, y] == 0
      {
        for j := 0 to s.Length1
          invariant forall x, y :: 0 <= x < i && 0 <= y < s.Length1 ==> s[x, y] == 0
          invariant forall y :: 0 <= y < j ==> s[i, y] == 0
        {
          s[i, j] := 0;
        }
      }
    }

    method ClearShadow()
      requires Valid()
      modifies shadow
      ensures forall i :: 0 <= i < MAX_BYTES ==> shadow[i] == 0
    {
      for i := 0 to MAX_BYTES
        invariant forall k :: 0 <= k < i ==> shadow[k] == 0
      {
        shadow[i] := 0;
      }
    }

    /** One byte of the scan: kept, and painted where its quadrant, row and column put it. */
    method PaintByte(view: View, s: array2<byte>, q: nat, byteRow: nat, byteCol: nat)
      requires Valid() && q < 4 && byteRow < 32 && byteCol < 16
      requires q * 512 + byteRow * 16 + byteCol < Length(format)
      requires Done(s, format, view, q * 512 + byteRow * 16 + byteCol)
      requires Kept(shadow, view, q * 512 + byteRow * 16 + byteCol)
      modifies shadow, s
      ensures Done(s, format, view, q * 512 + byteRow * 16 + byteCol + 1)
      ensures Kept(shadow, view, q * 512 + byteRow * 16 + byteCol + 1)
    {
      hide XOf, YOf, OffsetOf, Element, Length, X4, Bit, Side, Painted, Done;
      LengthBound(format);
      var off := q * 512 + byteRow * 16 + byteCol;
      var v := view[off];
      shadow[off] := v;
      var ox, oy := q % 2 * QuadrantSide(format), q / 2 * QuadrantSide(format);
      Corner(format, q, byteRow, byteCol);
      ghost var was := Elements(s);
      DoneSides(s, format, view, off);
      if X4(format) {
        PaintFine(s, format, off, v, ox + byteCol * 4, oy + byteRow * 2);
      } else {
        PaintCoarse(s, format, off, v, ox + byteCol * 2, oy + byteRow);
      }
      NowDone(s, format, view, off, was);
    }

    /** The scan, quadrant by quadrant, row by row. */
    method Scan(view: View, s: array2<byte>)
      requires Valid() && Done(s, format, view, 0) && Kept(shadow, view, 0)
      modifies shadow, s
      ensures Done(s, format, view, Length(format)) && Kept(shadow, view, Length(format))
    {
      hide Done, Kept, Bit;
      var quads := if TwoK(format) then 4 else 1;
      for q := 0 to quads
        invariant Done(s, format, view, q * 512) && Kept(shadow, view, q * 512)
      {
        for byteRow := 0 to 32
          invariant Done(s, format, view, q * 512 + byteRow * 16) && Kept(shadow, view, q * 512 + byteRow * 16)
        {
          for byteCol := 0 to 16
            invariant Done(s, format, view, q * 512 + byteRow * 16 + byteCol)
            invariant Kept(shadow, view, q * 512 + byteRow * 16 + byteCol)
          {
            PaintByte(view, s, q, byteRow, byteCol);
          }
        }
      }
    }

    /** Paints the surface the host gave. */
    method Render(view: View, s: array2<byte>)
      requires Valid() && s.Length0 == s.Length1 == Side(format)
      modifies this, shadow, s
      ensures Valid() && State() == Rendered(old(State()), view)
      ensures Shows(s, Draw(on, format, view))
    {
      hide Done, Kept, Draw, Side, Length;
      Clear(s);
      ClearShadow();
      NothingDone(s, shadow, format, view);
      if on {
        Scan(view, s);
        AllDone(s, format, view);
      } else {
        AllBlack(s, format, view);
      }
      KeptAll(shadow, view, if on then Length(format) else 0);
      shadowOn, shadowBase, shadowFormat, dirty := on, base, format, false;
      assert shadow[..] == Copied(old(State()), view);
    }

    /** The host's turn. */
    method Pump(view: View, wants: bool, surface: array2?<byte>) returns (painted: bool)
      requires Valid() && (surface != null ==> surface.Length0 == surface.Length1 == Side(format))
      modifies this, shadow, surface
      ensures Valid()
      ensures painted == (Changed(old(State()), view) && wants && surface != null)
      ensures State() == if painted then Rendered(old(State()), view) else old(State())
      ensures painted ==> Shows(surface, Draw(on, format, view))
    {
      hide Draw, Changed, Rendered;
      var changed := FrameChanged(view);
      if !changed || !wants || surface == null {
        return false;
      }
      Render(view, surface);
      painted := true;
    }
  }

  /** What is on a surface. */
  ghost function Elements(s: array2<byte>): (nat, nat) -> byte
    reads s
  {
    var all := seq(s.Length0, x requires 0 <= x < s.Length0 reads s =>
                 seq(s.Length1, y requires 0 <= y < s.Length1 reads s => s[x, y]));
    (x: nat, y: nat) => if x < |all| && y < |all[x]| then all[x][y] else 0
  }

  /** An element after a byte is painted over it. */
  function Brushed(f: byte, off: nat, v: byte, x: nat, y: nat, was: byte): byte {
    PartBound(f, x, y);
    if OffsetOf(f, x, y) == off && (X4(f) ==> Bit(v, Weight(PartOf(f, x, y)))) then Drawn(f, v, PartOf(f, x, y)) else was
  }

  ghost predicate Painted(s: array2<byte>, f: byte, off: nat, v: byte, was: (nat, nat) -> byte)
    reads s
  {
    s.Length0 == s.Length1 == Side(f)
    && forall x, y :: 0 <= x < Side(f) && 0 <= y < Side(f) ==> s[x, y] == Brushed(f, off, v, x, y, was(x, y))
  }

  lemma CellPlaces(f: byte, off: nat)
    requires X4(f)
    ensures forall part :: 0 <= part < 8 ==>
              XOf(f, off, part) == XOf(f, off, 0) + part / 4 * 2 + part % 2
              && YOf(f, off, part) == YOf(f, off, 0) + part / 2 % 2
    ensures Parts(f) == 8
  {}

  /** The surface as far as the `n`th byte of the scan. */
  ghost predicate Done(s: array2<byte>, f: byte, view: View, n: nat)
    reads s
  {
    && s.Length0 == s.Length1 == Side(f)
    && forall x, y :: 0 <= x < Side(f) && 0 <= y < Side(f) ==>
         s[x, y] == if OffsetOf(f, x, y) < n then Element(f, view, x, y) else 0
  }

  /** And the copy. */
  ghost predicate Kept(shadow: array<byte>, view: View, n: nat)
    reads shadow
  {
    shadow.Length == MAX_BYTES && forall i :: 0 <= i < MAX_BYTES ==> shadow[i] == if i < n then view[i] else 0
  }

  lemma DoneSides(s: array2<byte>, f: byte, view: View, n: nat)
    requires Done(s, f, view, n)
    ensures s.Length0 == s.Length1 == Side(f)
    ensures forall x, y :: 0 <= x < Side(f) && 0 <= y < Side(f) ==>
              Elements(s)(x, y) == if OffsetOf(f, x, y) < n then Element(f, view, x, y) else 0
  {}

  lemma NowDone(s: array2<byte>, f: byte, view: View, off: nat, was: (nat, nat) -> byte)
    requires off < MAX_BYTES && Painted(s, f, off, view[off], was)
    requires forall x, y :: 0 <= x < Side(f) && 0 <= y < Side(f) ==>
               was(x, y) == if OffsetOf(f, x, y) < off then Element(f, view, x, y) else 0
    ensures Done(s, f, view, off + 1)
  {
    hide OffsetOf, PartOf, Side, Bit, X4;
    forall x, y | 0 <= x < Side(f) && 0 <= y < Side(f)
      ensures s[x, y] == if OffsetOf(f, x, y) < off + 1 then Element(f, view, x, y) else 0
    {
      assert s[x, y] == Brushed(f, off, view[off], x, y, was(x, y));
    }
  }

  /** Where a byte's first element is. */
  lemma Corner(f: byte, q: nat, row: nat, col: nat)
    requires q < 4 && row < 32 && col < 16
    ensures var off, side := q * 512 + row * 16 + col, QuadrantSide(f);
      && XOf(f, off, 0) == q % 2 * side + col * (if X4(f) then 4 else 2)
      && YOf(f, off, 0) == q / 2 * side + row * (if X4(f) then 2 else 1)
  {
    hide Bit;
    OffsetDigits(q * 512 + row * 16 + col, q % 2, q / 2, row, col);
  }

  lemma NothingDone(s: array2<byte>, shadow: array<byte>, f: byte, view: View)
    requires s.Length0 == s.Length1 == Side(f) && shadow.Length == MAX_BYTES
    requires forall x, y :: 0 <= x < s.Length0 && 0 <= y < s.Length1 ==> s[x, y] == 0
    requires forall i :: 0 <= i < MAX_BYTES ==> shadow[i] == 0
    ensures Done(s, f, view, 0) && Kept(shadow, view, 0)
  {}

  lemma AllDone(s: array2<byte>, f: byte, view: View)
    requires Done(s, f, view, Length(f))
    ensures Shows(s, Draw(true, f, view))
  {
    hide OffsetOf, Side, Element, Length;
    forall x, y | 0 <= x < Side(f) && 0 <= y < Side(f)
      ensures s[x, y] == Draw(true, f, view).rows[y][x]
    {
      OffsetBound(f, x, y);
    }
  }

  lemma AllBlack(s: array2<byte>, f: byte, view: View)
    requires Done(s, f, view, 0)
    ensures Shows(s, Draw(false, f, view))
  {
    hide OffsetOf, Side, Element;
  }

  lemma KeptAll(shadow: array<byte>, view: View, n: nat)
    requires Kept(shadow, view, n)
    ensures shadow.Length == MAX_BYTES && forall i :: 0 <= i < MAX_BYTES ==> shadow[i] == if i < n then view[i] else 0
  {}
}
