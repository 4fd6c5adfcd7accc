/** The Dazzler: a picture made from up to 2 KB of memory, repainted when its bytes are not those last painted
    or when the card has been set since.

    The card has no say in the memory it shows, so it keeps a copy of what it last painted and compares.
    `view` is what its scan reads, byte by byte.
 */
module Dazzler {
  import opened Basics

  const QUADRANT: nat := 512
  const MAX_BYTES: nat := 2048

  type View = v: seq<byte> | |v| == MAX_BYTES witness seq(MAX_BYTES, _ => 0)

  // ---------------------------------------------------------------------------------------
  // The picture
  // ---------------------------------------------------------------------------------------

  predicate X4(format: byte) { Bit(format, 0x40) }
  predicate TwoK(format: byte) { Bit(format, 0x20) }
  predicate Color(format: byte) { Bit(format, 0x10) }

  /** Elements along a side of one quadrant, and of the picture. */
  function QuadrantSide(format: byte): nat { if X4(format) then 64 else 32 }

  function Side(format: byte): nat { if TwoK(format) then 2 * QuadrantSide(format) else QuadrantSide(format) }

  function Length(format: byte): nat { if TwoK(format) then MAX_BYTES else QUADRANT }

  /** The byte an element is drawn from: quadrants two by two, sixteen bytes to a row of each. */
  function OffsetOf(format: byte, x: nat, y: nat): nat {
    if X4(format) then QuadrantStart(x / 64, y / 64) + InQuadrant(x % 64 / 4, y % 64 / 2)
    else QuadrantStart(x / 32, y / 32) + InQuadrant(x % 32 / 2, y % 32)
  }

  /** Where a quadrant starts. */
  function QuadrantStart(right: nat, down: nat): nat { (right + down * 2) * 512 }

  /** The byte of a row of sixteen. */
  function InQuadrant(column: nat, row: nat): nat { row * 16 + column }

  /** And which part of it: one of eight bits, or of two nibbles. */
  function PartOf(format: byte, x: nat, y: nat): nat {
    if X4(format) then x % 4 / 2 * 4 + y % 2 * 2 + x % 2 else x % 2
  }

  function Weight(part: nat): nat
    requires part < 8
  {
    [1, 2, 4, 8, 16, 32, 64, 128][part]
  }

  /** What a part of a byte draws: in X4 the picture's one color or nothing, otherwise its own. */
  function Drawn(format: byte, v: byte, part: nat): byte
    requires part < 8
  {
    if X4(format) then (if Bit(v, Weight(part)) then format % 16 else 0)
    else if part == 0 then v % 16 else v / 16
  }

  lemma PartBound(format: byte, x: nat, y: nat)
    ensures PartOf(format, x, y) < if X4(format) then 8 else 2
  {}

  lemma OffsetBound(format: byte, x: nat, y: nat)
    requires x < Side(format) && y < Side(format)
    ensures OffsetOf(format, x, y) < Length(format)
  {
    if X4(format) {
      assert x / 64 < 2 && y / 64 < 2 && (!TwoK(format) ==> x / 64 == 0 && y / 64 == 0);
      assert y % 64 / 2 < 32 && x % 64 / 4 < 16;
    } else {
      assert x / 32 < 2 && y / 32 < 2 && (!TwoK(format) ==> x / 32 == 0 && y / 32 == 0);
      assert x % 32 / 2 < 16;
    }
  }

  function Element(format: byte, view: View, x: nat, y: nat): byte
    requires x < Side(format) && y < Side(format)
  {
    OffsetBound(format, x, y);
    PartBound(format, x, y);
    Drawn(format, view[OffsetOf(format, x, y)], PartOf(format, x, y))
  }

  datatype Picture = Picture(color: bool, rows: seq<seq<byte>>)

  /** The whole picture; black when the card is off. */
  function Draw(on: bool, format: byte, view: View): Picture {
    Picture(Color(format),
            seq(Side(format), y requires 0 <= y < Side(format) =>
              seq(Side(format), x requires 0 <= x < Side(format) => if on then Element(format, view, x, y) else 0)))
  }

  // ---------------------------------------------------------------------------------------
  // Every part of every byte is one element
  // ---------------------------------------------------------------------------------------

  /** Where a part of a byte is drawn. */
  function XOf(format: byte, off: nat, part: nat): nat {
    if X4(format) then off / 512 % 2 * 64 + off % 16 * 4 + part / 4 * 2 + part % 2
    else off / 512 % 2 * 32 + off % 16 * 2 + part
  }

  function YOf(format: byte, off: nat, part: nat): nat {
    if X4(format) then off / 1024 * 64 + off % 512 / 16 * 2 + part / 2 % 2
    else off / 1024 * 32 + off % 512 / 16
  }

  function Parts(format: byte): nat { if X4(format) then 8 else 2 }

  lemma PlaceIsInside(format: byte, off: nat, part: nat)
    requires off < Length(format) && part < Parts(format)
    ensures XOf(format, off, part) < Side(format) && YOf(format, off, part) < Side(format)
  {
    hide Bit;
    assert off / 512 % 2 < 2 && off / 1024 < 2 && (off < 512 ==> off / 512 == 0);
    assert off % 512 / 16 < 32 && off % 16 < 16 && part / 4 < 2;
  }

  lemma OffsetDigits(off: nat, qx: nat, qy: nat, row: nat, col: nat)
    requires qx < 2 && qy < 2 && row < 32 && col < 16 && off == (qx + qy * 2) * 512 + row * 16 + col
    ensures off / 512 % 2 == qx && off / 1024 == qy && off % 512 / 16 == row && off % 16 == col
  {}

  lemma XDigits(x: nat, qx: nat, col: nat, half: nat, dx: nat)
    requires qx < 2 && col < 16 && half < 2 && dx < 2 && x == qx * 64 + col * 4 + half * 2 + dx
    ensures x / 64 == qx && x % 64 / 4 == col && x % 4 / 2 == half && x % 2 == dx
  {}

  lemma YDigits(y: nat, qy: nat, row: nat, dy: nat)
    requires qy < 2 && row < 32 && dy < 2 && y == qy * 64 + row * 2 + dy
    ensures y / 64 == qy && y % 64 / 2 == row && y % 2 == dy
  {}

  lemma NibbleDigits(x: nat, y: nat, qx: nat, qy: nat, row: nat, col: nat, part: nat)
    requires qx < 2 && qy < 2 && row < 32 && col < 16 && part < 2
    requires x == qx * 32 + col * 2 + part && y == qy * 32 + row
    ensures x / 32 == qx && x % 32 / 2 == col && x % 2 == part && y / 32 == qy && y % 32 == row
  {}

  lemma PartDigits(a: nat, b: nat, c: nat)
    requires a < 2 && b < 2 && c < 2
    ensures var part := a * 4 + b * 2 + c; part / 4 == a && part / 2 % 2 == b && part % 2 == c
  {}

  lemma Remainder(n: nat, q: nat, r: nat, d: nat)
    requires 0 < d <= 4 && n == q * d + r && r < d
    ensures n % d == r
  {
    hide *;
    if d == 1 {
    } else if d == 2 {
      assert n == q * 2 + r;
    } else if d == 3 {
      assert n == q * 3 + r;
    } else {
      assert n == q * 4 + r;
    }
  }

  lemma Within(q: nat, r: nat)
    ensures (q * 64 + r) % 4 == r % 4 && (q * 64 + r) % 2 == r % 2
  {
    hide *;
    Remainder(q * 64 + r, q * 16 + r / 4, r % 4, 4);
    Remainder(q * 64 + r, q * 32 + r / 2, r % 2, 2);
  }

  lemma Four(r: nat)
    ensures r == r / 4 * 4 + r % 4 / 2 * 2 + r % 2
  {
    hide *;
    var m := r % 4;
    assert r == r / 4 * 4 + m && m == m / 2 * 2 + m % 2;
    Remainder(r, r / 4 * 2 + m / 2, m % 2, 2);
  }

  lemma XSum(x: nat)
    ensures x == x / 64 * 64 + x % 64 / 4 * 4 + x % 4 / 2 * 2 + x % 2
  {
    hide *;
    var q, r := x / 64, x % 64;
    assert x == q * 64 + r;
    Within(q, r);
    Four(r);
  }

  lemma YSum(y: nat)
    ensures y == y / 64 * 64 + y % 64 / 2 * 2 + y % 2
  {
    hide *;
    var q, r := y / 64, y % 64;
    assert y == q * 64 + r;
    Within(q, r);
    assert r == r / 2 * 2 + r % 2;
  }

  lemma OffsetSum(off: nat)
    requires off < MAX_BYTES
    ensures off == (off / 512 % 2 + off / 1024 * 2) * 512 + off % 512 / 16 * 16 + off % 16
    ensures off / 512 % 2 < 2 && off / 1024 < 2 && off % 512 / 16 < 32 && off % 16 < 16
  {
    assert off % 512 == off % 512 / 16 * 16 + off % 16;
    assert off / 512 == off / 1024 * 2 + off / 512 % 2;
  }

  lemma PartSum(part: nat)
    requires part < 8
    ensures part == part / 4 * 4 + part / 2 % 2 * 2 + part % 2 && part / 4 < 2
  {}

  /** The place of a byte's part, from the digits of both, and back. */
  lemma FineThere(qx: nat, qy: nat, row: nat, col: nat, a: nat, b: nat, c: nat, x: nat, y: nat)
    requires qx < 2 && qy < 2 && row < 32 && col < 16 && a < 2 && b < 2 && c < 2
    requires x == qx * 64 + col * 4 + a * 2 + c && y == qy * 64 + row * 2 + b
    ensures (x / 64 + y / 64 * 2) * 512 + y % 64 / 2 * 16 + x % 64 / 4 == (qx + qy * 2) * 512 + row * 16 + col
    ensures x % 4 / 2 * 4 + y % 2 * 2 + x % 2 == a * 4 + b * 2 + c
  {
    XDigits(x, qx, col, a, c);
    YDigits(y, qy, row, b);
  }

  lemma CoarseThere(qx: nat, qy: nat, row: nat, col: nat, part: nat, x: nat, y: nat)
    requires qx < 2 && qy < 2 && row < 32 && col < 16 && part < 2
    requires x == qx * 32 + col * 2 + part && y == qy * 32 + row
    ensures (x / 32 + y / 32 * 2) * 512 + y % 32 * 16 + x % 32 / 2 == (qx + qy * 2) * 512 + row * 16 + col
    ensures x % 2 == part
  {
    NibbleDigits(x, y, qx, qy, row, col, part);
  }

  /** The element drawn from a part of a byte is that part's alone. */
  lemma PartThere(format: byte, off: nat, part: nat)
    requires off < Length(format) && part < Parts(format)
    ensures var x, y := XOf(format, off, part), YOf(format, off, part);
      OffsetOf(format, x, y) == off && PartOf(format, x, y) == part
  {
    hide X4, TwoK;
    OffsetSum(off);
    var qx, qy, row, col := off / 512 % 2, off / 1024, off % 512 / 16, off % 16;
    var x, y := XOf(format, off, part), YOf(format, off, part);
    if X4(format) {
      PartSum(part);
      FineThere(qx, qy, row, col, part / 4, part / 2 % 2, part % 2, x, y);
    } else {
      CoarseThere(qx, qy, row, col, part, x, y);
    }
  }

  lemma FineBack(x: nat, y: nat, off: nat, part: nat)
    requires x < 128 && y < 128
    requires off == (x / 64 + y / 64 * 2) * 512 + y % 64 / 2 * 16 + x % 64 / 4
    requires part == x % 4 / 2 * 4 + y % 2 * 2 + x % 2
    ensures off / 512 % 2 * 64 + off % 16 * 4 + part / 4 * 2 + part % 2 == x
    ensures off / 1024 * 64 + off % 512 / 16 * 2 + part / 2 % 2 == y
  {
    var qx, qy, row, col := x / 64, y / 64, y % 64 / 2, x % 64 / 4;
    XSum(x);
    YSum(y);
    OffsetDigits(off, qx, qy, row, col);
    PartDigits(x % 4 / 2, y % 2, x % 2);
  }

  lemma CoarseBack(x: nat, y: nat, off: nat)
    requires x < 64 && y < 64
    requires off == (x / 32 + y / 32 * 2) * 512 + y % 32 * 16 + x % 32 / 2
    ensures off / 512 % 2 * 32 + off % 16 * 2 + x % 2 == x
    ensures off / 1024 * 32 + off % 512 / 16 == y
  {
    OffsetDigits(off, x / 32, y / 32, y % 32, x % 32 / 2);
  }

  /** And every element of the picture is drawn from one. */
  lemma ElementThere(format: byte, x: nat, y: nat)
    requires x < Side(format) && y < Side(format)
    ensures var off, part := OffsetOf(format, x, y), PartOf(format, x, y);
      off < Length(format) && part < Parts(format) && XOf(format, off, part) == x && YOf(format, off, part) == y
  {
    hide X4, TwoK;
    OffsetBound(format, x, y);
    PartBound(format, x, y);
    var off, part := OffsetOf(format, x, y), PartOf(format, x, y);
    if X4(format) {
      FineBack(x, y, off, part);
    } else {
      CoarseBack(x, y, off);
    }
  }

  // ---------------------------------------------------------------------------------------
  // The card
  // ---------------------------------------------------------------------------------------

  /** What the guest has set, and what was last painted. */
  datatype Card = Card(on: bool, base: nat, format: byte, dirty: bool,
                       shadowOn: bool, shadowBase: nat, shadowFormat: byte, shadow: View)

  function Control(c: Card, v: byte): Card {
    c.(on := Bit(v, 0x80), base := v % 128 * 512,
       dirty := c.dirty || Bit(v, 0x80) != c.on || v % 128 * 512 != c.base)
  }

  function SetFormat(c: Card, v: byte): Card {
    c.(format := v, dirty := c.dirty || v != c.format)
  }

  function BusReset(c: Card): Card {
    c.(on := false, dirty := c.dirty || c.on)
  }

  function Power(c: Card): Card {
    Card(false, 0, 0, true, false, 0, 0, seq(MAX_BYTES, _ => 0))
  }

  predicate SameBytes(format: byte, v: View, w: View) {
    forall i :: 0 <= i < Length(format) ==> v[i] == w[i]
  }

  /** Is the picture owed? */
  predicate Changed(c: Card, view: View) {
    || c.dirty || c.on != c.shadowOn
    || (c.on && (c.base != c.shadowBase || c.format != c.shadowFormat || !SameBytes(c.format, view, c.shadow)))
  }

  /** The copy kept of what is painted. */
  function Copied(c: Card, view: View): View {
    seq(MAX_BYTES, i requires 0 <= i < MAX_BYTES => if c.on && i < Length(c.format) then view[i] else 0)
  }

  function Rendered(c: Card, view: View): Card {
    c.(dirty := false, shadowOn := c.on, shadowBase := c.base, shadowFormat := c.format, shadow := Copied(c, view))
  }

  /** The card, and the picture on the host's screen. */
  datatype Scene = Scene(card: Card, shown: Option<Picture>)

  /** What the guest does to the card, and the host's turns: it may not want a frame yet, or have no
      surface to give. Memory may have become anything by then. */
  datatype Event =
    | OutControl(v: byte)
    | OutFormat(v: byte)
    | ResetLine
    | PowerOn
    | HostTurn(view: View, wants: bool, surface: bool)

  function Step(w: Scene, e: Event): Scene {
    match e
    case OutControl(v) => w.(card := Control(w.card, v))
    case OutFormat(v) => w.(card := SetFormat(w.card, v))
    case ResetLine => w.(card := BusReset(w.card))
    case PowerOn => w.(card := Power(w.card))
    case HostTurn(view, wants, surface) =>
      if !Changed(w.card, view) || !wants || !surface then w
      else Scene(Rendered(w.card, view), Some(Draw(w.card.on, w.card.format, view)))
  }

  function Run(w: Scene, events: seq<Event>): Scene
    decreases |events|
  {
    if |events| == 0 then w else Run(Step(w, events[0]), events[1..])
  }

  // ---------------------------------------------------------------------------------------
  // The repaint cache
  // ---------------------------------------------------------------------------------------

  /** A card that owes no repaint shows what its copy says, and is set as it was then. */
  predicate Faithful(w: Scene) {
    var c := w.card;
    !c.dirty ==>
      && c.on == c.shadowOn && c.base == c.shadowBase && c.format == c.shadowFormat
      && w.shown == Some(Draw(c.shadowOn, c.shadowFormat, c.shadow))
  }

  /** The picture depends on no byte past its length, and on none when it is off. */
  lemma DrawDepends(on: bool, format: byte, v: View, w: View)
    requires on ==> SameBytes(format, v, w)
    ensures Draw(on, format, v) == Draw(on, format, w)
  {
    hide Side, Element, Length;
    var a, b := Draw(on, format, v), Draw(on, format, w);
    forall y, x | 0 <= y < Side(format) && 0 <= x < Side(format)
      ensures a.rows[y][x] == b.rows[y][x]
    {
      if on { ElementDepends(format, v, w, x, y); }
    }
    forall y | 0 <= y < Side(format)
      ensures a.rows[y] == b.rows[y]
    {
      assert forall x :: 0 <= x < Side(format) ==> a.rows[y][x] == b.rows[y][x];
    }
    assert a.rows == b.rows;
  }

  lemma ElementDepends(format: byte, v: View, w: View, x: nat, y: nat)
    requires x < Side(format) && y < Side(format) && SameBytes(format, v, w)
    ensures Element(format, v, x, y) == Element(format, w, x, y)
  {
    OffsetBound(format, x, y);
  }

  lemma StepFaithful(w: Scene, e: Event)
    requires Faithful(w)
    ensures Faithful(Step(w, e))
  {
    hide Draw, Length, Bit;
    if e.HostTurn? {
      LengthBound(w.card.format);
      DrawDepends(w.card.on, w.card.format, e.view, Copied(w.card, e.view));
    }
  }

  /** When the card sees no change, what it would draw is what is on the screen. */
  lemma UnchangedIsShown(w: Scene, view: View)
    requires Faithful(w) && !Changed(w.card, view)
    ensures w.shown == Some(Draw(w.card.on, w.card.format, view))
  {
    hide Draw, SameBytes;
    DrawDepends(w.card.on, w.card.format, view, w.card.shadow);
  }

  /** Over every history of memory and ports: whatever the host's turns skipped, a turn
      that can paint leaves the present picture on the screen. */
  lemma {:induction false} ScreenIsRight(w: Scene, events: seq<Event>, view: View)
    requires Faithful(w)
    ensures var r := Run(w, events);
      Faithful(r)
      && Step(r, HostTurn(view, true, true)).shown == Some(Draw(r.card.on, r.card.format, view))
    decreases |events|
  {
    hide Draw, Changed, Step, Faithful;
    if |events| == 0 {
      TurnShows(w, view);
    } else {
      StepFaithful(w, events[0]);
      ScreenIsRight(Step(w, events[0]), events[1..], view);
    }
  }

  lemma TurnShows(w: Scene, view: View)
    requires Faithful(w)
    ensures Step(w, HostTurn(view, true, true)).shown == Some(Draw(w.card.on, w.card.format, view))
  {
    hide Draw, Faithful;
    if !Changed(w.card, view) {
      UnchangedIsShown(w, view);
    }
  }

  /** And at power-on, whatever is left on the screen, the copy is faithful to it. */
  lemma ScreenIsRightFromPower(c: Card, shown: Option<Picture>, events: seq<Event>, view: View)
    ensures var r := Run(Scene(Power(c), shown), events);
      Step(r, HostTurn(view, true, true)).shown == Some(Draw(r.card.on, r.card.format, view))
  {
    hide Draw, Changed, Step;
    ScreenIsRight(Scene(Power(c), shown), events, view);
  }

  lemma Up(a: nat, b: nat)
    requires a / 2 == b / 2 && a % 2 == b % 2
    ensures a == b
  {}

  lemma Halves(v: byte)
    ensures v / 128 == v / 64 / 2 && v / 64 == v / 32 / 2 && v / 32 == v / 16 / 2 && v / 16 == v / 8 / 2
    ensures v / 8 == v / 4 / 2 && v / 4 == v / 2 / 2 && v / 128 / 2 == 0
  {}

  lemma SameBit(v: byte, w: byte, part: nat)
    requires part < 8 && Bit(v, Weight(part)) == Bit(w, Weight(part))
    ensures v / Weight(part) % 2 == w / Weight(part) % 2
  {}

  lemma BitsTell(v: byte, w: byte)
    requires forall part :: 0 <= part < 8 ==> Bit(v, Weight(part)) == Bit(w, Weight(part))
    ensures v == w
  {
    hide Bit;
    assert Weight(0) == 1 && Weight(1) == 2 && Weight(2) == 4 && Weight(3) == 8;
    Halves(v);
    Halves(w);
    SameBit(v, w, 7);
    Up(v / 128, w / 128);
    SameBit(v, w, 6);
    Up(v / 64, w / 64);
    SameBit(v, w, 5);
    Up(v / 32, w / 32);
    SameBit(v, w, 4);
    Up(v / 16, w / 16);
    SameBit(v, w, 3);
    Up(v / 8, w / 8);
    SameBit(v, w, 2);
    Up(v / 4, w / 4);
    SameBit(v, w, 1);
    Up(v / 2, w / 2);
    SameBit(v, w, 0);
    Up(v, w);
  }

  /** In X4 the one color may be black, and then every frame is. */
  predicate OnlyBlack(format: byte) { X4(format) && format % 16 == 0 }

  lemma BlackIsBlack(format: byte, v: View, w: View)
    requires OnlyBlack(format)
    ensures Draw(true, format, v) == Draw(true, format, w)
  {
    hide Side, OffsetOf, PartOf, Bit, Length;
    var a, b := Draw(true, format, v), Draw(true, format, w);
    forall y, x | 0 <= y < Side(format) && 0 <= x < Side(format)
      ensures a.rows[y][x] == b.rows[y][x]
    {
      OffsetBound(format, x, y);
      PartBound(format, x, y);
      assert Element(format, v, x, y) == 0 && Element(format, w, x, y) == 0;
    }
    forall y | 0 <= y < Side(format)
      ensures a.rows[y] == b.rows[y]
    {
      assert forall x :: 0 <= x < Side(format) ==> a.rows[y][x] == b.rows[y][x];
    }
    assert a.rows == b.rows;
  }

  /** WHEN A REPAINT SHOWS. A card with nothing set since it last painted sees a change exactly when it is on
      and a byte differs; and that is exactly when the picture differs from the one on the screen, unless every
      frame is black, when it never does. A card that has been set since always sees one. */
  lemma RepaintsExactly(w: Scene, view: View)
    requires Faithful(w)
    ensures var c := w.card; var differs := w.shown != Some(Draw(c.on, c.format, view));
      && (c.dirty ==> Changed(c, view))
      && (!c.dirty ==> (Changed(c, view) <==> c.on && !SameBytes(c.format, view, c.shadow)))
      && (!c.dirty && !OnlyBlack(c.format) ==> (Changed(c, view) <==> differs))
      && (!c.dirty && OnlyBlack(c.format) ==> !differs)
  {
    hide Draw, SameBytes, X4;
    var c := w.card;
    if !c.dirty {
      if c.on && !SameBytes(c.format, view, c.shadow) {
        if OnlyBlack(c.format) {
          BlackIsBlack(c.format, view, c.shadow);
        } else {
          ChangeShows(c.format, view, c.shadow);
        }
      } else {
        DrawDepends(c.on, c.format, view, c.shadow);
      }
    }
  }

  /** Two frames that differ in a byte differ to the eye, save in X4 when the one color is black. */
  lemma ChangeShows(format: byte, v: View, w: View)
    requires !SameBytes(format, v, w) && !OnlyBlack(format)
    ensures Draw(true, format, v) != Draw(true, format, w)
  {
    hide Side, Element, Length, X4, Bit;
    LengthBound(format);
    var i :| 0 <= i < Length(format) && v[i] != w[i];
    var part := DifferingPart(format, v[i], w[i]);
    PlaceIsInside(format, i, part);
    PartThere(format, i, part);
    var x, y := XOf(format, i, part), YOf(format, i, part);
    assert Draw(true, format, v).rows[y][x] == Element(format, v, x, y);
    assert Draw(true, format, w).rows[y][x] == Element(format, w, x, y);
    ElementAt(format, v, i, part, x, y);
    ElementAt(format, w, i, part, x, y);
  }

  lemma LengthBound(format: byte)
    ensures Length(format) <= MAX_BYTES
  {}

  lemma ElementAt(format: byte, v: View, i: nat, part: nat, x: nat, y: nat)
    requires x < Side(format) && y < Side(format) && part < 8
    requires OffsetOf(format, x, y) == i && PartOf(format, x, y) == part
    ensures i < MAX_BYTES && Element(format, v, x, y) == Drawn(format, v[i], part)
  {
    OffsetBound(format, x, y);
  }

  /** A part two different bytes draw differently. */
  ghost function DifferingPart(format: byte, v: byte, w: byte): (part: nat)
    requires v != w && !(X4(format) && format % 16 == 0)
    ensures part < Parts(format) && part < 8 && Drawn(format, v, part) != Drawn(format, w, part)
  {
    if X4(format) then
      assert exists p :: 0 <= p < 8 && Bit(v, Weight(p)) != Bit(w, Weight(p)) by {
        if forall p :: 0 <= p < 8 ==> Bit(v, Weight(p)) == Bit(w, Weight(p)) { BitsTell(v, w); }
      }
      var p :| 0 <= p < 8 && Bit(v, Weight(p)) != Bit(w, Weight(p));
      p
    else if v % 16 != w % 16 then 0
    else 1
  }
}
