/** The IBM 3740 track stream a Write Track command carries: how the drive reads it, and how a
    formatter prints it.
 */
module TrackStream {
  import opened Basics

  const ID_MARK: byte := 0xFE
  const DATA_MARK: byte := 0xFB
  const CRC: byte := 0xF7

  /** A data field found: the number and length code of the ID before it, and its window. */
  datatype Field = Field(number: byte, code: nat, off: nat, len: nat)

  /** From `i`, the first address mark of either kind, or the end. */
  function NextMark(s: seq<byte>, i: nat): (j: nat)
    requires i <= |s|
    ensures i <= j <= |s|
    decreases |s| - i
  {
    if i == |s| || s[i] == DATA_MARK || s[i] == ID_MARK then i else NextMark(s, i + 1)
  }

  /** From `i`, the byte that ends a data field, or the end. */
  function FieldEnd(s: seq<byte>, i: nat): (j: nat)
    requires i <= |s|
    ensures i <= j <= |s|
    decreases |s| - i
  {
    if i == |s| || s[i] == CRC then i else FieldEnd(s, i + 1)
  }

  /** The data fields from `i` on. An ID whose data field never comes is not a sector, and a header
      cut short ends the track. */
  function Parse(s: seq<byte>, i: nat): seq<Field>
    requires i <= |s|
    decreases |s| - i
  {
    if i == |s| then []
    else if s[i] != ID_MARK then Parse(s, i + 1)
    else if i + 5 > |s| then []
    else
      var j := NextMark(s, i + 5);
      if j == |s| || s[j] != DATA_MARK then Parse(s, j)
      else
        var e := FieldEnd(s, j + 1);
        [Field(s[i + 3], s[i + 4] % 4, j + 1, e - (j + 1))] + Parse(s, if e < |s| then e + 1 else e)
  }

  // ---------------------------------------------------------------------------------------
  // Any stream
  // ---------------------------------------------------------------------------------------

  /** A window opens after a data mark and runs up to a CRC byte or the end of the stream. */
  predicate IsWindow(s: seq<byte>, f: Field) {
    && 1 <= f.off && f.off + f.len <= |s| && s[f.off - 1] == DATA_MARK
    && (forall k :: f.off <= k < f.off + f.len ==> s[k] != CRC)
    && (f.off + f.len < |s| ==> s[f.off + f.len] == CRC)
  }

  lemma {:induction false} FieldEndMeans(s: seq<byte>, i: nat)
    requires i <= |s|
    ensures var e := FieldEnd(s, i);
      (forall k :: i <= k < e ==> s[k] != CRC) && (e < |s| ==> s[e] == CRC)
    decreases |s| - i
  {
    if i < |s| && s[i] != CRC {
      FieldEndMeans(s, i + 1);
    }
  }

  /** Windows in order and apart, none before `i`. */
  predicate Apart(s: seq<byte>, i: nat, fs: seq<Field>) {
    && (forall k :: 0 <= k < |fs| ==> IsWindow(s, fs[k]) && fs[k].off > i && fs[k].code < 4)
    && (forall j, k :: 0 <= j < k < |fs| ==> fs[j].off + fs[j].len < fs[k].off)
  }

  /** Whatever bytes arrive, the windows found are in the stream, in order and apart. */
  lemma {:induction false} WindowsApart(s: seq<byte>, i: nat)
    requires i <= |s|
    ensures Apart(s, i, Parse(s, i))
    decreases |s| - i
  {
    hide IsWindow, Apart, NextMark, FieldEnd, Parse;
    ParseStep(s, i);
    NoneApart(s, i);
    if i < |s| {
      if s[i] != ID_MARK {
        WindowsApart(s, i + 1);
        SoonerApart(s, i, i + 1, Parse(s, i));
      } else if i + 5 <= |s| {
        var j := NextMark(s, i + 5);
        if j == |s| || s[j] != DATA_MARK {
          WindowsApart(s, j);
          SoonerApart(s, i, j, Parse(s, i));
        } else {
          var e := FieldEnd(s, j + 1);
          var next := if e < |s| then e + 1 else e;
          FirstWindow(s, i, j);
          WindowsApart(s, next);
          OneMoreApart(s, i, Field(s[i + 3], s[i + 4] % 4, j + 1, e - (j + 1)), next, Parse(s, next));
        }
      }
    }
  }

  /** Parse, one step of it. */
  lemma ParseStep(s: seq<byte>, i: nat)
    requires i <= |s|
    ensures i == |s| || (s[i] == ID_MARK && i + 5 > |s|) ==> Parse(s, i) == []
    ensures i < |s| && s[i] != ID_MARK ==> Parse(s, i) == Parse(s, i + 1)
    ensures i < |s| && s[i] == ID_MARK && i + 5 <= |s| ==>
      var j := NextMark(s, i + 5);
      if j == |s| || s[j] != DATA_MARK then Parse(s, i) == Parse(s, j)
      else
        var e := FieldEnd(s, j + 1);
        Parse(s, i)
        == [Field(s[i + 3], s[i + 4] % 4, j + 1, e - (j + 1))] + Parse(s, if e < |s| then e + 1 else e)
  {
    hide NextMark, FieldEnd;
  }

  lemma NoneApart(s: seq<byte>, i: nat)
    ensures Apart(s, i, [])
  {}

  lemma SoonerApart(s: seq<byte>, i: nat, j: nat, fs: seq<Field>)
    requires i <= j && Apart(s, j, fs)
    ensures Apart(s, i, fs)
  {}

  lemma OneMoreApart(s: seq<byte>, i: nat, f: Field, j: nat, fs: seq<Field>)
    requires IsWindow(s, f) && f.off > i && f.code < 4 && f.off + f.len <= j && Apart(s, j, fs)
    ensures Apart(s, i, [f] + fs)
  {}

  lemma FirstWindow(s: seq<byte>, i: nat, j: nat)
    requires i + 5 <= j < |s| && s[j] == DATA_MARK
    ensures var e := FieldEnd(s, j + 1);
      IsWindow(s, Field(s[i + 3], s[i + 4] % 4, j + 1, e - (j + 1)))
  {
    FieldEndMeans(s, j + 1);
  }

  // ---------------------------------------------------------------------------------------
  // A printed track
  // ---------------------------------------------------------------------------------------

  /** A sector as a formatter lays it down: the gap before it, its ID after an FE, the gap between, its data after an
      FB, each closed by the F7 that asks for a CRC. */
  datatype Sector = Sector(lead: seq<byte>, track: byte, side: byte, number: byte, code: byte,
                           gap: seq<byte>, data: seq<byte>)

  predicate Printable(x: Sector) {
    0xFE !in x.lead && 0xFE !in x.gap && 0xFB !in x.gap && 0xF7 !in x.data
  }

  function PrintSector(x: Sector): (s: seq<byte>)
    ensures |s| == |x.lead| + |x.gap| + |x.data| + 8
  {
    x.lead + [0xFE, x.track, x.side, x.number, x.code, 0xF7] + x.gap + [0xFB] + x.data + [0xF7]
  }

  function Print(xs: seq<Sector>, tail: seq<byte>): seq<byte> {
    if |xs| == 0 then tail else PrintSector(xs[0]) + Print(xs[1..], tail)
  }

  /** Where the data of sectors printed from position `at` are. */
  function Windows(xs: seq<Sector>, at: nat): (fs: seq<Field>)
    ensures |fs| == |xs|
  {
    if |xs| == 0 then []
    else
      [Field(xs[0].number, xs[0].code % 4, at + |xs[0].lead| + 7 + |xs[0].gap|, |xs[0].data|)]
      + Windows(xs[1..], at + |PrintSector(xs[0])|)
  }

  lemma {:induction false} SkipGap(s: seq<byte>, i: nat, n: nat)
    requires i + n <= |s| && forall k :: i <= k < i + n ==> s[k] != ID_MARK
    ensures Parse(s, i) == Parse(s, i + n)
    decreases n
  {
    if n > 0 {
      SkipGap(s, i + 1, n - 1);
    }
  }

  lemma {:induction false} MarkAt(s: seq<byte>, i: nat, n: nat)
    requires i + n < |s| && forall k :: i <= k < i + n ==> s[k] != ID_MARK && s[k] != DATA_MARK
    requires s[i + n] == DATA_MARK
    ensures NextMark(s, i) == i + n
    decreases n
  {
    if n > 0 {
      MarkAt(s, i + 1, n - 1);
    }
  }

  lemma {:induction false} EndAt(s: seq<byte>, i: nat, n: nat)
    requires i + n < |s| && (forall k :: i <= k < i + n ==> s[k] != CRC) && s[i + n] == CRC
    ensures FieldEnd(s, i) == i + n
    decreases n
  {
    if n > 0 {
      EndAt(s, i + 1, n - 1);
    }
  }

  /** One printed sector at `i`, its parts where they were put. */
  predicate SectorAt(s: seq<byte>, i: nat, x: Sector) {
    var a, b := i + |x.lead|, i + |x.lead| + 7 + |x.gap|;
    && b + |x.data| < |s|
    && (forall k :: i <= k < a ==> s[k] == x.lead[k - i])
    && s[a] == ID_MARK && s[a + 3] == x.number && s[a + 4] == x.code && s[a + 5] == CRC
    && (forall k :: a + 6 <= k < b - 1 ==> s[k] == x.gap[k - (a + 6)])
    && s[b - 1] == DATA_MARK
    && (forall k :: b <= k < b + |x.data| ==> s[k] == x.data[k - b])
    && s[b + |x.data|] == CRC
  }

  lemma SectorIsAt(s: seq<byte>, i: nat, x: Sector, rest: seq<byte>)
    requires i <= |s| && s[i..] == PrintSector(x) + rest
    ensures SectorAt(s, i, x) && s[i + |PrintSector(x)|..] == rest
  {
    var p := PrintSector(x);
    forall k | i <= k < i + |p|
      ensures s[k] == p[k - i]
    {
      assert s[i..][k - i] == (p + rest)[k - i];
    }
    assert s[i + |p|..] == s[i..][|p|..];
  }

  lemma ParseSector(s: seq<byte>, i: nat, x: Sector)
    requires SectorAt(s, i, x) && Printable(x)
    ensures i + |PrintSector(x)| <= |s|
    ensures Parse(s, i) == [Field(x.number, x.code % 4, i + |x.lead| + 7 + |x.gap|, |x.data|)]
                           + Parse(s, i + |PrintSector(x)|)
  {
    hide Parse, NextMark, FieldEnd;
    var a, b := i + |x.lead|, i + |x.lead| + 7 + |x.gap|;
    SkipGap(s, i, |x.lead|);
    MarkAt(s, a + 5, |x.gap| + 1);
    EndAt(s, b, |x.data|);
    ParseStep(s, a);
  }

  /** The window holds the sector's data, and the field its number and length code. */
  predicate Holds(s: seq<byte>, f: Field, x: Sector) {
    && f.number == x.number && f.code == x.code % 4
    && f.off + f.len <= |s| && s[f.off..f.off + f.len] == x.data
  }

  lemma HoldsData(s: seq<byte>, i: nat, x: Sector)
    requires SectorAt(s, i, x)
    ensures Holds(s, Field(x.number, x.code % 4, i + |x.lead| + 7 + |x.gap|, |x.data|), x)
  {}

  /** Reading a printed track finds exactly the sectors printed: their numbers, their length codes and
      their data, in order, whatever the gaps hold. */
  lemma {:induction false} ParsePrint(s: seq<byte>, i: nat, xs: seq<Sector>, tail: seq<byte>)
    requires i <= |s| && s[i..] == Print(xs, tail)
    requires (forall k :: 0 <= k < |xs| ==> Printable(xs[k])) && 0xFE !in tail
    ensures Parse(s, i) == Windows(xs, i)
    ensures forall k :: 0 <= k < |xs| ==> Holds(s, Windows(xs, i)[k], xs[k])
    decreases |xs|
  {
    hide Parse, PrintSector, SectorAt, Holds, Printable, Print, Windows;
    PrintIs(xs, tail);
    WindowsAre(xs, i);
    if |xs| == 0 {
      forall k | i <= k < |s|
        ensures s[k] != ID_MARK
      {
        assert s[k] == s[i..][k - i];
      }
      SkipGap(s, i, |s| - i);
      NothingLeft(s);
    } else {
      var x := xs[0];
      SectorIsAt(s, i, x, Print(xs[1..], tail));
      ParseSector(s, i, x);
      ParsePrint(s, i + |PrintSector(x)|, xs[1..], tail);
      HoldsData(s, i, x);
    }
  }

  lemma PrintIs(xs: seq<Sector>, tail: seq<byte>)
    ensures Print(xs, tail) == if |xs| == 0 then tail else PrintSector(xs[0]) + Print(xs[1..], tail)
  {}

  lemma WindowsAre(xs: seq<Sector>, at: nat)
    ensures |xs| == 0 ==> Windows(xs, at) == []
    ensures |xs| > 0 ==>
              Windows(xs, at)
              == [Field(xs[0].number, xs[0].code % 4, at + |xs[0].lead| + 7 + |xs[0].gap|, |xs[0].data|)]
                 + Windows(xs[1..], at + |PrintSector(xs[0])|)
  {}

  lemma NothingLeft(s: seq<byte>)
    ensures Parse(s, |s|) == []
  {}

  // ---------------------------------------------------------------------------------------
  // The loops
  // ---------------------------------------------------------------------------------------

  method Scan(s: seq<byte>) returns (fields: seq<Field>)
    ensures fields == Parse(s, 0)
  {
    fields := [];
    var n, i := |s|, 0;
    while i < n
      invariant 0 <= i <= n && fields + Parse(s, i) == Parse(s, 0)
    {
      if s[i] != ID_MARK {
        i := i + 1;
        continue;
      }
      i := i + 1;
      if i + 4 > n {
        break;
      }
      var number, code := s[i + 2], s[i + 3] % 4;
      i := i + 4;
      ghost var from := i;
      while i < n && s[i] != DATA_MARK && s[i] != ID_MARK
        invariant from <= i <= n && NextMark(s, i) == NextMark(s, from)
      {
        i := i + 1;
      }
      if i >= n || s[i] != DATA_MARK {
        continue;
      }
      i := i + 1;
      var off := i;
      while i < n && s[i] != CRC
        invariant off <= i <= n && FieldEnd(s, i) == FieldEnd(s, off)
      {
        i := i + 1;
      }
      fields := fields + [Field(number, code, off, i - off)];
      if i < n {
        i := i + 1;
      }
    }
  }
}
