/** A mounted diskette: the host file under it, and what each of its tracks holds.

    The file is the tracks end to end, and tracks need not be of one size, so reformatting one track
    moves every track after it. The functions on `Disk` say what the image does; `Image` does it in
    place.
 */
module DiskImage {
  import opened Arithmetic
  import opened Basics

  datatype Format = Format(doubleDensity: bool, sectors: nat, size: nat, start: int)

  const BLANK := Format(false, 0, 0, 0)

  /** `grows`: the file may grow and shrink as the guest formats. */
  datatype Disk = Disk(bytes: seq<byte>, readOnly: bool, grows: bool, tracks: nat, heads: nat,
                       interleaved: bool, formats: seq<Format>)

  datatype Place = Place(off: nat, len: nat)

  datatype Wrote = Wrote(disk: Disk, ok: bool)

  predicate Known(f: Format) { f.sectors > 0 && f.size > 0 }

  function Bytes(f: Format): nat {
    if Known(f) then f.sectors * f.size else 0
  }

  predicate WellFormed(d: Disk) { |d.formats| == d.tracks * d.heads }

  predicate Has(d: Disk, t: int, h: int) { 0 <= t < d.tracks && 0 <= h < d.heads }

  /** A track's place in file order. */
  function Index(d: Disk, t: nat, h: nat): nat {
    if d.interleaved then t * d.heads + h else h * d.tracks + t
  }

  /** Where the `i`th track starts: after every track before it. */
  function Offset(fs: seq<Format>, i: nat): nat
    requires i <= |fs|
  {
    if i == 0 then 0 else Offset(fs, i - 1) + Bytes(fs[i - 1])
  }

  function TrackFormat(d: Disk, t: int, h: int): Option<Format>
    requires WellFormed(d)
  {
    if !Has(d, t, h) then None
    else
      IndexInside(d, t, h);
      var f := d.formats[Index(d, t, h)];
      if Known(f) then Some(f) else None
  }

  function Locate(d: Disk, t: int, h: int, s: int): Option<Place>
    requires WellFormed(d)
  {
    match TrackFormat(d, t, h)
    case None => None
    case Some(f) =>
      if s - f.start < 0 || s - f.start >= f.sectors then None
      else
        IndexInside(d, t, h);
        MulMonotone(0, s - f.start, f.size);
        Some(Place(Offset(d.formats, Index(d, t, h)) + (s - f.start) * f.size, f.size))
  }

  /** A whole sector or nothing; `room` is the caller's buffer. */
  function ReadSector(d: Disk, t: int, h: int, s: int, room: nat): Option<seq<byte>>
    requires WellFormed(d)
  {
    match Locate(d, t, h, s)
    case None => None
    case Some(p) =>
      if room < p.len || p.off + p.len > |d.bytes| then None else Some(d.bytes[p.off..p.off + p.len])
  }

  function Resize(bytes: seq<byte>, n: nat): (r: seq<byte>)
    ensures |r| == n
  {
    if n <= |bytes| then bytes[..n] else bytes + seq(n - |bytes|, _ => 0)
  }

  function WriteAt(bytes: seq<byte>, off: nat, data: seq<byte>): (r: seq<byte>)
    ensures |r| == if off + |data| > |bytes| then off + |data| else |bytes|
    ensures r[off..off + |data|] == data
    ensures forall i :: 0 <= i < |bytes| && (i < off || i >= off + |data|) ==> r[i] == bytes[i]
  {
    var b := if off + |data| > |bytes| then Resize(bytes, off + |data|) else bytes;
    b[..off] + data + b[off + |data|..]
  }

  /** A short buffer is refused, and so is a write past the end of a file that may not grow. */
  function WriteSector(d: Disk, t: int, h: int, s: int, data: seq<byte>): Wrote
    requires WellFormed(d)
  {
    match Locate(d, t, h, s)
    case None => Wrote(d, false)
    case Some(p) =>
      if d.readOnly || |data| < p.len || (p.off + p.len > |d.bytes| && !d.grows) then Wrote(d, false)
      else Wrote(d.(bytes := WriteAt(d.bytes, p.off, data[..p.len])), true)
  }

  /** A track that ended at `oldEnd` now ends at `newEnd`: the bytes after it go with it. */
  function MoveTail(bytes: seq<byte>, oldEnd: nat, newEnd: nat): seq<byte> {
    if |bytes| <= oldEnd then (if |bytes| > newEnd then Resize(bytes, newEnd) else bytes)
    else WriteAt(Resize(bytes, newEnd + (|bytes| - oldEnd)), newEnd, bytes[oldEnd..])
  }

  function SetTrackFormat(d: Disk, t: int, h: int, f: Format): (r: Disk)
    requires WellFormed(d)
    ensures WellFormed(r)
  {
    if !Has(d, t, h) then d
    else
      IndexInside(d, t, h);
      var i := Index(d, t, h);
      var start, was, now := Offset(d.formats, i), Bytes(d.formats[i]), Bytes(f);
      d.(formats := d.formats[i := f],
         bytes := if was == now || !d.grows || d.readOnly then d.bytes
                  else MoveTail(d.bytes, start + was, start + now))
  }

  // ---------------------------------------------------------------------------------------
  // Tracks and sectors do not overlap
  // ---------------------------------------------------------------------------------------

  lemma RowMajor(row: nat, column: nat, rows: nat, columns: nat)
    requires row < rows && column < columns
    ensures row * columns + column < rows * columns
  {
    MulMonotone(row + 1, rows, columns);
    assert (row + 1) * columns == row * columns + columns;
  }

  lemma IndexInside(d: Disk, t: nat, h: nat)
    requires WellFormed(d) && Has(d, t, h)
    ensures Index(d, t, h) < |d.formats|
  {
    if d.interleaved {
      RowMajor(t, h, d.tracks, d.heads);
    } else {
      RowMajor(h, t, d.heads, d.tracks);
      assert d.heads * d.tracks == d.tracks * d.heads;
    }
  }

  lemma RowMajorApart(r1: nat, c1: nat, r2: nat, c2: nat, columns: nat)
    requires c1 < columns && c2 < columns && r1 * columns + c1 == r2 * columns + c2
    ensures r1 == r2 && c1 == c2
  {
    if r1 < r2 {
      assert (r1 + 1) * columns == r1 * columns + columns;
      MulMonotone(r1 + 1, r2, columns);
    } else if r2 < r1 {
      assert (r2 + 1) * columns == r2 * columns + columns;
      MulMonotone(r2 + 1, r1, columns);
    }
  }

  lemma IndexApart(d: Disk, t1: nat, h1: nat, t2: nat, h2: nat)
    requires Has(d, t1, h1) && Has(d, t2, h2) && Index(d, t1, h1) == Index(d, t2, h2)
    ensures t1 == t2 && h1 == h2
  {
    if d.interleaved {
      RowMajorApart(t1, h1, t2, h2, d.heads);
    } else {
      RowMajorApart(h1, t1, h2, t2, d.tracks);
    }
  }

  lemma {:induction false} OffsetMonotone(fs: seq<Format>, i: nat, j: nat)
    requires i <= j <= |fs|
    ensures Offset(fs, i) <= Offset(fs, j)
    decreases j
  {
    if i < j {
      OffsetMonotone(fs, i, j - 1);
    }
  }

  /** Reformatting a track moves exactly the tracks after it. */
  lemma {:induction false} OffsetMoves(fs: seq<Format>, k: nat, f: Format, i: nat)
    requires k < |fs| && i <= |fs|
    ensures Offset(fs[k := f], i) == Offset(fs, i) + if i <= k then 0 else Bytes(f) - Bytes(fs[k])
  {
    if i > 0 {
      OffsetMoves(fs, k, f, i - 1);
    }
  }

  /** A sector lies inside its track. */
  lemma PlaceInside(d: Disk, t: int, h: int, s: int)
    requires WellFormed(d) && Locate(d, t, h, s).Some?
    ensures Has(d, t, h) && Index(d, t, h) < |d.formats|
    ensures var i, p := Index(d, t, h), Locate(d, t, h, s).value;
      && p.len > 0 && Offset(d.formats, i) <= p.off
      && p.off + p.len <= Offset(d.formats, i) + Bytes(d.formats[i])
  {
    IndexInside(d, t, h);
    var f := d.formats[Index(d, t, h)];
    MulMonotone(s - f.start + 1, f.sectors, f.size);
    assert (s - f.start + 1) * f.size == (s - f.start) * f.size + f.size;
  }

  /** Different sectors, of one track or of two, share no byte of the file. */
  lemma PlacesApart(d: Disk, t1: int, h1: int, s1: int, t2: int, h2: int, s2: int)
    requires WellFormed(d) && Locate(d, t1, h1, s1).Some? && Locate(d, t2, h2, s2).Some?
    requires (t1, h1, s1) != (t2, h2, s2)
    ensures var p, q := Locate(d, t1, h1, s1).value, Locate(d, t2, h2, s2).value;
      p.off + p.len <= q.off || q.off + q.len <= p.off
  {
    hide Locate, Index, Bytes;
    PlaceInside(d, t1, h1, s1);
    PlaceInside(d, t2, h2, s2);
    var i, j := Index(d, t1, h1), Index(d, t2, h2);
    if i < j {
      OffsetMonotone(d.formats, i + 1, j);
    } else if j < i {
      OffsetMonotone(d.formats, j + 1, i);
    } else {
      IndexApart(d, t1, h1, t2, h2);
      SectorsApart(d, t1, h1, s1, s2);
    }
  }

  lemma SectorsApart(d: Disk, t: int, h: int, s1: int, s2: int)
    requires WellFormed(d) && Locate(d, t, h, s1).Some? && Locate(d, t, h, s2).Some? && s1 != s2
    ensures var p, q := Locate(d, t, h, s1).value, Locate(d, t, h, s2).value;
      p.off + p.len <= q.off || q.off + q.len <= p.off
  {
    var f := TrackFormat(d, t, h).value;
    var a, b := s1 - f.start, s2 - f.start;
    if a < b {
      MulMonotone(a + 1, b, f.size);
      assert (a + 1) * f.size == a * f.size + f.size;
    } else {
      MulMonotone(b + 1, a, f.size);
      assert (b + 1) * f.size == b * f.size + f.size;
    }
  }

  // ---------------------------------------------------------------------------------------
  // Where a track starts in the file
  // ---------------------------------------------------------------------------------------

  /** What a track takes up in the file. */
  function TakesUp(d: Disk, t: int, h: int): nat
    requires WellFormed(d)
  {
    match TrackFormat(d, t, h)
    case None => 0
    case Some(f) => f.sectors * f.size
  }

  /** Where a track starts, told from the track before it in the file. Interleaved, the sides of a track follow one
      another and then comes the next track; otherwise the tracks of a side follow one another and then comes
      the next side. */
  function StartsAt(d: Disk, t: nat, h: nat): nat
    requires WellFormed(d) && Has(d, t, h)
    decreases if d.interleaved then t else h, if d.interleaved then h else t
  {
    if d.interleaved then
      if h > 0 then StartsAt(d, t, h - 1) + TakesUp(d, t, h - 1)
      else if t > 0 then StartsAt(d, t - 1, d.heads - 1) + TakesUp(d, t - 1, d.heads - 1)
      else 0
    else
      if t > 0 then StartsAt(d, t - 1, h) + TakesUp(d, t - 1, h)
      else if h > 0 then StartsAt(d, d.tracks - 1, h - 1) + TakesUp(d, d.tracks - 1, h - 1)
      else 0
  }

  lemma TakesUpIs(d: Disk, t: nat, h: nat)
    requires WellFormed(d) && Has(d, t, h)
    ensures Index(d, t, h) < |d.formats| && TakesUp(d, t, h) == Bytes(d.formats[Index(d, t, h)])
  {
    hide Index;
    IndexInside(d, t, h);
  }

  /** The tracks lie in the file in that order, whatever they hold. */
  lemma {:induction false} StartIsOffset(d: Disk, t: nat, h: nat)
    requires WellFormed(d) && Has(d, t, h)
    ensures Index(d, t, h) < |d.formats| && StartsAt(d, t, h) == Offset(d.formats, Index(d, t, h))
    decreases if d.interleaved then t else h, if d.interleaved then h else t
  {
    hide TakesUp;
    IndexInside(d, t, h);
    if d.interleaved && h > 0 {
      StartIsOffset(d, t, h - 1);
      TakesUpIs(d, t, h - 1);
    } else if d.interleaved && t > 0 {
      StartIsOffset(d, t - 1, d.heads - 1);
      TakesUpIs(d, t - 1, d.heads - 1);
      NextRow(t, d.heads);
    } else if !d.interleaved && t > 0 {
      StartIsOffset(d, t - 1, h);
      TakesUpIs(d, t - 1, h);
    } else if !d.interleaved && h > 0 {
      StartIsOffset(d, d.tracks - 1, h - 1);
      TakesUpIs(d, d.tracks - 1, h - 1);
      NextRow(h, d.tracks);
    }
  }

  lemma NextRow(row: nat, columns: nat)
    requires row > 0 && columns > 0
    ensures (row - 1) * columns + (columns - 1) + 1 == row * columns
  {
    assert (row - 1 + 1) * columns == (row - 1) * columns + columns;
  }

  /** A SECTOR'S PLACE: where its track starts, and as many sectors on as its number is past the track's first. */
  lemma PlaceIs(d: Disk, t: int, h: int, s: int)
    requires WellFormed(d)
    ensures Locate(d, t, h, s).Some? <==>
      Has(d, t, h) && TrackFormat(d, t, h).Some?
      && TrackFormat(d, t, h).value.start <= s < TrackFormat(d, t, h).value.start + TrackFormat(d, t, h).value.sectors
    ensures Locate(d, t, h, s).Some? ==>
      var f, p := TrackFormat(d, t, h).value, Locate(d, t, h, s).value;
      p.off == StartsAt(d, t, h) + (s - f.start) * f.size && p.len == f.size
  {
    hide Index;
    if Has(d, t, h) { StartIsOffset(d, t, h); }
  }

  /** Every track of `b` bytes. */
  ghost predicate Alike(d: Disk, b: nat)
    requires WellFormed(d)
  {
    forall t, h :: Has(d, t, h) ==> TakesUp(d, t, h) == b
  }

  /** With tracks all of one length, a track's start is its number in that order times the length. */
  lemma {:induction false} StartOfAlike(d: Disk, t: nat, h: nat, b: nat)
    requires WellFormed(d) && Has(d, t, h) && Alike(d, b)
    ensures StartsAt(d, t, h) == (if d.interleaved then t * d.heads + h else h * d.tracks + t) * b
    decreases if d.interleaved then t else h, if d.interleaved then h else t
  {
    hide TakesUp;
    if d.interleaved && h > 0 {
      StartOfAlike(d, t, h - 1, b);
      OneMore(t * d.heads + h - 1, b);
    } else if d.interleaved && t > 0 {
      StartOfAlike(d, t - 1, d.heads - 1, b);
      NextRow(t, d.heads);
      OneMore(t * d.heads - 1, b);
    } else if !d.interleaved && t > 0 {
      StartOfAlike(d, t - 1, h, b);
      OneMore(h * d.tracks + t - 1, b);
    } else if !d.interleaved && h > 0 {
      StartOfAlike(d, d.tracks - 1, h - 1, b);
      NextRow(h, d.tracks);
      OneMore(h * d.tracks - 1, b);
    }
  }

  lemma OneMore(n: int, b: nat)
    ensures (n + 1) * b == n * b + b
  {}

  /** So on a disk of tracks alike, sides in turn or one after the other. */
  lemma PlaceOfAlike(d: Disk, t: int, h: int, s: int, b: nat)
    requires WellFormed(d) && Alike(d, b) && Locate(d, t, h, s).Some?
    ensures var f, p := TrackFormat(d, t, h).value, Locate(d, t, h, s).value;
      && p.len == f.size
      && (d.interleaved ==> p.off == (t * d.heads + h) * b + (s - f.start) * f.size)
      && (!d.interleaved ==> p.off == (h * d.tracks + t) * b + (s - f.start) * f.size)
  {
    hide Index, Locate, Alike, StartsAt;
    PlaceIs(d, t, h, s);
    StartOfAlike(d, t, h, b);
  }

  // ---------------------------------------------------------------------------------------
  // What a write changes
  // ---------------------------------------------------------------------------------------

  /** A sector written reads back, and every other sector that could be read still reads the same. */
  lemma WriteReadsBack(d: Disk, t: int, h: int, s: int, data: seq<byte>)
    requires WellFormed(d) && WriteSector(d, t, h, s, data).ok
    ensures var e := WriteSector(d, t, h, s, data).disk;
      && e == d.(bytes := e.bytes) && |e.bytes| >= |d.bytes|
      && var len := Locate(d, t, h, s).value.len;
         len <= |data| && forall room :: room >= len ==> ReadSector(e, t, h, s, room) == Some(data[..len])
  {}

  lemma WriteKeepsOthers(d: Disk, t: int, h: int, s: int, data: seq<byte>, t2: int, h2: int, s2: int, room: nat)
    requires WellFormed(d) && (t2, h2, s2) != (t, h, s)
    requires ReadSector(d, t2, h2, s2, room).Some?
    ensures WellFormed(WriteSector(d, t, h, s, data).disk)
    ensures ReadSector(WriteSector(d, t, h, s, data).disk, t2, h2, s2, room) == ReadSector(d, t2, h2, s2, room)
  {
    hide Locate, WriteSector, ReadSector;
    WriteDoes(d, t, h, s, data);
    ReadNeedsPlace(d, t2, h2, s2, room);
    if WriteSector(d, t, h, s, data).ok {
      PlacesApart(d, t, h, s, t2, h2, s2);
      SameBytes(d, t, h, s, data, t2, h2, s2);
      ReadSame(d, WriteSector(d, t, h, s, data).disk, t2, h2, s2, room);
    }
  }

  lemma WriteDoes(d: Disk, t: int, h: int, s: int, data: seq<byte>)
    requires WellFormed(d)
    ensures var w := WriteSector(d, t, h, s, data);
      && WellFormed(w.disk) && (w.ok ==> Locate(d, t, h, s).Some?) && (!w.ok ==> w.disk == d)
  {
    hide Locate;
  }

  lemma ReadNeedsPlace(d: Disk, t: int, h: int, s: int, room: nat)
    requires WellFormed(d) && ReadSector(d, t, h, s, room).Some?
    ensures Locate(d, t, h, s).Some?
    ensures var q := Locate(d, t, h, s).value; q.len <= room && q.off + q.len <= |d.bytes|
  {
    hide Locate;
  }

  lemma ReadSame(d: Disk, e: Disk, t: int, h: int, s: int, room: nat)
    requires WellFormed(d) && Locate(d, t, h, s).Some? && e == d.(bytes := e.bytes) && |e.bytes| >= |d.bytes|
    requires var q := Locate(d, t, h, s).value;
      q.off + q.len <= |d.bytes| && e.bytes[q.off..q.off + q.len] == d.bytes[q.off..q.off + q.len]
    ensures WellFormed(e) && ReadSector(e, t, h, s, room) == ReadSector(d, t, h, s, room)
  {}

  lemma SameBytes(d: Disk, t: int, h: int, s: int, data: seq<byte>, t2: int, h2: int, s2: int)
    requires WellFormed(d) && WriteSector(d, t, h, s, data).ok && Locate(d, t2, h2, s2).Some?
    requires var p, q := Locate(d, t, h, s).value, Locate(d, t2, h2, s2).value;
      && (p.off + p.len <= q.off || q.off + q.len <= p.off) && q.off + q.len <= |d.bytes|
    ensures var q, e := Locate(d, t2, h2, s2).value, WriteSector(d, t, h, s, data).disk;
      && e == d.(bytes := e.bytes) && |e.bytes| >= |d.bytes|
      && e.bytes[q.off..q.off + q.len] == d.bytes[q.off..q.off + q.len]
  {}

  // ---------------------------------------------------------------------------------------
  // What formatting a track changes
  // ---------------------------------------------------------------------------------------

  function Least(a: nat, b: nat): nat { if a < b then a else b }

  lemma TailMoved(bytes: seq<byte>, oldEnd: nat, newEnd: nat)
    ensures var r := MoveTail(bytes, oldEnd, newEnd);
      && (|bytes| > oldEnd ==> |r| == newEnd + |bytes| - oldEnd && r[newEnd..] == bytes[oldEnd..])
      && (|bytes| <= oldEnd ==> |r| <= newEnd && |r| <= |bytes|)
      && var k := Least(|bytes|, Least(oldEnd, newEnd));
         k <= |r| && r[..k] == bytes[..k]
  {}

  lemma LocateMoves(d: Disk, t: nat, h: nat, f: Format, t2: int, h2: int, s: int)
    requires WellFormed(d) && Has(d, t, h) && (t2, h2) != (t, h)
    ensures var i, e := Index(d, t, h), SetTrackFormat(d, t, h, f);
      && i < |d.formats|
      && Locate(e, t2, h2, s).Some? == Locate(d, t2, h2, s).Some?
      && (Locate(d, t2, h2, s).Some? ==>
            && var p, q := Locate(d, t2, h2, s).value, Locate(e, t2, h2, s).value;
            && q.len == p.len > 0
            && var end := Offset(d.formats, i) + Bytes(d.formats[i]);
            && if Index(d, t2, h2) < i then q.off == p.off && p.off + p.len <= Offset(d.formats, i)
               else p.off >= end && q.off == p.off - Bytes(d.formats[i]) + Bytes(f))
  {
    hide Bytes;
    IndexInside(d, t, h);
    var i := Index(d, t, h);
    if Has(d, t2, h2) {
      IndexInside(d, t2, h2);
      var j := Index(d, t2, h2);
      if i == j { IndexApart(d, t, h, t2, h2); }
      OffsetMoves(d.formats, i, f, j);
      if Locate(d, t2, h2, s).Some? {
        PlaceInside(d, t2, h2, s);
        if j < i { OffsetMonotone(d.formats, j + 1, i); } else { OffsetMonotone(d.formats, i + 1, j); }
      }
    }
  }

  /** Whatever the order of formatting, and whether a track grows or shrinks, every other track keeps
      its sectors: on a medium that follows the format, or where the track keeps its length. */
  lemma FormatKeepsOthers(d: Disk, t: int, h: int, f: Format, t2: int, h2: int, s: int, room: nat)
    requires WellFormed(d) && (t2, h2) != (t, h)
    requires (d.grows && !d.readOnly)
             || (Has(d, t, h) ==> IndexIn(d, t, h) && Bytes(f) == Bytes(d.formats[Index(d, t, h)]))
    ensures ReadSector(SetTrackFormat(d, t, h, f), t2, h2, s, room) == ReadSector(d, t2, h2, s, room)
  {
    hide Bytes, MoveTail, Locate;
    if Has(d, t, h) {
      IndexInside(d, t, h);
      LocateMoves(d, t, h, f, t2, h2, s);
      var i, e := Index(d, t, h), SetTrackFormat(d, t, h, f);
      var start, was := Offset(d.formats, i), Bytes(d.formats[i]);
      if was != Bytes(f) {
        TailMoved(d.bytes, start + was, start + Bytes(f));
        if Locate(d, t2, h2, s).Some? {
          SectorMoved(d.bytes, e.bytes, Locate(d, t2, h2, s).value, Locate(e, t2, h2, s).value,
                      start, start + was, start + Bytes(f));
        }
      }
    }
  }

  predicate IndexIn(d: Disk, t: nat, h: nat) { Index(d, t, h) < |d.formats| }

  lemma SamePart(was: seq<byte>, now: seq<byte>, k: nat, lo: nat, hi: nat)
    requires k <= |was| && k <= |now| && was[..k] == now[..k] && lo <= hi <= k
    ensures was[lo..hi] == now[lo..hi]
  {
    forall j | lo <= j < hi
      ensures was[j] == now[j]
    {
      assert was[..k][j] == now[..k][j];
    }
  }

  lemma SameTail(was: seq<byte>, now: seq<byte>, a: nat, b: nat, lo: nat, hi: nat)
    requires a <= |was| && b <= |now| && was[a..] == now[b..] && a <= lo <= hi <= |was|
    ensures was[lo..hi] == now[lo - a + b..hi - a + b]
  {
    forall j | lo <= j < hi
      ensures was[j] == now[j - a + b]
    {
      assert was[a..][j - a] == now[b..][j - a];
    }
  }

  lemma SectorMoved(was: seq<byte>, now: seq<byte>, p: Place, q: Place, start: nat, oldEnd: nat, newEnd: nat)
    requires start <= oldEnd && start <= newEnd && q.len == p.len > 0
    requires if p.off + p.len <= start then q.off == p.off else p.off >= oldEnd && q.off == p.off - oldEnd + newEnd
    requires |was| > oldEnd ==> |now| == newEnd + |was| - oldEnd && now[newEnd..] == was[oldEnd..]
    requires |was| <= oldEnd ==> |now| <= newEnd && |now| <= |was|
    requires var k := Least(|was|, Least(oldEnd, newEnd));
      k <= |now| && now[..k] == was[..k]
    ensures p.off + p.len <= |was| <==> q.off + q.len <= |now|
    ensures p.off + p.len <= |was| ==> was[p.off..p.off + p.len] == now[q.off..q.off + q.len]
  {
    if p.off + p.len <= |was| {
      if p.off + p.len <= start {
        var k := Least(|was|, Least(oldEnd, newEnd));
        SamePart(was, now, k, p.off, p.off + p.len);
      } else {
        SameTail(was, now, oldEnd, newEnd, p.off, p.off + p.len);
      }
    }
  }

  /** Every track keeps its place that comes before the one reformatted; and every one that comes after, where
      the file follows the format or the length does not change. */
  predicate Stays(d: Disk, t: int, h: int, f: Format, t2: int, h2: int)
    requires WellFormed(d)
  {
    || !Has(d, t, h) || !Has(d, t2, h2) || (d.grows && !d.readOnly)
    || (IndexIn(d, t, h) && (Bytes(f) == Bytes(d.formats[Index(d, t, h)]) || Index(d, t2, h2) < Index(d, t, h)))
  }

  /** On a medium of fixed length it is otherwise. The bytes stay where they are, and every sector of every
      later track is looked for as much further on as the reformatted track has grown: it reads what it read
      before if and only if the same bytes happen to lie there. */
  lemma FixedMediumShifts(d: Disk, t: int, h: int, f: Format, t2: int, h2: int, s: int, room: nat)
    requires WellFormed(d) && Has(d, t, h) && (!d.grows || d.readOnly) && (t2, h2) != (t, h)
    requires Locate(d, t2, h2, s).Some?
    ensures Has(d, t2, h2) && IndexIn(d, t, h)
    ensures var e, p := SetTrackFormat(d, t, h, f), Locate(d, t2, h2, s).value;
      var shift := if Index(d, t2, h2) < Index(d, t, h) then 0 else Bytes(f) - Bytes(d.formats[Index(d, t, h)]);
      && p.off + shift >= 0 && Locate(e, t2, h2, s) == Some(Place(p.off + shift, p.len))
      && ReadSector(e, t2, h2, s, room)
         == (if room < p.len || p.off + shift + p.len > |d.bytes| then None
             else Some(d.bytes[p.off + shift..p.off + shift + p.len]))
      && (Stays(d, t, h, f, t2, h2) ==> ReadSector(e, t2, h2, s, room) == ReadSector(d, t2, h2, s, room))
  {
    hide Bytes, MoveTail;
    IndexInside(d, t, h);
    LocateMoves(d, t, h, f, t2, h2, s);
  }

  /** So it can be lost: a one-byte track made two bytes long leaves the next track's sector where the next
      track no longer looks. */
  lemma FixedMediumCanLose(d: Disk)
    requires d == Disk([10, 20, 30], false, false, 2, 1, false, [Format(false, 1, 1, 1), Format(false, 1, 1, 1)])
    ensures WellFormed(d) && ReadSector(d, 1, 0, 1, 1) == Some([20])
    ensures ReadSector(SetTrackFormat(d, 0, 0, Format(false, 2, 1, 1)), 1, 0, 1, 1) == Some([30])
  {
    hide MoveTail;
    var e := SetTrackFormat(d, 0, 0, Format(false, 2, 1, 1));
    assert Offset(d.formats, 0) == 0 && e == d.(formats := [Format(false, 2, 1, 1), Format(false, 1, 1, 1)]);
    SecondTrack(d, 1);
    SecondTrack(e, 2);
  }

  lemma SecondTrack(d: Disk, n: nat)
    requires d == Disk([10, 20, 30], false, false, 2, 1, false, [Format(false, n, 1, 1), Format(false, 1, 1, 1)])
    requires 1 <= n <= 2
    ensures ReadSector(d, 1, 0, 1, 1) == Some([d.bytes[n]])
  {
    assert Offset(d.formats, 0) == 0 && Bytes(d.formats[0]) == n;
    assert Offset(d.formats, 1) == n;
    assert TrackFormat(d, 1, 0) == Some(Format(false, 1, 1, 1));
    assert d.bytes[n..n + 1] == [d.bytes[n]];
  }

  // ---------------------------------------------------------------------------------------
  // The image, changed in place
  // ---------------------------------------------------------------------------------------

  datatype Slot = Slot(fmt: Format, offset: nat, valid: bool)

  function Formats(slots: seq<Slot>): (fs: seq<Format>)
    ensures |fs| == |slots|
  {
    seq(|slots|, i requires 0 <= i < |slots| => slots[i].fmt)
  }

  predicate Placed(slots: seq<Slot>, n: nat)
    requires n <= |slots|
  {
    forall i :: 0 <= i < n ==> slots[i].offset == Offset(Formats(slots), i)
  }

  predicate Marked(slots: seq<Slot>) {
    forall i :: 0 <= i < |slots| ==> slots[i].valid == Known(slots[i].fmt)
  }

  class Image {
    const tracks: nat
    const heads: nat
    const interleaved: bool
    const grows: bool
    const readOnly: bool
    var bytes: seq<byte>
    var slots: seq<Slot>

    ghost predicate Valid()
      reads this
    {
      |slots| == tracks * heads && Marked(slots) && Placed(slots, |slots|)
    }

    ghost function State(): Disk
      reads this
    {
      Disk(bytes, readOnly, grows, tracks, heads, interleaved, Formats(slots))
    }

    constructor (file: seq<byte>, t: nat, h: nat, byCylinder: bool, mayGrow: bool, protect: bool)
      ensures Valid()
      ensures State() == Disk(file, protect, mayGrow, t, h, byCylinder, seq(t * h, _ => BLANK))
    {
      tracks, heads, interleaved, grows, readOnly := t, h, byCylinder, mayGrow, protect;
      bytes := file;
      slots := seq(t * h, _ => Slot(BLANK, 0, false));
      new;
      assert Formats(slots) == seq(t * h, _ => BLANK);
      NothingDeclared(Formats(slots), t * h);
    }

    method SlotIndex(t: nat, h: nat) returns (i: nat)
      requires Valid() && Has(State(), t, h)
      ensures i == Index(State(), t, h) && i < |slots|
    {
      IndexInside(State(), t, h);
      i := if interleaved then t * heads + h else h * tracks + t;
    }

    method SlotBytes(slot: Slot) returns (n: nat)
      requires slot.valid == Known(slot.fmt)
      ensures n == Bytes(slot.fmt)
    {
      n := if slot.valid then slot.fmt.sectors * slot.fmt.size else 0;
    }

    /** Every track's offset, from scratch. */
    method Rebuild()
      requires |slots| == tracks * heads && Marked(slots)
      modifies this`slots
      ensures Valid() && State() == old(State())
    {
      ghost var fs := Formats(slots);
      var off, i := 0, 0;
      while i < |slots|
        invariant 0 <= i <= |slots| == |old(slots)|
        invariant Marked(slots) && Formats(slots) == fs && Placed(slots, i) && off == Offset(fs, i)
      {
        var n := SlotBytes(slots[i]);
        slots := slots[i := slots[i].(offset := off)];
        assert Formats(slots) == fs;
        off := off + n;
        i := i + 1;
      }
    }

    method ResizeFile(n: nat)
      modifies this`bytes
      ensures bytes == Resize(old(bytes), n)
    {
      bytes := if n <= |bytes| then bytes[..n] else bytes + seq(n - |bytes|, _ => 0);
    }

    method WriteFile(off: nat, data: seq<byte>)
      modifies this`bytes
      ensures bytes == WriteAt(old(bytes), off, data)
    {
      if off + |data| > |bytes| {
        ResizeFile(off + |data|);
      }
      bytes := bytes[..off] + data + bytes[off + |data|..];
    }

    method MoveFileTail(oldEnd: nat, newEnd: nat)
      modifies this`bytes
      ensures bytes == if !grows || readOnly then old(bytes) else MoveTail(old(bytes), oldEnd, newEnd)
    {
      if !grows || readOnly {
        return;
      }
      if |bytes| <= oldEnd {
        if |bytes| > newEnd {
          ResizeFile(newEnd);
        }
        return;
      }
      var tail := bytes[oldEnd..];
      ResizeFile(newEnd + |tail|);
      WriteFile(newEnd, tail);
    }

    /** Moves the tail when the track changes size, so that no other track's sectors change
        (FormatKeepsOthers). */
    method SetFormat(t: int, h: int, f: Format)
      requires Valid()
      modifies this
      ensures Valid() && State() == SetTrackFormat(old(State()), t, h, f)
    {
      hide MoveTail, Offset, Bytes, Index;
      if t < 0 || t >= tracks || h < 0 || h >= heads {
        return;
      }
      var i := SlotIndex(t, h);
      ghost var fs := Formats(slots);
      var off := slots[i].offset;
      var before := SlotBytes(slots[i]);
      assert off == Offset(fs, i) && before == Bytes(fs[i]);
      slots := slots[i := slots[i].(fmt := f, valid := f.sectors > 0 && f.size > 0)];
      assert Formats(slots) == fs[i := f];
      Rebuild();
      assert State() == old(State()).(formats := fs[i := f]);
      assert slots[i].fmt == Formats(slots)[i];
      var after := SlotBytes(slots[i]);
      if after != before {
        MoveFileTail(off + before, off + after);
      }
    }

    method Find(t: int, h: int, s: int) returns (place: Option<Place>)
      requires Valid()
      ensures place == Locate(State(), t, h, s)
    {
      if t < 0 || t >= tracks || h < 0 || h >= heads {
        return None;
      }
      var i := SlotIndex(t, h);
      if !slots[i].valid {
        return None;
      }
      var f := slots[i].fmt;
      var rel := s - f.start;
      if rel < 0 || rel >= f.sectors {
        return None;
      }
      place := Some(Place(slots[i].offset + rel * f.size, f.size));
    }

    method Read(t: int, h: int, s: int, room: nat) returns (data: Option<seq<byte>>)
      requires Valid()
      ensures data == ReadSector(State(), t, h, s, room)
    {
      var place := Find(t, h, s);
      if place.None? || room < place.value.len {
        return None;
      }
      var off, len := place.value.off, place.value.len;
      if off > |bytes| || |bytes| - off < len {
        return None;
      }
      data := Some(bytes[off..off + len]);
    }

    method Write(t: int, h: int, s: int, data: seq<byte>) returns (ok: bool)
      requires Valid()
      modifies this`bytes
      ensures Valid() && Wrote(State(), ok) == WriteSector(old(State()), t, h, s, data)
    {
      if readOnly {
        return false;
      }
      var place := Find(t, h, s);
      if place.None? || |data| < place.value.len {
        return false;
      }
      var off, len := place.value.off, place.value.len;
      if off + len > |bytes| && !grows {
        return false;
      }
      WriteFile(off, data[..len]);
      ok := true;
    }
  }

  lemma {:induction false} NothingDeclared(fs: seq<Format>, n: nat)
    requires n <= |fs| && forall i :: 0 <= i < |fs| ==> fs[i] == BLANK
    ensures forall i :: 0 <= i <= n ==> Offset(fs, i) == 0
  {
    if n > 0 {
      NothingDeclared(fs, n - 1);
    }
  }
}
