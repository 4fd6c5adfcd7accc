/** The drive that formats: a Write Track stream, or a list of sector IDs and a fill byte, becomes the
    track's format and its data.
 */
module FloppyDrive {
  import Arithmetic
  import opened Basics
  import opened DiskImage
  import opened TrackStream

  // ---------------------------------------------------------------------------------------
  // A whole track of sectors written in order
  // ---------------------------------------------------------------------------------------

  /** Sector after sector from `s` on, until one is refused. */
  function WriteAll(d: Disk, t: int, h: int, s: int, data: seq<seq<byte>>): (w: Wrote)
    requires WellFormed(d)
    ensures WellFormed(w.disk) && w.disk == d.(bytes := w.disk.bytes)
    decreases |data|
  {
    if |data| == 0 then Wrote(d, true)
    else
      var w := WriteSector(d, t, h, s, data[0]);
      if !w.ok then w else WriteAll(w.disk, t, h, s + 1, data[1..])
  }

  /** Sectors that are not written and could be read still read the same. */
  lemma {:induction false} WriteAllKeeps(d: Disk, t: int, h: int, s: int, data: seq<seq<byte>>,
                                         t2: int, h2: int, s2: int, room: nat)
    requires WellFormed(d) && ReadSector(d, t2, h2, s2, room).Some?
    requires (t2, h2) != (t, h) || s2 < s || s2 >= s + |data|
    ensures ReadSector(WriteAll(d, t, h, s, data).disk, t2, h2, s2, room) == ReadSector(d, t2, h2, s2, room)
    decreases |data|
  {
    hide WriteSector, ReadSector;
    if |data| > 0 {
      WriteKeepsOthers(d, t, h, s, data[0], t2, h2, s2, room);
      if WriteSector(d, t, h, s, data[0]).ok {
        WriteAllKeeps(WriteSector(d, t, h, s, data[0]).disk, t, h, s + 1, data[1..], t2, h2, s2, room);
      }
    }
  }

  /** Each sector of a track written whole reads back its own data, cut to the track's sector size. */
  lemma {:induction false} WriteAllReads(d: Disk, t: int, h: int, s: int, data: seq<seq<byte>>, k: nat, room: nat)
    requires WellFormed(d) && WriteAll(d, t, h, s, data).ok && k < |data|
    requires Locate(d, t, h, s + k).Some? && room >= Locate(d, t, h, s + k).value.len
    ensures var len := Locate(d, t, h, s + k).value.len;
      len <= |data[k]|
      && ReadSector(WriteAll(d, t, h, s, data).disk, t, h, s + k, room) == Some(data[k][..len])
    decreases |data|
  {
    hide WriteSector, ReadSector, Locate;
    var w := WriteSector(d, t, h, s, data[0]);
    WriteReadsBack(d, t, h, s, data[0]);
    if k == 0 {
      assert ReadSector(w.disk, t, h, s, room) == Some(data[0][..Locate(d, t, h, s).value.len]);
      WriteAllKeeps(w.disk, t, h, s + 1, data[1..], t, h, s, room);
    } else {
      SamePlaces(d, w.disk, t, h, s + k);
      WriteAllReads(w.disk, t, h, s + 1, data[1..], k - 1, room);
    }
  }

  lemma SamePlaces(d: Disk, e: Disk, t: int, h: int, s: int)
    requires WellFormed(d) && e == d.(bytes := e.bytes)
    ensures Locate(e, t, h, s) == Locate(d, t, h, s)
  {}

  /** A sector may be written: it is there, the medium is writable, the data is not short, and the file
      reaches its end or may grow to it. */
  predicate MayWrite(d: Disk, t: int, h: int, s: int, len: nat)
    requires WellFormed(d)
  {
    && Locate(d, t, h, s).Some? && !d.readOnly && len >= Locate(d, t, h, s).value.len
    && (d.grows || Locate(d, t, h, s).value.off + Locate(d, t, h, s).value.len <= |d.bytes|)
  }

  lemma WriteOk(d: Disk, t: int, h: int, s: int, data: seq<byte>)
    requires WellFormed(d)
    ensures WriteSector(d, t, h, s, data).ok <==> MayWrite(d, t, h, s, |data|)
    ensures !d.grows ==> |WriteSector(d, t, h, s, data).disk.bytes| == |d.bytes|
  {}

  predicate Each(d: Disk, t: int, h: int, s: int, data: seq<seq<byte>>, k: nat)
    requires WellFormed(d) && k < |data|
  {
    MayWrite(d, t, h, s + k, |data[k]|)
  }

  /** A track is written whole exactly when each of its sectors may be. */
  lemma {:induction false} WriteAllOk(d: Disk, t: int, h: int, s: int, data: seq<seq<byte>>)
    requires WellFormed(d)
    ensures WriteAll(d, t, h, s, data).ok <==> forall k :: 0 <= k < |data| ==> Each(d, t, h, s, data, k)
    decreases |data|
  {
    hide Locate, MayWrite, WriteSector;
    if |data| > 0 {
      var w := WriteSector(d, t, h, s, data[0]);
      WriteOk(d, t, h, s, data[0]);
      assert Each(d, t, h, s, data, 0) == w.ok;
      if w.ok {
        WriteReadsBack(d, t, h, s, data[0]);
        forall k | 0 < k < |data|
          ensures Each(d, t, h, s, data, k) == Each(w.disk, t, h, s + 1, data[1..], k - 1)
        {
          StillMay(d, w.disk, t, h, s + k, |data[k]|);
        }
        WriteAllOk(w.disk, t, h, s + 1, data[1..]);
        forall k {:trigger Each(w.disk, t, h, s + 1, data[1..], k)} | 0 <= k < |data| - 1
          ensures Each(d, t, h, s, data, k + 1) ==> Each(w.disk, t, h, s + 1, data[1..], k)
        {
        }
      }
    }
  }

  lemma StillMay(d: Disk, e: Disk, t: int, h: int, s: int, len: nat)
    requires WellFormed(d) && e == d.(bytes := e.bytes) && (d.grows || |e.bytes| == |d.bytes|)
    ensures MayWrite(e, t, h, s, len) == MayWrite(d, t, h, s, len)
  {
    SamePlaces(d, e, t, h, s);
  }

  // ---------------------------------------------------------------------------------------
  // Write Track
  // ---------------------------------------------------------------------------------------

  /** 128 shifted up by the length code. */
  function SizeOf(code: nat): nat
    requires code < 4
  {
    [128, 256, 512, 1024][code]
  }

  function Payload(s: seq<byte>, f: Field): seq<byte> {
    if f.off + f.len <= |s| then s[f.off..f.off + f.len] else []
  }

  function Payloads(s: seq<byte>, fs: seq<Field>): (data: seq<seq<byte>>)
    ensures |data| == |fs| && forall k :: 0 <= k < |fs| ==> data[k] == Payload(s, fs[k])
  {
    seq(|fs|, k requires 0 <= k < |fs| => Payload(s, fs[k]))
  }

  /** The track's format comes from its first sector, and from how many there are. */
  function FormatOf(fs: seq<Field>, doubleDensity: bool): Format
    requires |fs| > 0
  {
    Format(doubleDensity, |fs|, SizeOf(fs[0].code % 4), fs[0].number)
  }

  function WriteTrack(d: Disk, t: int, h: int, s: seq<byte>, doubleDensity: bool): (w: Wrote)
    requires WellFormed(d)
    ensures WellFormed(w.disk)
  {
    var fs := Parse(s, 0);
    if |fs| == 0 then Wrote(d, false)
    else WriteAll(SetTrackFormat(d, t, h, FormatOf(fs, doubleDensity)), t, h, fs[0].number, Payloads(s, fs))
  }

  /** The sectors of a track just given a format. */
  lemma NewPlaces(d: Disk, t: int, h: int, f: Format, k: nat)
    requires WellFormed(d) && Has(d, t, h) && Known(f) && k < f.sectors
    ensures var e := SetTrackFormat(d, t, h, f);
      && TrackFormat(e, t, h) == Some(f) && Index(d, t, h) < |d.formats|
      && Locate(e, t, h, f.start + k) == Some(Place(Offset(d.formats, Index(d, t, h)) + k * f.size, f.size))
  {
    hide MoveTail, Offset;
    IndexInside(d, t, h);
    OffsetMoves(d.formats, Index(d, t, h), f, Index(d, t, h));
  }

  /** What a track written, by either command, leaves: its own sectors, and every other track's. */
  lemma TrackLeft(d: Disk, t: int, h: int, f: Format, data: seq<seq<byte>>)
    requires WellFormed(d) && Known(f) && |data| == f.sectors
    requires WriteAll(SetTrackFormat(d, t, h, f), t, h, f.start, data).ok
    ensures var e := WriteAll(SetTrackFormat(d, t, h, f), t, h, f.start, data).disk;
      && Has(d, t, h) && TrackFormat(e, t, h) == Some(f)
      && (forall k, room :: 0 <= k < |data| && room >= f.size ==> Reads(e, t, h, f.start, k, room, data[k], f.size))
  {
    hide WriteAll, SetTrackFormat, ReadSector, Locate;
    var e0 := SetTrackFormat(d, t, h, f);
    var e := WriteAll(e0, t, h, f.start, data).disk;
    WriteAllOk(e0, t, h, f.start, data);
    assert Each(e0, t, h, f.start, data, 0);
    if !Has(d, t, h) {
      NoTrack(d, t, h, f);
      assert false;
    }
    NewPlaces(d, t, h, f, 0);
    SameFormat(e0, e, t, h);
    forall k, room | 0 <= k < |data| && room >= f.size
      ensures Reads(e, t, h, f.start, k, room, data[k], f.size)
    {
      NewPlaces(d, t, h, f, k);
      WriteAllReads(e0, t, h, f.start, data, k, room);
    }
  }

  predicate Reads(d: Disk, t: int, h: int, start: int, k: nat, room: nat, data: seq<byte>, size: nat)
    requires WellFormed(d)
  {
    size <= |data| && ReadSector(d, t, h, start + k, room) == Some(data[..size])
  }

  lemma NoTrack(d: Disk, t: int, h: int, f: Format)
    requires WellFormed(d)
    ensures !Has(d, t, h) || !Known(f) ==> forall s :: Locate(SetTrackFormat(d, t, h, f), t, h, s).None?
  {
    if Has(d, t, h) {
      IndexInside(d, t, h);
    }
  }

  lemma SameFormat(d: Disk, e: Disk, t: int, h: int)
    requires WellFormed(d) && e == d.(bytes := e.bytes)
    ensures TrackFormat(e, t, h) == TrackFormat(d, t, h)
  {}

  /** The sectors of every other track read, after a track is written, what its new format alone would have
      them read; and that is what they read before wherever they stay in their places. */
  lemma OthersLeft(d: Disk, t: int, h: int, f: Format, data: seq<seq<byte>>, t2: int, h2: int, s2: int, room: nat)
    requires WellFormed(d) && (t2, h2) != (t, h)
    ensures var e := SetTrackFormat(d, t, h, f); var r := WriteAll(e, t, h, f.start, data).disk;
      && (ReadSector(e, t2, h2, s2, room).Some? ==> ReadSector(r, t2, h2, s2, room) == ReadSector(e, t2, h2, s2, room))
      && (ReadSector(d, t2, h2, s2, room).Some? && Stays(d, t, h, f, t2, h2) ==>
            ReadSector(r, t2, h2, s2, room) == ReadSector(d, t2, h2, s2, room))
  {
    hide WriteAll, SetTrackFormat, Locate;
    var e := SetTrackFormat(d, t, h, f);
    if ReadSector(e, t2, h2, s2, room).Some? {
      WriteAllKeeps(e, t, h, f.start, data, t2, h2, s2, room);
    }
    if ReadSector(d, t2, h2, s2, room).Some? && Stays(d, t, h, f, t2, h2) {
      StaysPut(d, t, h, f, t2, h2, s2, room);
    }
  }

  lemma StaysPut(d: Disk, t: int, h: int, f: Format, t2: int, h2: int, s2: int, room: nat)
    requires WellFormed(d) && (t2, h2) != (t, h) && Stays(d, t, h, f, t2, h2) && ReadSector(d, t2, h2, s2, room).Some?
    ensures ReadSector(SetTrackFormat(d, t, h, f), t2, h2, s2, room) == ReadSector(d, t2, h2, s2, room)
  {
    hide MoveTail, Bytes;
    if Has(d, t, h) && (!d.grows || d.readOnly) {
      FixedMediumShifts(d, t, h, f, t2, h2, s2, room);
    } else {
      FormatKeepsOthers(d, t, h, f, t2, h2, s2, room);
    }
  }

  /** A track can be written whole exactly when the drive has it, the diskette may be written, no
      sector's data is short, and the file reaches the track's end or may grow to it. */
  lemma TrackOk(d: Disk, t: int, h: int, f: Format, data: seq<seq<byte>>)
    requires WellFormed(d) && Known(f) && |data| == f.sectors
    ensures WriteAll(SetTrackFormat(d, t, h, f), t, h, f.start, data).ok <==>
            && Has(d, t, h) && Index(d, t, h) < |d.formats| && !d.readOnly
            && (forall k :: 0 <= k < |data| ==> |data[k]| >= f.size)
            && (d.grows || Offset(d.formats, Index(d, t, h)) + f.sectors * f.size <= |d.bytes|)
  {
    hide WriteAll, SetTrackFormat, Locate, Offset, Index;
    var e := SetTrackFormat(d, t, h, f);
    WriteAllOk(e, t, h, f.start, data);
    if !Has(d, t, h) {
      NoTrack(d, t, h, f);
      assert !Each(e, t, h, f.start, data, 0);
    } else {
      IndexInside(d, t, h);
      FormatLeaves(d, t, h, f);
      var start := Offset(d.formats, Index(d, t, h));
      forall k | 0 <= k < |data|
        ensures Each(e, t, h, f.start, data, k) <==>
                !d.readOnly && |data[k]| >= f.size && (d.grows || start + k * f.size + f.size <= |d.bytes|)
        ensures k * f.size + f.size <= f.sectors * f.size
      {
        NewPlaces(d, t, h, f, k);
        Arithmetic.MulMonotone(k + 1, f.sectors, f.size);
        assert (k + 1) * f.size == k * f.size + f.size;
      }
      var last := |data| - 1;
      assert last * f.size + f.size == f.sectors * f.size;
      assert Each(e, t, h, f.start, data, last) ==> d.grows || start + f.sectors * f.size <= |d.bytes|;
    }
  }

  lemma FormatLeaves(d: Disk, t: int, h: int, f: Format)
    requires WellFormed(d)
    ensures var e := SetTrackFormat(d, t, h, f);
      && e.readOnly == d.readOnly && e.grows == d.grows && (!d.grows ==> e.bytes == d.bytes)
  {}

  lemma PrintedFields(s: seq<byte>, xs: seq<Sector>, tail: seq<byte>)
    requires s == Print(xs, tail) && (forall k :: 0 <= k < |xs| ==> Printable(xs[k])) && 0xFE !in tail
    ensures var fs := Parse(s, 0);
      && |fs| == |xs|
      && forall k :: 0 <= k < |xs| ==>
           Payloads(s, fs)[k] == xs[k].data && fs[k].number == xs[k].number && fs[k].code == xs[k].code % 4
  {
    hide Parse, Print, Windows, Printable, Holds;
    assert s[0..] == s;
    ParsePrint(s, 0, xs, tail);
    var fs := Parse(s, 0);
    forall k | 0 <= k < |xs|
      ensures Payloads(s, fs)[k] == xs[k].data && fs[k].number == xs[k].number && fs[k].code == xs[k].code % 4
    {
      WindowHolds(s, fs[k], xs[k]);
    }
  }

  /** A track printed in the IBM 3740 layout and streamed to the drive: every sector reads back, in the
      order printed and numbered on from the first sector's number. */
  lemma PrintedTrackReadsBack(d: Disk, t: int, h: int, xs: seq<Sector>, tail: seq<byte>, doubleDensity: bool)
    requires WellFormed(d) && Has(d, t, h) && !d.readOnly
    requires |xs| > 0 && (forall k :: 0 <= k < |xs| ==> Printable(xs[k])) && 0xFE !in tail
    requires d.grows || Reaches(d, t, h, |xs| * SizeOf(xs[0].code % 4))
    requires forall k :: 0 <= k < |xs| ==> |xs[k].data| == SizeOf(xs[0].code % 4)
    ensures var w, size := WriteTrack(d, t, h, Print(xs, tail), doubleDensity), SizeOf(xs[0].code % 4);
      && w.ok && TrackFormat(w.disk, t, h) == Some(Format(doubleDensity, |xs|, size, xs[0].number))
      && forall k, room :: 0 <= k < |xs| && room >= size ==>
           Reads(w.disk, t, h, xs[0].number, k, room, xs[k].data, size) && |xs[k].data| == size
  {
    hide Print, WriteAll, SetTrackFormat, Printable, SizeOf, Reads, TrackFormat, WriteTrack, Index, Offset;
    PrintedTrackWrites(d, t, h, xs, tail, doubleDensity);
    SizePositive(xs[0].code % 4);
    WholeTrackLeft(d, t, h, Format(doubleDensity, |xs|, SizeOf(xs[0].code % 4), xs[0].number), Datas(xs));
  }

  function Datas(xs: seq<Sector>): (data: seq<seq<byte>>)
    ensures |data| == |xs| && forall k :: 0 <= k < |xs| ==> data[k] == xs[k].data
  {
    seq(|xs|, k requires 0 <= k < |xs| => xs[k].data)
  }

  lemma PrintedTrackWrites(d: Disk, t: int, h: int, xs: seq<Sector>, tail: seq<byte>, doubleDensity: bool)
    requires WellFormed(d) && |xs| > 0 && (forall k :: 0 <= k < |xs| ==> Printable(xs[k])) && 0xFE !in tail
    ensures var f := Format(doubleDensity, |xs|, SizeOf(xs[0].code % 4), xs[0].number);
      WriteTrack(d, t, h, Print(xs, tail), doubleDensity)
      == WriteAll(SetTrackFormat(d, t, h, f), t, h, f.start, Datas(xs))
  {
    hide Parse, Print, WriteAll, SetTrackFormat, Printable, SizeOf, Payloads, WriteTrack;
    var s := Print(xs, tail);
    PrintedFields(s, xs, tail);
    assert Payloads(s, Parse(s, 0)) == Datas(xs);
    StreamIsTrack(d, t, h, s, Format(doubleDensity, |xs|, SizeOf(xs[0].code % 4), xs[0].number), Datas(xs));
  }

  /** The sector printed `k`th is found by its own number: the one `number - first` places on is it, or one
      with the same data. */
  predicate OwnPlace(xs: seq<Sector>, k: nat)
    requires k < |xs|
  {
    var j := xs[k].number - xs[0].number;
    0 <= j < |xs| && xs[j].data == xs[k].data
  }

  /** EVERY SECTOR UNDER ITS OWN NUMBER reads back if and only if the numbers run on from the first in the
      order printed, but for sectors that hold the same data. */
  lemma ReadsByNumberExactly(d: Disk, t: int, h: int, xs: seq<Sector>, tail: seq<byte>, doubleDensity: bool)
    requires WellFormed(d) && Has(d, t, h) && !d.readOnly
    requires |xs| > 0 && (forall k :: 0 <= k < |xs| ==> Printable(xs[k])) && 0xFE !in tail
    requires d.grows || Reaches(d, t, h, |xs| * SizeOf(xs[0].code % 4))
    requires forall k :: 0 <= k < |xs| ==> |xs[k].data| == SizeOf(xs[0].code % 4)
    ensures var r, size := WriteTrack(d, t, h, Print(xs, tail), doubleDensity).disk, SizeOf(xs[0].code % 4);
      (forall k :: 0 <= k < |xs| ==> ReadSector(r, t, h, xs[k].number, size) == Some(xs[k].data))
      <==> forall k :: 0 <= k < |xs| ==> OwnPlace(xs, k)
  {
    hide Print, Printable, SizeOf, WriteTrack, ReadSector, TrackFormat, Index, Offset;
    PrintedTrackReadsBack(d, t, h, xs, tail, doubleDensity);
    var r, size := WriteTrack(d, t, h, Print(xs, tail), doubleDensity).disk, SizeOf(xs[0].code % 4);
    forall k | 0 <= k < |xs|
      ensures ReadSector(r, t, h, xs[k].number, size) == Some(xs[k].data) <==> OwnPlace(xs, k)
    {
      if ReadSector(r, t, h, xs[k].number, size).Some? {
        ReadMeansPlace(r, t, h, Format(doubleDensity, |xs|, size, xs[0].number), xs[k].number, size);
      }
      var j := xs[k].number - xs[0].number;
      if 0 <= j < |xs| {
        assert Reads(r, t, h, xs[0].number, j, size, xs[j].data, size);
        assert xs[j].data[..size] == xs[j].data;
      }
    }
  }

  lemma ReadMeansPlace(d: Disk, t: int, h: int, f: Format, number: int, room: nat)
    requires WellFormed(d) && TrackFormat(d, t, h) == Some(f) && ReadSector(d, t, h, number, room).Some?
    ensures 0 <= number - f.start < f.sectors
  {}

  /** What a stream that holds sectors writes. */
  lemma StreamIsTrack(d: Disk, t: int, h: int, s: seq<byte>, f: Format, data: seq<seq<byte>>)
    requires WellFormed(d) && |Parse(s, 0)| > 0
    requires f == FormatOf(Parse(s, 0), f.doubleDensity) && data == Payloads(s, Parse(s, 0))
    ensures WriteTrack(d, t, h, s, f.doubleDensity) == WriteAll(SetTrackFormat(d, t, h, f), t, h, f.start, data)
  {
    hide WriteAll, SetTrackFormat, Parse, SizeOf, Payloads;
  }

  /** The file holds `len` bytes from the start of the track. */
  predicate Reaches(d: Disk, t: int, h: int, len: nat)
    requires WellFormed(d) && Has(d, t, h)
  {
    Index(d, t, h) < |d.formats| && Offset(d.formats, Index(d, t, h)) + len <= |d.bytes|
  }

  /** A track the file reaches the end of, or may grow to, each of its sectors of the right length, is written
      whole. */
  lemma WholeTrackLeft(d: Disk, t: int, h: int, f: Format, data: seq<seq<byte>>)
    requires WellFormed(d) && Has(d, t, h) && !d.readOnly && Known(f) && |data| == f.sectors
    requires d.grows || Reaches(d, t, h, f.sectors * f.size)
    requires forall k :: 0 <= k < |data| ==> |data[k]| == f.size
    ensures var w := WriteAll(SetTrackFormat(d, t, h, f), t, h, f.start, data);
      && w.ok && TrackFormat(w.disk, t, h) == Some(f)
      && forall k, room :: 0 <= k < |data| && room >= f.size ==> Reads(w.disk, t, h, f.start, k, room, data[k], f.size)
  {
    hide WriteAll, SetTrackFormat, Reads, TrackFormat, Index, Offset;
    IndexInside(d, t, h);
    TrackOk(d, t, h, f, data);
    TrackLeft(d, t, h, f, data);
  }

  lemma WindowHolds(s: seq<byte>, f: Field, x: Sector)
    requires Holds(s, f, x)
    ensures Payload(s, f) == x.data && f.number == x.number && f.code == x.code % 4
  {}

  lemma SizePositive(code: nat)
    requires code < 4
    ensures SizeOf(code) > 0
  {}

  // ---------------------------------------------------------------------------------------
  // Format a Track
  // ---------------------------------------------------------------------------------------

  datatype Id = Id(number: int, size: nat, doubleDensity: bool)

  function Numbers(ids: seq<Id>): set<int> {
    set k | 0 <= k < |ids| :: ids[k].number
  }

  function Range(lo: int, n: nat): (vs: set<int>)
    ensures forall v :: v in vs <==> lo <= v < lo + n
  {
    if n == 0 then {} else Range(lo, n - 1) + {lo + n - 1}
  }

  predicate Uniform(ids: seq<Id>) {
    forall k :: 0 <= k < |ids| ==> ids[k].size == ids[0].size && ids[k].doubleDensity == ids[0].doubleDensity
  }

  /** The IDs fit a raw image: of one size and one density, their numbers `lo` onwards in some order. */
  predicate Fits(ids: seq<Id>, lo: int) {
    |ids| > 0 && Uniform(ids) && Numbers(ids) == Range(lo, |ids|)
  }

  lemma {:induction false} RangeCount(lo: int, n: nat)
    ensures |Range(lo, n)| == n
  {
    if n > 0 {
      RangeCount(lo, n - 1);
    }
  }

  lemma NumbersPush(ids: seq<Id>, x: Id)
    ensures Numbers(ids + [x]) == Numbers(ids) + {x.number}
  {
    var all := ids + [x];
    assert all[|ids|] == x;
    forall v | v in Numbers(ids)
      ensures v in Numbers(all)
    {
      var k :| 0 <= k < |ids| && ids[k].number == v;
      assert all[k].number == v;
    }
  }

  lemma {:induction false} NumbersCount(ids: seq<Id>)
    ensures |Numbers(ids)| <= |ids|
  {
    if |ids| > 0 {
      var n := |ids| - 1;
      NumbersCount(ids[..n]);
      NumbersPush(ids[..n], ids[n]);
      assert ids[..n] + [ids[n]] == ids;
    }
  }

  /** A repeated number leaves too few to fill a range. */
  lemma {:induction false} RepeatFallsShort(ids: seq<Id>, i: nat, j: nat)
    requires i < j < |ids| && ids[i].number == ids[j].number
    ensures |Numbers(ids)| < |ids|
    decreases |ids|
  {
    var n := |ids| - 1;
    NumbersPush(ids[..n], ids[n]);
    assert ids[..n] + [ids[n]] == ids;
    if j == n {
      assert ids[..n][i].number in Numbers(ids[..n]);
      assert Numbers(ids) == Numbers(ids[..n]);
      NumbersCount(ids[..n]);
    } else {
      RepeatFallsShort(ids[..n], i, j);
    }
  }

  /** The numbers that fit are each there once. */
  lemma FitsOnce(ids: seq<Id>, lo: int)
    requires Fits(ids, lo)
    ensures forall i, j :: 0 <= i < j < |ids| ==> ids[i].number != ids[j].number
    ensures forall k :: 0 <= k < |ids| ==> lo <= ids[k].number < lo + |ids|
  {
    RangeCount(lo, |ids|);
    forall i, j | 0 <= i < j < |ids|
      ensures ids[i].number != ids[j].number
    {
      if ids[i].number == ids[j].number {
        RepeatFallsShort(ids, i, j);
      }
    }
    forall k | 0 <= k < |ids|
      ensures lo <= ids[k].number < lo + |ids|
    {
      assert ids[k].number in Range(lo, |ids|);
    }
  }

  /** Nothing fits a list with a number past the range that starts at its lowest. */
  lemma LowestStarts(ids: seq<Id>, lo: int, at: int)
    requires Fits(ids, at) && lo in Numbers(ids) && forall k :: 0 <= k < |ids| ==> lo <= ids[k].number
    ensures at == lo
  {
    assert at in Range(at, |ids|);
    var k :| 0 <= k < |ids| && ids[k].number == at;
    assert lo in Range(at, |ids|);
  }

  /** The lowest number, if the sizes and densities are all the same. */
  method Lowest(ids: seq<Id>) returns (uniform: bool, lo: int)
    requires |ids| > 0
    ensures uniform == Uniform(ids)
    ensures uniform ==> lo in Numbers(ids) && forall k :: 0 <= k < |ids| ==> lo <= ids[k].number
  {
    lo := ids[0].number;
    for i := 0 to |ids|
      invariant forall k :: 0 <= k < i ==> ids[k].size == ids[0].size && ids[k].doubleDensity == ids[0].doubleDensity
      invariant forall k :: 0 <= k < i ==> lo <= ids[k].number
      invariant exists k :: 0 <= k < |ids| && ids[k].number == lo
    {
      if ids[i].size != ids[0].size || ids[i].doubleDensity != ids[0].doubleDensity {
        return false, lo;
      }
      if ids[i].number < lo {
        lo := ids[i].number;
      }
    }
    uniform := true;
  }

  /** Tells in one pass over the sizes and one over the numbers, with a mark for each number seen. */
  method Shape(ids: seq<Id>) returns (start: Option<int>)
    ensures start.Some? ==> Fits(ids, start.value)
    ensures start.None? ==> forall lo :: !Fits(ids, lo)
  {
    hide Numbers, Range;
    if |ids| == 0 {
      return None;
    }
    var uniform, lo := Lowest(ids);
    if !uniform {
      return None;
    }
    var seen := new bool[|ids|](_ => false);
    NumbersCount(ids[..0]);
    for i := 0 to |ids|
      invariant |Numbers(ids[..i])| == i && Numbers(ids[..i]) <= Range(lo, |ids|)
      invariant forall k :: 0 <= k < |ids| ==> seen[k] == (lo + k in Numbers(ids[..i]))
    {
      var k := ids[i].number - lo;
      NumbersPush(ids[..i], ids[i]);
      assert ids[..i] + [ids[i]] == ids[..i + 1];
      if k >= |ids| || seen[k] {
        NothingFits(ids, lo, i);
        return None;
      }
      seen[k] := true;
    }
    assert ids[..|ids|] == ids;
    RangeCount(lo, |ids|);
    SubsetFills(Numbers(ids), Range(lo, |ids|));
    start := Some(lo);
  }

  lemma NothingFits(ids: seq<Id>, lo: int, i: nat)
    requires i < |ids| && lo in Numbers(ids) && forall k :: 0 <= k < |ids| ==> lo <= ids[k].number
    requires ids[i].number >= lo + |ids| || ids[i].number in Numbers(ids[..i])
    ensures forall at :: !Fits(ids, at)
  {
    forall at | Fits(ids, at)
      ensures false
    {
      LowestStarts(ids, lo, at);
      FitsOnce(ids, at);
    }
  }

  lemma SubsetFills(a: set<int>, b: set<int>)
    requires a <= b && |a| == |b|
    ensures a == b
  {
    assert b == a + (b - a);
  }

  function Filled(n: nat, size: nat, fill: byte): seq<seq<byte>> {
    seq(n, _ => seq(size, _ => fill))
  }

  function FormatAt(d: Disk, t: int, h: int, ids: seq<Id>, lo: int, fill: byte): Wrote
    requires WellFormed(d) && |ids| > 0
  {
    WriteAll(SetTrackFormat(d, t, h, Format(ids[0].doubleDensity, |ids|, ids[0].size, lo)), t, h, lo,
             Filled(|ids|, ids[0].size, fill))
  }

  datatype SectorId = SectorId(track: int, sector: int, size: nat, code: nat, doubleDensity: bool)

  /** The `index`th ID field under the head, made up from the track's format. */
  function SectorIdAt(d: Disk, t: int, h: int, index: int): Option<SectorId>
    requires WellFormed(d)
  {
    match TrackFormat(d, t, h)
    case None => None
    case Some(f) =>
      if index < 0 || index >= f.sectors then None
      else Some(SectorId(t, f.start + index, f.size, CodeFor(f.size), f.doubleDensity))
  }

  function CodeFor(size: nat): nat {
    match size
    case 128 => 0
    case 256 => 1
    case 512 => 2
    case 1024 => 3
    case _ => 0
  }

  /** A track formatted from a list of IDs: going round it, the drive reports exactly the numbers
      listed, each once, and each one's data reads as the fill. */
  lemma FormattedTrack(d: Disk, t: int, h: int, ids: seq<Id>, lo: int, fill: byte)
    requires WellFormed(d) && Fits(ids, lo) && FormatAt(d, t, h, ids, lo, fill).ok
    ensures var e := FormatAt(d, t, h, ids, lo, fill).disk;
      && WellFormed(e)
      && (forall k :: 0 <= k < |ids| ==> SectorIdAt(e, t, h, k).Some? && SectorIdAt(e, t, h, k).value.sector in Numbers(ids)
                                         && SectorIdAt(e, t, h, k).value.size == ids[0].size)
      && (forall i :: 0 <= i < |ids| ==> SectorIdAt(e, t, h, ids[i].number - lo).Some?
                                         && SectorIdAt(e, t, h, ids[i].number - lo).value.sector == ids[i].number)
      && SectorIdAt(e, t, h, |ids|).None?
      && forall i, room :: 0 <= i < |ids| && room >= ids[i].size ==>
           ReadSector(e, t, h, ids[i].number, room) == Some(seq(ids[i].size, _ => fill))
  {
    hide WriteAll, SetTrackFormat, ReadSector, TrackFormat, Numbers, Range;
    var f := Format(ids[0].doubleDensity, |ids|, ids[0].size, lo);
    var e := FormatAt(d, t, h, ids, lo, fill).disk;
    WriteAllOk(SetTrackFormat(d, t, h, f), t, h, lo, Filled(|ids|, ids[0].size, fill));
    assert Each(SetTrackFormat(d, t, h, f), t, h, lo, Filled(|ids|, ids[0].size, fill), 0);
    NoTrack(d, t, h, f);
    TrackLeft(d, t, h, f, Filled(|ids|, ids[0].size, fill));
    FitsOnce(ids, lo);
    forall k | 0 <= k < |ids|
      ensures SectorIdAt(e, t, h, k).value.sector in Numbers(ids)
    {
      assert lo + k in Range(lo, |ids|);
    }
    forall i, room | 0 <= i < |ids| && room >= ids[i].size
      ensures ReadSector(e, t, h, ids[i].number, room) == Some(seq(ids[i].size, _ => fill))
    {
      var k := ids[i].number - lo;
      assert Reads(e, t, h, lo, k, room, Filled(|ids|, f.size, fill)[k], f.size);
      assert Filled(|ids|, f.size, fill)[k][..f.size] == seq(ids[i].size, _ => fill);
    }
  }

  /** A length code is how often 128 is doubled, and a sector of that size reports it. */
  lemma LengthCodes(code: nat)
    requires code < 4
    ensures SizeOf(code) == 128 * Arithmetic.Pow2(code) && CodeFor(128 * Arithmetic.Pow2(code)) == code
  {
    assert Arithmetic.Pow2(0) == 1 && Arithmetic.Pow2(1) == 2;
    assert Arithmetic.Pow2(2) == 4;
    assert Arithmetic.Pow2(3) == 8;
  }

  /** A stream with no ID address mark in it formats nothing. */
  lemma NoMarkNoTrack(d: Disk, t: int, h: int, s: seq<byte>, doubleDensity: bool)
    requires WellFormed(d) && 0xFE !in s
    ensures WriteTrack(d, t, h, s, doubleDensity) == Wrote(d, false)
  {
    hide Parse;
    SkipGap(s, 0, |s|);
    NothingLeft(s);
  }

  // ---------------------------------------------------------------------------------------
  // The drive
  // ---------------------------------------------------------------------------------------

  class Drive {
    var img: Image?
    var head: nat
    var side: int
    const canFormat: bool

    constructor (formats: bool)
      ensures img == null && head == 0 && side == 0 && canFormat == formats
    {
      img, head, side, canFormat := null, 0, 0, formats;
    }

    /** Inward past the last track, or outward at track 0, the head stays where it is. With no diskette
        there is no last track. */
    method Step(inward: bool)
      modifies this`head
      ensures inward && (img == null || old(head) + 1 < img.tracks) ==> head == old(head) + 1
      ensures inward && img != null && old(head) + 1 >= img.tracks ==> head == old(head)
      ensures !inward ==> head == if old(head) == 0 then 0 else old(head) - 1
    {
      if img == null {
        if inward {
          head := head + 1;
        } else if head > 0 {
          head := head - 1;
        }
      } else if inward {
        if head < img.tracks - 1 {
          head := head + 1;
        }
      } else if head > 0 {
        head := head - 1;
      }
    }

    /** Sectors from `first` on, in order, until one is refused. */
    static method Lay(img: Image, t: int, h: int, first: int, data: seq<seq<byte>>) returns (ok: bool)
      requires img.Valid()
      modifies img
      ensures img.Valid() && Wrote(img.State(), ok) == WriteAll(old(img.State()), t, h, first, data)
    {
      hide WriteSector;
      ok := true;
      var s := 0;
      assert data[0..] == data;
      while ok && s < |data|
        invariant 0 <= s <= |data| && img.Valid()
        invariant if ok then WriteAll(img.State(), t, h, first + s, data[s..]) == WriteAll(old(img.State()), t, h, first, data)
                  else Wrote(img.State(), false) == WriteAll(old(img.State()), t, h, first, data)
        decreases |data| - s, ok
      {
        ok := img.Write(t, h, first + s, data[s]);
        assert data[s..][1..] == data[s + 1..];
        if ok {
          s := s + 1;
        }
      }
    }

    method WriteTrackImage(s: seq<byte>, doubleDensity: bool) returns (ok: bool)
      requires img != null ==> img.Valid()
      modifies img
      ensures img == null ==> !ok
      ensures img != null ==>
                img.Valid() && Wrote(img.State(), ok) == WriteTrack(old(img.State()), head, side, s, doubleDensity)
    {
      hide SetTrackFormat, WriteAll, Parse;
      if img == null {
        return false;
      }
      var fields := Scan(s);
      if |fields| == 0 {
        return false;
      }
      img.SetFormat(head, side, Format(doubleDensity, |fields|, SizeOf(fields[0].code % 4), fields[0].number));
      ok := Lay(img, head, side, fields[0].number, Payloads(s, fields));
    }

    method FormatTrack(ids: seq<Id>, fill: byte) returns (ok: bool)
      requires img != null ==> img.Valid()
      modifies img
      ensures img == null || !canFormat ==> !ok
      ensures img != null ==> img.Valid()
      ensures img != null && (!canFormat || forall lo :: !Fits(ids, lo)) ==> !ok && img.State() == old(img.State())
      ensures img != null && canFormat ==> forall lo :: Fits(ids, lo) ==>
                Wrote(img.State(), ok) == FormatAt(old(img.State()), head, side, ids, lo, fill)
    {
      hide SetTrackFormat, WriteAll, Numbers, Range;
      if img == null || !canFormat {
        return false;
      }
      var start := Shape(ids);
      if start.None? {
        return false;
      }
      var lo := start.value;
      forall at | Fits(ids, at)
        ensures at == lo
      {
        OneStart(ids, at, lo);
      }
      img.SetFormat(head, side, Format(ids[0].doubleDensity, |ids|, ids[0].size, lo));
      ok := Lay(img, head, side, lo, Filled(|ids|, ids[0].size, fill));
    }

    method ReadData(sector: int, room: nat) returns (data: Option<seq<byte>>)
      requires img != null ==> img.Valid()
      ensures data == if img == null then None else ReadSector(img.State(), head, side, sector, room)
    {
      if img == null {
        return None;
      }
      data := img.Read(head, side, sector, room);
    }

    method WriteData(sector: int, data: seq<byte>) returns (ok: bool)
      requires img != null ==> img.Valid()
      modifies img
      ensures img == null ==> !ok
      ensures img != null ==>
                img.Valid() && Wrote(img.State(), ok) == WriteSector(old(img.State()), head, side, sector, data)
    {
      if img == null {
        return false;
      }
      ok := img.Write(head, side, sector, data);
    }
  }

  lemma OneStart(ids: seq<Id>, a: int, b: int)
    requires Fits(ids, a) && Fits(ids, b)
    ensures a == b
  {
    assert a in Range(b, |ids|) && b in Range(a, |ids|);
  }
}
