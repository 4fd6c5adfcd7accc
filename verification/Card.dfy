/** A flash card as both card boards see it: a run of bytes in sectors of 512. A card of fixed geometry
    refuses a write past its end; a plain file grows.
 */
module Card {
  import opened Arithmetic
  import opened Basics
  import opened DiskImage

  const SECTOR: nat := 512

  datatype Medium = Medium(bytes: seq<byte>, readOnly: bool, fixed: bool)

  /** All of it or nothing. */
  function ReadAt(m: Medium, off: nat, n: nat): (r: Option<seq<byte>>)
    ensures r.Some? ==> |r.value| == n
  {
    if off + n <= |m.bytes| then Some(m.bytes[off..off + n]) else None
  }

  function StoreAt(m: Medium, off: nat, data: seq<byte>): Option<Medium> {
    if m.readOnly || (m.fixed && off + |data| > |m.bytes|) then None
    else Some(m.(bytes := WriteAt(m.bytes, off, data)))
  }

  function Block(m: Medium, k: nat): (r: Option<seq<byte>>)
    ensures r.Some? ==> |r.value| == SECTOR
  {
    ReadAt(m, k * SECTOR, SECTOR)
  }

  function StoreBlock(m: Medium, k: nat, data: seq<byte>): Option<Medium>
    requires |data| == SECTOR
  {
    StoreAt(m, k * SECTOR, data)
  }

  /** A block stored is the block read, and no other block that was there changes. */
  lemma BlockStored(m: Medium, k: nat, data: seq<byte>, j: nat)
    requires |data| == SECTOR && StoreBlock(m, k, data).Some?
    ensures var r := StoreBlock(m, k, data).value;
      && r == m.(bytes := r.bytes) && |r.bytes| >= |m.bytes| && Block(r, k) == Some(data)
      && (j != k && Block(m, j).Some? ==> Block(r, j) == Block(m, j))
  {
    if j != k && Block(m, j).Some? {
      var r := StoreBlock(m, k, data).value;
      var lo := j * SECTOR;
      assert lo + SECTOR <= k * SECTOR || lo >= k * SECTOR + SECTOR;
      assert forall i :: lo <= i < lo + SECTOR ==> r.bytes[i] == m.bytes[i];
      assert r.bytes[lo..lo + SECTOR] == m.bytes[lo..lo + SECTOR];
    }
  }

  lemma MayStore(m: Medium, k: nat, data: seq<byte>)
    requires |data| == SECTOR
    ensures StoreBlock(m, k, data).Some? <==> !m.readOnly && (m.fixed ==> Block(m, k).Some?)
  {}
}
