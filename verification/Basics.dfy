/** What every module shares. */
module Basics {

  type byte = x: int | 0 <= x < 256

  datatype Option<+T> = None | Some(value: T)

  /** Is the single bit `mask` set in `v`? */
  predicate Bit(v: byte, mask: nat)
    requires mask > 0
  {
    v / mask % 2 == 1
  }

  /** Of a drive command: the low four bits are clear when it is neither a step nor a head command. */
  lemma CommandBits(v: byte)
    ensures v % 16 == 0 <==> v % 4 == 0 && !Bit(v, 4) && !Bit(v, 8)
  {}
}
