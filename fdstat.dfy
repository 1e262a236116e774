/**
 * The record `fd_fdstat_get` leaves in guest memory. Its layout is that of
 * the preview1 `fdstat` struct (a u8 file type at offset 0, u16 flags at 2,
 * u64 rights at 8, u64 inheriting rights at 16), but the shim issues only
 * 8- and 16-bit stores, so the padding bytes and the upper six bytes of each
 * rights field keep whatever the guest had there.
 */
module Fdstat {
  import opened LittleEndian
  import opened GuestMemory

  const FILETYPE_CHARACTER_DEVICE: Byte := 2
  const FDSTAT_FLAGS: U16 := 1
  const FDSTAT_RIGHTS: U16 := 41  // 0b101001
  const FDSTAT_INHERITING_RIGHTS: U16 := 0

  /** One past the last byte the shim writes (the record itself is 24 bytes). */
  const FDSTAT_WRITTEN_END := 18

  /** Whether guest byte `i` is one of the bytes written for a record at `p`. */
  predicate WrittenByFdstat(p: int, i: int)
  {
    i == p || p + 2 <= i < p + 4 || p + 8 <= i < p + 10 || p + 16 <= i < p + 18
  }

  /** Memory after the four stores of `fd_fdstat_get` for a record at `p`. */
  function FdstatStored(mem: seq<Byte>, p: int): (r: seq<Byte>)
    requires 0 <= p && p + FDSTAT_WRITTEN_END <= |mem|
    ensures |r| == |mem|
    ensures r[p] == FILETYPE_CHARACTER_DEVICE
    ensures DecodeU16(r[p + 2..p + 4]) == FDSTAT_FLAGS
    ensures DecodeU16(r[p + 8..p + 10]) == FDSTAT_RIGHTS
    ensures DecodeU16(r[p + 16..p + 18]) == FDSTAT_INHERITING_RIGHTS
    ensures forall i | 0 <= i < |mem| && !WrittenByFdstat(p, i) :: r[i] == mem[i]
  {
    var withType := Store(mem, p, [FILETYPE_CHARACTER_DEVICE]);
    var withFlags := Store(withType, p + 2, EncodeU16(FDSTAT_FLAGS));
    var withRights := Store(withFlags, p + 8, EncodeU16(FDSTAT_RIGHTS));
    Store(withRights, p + 16, EncodeU16(FDSTAT_INHERITING_RIGHTS))
  }
}
