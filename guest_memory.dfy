/**
 * Guest linear memory as the shim sees it through a `DataView` over the
 * instance's memory buffer: a byte array addressed by guest offsets. The
 * stores below are the `DataView` setters the handlers call; each is
 * specified by `Store` on the memory's contents.
 */
module GuestMemory {
  import opened LittleEndian

  /** Memory after `bytes` are written at `at`: the written range holds
      `bytes`, and every other byte keeps its value. */
  function Store(mem: seq<Byte>, at: int, bytes: seq<Byte>): (r: seq<Byte>)
    requires 0 <= at && at + |bytes| <= |mem|
    ensures |r| == |mem|
    ensures r[at..at + |bytes|] == bytes
    ensures forall i | 0 <= i < |mem| && !(at <= i < at + |bytes|) :: r[i] == mem[i]
  {
    mem[..at] + bytes + mem[at + |bytes|..]
  }

  /** The u32 at `at`, as `DataView.getUint32(at, true)` reads it. */
  function GetUint32(view: array<Byte>, at: int): (v: U32)
    reads view
    requires 0 <= at && at + 4 <= view.Length
    ensures EncodeU32(v) == view[at..at + 4]
  {
    EncodeDecodeU32(view[at..at + 4]);
    DecodeU32(view[at..at + 4])
  }

  /** Copies `bytes` into the view at `at` (`Uint8Array.set` and the byte
      writes of the `DataView` setters). */
  method Write(view: array<Byte>, at: int, bytes: seq<Byte>)
    requires 0 <= at && at + |bytes| <= view.Length
    modifies view
    ensures view[..] == Store(old(view[..]), at, bytes)
  {
    forall i | 0 <= i < |bytes| {
      view[at + i] := bytes[i];
    }
    assert forall i | 0 <= i < view.Length :: view[..][i] == Store(old(view[..]), at, bytes)[i];
  }

  /** `DataView.setUint8(at, v)`. */
  method SetUint8(view: array<Byte>, at: int, v: Byte)
    requires 0 <= at && at + 1 <= view.Length
    modifies view
    ensures view[..] == Store(old(view[..]), at, [v])
  {
    Write(view, at, [v]);
  }

  /** `DataView.setUint16(at, v, true)`. */
  method SetUint16(view: array<Byte>, at: int, v: U16)
    requires 0 <= at && at + 2 <= view.Length
    modifies view
    ensures view[..] == Store(old(view[..]), at, EncodeU16(v))
  {
    Write(view, at, EncodeU16(v));
  }

  /** `DataView.setUint32(at, v, true)`. */
  method SetUint32(view: array<Byte>, at: int, v: U32)
    requires 0 <= at && at + 4 <= view.Length
    modifies view
    ensures view[..] == Store(old(view[..]), at, EncodeU32(v))
  {
    Write(view, at, EncodeU32(v));
  }
}
