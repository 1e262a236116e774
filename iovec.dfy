/**
 * The scatter-gather side of `fd_write`: the guest passes an array of
 * preview1 `ciovec` records (8 bytes each: a u32 offset, then a u32 length,
 * both little-endian), and the shim concatenates the byte ranges they name,
 * in record order, into one buffer.
 */
module IoVecs {
  import opened LittleEndian
  import opened GuestMemory

  /** One `ciovec`: where a range of guest bytes starts and how long it is. */
  datatype IoVec = IoVec(offset: U32, len: U32)

  /** The i-th record of the table at `iovs`: the two little-endian u32s
      `getUint32` reads at `iovs + 8 * i` and `iovs + 8 * i + 4`. Decoding
      loses nothing: encoding the fields again gives back the record's bytes. */
  function IoVecAt(mem: seq<Byte>, iovs: int, i: int): (v: IoVec)
    requires 0 <= i && 0 <= iovs && iovs + 8 * (i + 1) <= |mem|
    ensures var at := iovs + 8 * i;
      EncodeU32(v.offset) == mem[at..at + 4] && EncodeU32(v.len) == mem[at + 4..at + 8]
  {
    var at := iovs + 8 * i;
    EncodeDecodeU32(mem[at..at + 4]);
    EncodeDecodeU32(mem[at + 4..at + 8]);
    IoVec(DecodeU32(mem[at..at + 4]), DecodeU32(mem[at + 4..at + 8]))
  }

  /** Whether the table at `iovs` holds n whole records inside memory. */
  predicate TableInBounds(mem: seq<Byte>, iovs: int, n: int)
  {
    n <= 0 || (0 <= iovs && iovs + 8 * n <= |mem|)
  }

  /** The first n records of the table at `iovs`, decoded. */
  function Table(mem: seq<Byte>, iovs: int, n: int): (vecs: seq<IoVec>)
    requires TableInBounds(mem, iovs, n)
    ensures |vecs| == if n <= 0 then 0 else n
    decreases n
  {
    if n <= 0 then [] else Table(mem, iovs, n - 1) + [IoVecAt(mem, iovs, n - 1)]
  }

  /** Entry i of the table is the record stored at `iovs + 8 * i`. */
  lemma {:induction false} TableAt(mem: seq<Byte>, iovs: int, n: int, i: int)
    requires TableInBounds(mem, iovs, n) && 0 <= i < n
    ensures 0 <= iovs && iovs + 8 * (i + 1) <= |mem|
    ensures Table(mem, iovs, n)[i] == IoVecAt(mem, iovs, i)
    decreases n
  {
    var init := Table(mem, iovs, n - 1);
    assert Table(mem, iovs, n) == init + [IoVecAt(mem, iovs, n - 1)];
    if i < n - 1 {
      TableAt(mem, iovs, n - 1, i);
    }
  }

  /** Whether the range a record names lies inside memory. */
  predicate ViewInBounds(mem: seq<Byte>, v: IoVec)
  {
    v.offset + v.len <= |mem|
  }

  /** The guest bytes a record names (`new Uint8Array(buffer, offset, len)`). */
  function View(mem: seq<Byte>, v: IoVec): seq<Byte>
    requires ViewInBounds(mem, v)
  {
    mem[v.offset..v.offset + v.len]
  }

  predicate ViewsInBounds(mem: seq<Byte>, vecs: seq<IoVec>)
  {
    forall k | 0 <= k < |vecs| :: ViewInBounds(mem, vecs[k])
  }

  /** The ranges the records name, in record order. */
  function Views(mem: seq<Byte>, vecs: seq<IoVec>): (bs: seq<seq<Byte>>)
    requires ViewsInBounds(mem, vecs)
    ensures |bs| == |vecs|
  {
    if vecs == [] then [] else Views(mem, vecs[..|vecs| - 1]) + [View(mem, vecs[|vecs| - 1])]
  }

  /** Taking one more record appends the range it names. */
  lemma ViewsNext(mem: seq<Byte>, vecs: seq<IoVec>, i: int)
    requires ViewsInBounds(mem, vecs) && 0 <= i < |vecs|
    ensures ViewInBounds(mem, vecs[i]) && ViewsInBounds(mem, vecs[..i]) && ViewsInBounds(mem, vecs[..i + 1])
    ensures Views(mem, vecs[..i + 1]) == Views(mem, vecs[..i]) + [View(mem, vecs[i])]
  {
    assert vecs[..i + 1][..i] == vecs[..i];
  }

  /** Entry k of the ranges is the range record k names: none is skipped,
      repeated or moved. */
  lemma {:induction false} ViewsAt(mem: seq<Byte>, vecs: seq<IoVec>, k: int)
    requires ViewsInBounds(mem, vecs) && 0 <= k < |vecs|
    ensures ViewInBounds(mem, vecs[k]) && Views(mem, vecs)[k] == View(mem, vecs[k])
  {
    if k < |vecs| - 1 {
      var init := vecs[..|vecs| - 1];
      assert init[k] == vecs[k];
      ViewsAt(mem, init, k);
    }
  }

  /** Whether `fd_write` can gather from the table at `iovs`: its first n
      records, and every range they name, lie inside memory. */
  predicate GatherInBounds(mem: seq<Byte>, iovs: int, n: int)
  {
    TableInBounds(mem, iovs, n) && ViewsInBounds(mem, Table(mem, iovs, n))
  }

  /** The byte ranges named by the first n records of the table at `iovs`,
      in record order. */
  function Gather(mem: seq<Byte>, iovs: int, n: int): seq<seq<Byte>>
    requires GatherInBounds(mem, iovs, n)
  {
    Views(mem, Table(mem, iovs, n))
  }

  /** Entry i of what is gathered is the range named by the record at
      `iovs + 8 * i`. */
  lemma GatherAt(mem: seq<Byte>, iovs: int, n: int, i: int)
    requires GatherInBounds(mem, iovs, n) && 0 <= i < n
    ensures 0 <= iovs && iovs + 8 * (i + 1) <= |mem|
    ensures var v := IoVecAt(mem, iovs, i);
      v.offset + v.len <= |mem| && |Gather(mem, iovs, n)| == n
      && Gather(mem, iovs, n)[i] == mem[v.offset..v.offset + v.len]
  {
    TableAt(mem, iovs, n, i);
    ViewsAt(mem, Table(mem, iovs, n), i);
  }

  /** Sum of the lengths of `bs` (the `reduce` over the gathered buffers). */
  function TotalLength(bs: seq<seq<Byte>>): (n: nat)
    ensures forall k | 0 <= k < |bs| :: |bs[k]| <= n
  {
    if bs == [] then 0 else TotalLength(bs[..|bs| - 1]) + |bs[|bs| - 1]|
  }

  /** The buffers of `bs` one after the other. */
  function Concat(bs: seq<seq<Byte>>): (r: seq<Byte>)
    ensures |r| == TotalLength(bs)
  {
    if bs == [] then [] else Concat(bs[..|bs| - 1]) + bs[|bs| - 1]
  }

  /** A prefix of the buffers never sums to more than all of them. */
  lemma {:induction false} TotalLengthPrefix(bs: seq<seq<Byte>>, k: nat)
    requires k <= |bs|
    ensures TotalLength(bs[..k]) <= TotalLength(bs)
  {
    if k < |bs| {
      assert bs[..|bs| - 1][..k] == bs[..k];
      TotalLengthPrefix(bs[..|bs| - 1], k);
    } else {
      assert bs[..k] == bs;
    }
  }

  /** Concatenation distributes over joining the list of buffers. */
  lemma {:induction false} ConcatAppend(a: seq<seq<Byte>>, b: seq<seq<Byte>>)
    ensures Concat(a + b) == Concat(a) + Concat(b)
    decreases |b|
  {
    if b == [] {
      assert a + b == a;
    } else {
      var init := b[..|b| - 1];
      assert (a + b)[..|a + b| - 1] == a + init;
      assert (a + b)[|a + b| - 1] == b[|b| - 1];
      ConcatAppend(a, init);
    }
  }

  /** Order is preserved: byte j of buffer i lands right after the bytes of
      buffers 0 .. i-1, which is where `forEach` places it with `offset`. */
  lemma {:induction false} ConcatAt(bs: seq<seq<Byte>>, i: nat, j: nat)
    requires i < |bs| && j < |bs[i]|
    ensures TotalLength(bs[..i]) + j < |Concat(bs)|
    ensures Concat(bs)[TotalLength(bs[..i]) + j] == bs[i][j]
  {
    assert bs == bs[..i] + [bs[i]] + bs[i + 1..];
    ConcatAppend(bs[..i] + [bs[i]], bs[i + 1..]);
    ConcatAppend(bs[..i], [bs[i]]);
    var single: seq<seq<Byte>> := [bs[i]];
    assert single[..0] == [];
  }

  /** One iteration's reads: the offset and length of record i. */
  method ReadIoVec(view: array<Byte>, iovs: int, i: int) returns (offset: U32, len: U32)
    requires 0 <= i && 0 <= iovs && iovs + 8 * (i + 1) <= view.Length
    ensures IoVec(offset, len) == IoVecAt(view[..], iovs, i)
  {
    var iov := iovs + i * 8;
    offset := GetUint32(view, iov);
    len := GetUint32(view, iov + 4);
    assert view[iov..iov + 4] == view[..][iov..iov + 4];
    assert view[iov + 4..iov + 8] == view[..][iov + 4..iov + 8];
  }

  /** `new Uint8Array(memory.buffer, offset, len)`, taken as a copy. */
  method ViewOf(view: array<Byte>, offset: U32, len: U32) returns (bytes: seq<Byte>)
    requires offset + len <= view.Length
    ensures bytes == View(view[..], IoVec(offset, len))
  {
    bytes := view[offset..offset as int + len];
  }

  /** The first loop of `fd_write`: read each record and collect the range
      it names. */
  method ReadIoVecs(view: array<Byte>, iovs: int, iovsLen: int) returns (buffers: seq<seq<Byte>>)
    requires GatherInBounds(view[..], iovs, iovsLen)
    ensures buffers == Gather(view[..], iovs, iovsLen)
  {
    ghost var mem := view[..];
    ghost var vecs := Table(mem, iovs, iovsLen);
    buffers := [];
    var i := 0;
    while i < iovsLen
      invariant 0 <= i <= |vecs|
      invariant buffers == Views(mem, vecs[..i])
    {
      var offset, len := ReadIoVec(view, iovs, i);
      TableAt(mem, iovs, iovsLen, i);
      ViewsNext(mem, vecs, i);
      var buffer := ViewOf(view, offset, len);
      buffers := buffers + [buffer];
      i := i + 1;
    }
    assert vecs[..i] == vecs;
  }

  /** The `reduce` and `forEach` of `fd_write`: allocate a buffer of the
      summed length and copy each gathered range into it at a running offset. */
  method Flatten(buffers: seq<seq<Byte>>) returns (buffer: array<Byte>)
    ensures fresh(buffer) && buffer[..] == Concat(buffers)
  {
    var length := TotalLength(buffers);
    buffer := new Byte[length];
    var offset := 0;
    for k := 0 to |buffers|
      invariant offset == TotalLength(buffers[..k]) <= length
      invariant buffer[..offset] == Concat(buffers[..k])
    {
      var b := buffers[k];
      assert buffers[..k + 1][..k] == buffers[..k];
      TotalLengthPrefix(buffers, k + 1);
      forall j | 0 <= j < |b| {
        buffer[offset + j] := b[j];
      }
      assert buffer[..offset + |b|] == buffer[..offset] + b;
      offset := offset + |b|;
    }
    assert buffers[..|buffers|] == buffers;
    assert buffer[..] == buffer[..offset];
  }
}
