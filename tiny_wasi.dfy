/**
 * The `TinyWASI` shim: host functions for the `wasi_snapshot_preview1`
 * import namespace, working on the linear memory of a bound guest instance.
 * Every handler checks in the same order: the descriptor (where it takes
 * one), then whether an instance is bound, then it touches memory. Results
 * are preview1 `errno` values.
 */
module Shim {
  import opened LittleEndian
  import opened GuestMemory
  import opened IoVecs
  import opened Console
  import opened Diagnostics
  import opened Fdstat

  const ERRNO_SUCCESS := 0
  const ERRNO_BADF := 8
  const ERRNO_FAULT := 21
  const ERRNO_NOSYS := 52

  /** The highest stream descriptor the shim accepts (0 stdin, 1 stdout, 2 stderr). */
  const MAX_FD := 2

  /** A guest instance as far as the shim uses it: its exported linear memory.
      (Memory growth, which replaces the buffer, is not modelled.) */
  class Instance {
    const memory: array<Byte>

    constructor (memory: array<Byte>)
      ensures this.memory == memory
    {
      this.memory := memory;
    }
  }

  /** Whether `fd_write` may read the iovec table and the ranges it names and
      store the u32 at `nwritten`: every access stays inside memory. */
  predicate FdWriteInBounds(mem: seq<Byte>, iovs: int, iovsLen: int, nwritten: int)
  {
    && GatherInBounds(mem, iovs, iovsLen)
    && 0 <= nwritten && nwritten + 4 <= |mem|
  }

  /** The bytes an `fd_write` hands to the console before the newline strip:
      the ranges named by the iovecs, concatenated in record order. */
  function Gathered(mem: seq<Byte>, iovs: int, iovsLen: int): (bytes: seq<Byte>)
    requires GatherInBounds(mem, iovs, iovsLen)
    ensures |bytes| == TotalLength(Gather(mem, iovs, iovsLen))
    ensures iovsLen <= 0 ==> bytes == []
  {
    Concat(Gather(mem, iovs, iovsLen))
  }

  /** Byte j of the range named by record i is output right after the
      ranges of records 0 .. i-1: the gathered text is those ranges in
      record order. */
  lemma GatheredAt(mem: seq<Byte>, iovs: int, iovsLen: int, i: int, j: int)
    requires GatherInBounds(mem, iovs, iovsLen) && 0 <= i < iovsLen
    requires 0 <= j < IoVecAt(mem, iovs, i).len
    ensures var v, before := IoVecAt(mem, iovs, i), TotalLength(Gather(mem, iovs, iovsLen)[..i]);
      && v.offset + j < |mem|
      && before + j < |Gathered(mem, iovs, iovsLen)|
      && Gathered(mem, iovs, iovsLen)[before + j] == mem[v.offset + j]
  {
    GatherAt(mem, iovs, iovsLen, i);
    ConcatAt(Gather(mem, iovs, iovsLen), i, j);
  }

  /** The count `fd_write` stores at `nwritten`: the concatenated length,
      reduced modulo 2^32 as `setUint32` does. */
  function WrittenCount(bytes: seq<Byte>): (n: U32)
    ensures (|bytes| - n) % 0x1_0000_0000 == 0
    ensures |bytes| < 0x1_0000_0000 ==> n == |bytes|
  {
    |bytes| % 0x1_0000_0000
  }

  class TinyWasi {
    /** The bound guest instance; `null` until `Initialize`. */
    var instance: Instance?
    /** Everything the shim has printed, oldest first. */
    ghost var log: seq<Record>

    constructor ()
      ensures instance == null && log == []
    {
      instance := null;
      log := [];
    }

    /** Binds the guest instance (a later call replaces it). Running the
        guest's `_initialize` export is not modelled. */
    method Initialize(inst: Instance)
      modifies this`instance
      ensures instance == inst
      ensures log == old(log)
    {
      instance := inst;
    }

    /** `getMemory` / `getDataView`: the bound instance's memory, or nothing
        while no instance is bound. */
    function GetMemory(): (view: array?<Byte>)
      reads this, instance
      ensures view == null <==> instance == null
      ensures instance != null ==> view == instance.memory
    {
      if instance != null then instance.memory else null
    }

    /** The objects a handler may change: the bound instance's memory. */
    ghost function Footprint(): set<object>
      reads this, instance
    {
      if instance == null then {} else {instance.memory}
    }

    /** A stub for a syscall the shim does not implement: prints one
        diagnostic naming the call and its arguments, and fails. */
    method NoSys(name: string, args: seq<int>) returns (errno: int)
      modifies this`log
      ensures errno == ERRNO_NOSYS
      ensures log == old(log) + [Record(Error, Literal(UnimplementedMessage(name, args)))]
    {
      log := log + [Record(Error, Literal(UnimplementedMessage(name, args)))];
      errno := ERRNO_NOSYS;
    }

    /** `fd_fdstat_get`: describes every accepted descriptor as a character
        device by writing an `fdstat` record at `fdstat`. */
    method FdFdstatGet(fd: int, fdstat: int) returns (errno: int)
      requires fd <= MAX_FD && instance != null ==>
        0 <= fdstat && fdstat + FDSTAT_WRITTEN_END <= instance.memory.Length
      modifies Footprint()
      ensures fd > MAX_FD ==> errno == ERRNO_BADF
      ensures fd <= MAX_FD && instance == null ==> errno == ERRNO_FAULT
      ensures fd <= MAX_FD && instance != null ==>
        errno == ERRNO_SUCCESS && instance.memory[..] == FdstatStored(old(instance.memory[..]), fdstat)
      ensures errno != ERRNO_SUCCESS ==> unchanged(Footprint())
      ensures log == old(log)
    {
      if fd > MAX_FD {
        return ERRNO_BADF;
      }
      var view := GetMemory();
      if view == null {
        return ERRNO_FAULT;
      }
      SetUint8(view, fdstat, FILETYPE_CHARACTER_DEVICE);
      SetUint16(view, fdstat + 2, FDSTAT_FLAGS);
      SetUint16(view, fdstat + 8, FDSTAT_RIGHTS);
      SetUint16(view, fdstat + 16, FDSTAT_INHERITING_RIGHTS);
      return ERRNO_SUCCESS;
    }

    /** `fd_write`: gathers the bytes the iovecs name, prints them (less one
        trailing newline) to the descriptor's channel and stores how many
        bytes were gathered at `nwritten`. */
    method FdWrite(fd: int, iovs: int, iovsLen: int, nwritten: int) returns (errno: int)
      requires fd <= MAX_FD && instance != null ==>
        FdWriteInBounds(instance.memory[..], iovs, iovsLen, nwritten)
      modifies Footprint(), this`log
      ensures fd > MAX_FD ==> errno == ERRNO_BADF
      ensures fd <= MAX_FD && instance == null ==> errno == ERRNO_FAULT
      ensures errno != ERRNO_SUCCESS ==> unchanged(Footprint()) && log == old(log)
      ensures fd <= MAX_FD && instance != null ==>
        var bytes := Gathered(old(instance.memory[..]), iovs, iovsLen);
        && errno == ERRNO_SUCCESS
        && instance.memory[..] == Store(old(instance.memory[..]), nwritten, EncodeU32(WrittenCount(bytes)))
        && log == old(log) + [Record(ChannelFor(fd), Decoded(StripTrailingNewline(bytes)))]
    {
      if fd > MAX_FD {
        return ERRNO_BADF;
      }
      var view := GetMemory();
      if view == null {
        return ERRNO_FAULT;
      }
      ghost var mem := view[..];
      var buffers := ReadIoVecs(view, iovs, iovsLen);
      var buffer := Flatten(buffers);
      ghost var bytes := buffer[..];
      assert bytes == Gathered(mem, iovs, iovsLen) && view[..] == mem;
      log := log + [Record(ChannelFor(fd), Decoded(StripTrailingNewline(bytes)))];
      SetUint32(view, nwritten, buffer.Length % 0x1_0000_0000);
      assert buffer.Length % 0x1_0000_0000 == WrittenCount(bytes);
      return ERRNO_SUCCESS;
    }

    /** `clock_time_get`: stores the clock reading as two u32 words at `time`
        and `time + 4`. The words the source derives from the host clock are
        the parameters `low` and `high`. */
    method ClockTimeGet(clockId: int, precision: int, time: int, low: U32, high: U32) returns (errno: int)
      requires instance != null ==> 0 <= time && time + 8 <= instance.memory.Length
      modifies Footprint()
      ensures instance == null ==> errno == ERRNO_FAULT && unchanged(Footprint())
      ensures instance != null ==>
        errno == ERRNO_SUCCESS
        && instance.memory[..] == Store(Store(old(instance.memory[..]), time, EncodeU32(low)), time + 4, EncodeU32(high))
      ensures log == old(log)
    {
      var view := GetMemory();
      if view == null {
        return ERRNO_FAULT;
      }
      SetUint32(view, time, low);
      SetUint32(view, time + 4, high);
      return ERRNO_SUCCESS;
    }

    /** `random_get`: fills `size` bytes at `pointer` from the host's secure
        random source, whose output is the parameter `random`. */
    method RandomGet(pointer: int, size: int, random: seq<Byte>) returns (errno: int)
      requires instance != null ==>
        0 <= pointer && 0 <= size && pointer + size <= instance.memory.Length && |random| == size
      modifies Footprint()
      ensures instance == null ==> errno == ERRNO_FAULT && unchanged(Footprint())
      ensures instance != null ==>
        errno == ERRNO_SUCCESS && instance.memory[..] == Store(old(instance.memory[..]), pointer, random)
      ensures log == old(log)
    {
      var view := GetMemory();
      if view == null {
        return ERRNO_FAULT;
      }
      Write(view, pointer, random);
      return ERRNO_SUCCESS;
    }
  }

  /** What an import of the namespace is bound to. */
  datatype Handler =
    | FdWriteHandler
    | FdFdstatGetHandler
    | ClockTimeGetHandler
    | RandomGetHandler
    | NoSysHandler(name: string)

  const NAMESPACE := "wasi_snapshot_preview1"

  /** The syscalls the shim answers with a `nosys` stub. */
  const UNSUPPORTED: set<string> :=
    {"environ_sizes_get", "environ_get", "fd_open", "fd_close", "fd_read", "fd_seek", "proc_exit"}

  /** The import table of the namespace: four handlers and a stub, named
      after its own import, for every unsupported syscall. */
  function Imports(): (table: map<string, Handler>)
    ensures table.Keys == {"fd_write", "fd_fdstat_get", "clock_time_get", "random_get"} + UNSUPPORTED
    ensures forall name | name in table :: table[name].NoSysHandler? <==> name in UNSUPPORTED
    ensures forall name | name in table && table[name].NoSysHandler? :: table[name].name == name
    ensures table["fd_write"] == FdWriteHandler && table["fd_fdstat_get"] == FdFdstatGetHandler
    ensures table["clock_time_get"] == ClockTimeGetHandler && table["random_get"] == RandomGetHandler
  {
    map[
      "fd_write" := FdWriteHandler,
      "fd_fdstat_get" := FdFdstatGetHandler,
      "clock_time_get" := ClockTimeGetHandler,
      "random_get" := RandomGetHandler,
      "environ_sizes_get" := NoSysHandler("environ_sizes_get"),
      "environ_get" := NoSysHandler("environ_get"),
      "fd_open" := NoSysHandler("fd_open"),
      "fd_close" := NoSysHandler("fd_close"),
      "fd_read" := NoSysHandler("fd_read"),
      "fd_seek" := NoSysHandler("fd_seek"),
      "proc_exit" := NoSysHandler("proc_exit")
    ]
  }

  /** No two stubs of the table print the same diagnostic: each names its
      own syscall and the arguments it was called with. */
  lemma StubDiagnosticsDistinct(name1: string, args1: seq<int>, name2: string, args2: seq<int>)
    requires name1 in UNSUPPORTED && name2 in UNSUPPORTED
    requires UnimplementedMessage(name1, args1) == UnimplementedMessage(name2, args2)
    ensures name1 == name2 && args1 == args2
  {
    UnsupportedNamePlain(name1);
    UnsupportedNamePlain(name2);
    MessageIdentifiesCall(name1, args1, name2, args2);
  }

  /** The unsupported syscall names are plain identifiers. */
  lemma UnsupportedNamePlain(name: string)
    requires name in UNSUPPORTED
    ensures forall k | 0 <= k < |name| :: 'a' <= name[k] <= 'z' || name[k] == '_'
  {
  }
}
