# TinyWASI shim, modelled in Dafny

`TinyWASI` is a host-side shim for the `wasi_snapshot_preview1` import
namespace. A guest WebAssembly module calls its handlers. The handlers read
and write the guest's linear memory, print to the host console, and return
preview1 `errno` values:

- 0 (`SUCCESS`)
- 8 (`BADF`)
- 21 (`FAULT`)
- 52 (`NOSYS`)

The model is split by concern:

- `little_endian.dfy` (module `LittleEndian`): bytes, little-endian u16 and
  u32 encoding and decoding, with round-trip lemmas.
- `guest_memory.dfy` (module `GuestMemory`): the `DataView` stores the shim
  issues (`setUint8`, `setUint16`, `setUint32`), as methods on an
  `array<Byte>`. Each is specified by the pure `Store` of some bytes at an
  offset.
- `fdstat.dfy` (module `Fdstat`): the bytes `fd_fdstat_get` leaves in
  memory.
- `iovec.dfy` (module `IoVecs`): the scatter-gather part of `fd_write`:
  - the table of `ciovec` records;
  - the loop that reads it;
  - the `reduce` over the lengths;
  - the `forEach` that copies every range into one buffer.
- `console.dfy` (module `Console`): console records, the descriptor-to-channel
  routing and the removal of one trailing newline.
- `diagnostics.dfy` (module `Diagnostics`): the text a `nosys` stub prints.
  Reading it back recovers the call name and the arguments.
- `tiny_wasi.dfy` (module `Shim`): the `TinyWASI` class itself.
  - The bound instance is a field.
  - The console is a ghost log of records.
  - Each handler is a method returning its `errno`.
  - The import table maps each name to its handler.

Every handler checks in the same order:

1. the descriptor, for the handlers that take one;
2. whether an instance is bound;
3. then the memory effects.

So an unbound shim still answers `BADF` to a bad descriptor.

Two facts about the code that the model keeps:

- `fd_write` rejects only descriptors above 2 (src/TinyWASI.ts:90), so
  descriptor 0 is accepted and goes to the error channel.
- The preview1 `fdstat` rights fields are 64-bit, but the code issues only
  16-bit stores (src/TinyWASI.ts:82-83). So their upper six bytes, and the
  padding, keep the guest's values (`Fdstat.FdstatStored`).

## Model

| member | source | states |
|---|---|---|
| LittleEndian.EncodeU16 | src/TinyWASI.ts:81-83 | the two bytes a little-endian `setUint16` writes decode back to the value |
| LittleEndian.EncodeU32 | src/TinyWASI.ts:128 | the four bytes a little-endian `setUint32` writes decode back to the value |
| LittleEndian.EncodeDecodeU16 | src/TinyWASI.ts:81-83 | every 2-byte string is the encoding of its decoded value |
| LittleEndian.EncodeDecodeU32 | src/TinyWASI.ts:104-105 | every 4-byte string is the encoding of its decoded value (so `getUint32` loses nothing) |
| LittleEndian.EncodeU32Injective | src/TinyWASI.ts:128 | distinct counts are stored as distinct bytes |
| GuestMemory.GetUint32 | src/TinyWASI.ts:104-105 | little-endian `getUint32` reads the u32 whose encoding is the four bytes at the offset |
| GuestMemory.Store | src/TinyWASI.ts:80-83 | a store keeps the memory size, puts the bytes at the offset and leaves every other byte as it was |
| GuestMemory.Write | src/TinyWASI.ts:156-161 | copying bytes into guest memory leaves it equal to `Store` of the old contents |
| GuestMemory.SetUint8 | src/TinyWASI.ts:80 | `setUint8` stores the one byte at the offset and nothing else |
| GuestMemory.SetUint16 | src/TinyWASI.ts:81-83 | little-endian `setUint16` stores the two encoded bytes and nothing else |
| GuestMemory.SetUint32 | src/TinyWASI.ts:128 | little-endian `setUint32` stores the four encoded bytes and nothing else |
| Fdstat.FdstatStored | src/TinyWASI.ts:80-83 | after the four stores: byte `p` is 2, u16 1 at `p+2`, u16 41 at `p+8`, u16 0 at `p+16`; every other byte keeps its old value |
| IoVecs.IoVecAt | src/TinyWASI.ts:103-105 | record i is the offset and length whose little-endian encodings are the bytes at `iovs + 8*i` and `iovs + 8*i + 4` |
| IoVecs.Table | src/TinyWASI.ts:101-105 | the decoded table has one record per loop iteration (none for a non-positive count) |
| IoVecs.TableAt | src/TinyWASI.ts:103-105 | table entry i is the record at `iovs + 8*i` |
| IoVecs.Views | src/TinyWASI.ts:107 | one range per record |
| IoVecs.ViewsNext | src/TinyWASI.ts:107 | each `push` appends the range named by the next record |
| IoVecs.ViewsAt | src/TinyWASI.ts:101-108 | entry k of the ranges is the range named by record k, in bounds |
| IoVecs.GatherAt | src/TinyWASI.ts:101-108 | entry i of what the loop collects is `mem[off_i .. off_i + len_i)`, where `off_i` and `len_i` are the little-endian u32s at `iovs+8i` and `iovs+8i+4` |
| IoVecs.TotalLength | src/TinyWASI.ts:110 | the `reduce` total is at least the length of every collected range |
| IoVecs.Concat | src/TinyWASI.ts:112-119 | the concatenation is exactly as long as the `reduce` total, so the allocated buffer is filled |
| IoVecs.TotalLengthPrefix | src/TinyWASI.ts:113-119 | the running `offset` never passes the total length |
| IoVecs.ConcatAppend | src/TinyWASI.ts:115-119 | concatenation distributes over joining lists of buffers |
| IoVecs.ConcatAt | src/TinyWASI.ts:115-119 | byte j of buffer i lands at position (lengths of buffers before i) + j |
| IoVecs.ReadIoVec | src/TinyWASI.ts:103-105 | the two `getUint32` reads of an iteration return record i of the table |
| IoVecs.ViewOf | src/TinyWASI.ts:107 | the `Uint8Array` over the memory holds the bytes of the named range |
| IoVecs.ReadIoVecs | src/TinyWASI.ts:99-108 | the loop collects, in order, exactly the ranges named by records 0 .. iovsLen-1 |
| IoVecs.Flatten | src/TinyWASI.ts:110-119 | the fresh buffer holds the concatenation of the collected ranges |
| Console.StripTrailingNewline | src/TinyWASI.ts:121 | at most one byte goes, and it goes exactly when the text ends with a newline |
| Console.ChannelFor | src/TinyWASI.ts:123-126 | descriptor 1 goes to `console.log`; every other descriptor, 0 included, goes to `console.error` |
| Console.StripOnlyOneNewline | src/TinyWASI.ts:121 | of two final newlines only the last is removed |
| Diagnostics.DigitChar | src/TinyWASI.ts:63 | a digit value becomes a decimal digit character |
| Diagnostics.NatString | src/TinyWASI.ts:63 | a natural number prints as a nonempty string of decimal digits |
| Diagnostics.IntString | src/TinyWASI.ts:63 | a number prints nonempty and without a comma, so it stays one field of the argument list |
| Diagnostics.ArgsString | src/TinyWASI.ts:63 | `args.toString()` is empty exactly for the empty argument list |
| Diagnostics.UnimplementedMessage | src/TinyWASI.ts:63 | the diagnostic is the prefix `Unimplemented call to `, the name, `(`, the printed arguments and `)`, with nothing else |
| Diagnostics.NatStringRoundTrip | src/TinyWASI.ts:63 | reading the decimal digits back gives the number |
| Diagnostics.IntStringRoundTrip | src/TinyWASI.ts:63 | reading a printed integer, sign included, gives the integer |
| Diagnostics.FieldsWithoutComma | src/TinyWASI.ts:63 | a comma-free string is one field |
| Diagnostics.FieldsAfterComma | src/TinyWASI.ts:63 | a comma-free field followed by a comma splits off first |
| Diagnostics.ArgsFields | src/TinyWASI.ts:63 | `args.toString()` of a nonempty list splits at its commas into the printed arguments |
| Diagnostics.ParseFieldsRoundTrip | src/TinyWASI.ts:63 | parsing the printed arguments gives the arguments |
| Diagnostics.ArgsRoundTrip | src/TinyWASI.ts:63 | the argument list in the diagnostic reads back as the same list, the empty list included |
| Diagnostics.FirstParenthesis | src/TinyWASI.ts:63 | the first `(` of the diagnostic is the one right after the call name |
| Diagnostics.MessageIdentifiesCall | src/TinyWASI.ts:59-67 | two diagnostics are equal only for the same name and the same arguments |
| Shim.Instance.constructor | src/TinyWASI.ts:49 | an instance exports the given memory |
| Shim.Gathered | src/TinyWASI.ts:99-119 | the bytes `fd_write` gathers are as many as the `reduce` total, and none for a non-positive `iovsLen` |
| Shim.WrittenCount | src/TinyWASI.ts:128 | the count `setUint32` stores is the byte count reduced modulo 2^32, and the count itself when it fits in 32 bits |
| Shim.GatheredAt | src/TinyWASI.ts:101-121 | the text `fd_write` prints is the named ranges in record order: byte j of record i's range follows the bytes of records 0 .. i-1 |
| Shim.TinyWasi.constructor | src/TinyWASI.ts:5 | a new shim has no bound instance and has printed nothing |
| Shim.TinyWasi.Initialize | src/TinyWASI.ts:37-39 | `initialize` binds the given instance (the binding itself prints nothing) |
| Shim.TinyWasi.GetMemory | src/TinyWASI.ts:46-56 | memory is available exactly when an instance is bound, and it is that instance's memory |
| Shim.TinyWasi.NoSys | src/TinyWASI.ts:59-67 | a stub returns 52 and appends exactly one error-channel record naming the call and its arguments; memory is outside its frame |
| Shim.TinyWasi.FdFdstatGet | src/TinyWASI.ts:70-86 | `fd > 2` gives 8; otherwise unbound gives 21; in both cases memory and log are unchanged; otherwise 0 and memory becomes `FdstatStored` |
| Shim.TinyWasi.FdWrite | src/TinyWASI.ts:88-131 | `fd > 2` gives 8; otherwise unbound gives 21; in both cases memory and log are unchanged; otherwise 0, exactly one record appended (channel by descriptor, gathered bytes less one final newline), and memory changed only by the byte count, taken before the strip and reduced modulo 2^32, stored as a u32 at `nwritten` |
| Shim.TinyWasi.ClockTimeGet | src/TinyWASI.ts:133-146 | unbound gives 21 and no change; otherwise 0, and the two u32 words are stored at `time` and `time+4` with nothing else changed |
| Shim.TinyWasi.RandomGet | src/TinyWASI.ts:148-164 | unbound gives 21 and no change; otherwise 0, and only bytes in `[pointer, pointer+size)` change |
| Shim.Imports | src/TinyWASI.ts:14-34 | the namespace has the eleven names; `fd_write`, `fd_fdstat_get`, `clock_time_get` and `random_get` are bound to their own handlers; exactly the seven unsupported ones are stubs, each named after its own import |
| Shim.StubDiagnosticsDistinct | src/TinyWASI.ts:24-32 | no two stubs of the table print the same diagnostic for different calls |
| Shim.UnsupportedNamePlain | src/TinyWASI.ts:24-32 | the stub names are plain identifiers (lower-case letters and `_`) |

## Left out

- Numbers: handler arguments are the numbers the TypeScript code sees.
  - A guest i32 of 2^31 or more arrives negative, so such a descriptor passes
    the `fd > 2` guard. That conversion is not modelled.
  - Stub arguments are modelled as integers. JavaScript's `toString` of
    BigInt or non-integral numbers is not modelled.
- Out-of-bounds accesses: the code has no bounds checks, and `DataView` and
  `Uint8Array` throw a `RangeError`. Each handler instead requires its
  accesses to be in bounds (for `fd_write`, `IoVecs.GatherInBounds`).
- Shim.TinyWasi.ClockTimeGet: the two stored words are parameters.
  - The floating-point arithmetic on `Date` (`now * 1000000.0` reduced modulo
    and divided by `0xFFFFFFFF`, then converted by `setUint32`) is not
    modelled.
  - The clock itself is host I/O.
- Shim.TinyWasi.RandomGet: the random bytes are a parameter.
  - `window.crypto.getRandomValues` and `crypto.randomFillSync` are foreign
    calls.
  - So is the browser's refusal of requests over 65536 bytes.
- `TextDecoder`: UTF-8 decoding is kept abstract (`Console.Decoded`). The
  newline is removed from the bytes. A final U+000A of the decoded text is a
  final 0x0A byte, since that byte never occurs inside a multi-byte
  sequence.
- Shim.TinyWasi.Initialize: running the guest's `_initialize` export is not
  modelled. It is guest code, and it runs after the binding
  (src/TinyWASI.ts:39-42). So it may re-enter the handlers, print and write
  its memory. The contract covers only the binding step, and the model
  does not allow for any of this.
- Console output: `console.log` and `console.error` are not modelled
  themselves. Each call is one record on the ghost log.
- Memory objects:
  - Memory growth and detached buffers are not modelled. An instance's memory
    is one fixed array.
  - The `WebAssembly.Instance` and `Memory` plumbing is not modelled.
- The import table: the `.bind(this)` wiring is not modelled. The table maps
  each name to a handler tag.
- IoVecs.ReadIoVecs: the `Uint8Array` views are taken as copies. The code
  keeps views onto the memory, but nothing writes to memory between taking
  them and copying them in `Flatten`, so the bytes are the same.
