/**
 * What the shim sends to the host console. `console.log` and `console.error`
 * are not modelled themselves; each call becomes one record on a log.
 */
module Console {
  import opened LittleEndian

  /** `console.log` (standard output) or `console.error` (standard error). */
  datatype Channel = Log | Error

  /** A line handed to the console: either the text `TextDecoder("utf-8")`
      makes of some guest bytes, or a string built by the shim itself. */
  datatype Text = Decoded(bytes: seq<Byte>) | Literal(chars: string)

  datatype Record = Record(channel: Channel, text: Text)

  const NEWLINE: Byte := 0x0A

  /** The channel `fd_write` routes a descriptor's text to: descriptor 1 goes
      to `console.log`, every other accepted descriptor to `console.error`. */
  function ChannelFor(fd: int): (c: Channel)
    ensures c == Log <==> fd == 1
    ensures c == Error <==> fd != 1
  {
    if fd == 1 then Log else Error
  }

  /** `.replace(/\n$/, "")` on the decoded text, done on the bytes: at most
      one byte is removed, and it is removed exactly when it is a final
      newline. (A 0x0A byte never occurs inside a UTF-8 multi-byte sequence
      and the decoder never produces U+000A from anything else, so a final
      newline of the text is a final 0x0A of the bytes.) */
  function StripTrailingNewline(b: seq<Byte>): (r: seq<Byte>)
    ensures r == b || r + [NEWLINE] == b
    ensures r + [NEWLINE] == b <==> |b| > 0 && b[|b| - 1] == NEWLINE
  {
    if |b| > 0 && b[|b| - 1] == NEWLINE then b[..|b| - 1] else b
  }

  /** Only one newline goes: "hello\n\n" becomes "hello\n". */
  lemma StripOnlyOneNewline(b: seq<Byte>)
    ensures StripTrailingNewline(b + [NEWLINE, NEWLINE]) == b + [NEWLINE]
  {
    assert (b + [NEWLINE, NEWLINE])[..|b| + 1] == b + [NEWLINE];
  }
}
