/**
 * The diagnostic a `nosys` stub prints,
 * `Unimplemented call to <name>(<args>)`, where `<args>` is what
 * `Array.prototype.toString` makes of the argument list: each number in
 * decimal, separated by commas. Reading the message back recovers the call
 * name and the arguments, so the diagnostic identifies the call.
 */
module Diagnostics {

  const MESSAGE_PREFIX := "Unimplemented call to "

  predicate IsDigit(c: char)
  {
    '0' <= c <= '9'
  }

  function DigitChar(d: int): (c: char)
    requires 0 <= d < 10
    ensures IsDigit(c)
  {
    (d + '0' as int) as char
  }

  /** Value of a decimal digit (0 for any other character). */
  function DigitValue(c: char): (d: nat)
    ensures d < 10
  {
    if IsDigit(c) then c as int - '0' as int else 0
  }

  /** Decimal notation of a natural number, most significant digit first. */
  function NatString(n: nat): (s: string)
    ensures |s| > 0
    ensures forall i | 0 <= i < |s| :: IsDigit(s[i])
  {
    if n < 10 then [DigitChar(n)] else NatString(n / 10) + [DigitChar(n % 10)]
  }

  /** Decimal notation of an integer, as `Number.prototype.toString` writes it. */
  function IntString(n: int): (s: string)
    ensures |s| > 0 && ',' !in s
  {
    if n < 0 then "-" + NatString(-n) else NatString(n)
  }

  /** The arguments joined by commas; the empty list gives the empty string. */
  function ArgsString(args: seq<int>): (s: string)
    ensures s == "" <==> args == []
  {
    if |args| == 0 then ""
    else if |args| == 1 then IntString(args[0])
    else IntString(args[0]) + "," + ArgsString(args[1..])
  }

  /** `Unimplemented call to <name>(<args>)`. */
  function UnimplementedMessage(name: string, args: seq<int>): (m: string)
    ensures var p := |MESSAGE_PREFIX|;
      && |m| == p + |name| + |ArgsString(args)| + 2
      && m[..p] == MESSAGE_PREFIX && m[p..p + |name|] == name
      && m[p + |name|] == '(' && m[p + |name| + 1..|m| - 1] == ArgsString(args) && m[|m| - 1] == ')'
  {
    MESSAGE_PREFIX + name + "(" + ArgsString(args) + ")"
  }

  /* Reading a message back. */

  function ParseNat(s: string): nat
  {
    if |s| == 0 then 0 else 10 * ParseNat(s[..|s| - 1]) + DigitValue(s[|s| - 1])
  }

  function ParseInt(s: string): int
  {
    if |s| > 0 && s[0] == '-' then -(ParseNat(s[1..]) as int) else ParseNat(s)
  }

  /** The comma-separated fields of `s`. */
  function Fields(s: string): (fs: seq<string>)
    ensures |fs| > 0
  {
    if s == [] then [""]
    else
      var rest := Fields(s[1..]);
      if s[0] == ',' then [""] + rest else [[s[0]] + rest[0]] + rest[1..]
  }

  function ParseFields(fs: seq<string>): (args: seq<int>)
    ensures |args| == |fs|
  {
    if fs == [] then [] else [ParseInt(fs[0])] + ParseFields(fs[1..])
  }

  function ParseArgs(s: string): seq<int>
  {
    if s == "" then [] else ParseFields(Fields(s))
  }

  lemma {:induction false} NatStringRoundTrip(n: nat)
    ensures ParseNat(NatString(n)) == n
  {
    if n >= 10 {
      var s := NatString(n);
      assert s[..|s| - 1] == NatString(n / 10);
      NatStringRoundTrip(n / 10);
    }
  }

  lemma IntStringRoundTrip(n: int)
    ensures ParseInt(IntString(n)) == n
  {
    if n < 0 {
      assert IntString(n)[1..] == NatString(-n);
      NatStringRoundTrip(-n);
    } else {
      assert IsDigit(IntString(n)[0]);
      NatStringRoundTrip(n);
    }
  }

  /** A field without commas splits into itself. */
  lemma {:induction false} FieldsWithoutComma(a: string)
    requires ',' !in a
    ensures Fields(a) == [a]
  {
    if a != [] {
      assert ',' !in a[1..] && a[0] != ',';
      FieldsWithoutComma(a[1..]);
      assert [a[0]] + a[1..] == a;
    }
  }

  /** A comma-free field followed by a comma splits off as the first field. */
  lemma {:induction false} FieldsAfterComma(a: string, b: string)
    requires ',' !in a
    ensures Fields(a + "," + b) == [a] + Fields(b)
  {
    var s := a + "," + b;
    if a == [] {
      assert s[0] == ',' && s[1..] == b;
    } else {
      assert s[0] == a[0] != ',' && s[1..] == a[1..] + "," + b;
      FieldsAfterComma(a[1..], b);
      assert [a[0]] + a[1..] == a;
    }
  }

  /** Each argument in decimal, in order. */
  function IntStrings(args: seq<int>): (fs: seq<string>)
    ensures |fs| == |args|
  {
    if args == [] then [] else [IntString(args[0])] + IntStrings(args[1..])
  }

  lemma {:induction false} ArgsFields(args: seq<int>)
    requires |args| > 0
    ensures Fields(ArgsString(args)) == IntStrings(args)
  {
    if |args| == 1 {
      FieldsWithoutComma(IntString(args[0]));
    } else {
      FieldsAfterComma(IntString(args[0]), ArgsString(args[1..]));
      ArgsFields(args[1..]);
    }
  }

  lemma {:induction false} ParseFieldsRoundTrip(args: seq<int>)
    ensures ParseFields(IntStrings(args)) == args
  {
    if args != [] {
      ParseFieldsRoundTrip(args[1..]);
      IntStringRoundTrip(args[0]);
    }
  }

  /** The argument list printed in the diagnostic reads back as the same list. */
  lemma ArgsRoundTrip(args: seq<int>)
    ensures ParseArgs(ArgsString(args)) == args
  {
    if args != [] {
      ArgsFields(args);
      ParseFieldsRoundTrip(args);
    }
  }

  /** The first parenthesis of a diagnostic is the one right after the name. */
  lemma FirstParenthesis(name: string, args: seq<int>)
    requires '(' !in name
    ensures var m, p := UnimplementedMessage(name, args), |MESSAGE_PREFIX|;
      && p + |name| < |m| && m[p + |name|] == '('
      && forall k | p <= k < p + |name| :: m[k] != '('
  {
    var m, p := UnimplementedMessage(name, args), |MESSAGE_PREFIX|;
    assert m[p..p + |name|] == name;
  }

  /** Two stubs whose names hold no parenthesis print the same diagnostic only
      when they are the same call with the same arguments. */
  lemma MessageIdentifiesCall(name1: string, args1: seq<int>, name2: string, args2: seq<int>)
    requires '(' !in name1 && '(' !in name2
    requires UnimplementedMessage(name1, args1) == UnimplementedMessage(name2, args2)
    ensures name1 == name2 && args1 == args2
  {
    var m := UnimplementedMessage(name1, args1);
    var p := |MESSAGE_PREFIX|;
    FirstParenthesis(name1, args1);
    FirstParenthesis(name2, args2);
    assert |name1| == |name2|;
    assert name1 == m[p..p + |name1|] == name2;
    var a1, a2 := ArgsString(args1), ArgsString(args2);
    assert a1 == m[p + |name1| + 1..|m| - 1] == a2;
    ArgsRoundTrip(args1);
    ArgsRoundTrip(args2);
  }
}
