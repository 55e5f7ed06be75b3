/** Values shared by the three modelled source files: optional values, the outcome of a
    Python call that may raise, and the few Python string and list operations they use. */
module Common {

  datatype Option<+T> = None | Some(value: T) {
    /** `x if x is not None else default` */
    function GetOr(default: T): T {
      if Some? then value else default
    }
  }

  /** The outcome of a Python call: a value, or an exception whose `str()` is `message`. */
  datatype Outcome<+T> = Ok(value: T) | Raise(message: string)

  function Min(a: int, b: int): int { if a <= b then a else b }

  function Max(a: int, b: int): int { if a <= b then b else a }

  /** Python `s[:n]` for a non-negative `n`: the first `n` elements, or all of `s` when it is shorter. */
  function Take<T>(s: seq<T>, n: nat): seq<T> {
    if n <= |s| then s[..n] else s
  }

  /** Python `xs[start:]`: a negative `start` counts from the end, and both ends are clamped. */
  function PySuffix<T>(xs: seq<T>, start: int): (r: seq<T>)
    ensures |r| == if start >= 0 then Max(0, |xs| - start) else Min(-start, |xs|)
    ensures r == xs[|xs| - |r|..]
  {
    var from := if start < 0 then Max(0, start + |xs|) else Min(start, |xs|);
    xs[from..]
  }

  predicate OccursAt<T(==)>(s: seq<T>, sub: seq<T>, i: nat) {
    i + |sub| <= |s| && s[i..i + |sub|] == sub
  }

  /** Python `sub in s` on strings: `sub` occurs somewhere in `s`. */
  predicate Contains<T(==)>(s: seq<T>, sub: seq<T>) {
    exists i: nat | i <= |s| :: OccursAt(s, sub, i)
  }

  predicate StartsWith<T(==)>(s: seq<T>, prefix: seq<T>) {
    |prefix| <= |s| && s[..|prefix|] == prefix
  }

  /** `str.lower()` on ASCII letters; other characters are kept. */
  function LowerChar(c: char): char {
    if 'A' <= c <= 'Z' then (c as int + 32) as char else c
  }

  function Lower(s: string): string {
    seq(|s|, i requires 0 <= i < |s| => LowerChar(s[i]))
  }

  predicate IsLowerHex(c: char) {
    '0' <= c <= '9' || 'a' <= c <= 'f'
  }

  function HexDigit(n: nat): (c: char)
    requires n < 16
    ensures IsLowerHex(c)
  {
    if n < 10 then ('0' as int + n) as char else ('a' as int + n - 10) as char
  }

  function HexValue(c: char): (n: nat)
    requires IsLowerHex(c)
    ensures n < 16
  {
    if c <= '9' then c as int - '0' as int else c as int - 'a' as int + 10
  }

  lemma HexValueOfDigit(n: nat)
    requires n < 16
    ensures HexValue(HexDigit(n)) == n
  {
  }

  /** The quote `repr` puts around a string: a double quote when the string holds a single
      quote and no double quote, a single quote otherwise. */
  function ReprQuote(s: string): (q: char)
    ensures q == '\'' || q == '"'
  {
    if '\'' in s && '"' !in s then '"' else '\''
  }

  /** The characters up to U+00FF that `str.isprintable` rejects: the C0 and C1 controls,
      DEL, the no-break space and the soft hyphen. */
  predicate NonPrintableLatin1(c: char) {
    c as int < 0x20 || 0x7F <= c as int <= 0xA0 || c as int == 0xAD
  }

  /** How `repr` writes one character between quotes `quote`. */
  function ReprChar(c: char, quote: char): string {
    if c == quote || c == '\\' then ['\\', c]
    else if c == '\t' then "\\t"
    else if c == '\n' then "\\n"
    else if c == '\r' then "\\r"
    else if NonPrintableLatin1(c) then ['\\', 'x', HexDigit(c as int / 16), HexDigit(c as int % 16)]
    else [c]
  }

  function ReprBody(s: string, quote: char): string {
    if s == [] then "" else ReprChar(s[0], quote) + ReprBody(s[1..], quote)
  }

  /** Python `repr(s)` of a `str`, as `%r` formats it. */
  function Repr(s: string): string {
    var q := ReprQuote(s);
    [q] + ReprBody(s, q) + [q]
  }

  /** A character `repr` copies unchanged between quotes `quote`. */
  predicate CopiedByRepr(c: char, quote: char) {
    c != quote && c != '\\' && !NonPrintableLatin1(c)
  }

  /** Reading back the escapes `repr` writes: `\t`, `\n`, `\r`, `\xhh` and a backslash
      before any other character. */
  function Unescape(t: string): string
    decreases |t|
  {
    if t == [] then []
    else if t[0] == '\\' && |t| >= 2 then
      if t[1] == 't' then ['\t'] + Unescape(t[2..])
      else if t[1] == 'n' then ['\n'] + Unescape(t[2..])
      else if t[1] == 'r' then ['\r'] + Unescape(t[2..])
      else if t[1] == 'x' && |t| >= 4 && IsLowerHex(t[2]) && IsLowerHex(t[3]) then
        [(HexValue(t[2]) * 16 + HexValue(t[3])) as char] + Unescape(t[4..])
      else [t[1]] + Unescape(t[2..])
    else [t[0]] + Unescape(t[1..])
  }

  /** One written character reads back as itself, whatever follows it. */
  lemma UnescapeReprChar(c: char, quote: char, rest: string)
    requires quote == '\'' || quote == '"'
    ensures Unescape(ReprChar(c, quote) + rest) == [c] + Unescape(rest)
  {
    var t := ReprChar(c, quote) + rest;
    if NonPrintableLatin1(c) && c != '\t' && c != '\n' && c != '\r' {
      var n := c as int;
      HexValueOfDigit(n / 16);
      HexValueOfDigit(n % 16);
      assert t[2..4] == [HexDigit(n / 16), HexDigit(n % 16)] && t[4..] == rest;
      assert (HexValue(t[2]) * 16 + HexValue(t[3])) as char == c;
    } else if c == quote || c == '\\' || c == '\t' || c == '\n' || c == '\r' {
      assert t[2..] == rest;
    } else {
      assert t[1..] == rest;
    }
  }

  /** The text between the quotes reads back as the string. */
  lemma {:induction false} UnescapeReprBody(s: string, quote: char)
    requires quote == '\'' || quote == '"'
    ensures Unescape(ReprBody(s, quote)) == s
  {
    if s != [] {
      UnescapeReprChar(s[0], quote, ReprBody(s[1..], quote));
      UnescapeReprBody(s[1..], quote);
    }
  }

  /** Characters `repr` need not escape are copied as they are. */
  lemma {:induction false} ReprBodyCopies(s: string, quote: char)
    requires forall i :: 0 <= i < |s| ==> CopiedByRepr(s[i], quote)
    ensures ReprBody(s, quote) == s
  {
    if s != [] {
      ReprBodyCopies(s[1..], quote);
    }
  }

  /** `repr` opens and closes with the same quote, reads back as the string it was given,
      and encloses a string needing no escapes unchanged. */
  lemma ReprFacts(s: string)
    ensures var r := Repr(s);
            && |r| >= 2 && r[0] == ReprQuote(s) && r[|r| - 1] == ReprQuote(s)
            && Unescape(r[1..|r| - 1]) == s
    ensures (forall i :: 0 <= i < |s| ==> CopiedByRepr(s[i], ReprQuote(s))) ==>
              Repr(s) == [ReprQuote(s)] + s + [ReprQuote(s)]
  {
    var q := ReprQuote(s);
    var r := Repr(s);
    assert r[1..|r| - 1] == ReprBody(s, q);
    UnescapeReprBody(s, q);
    if forall i :: 0 <= i < |s| ==> CopiedByRepr(s[i], q) {
      ReprBodyCopies(s, q);
    }
  }

  /** Python `sep.join(xs)`. */
  function Join(sep: string, xs: seq<string>): string {
    if |xs| == 0 then ""
    else if |xs| == 1 then xs[0]
    else xs[0] + sep + Join(sep, xs[1..])
  }

  /** The text of a file made of `lines`, each one ended by a newline. */
  function Lines(lines: seq<string>): string {
    if lines == [] then "" else lines[0] + "\n" + Lines(lines[1..])
  }

  /** Joining non-empty `lines` with newlines and ending the result with one more newline
      gives exactly the file made of those lines. */
  lemma {:induction false} JoinThenNewline(lines: seq<string>)
    requires lines != []
    ensures Join("\n", lines) + "\n" == Lines(lines)
  {
    if |lines| > 1 {
      JoinThenNewline(lines[1..]);
      calc {
        Join("\n", lines) + "\n";
        (lines[0] + "\n" + Join("\n", lines[1..])) + "\n";
        lines[0] + "\n" + (Join("\n", lines[1..]) + "\n");
        lines[0] + "\n" + Lines(lines[1..]);
      }
    }
  }
}
