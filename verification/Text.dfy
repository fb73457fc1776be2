/** Text as lines, and decimal numbers. */
module Text {
  import opened Options

  const NEWLINE := "\n"

  function Unlines(lines: seq<string>): string {
    if lines == [] then "" else lines[0] + NEWLINE + Unlines(lines[1..])
  }

  /** The line that ends at the first newline, if there is one. */
  function LineEnd(s: string): (n: nat)
    ensures n <= |s| && (forall i :: 0 <= i < n ==> s[i] != '\n') && (n < |s| ==> s[n] == '\n')
  {
    if s == "" || s[0] == '\n' then 0 else 1 + LineEnd(s[1..])
  }

  /** The newline-terminated lines of a text. */
  function Lines(s: string): seq<string>
    decreases |s|
  {
    var n := LineEnd(s);
    if n == |s| then (if s == "" then [] else [s]) else [s[..n]] + Lines(s[n + 1..])
  }

  ghost predicate OneLine(s: string) { '\n' !in s }

  ghost predicate AllOneLine(lines: seq<string>) {
    forall i :: 0 <= i < |lines| ==> OneLine(lines[i])
  }

  lemma LineEndAt(line: string, rest: string)
    requires OneLine(line)
    ensures LineEnd(line + NEWLINE + rest) == |line|
  {
    var s := line + NEWLINE + rest;
    assert s[|line|] == '\n';
    forall i | 0 <= i < |line| ensures s[i] != '\n' { assert s[i] == line[i] && line[i] in line; }
  }

  lemma {:induction false} LinesUnlines(lines: seq<string>)
    requires AllOneLine(lines)
    ensures Lines(Unlines(lines)) == lines
  {
    if lines != [] {
      LineEndAt(lines[0], Unlines(lines[1..]));
      LinesUnlines(lines[1..]);
      var s := Unlines(lines);
      assert s[..|lines[0]|] == lines[0] && s[|lines[0]| + 1..] == Unlines(lines[1..]);
    }
  }

  lemma {:induction false} UnlinesAppend(a: seq<string>, b: seq<string>)
    ensures Unlines(a + b) == Unlines(a) + Unlines(b)
  {
    if a == [] {
      assert a + b == b;
    } else {
      assert (a + b)[1..] == a[1..] + b;
      UnlinesAppend(a[1..], b);
    }
  }

  lemma UnlinesOne(line: string)
    ensures Unlines([line]) == line + NEWLINE
  {
  }

  /* ---- Decimal numbers ---- */

  predicate Digit(c: char) { '0' <= c <= '9' }

  function DigitOf(d: nat): (c: char)
    requires d < 10
    ensures Digit(c) && ValueOf(c) == d
  {
    ['0', '1', '2', '3', '4', '5', '6', '7', '8', '9'][d]
  }

  function ValueOf(c: char): (d: nat)
    requires Digit(c)
    ensures d < 10
  {
    c as int - '0' as int
  }

  function Decimal(n: nat): (s: string)
    ensures s != "" && forall i :: 0 <= i < |s| ==> Digit(s[i])
  {
    if n < 10 then [DigitOf(n)] else Decimal(n / 10) + [DigitOf(n % 10)]
  }

  /** Ten digits, most significant first. */
  lemma DecimalDigits(n: nat)
    ensures n < 10 ==> Decimal(n) == [('0' as int + n) as char]
    ensures n >= 10 ==> Decimal(n) == Decimal(n / 10) + Decimal(n % 10)
  {
  }

  /** Reads the leading digits onto `acc`. */
  function ReadDigits(s: string, acc: nat): (r: (nat, string))
    ensures |r.1| <= |s|
    ensures s != "" && Digit(s[0]) ==> |r.1| < |s|
  {
    if s == "" || !Digit(s[0]) then (acc, s) else ReadDigits(s[1..], 10 * acc + ValueOf(s[0]))
  }

  lemma {:induction false} ReadDigitsAppend(a: string, b: string, acc: nat)
    requires forall i :: 0 <= i < |a| ==> Digit(a[i])
    ensures ReadDigits(a + b, acc) == ReadDigits(b, ReadDigits(a, acc).0) && ReadDigits(a, acc).1 == ""
  {
    if a == "" {
      assert a + b == b;
    } else {
      assert (a + b)[1..] == a[1..] + b;
      ReadDigitsAppend(a[1..], b, 10 * acc + ValueOf(a[0]));
    }
  }

  lemma {:induction false} ReadDecimalValue(n: nat)
    ensures ReadDigits(Decimal(n), 0).0 == n
  {
    if n >= 10 {
      ReadDecimalValue(n / 10);
      ReadDigitsAppend(Decimal(n / 10), [DigitOf(n % 10)], 0);
    }
  }

  /** A decimal number reads back, up to the first character that is no digit. */
  lemma ReadDecimal(n: nat, rest: string)
    requires rest == "" || !Digit(rest[0])
    ensures ReadDigits(Decimal(n) + rest, 0) == (n, rest)
  {
    ReadDecimalValue(n);
    ReadDigitsAppend(Decimal(n), rest, 0);
  }
}
