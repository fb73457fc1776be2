/** strconv.Quote, and the Python reader of the escapes it emits. Which
    characters print verbatim is a parameter. */
module Quoting {
  import opened Options

  type Printable = char -> bool

  const ESCAPES := "abfnrtv"

  /** The control characters with a letter of their own: \a \b \f \n \r \t \v. */
  function Control(i: nat): char
    requires i < 7
  {
    [7 as char, 8 as char, 12 as char, 10 as char, 13 as char, 9 as char, 11 as char][i]
  }

  function ControlIndex(c: char): (i: nat)
    ensures i <= 7 && (i < 7 ==> Control(i) == c)
    ensures i == 7 ==> forall j :: 0 <= j < 7 ==> Control(j) != c
  {
    if c == 7 as char then 0 else if c == 8 as char then 1 else if c == 12 as char then 2 else if c == 10 as char then 3
    else if c == 13 as char then 4 else if c == 9 as char then 5 else if c == 11 as char then 6 else 7
  }

  function LetterIndex(c: char): (i: nat)
    ensures i <= 7 && (i < 7 ==> ESCAPES[i] == c)
    ensures i == 7 ==> c !in ESCAPES
  {
    if c == 'a' then 0 else if c == 'b' then 1 else if c == 'f' then 2 else if c == 'n' then 3
    else if c == 'r' then 4 else if c == 't' then 5 else if c == 'v' then 6 else 7
  }

  const HEX := "0123456789abcdef"

  function HexValue(c: char): (d: Option<nat>)
    ensures d.Some? ==> d.value < 16 && HEX[d.value] == c
  {
    if '0' <= c <= '9' then Some(c as int - '0' as int)
    else if 'a' <= c <= 'f' then Some(10 + c as int - 'a' as int)
    else None
  }

  function Hex(n: nat, width: nat): (s: string)
    ensures |s| == width && forall i :: 0 <= i < |s| ==> HexValue(s[i]).Some?
  {
    if width == 0 then "" else Hex(n / 16, width - 1) + [HEX[n % 16]]
  }

  function Escape(c: char, isPrint: Printable): string {
    if c == '\"' || c == '\\' then ['\\', c]
    else if isPrint(c) then [c]
    else if ControlIndex(c) < 7 then ['\\', ESCAPES[ControlIndex(c)]]
    else if c < ' ' || c == 0x7f as char then "\\x" + Hex(c as int, 2)
    else if c as int < 0x10000 then "\\u" + Hex(c as int, 4)
    else "\\U" + Hex(c as int, 8)
  }

  function EscapeAll(s: string, isPrint: Printable): string {
    if s == "" then "" else Escape(s[0], isPrint) + EscapeAll(s[1..], isPrint)
  }

  function Quote(s: string, isPrint: Printable): string { "\"" + EscapeAll(s, isPrint) + "\"" }

  /** The escapes of strconv.Quote: the two that would end or open an escape, the
      seven letters, hexadecimal for the rest, and everything else verbatim. */
  lemma EscapeTable(isPrint: Printable)
    ensures Escape('\"', isPrint) == "\\\"" && Escape('\\', isPrint) == "\\\\"
    ensures !isPrint('\n') && !isPrint('\r') && !isPrint('\t') ==>
              Escape('\n', isPrint) == "\\n" && Escape('\r', isPrint) == "\\r" && Escape('\t', isPrint) == "\\t"
    ensures !isPrint(7 as char) && !isPrint(8 as char) ==>
              Escape(7 as char, isPrint) == "\\a" && Escape(8 as char, isPrint) == "\\b"
    ensures !isPrint(11 as char) && !isPrint(12 as char) ==>
              Escape(11 as char, isPrint) == "\\v" && Escape(12 as char, isPrint) == "\\f"
    ensures forall c :: isPrint(c) && c != '\"' && c != '\\' ==> Escape(c, isPrint) == [c]
  {
  }

  predicate Lettered(c: char) { 7 <= c as int <= 13 }

  /** Two hexadecimal digits for the other control characters, four up to the end
      of the basic plane, eight beyond it. */
  lemma HexEscapes(c: char, isPrint: Printable)
    requires !isPrint(c) && c != '\"' && c != '\\' && !Lettered(c)
    ensures
      Escape(c, isPrint) ==
        if c as int < 32 || c as int == 127 then "\\x" + Hex(c as int, 2)
        else if c as int <= 65535 then "\\u" + Hex(c as int, 4) else "\\U" + Hex(c as int, 8)
  {
  }

  /** Hexadecimal in lower case, most significant digit first. */
  lemma HexDigits(n: nat, width: nat)
    requires width > 0
    ensures Hex(n, width) == Hex(n / 16, width - 1) + [if n % 16 < 10 then ('0' as int + n % 16) as char else ('a' as int + n % 16 - 10) as char]
    ensures Hex(n, 0) == ""
  {
  }

  /* ---- Reading ---- */

  function ReadHex(s: string, width: nat, acc: nat): (r: Option<(nat, string)>)
    ensures r.Some? ==> |r.value.1| <= |s|
    decreases width
  {
    if width == 0 then Some((acc, s))
    else if s == "" || HexValue(s[0]) == None then None
    else ReadHex(s[1..], width - 1, 16 * acc + HexValue(s[0]).value)
  }

  /** A number that is a character: not a surrogate, not past the last plane. */
  predicate IsChar(n: nat) { n < 0xD800 || 0xE000 <= n < 0x110000 }

  function ReadHexChar(s: string, width: nat): (r: Option<(char, string)>)
    ensures r.Some? ==> |r.value.1| <= |s|
  {
    var n := ReadHex(s, width, 0);
    if n == None || !IsChar(n.value.0) then None else Some((n.value.0 as char, n.value.1))
  }

  /** One character of a string literal, escaped or not. */
  function ReadChar(s: string): (r: Option<(char, string)>)
    ensures r.Some? ==> |r.value.1| < |s|
  {
    if s == "" then None
    else if s[0] != '\\' then Some((s[0], s[1..]))
    else if |s| < 2 then None
    else if s[1] == '\"' || s[1] == '\\' then Some((s[1], s[2..]))
    else if LetterIndex(s[1]) < 7 then Some((Control(LetterIndex(s[1])), s[2..]))
    else if s[1] == 'x' then ReadHexChar(s[2..], 2)
    else if s[1] == 'u' then ReadHexChar(s[2..], 4)
    else if s[1] == 'U' then ReadHexChar(s[2..], 8)
    else None
  }

  /** The rest of a string literal, up to its closing quote. */
  function ReadChars(s: string): (r: Option<(string, string)>)
    ensures r.Some? ==> |r.value.1| < |s|
    decreases |s|
  {
    if s != "" && s[0] == '\"' then Some(("", s[1..]))
    else
      var c := ReadChar(s);
      if c == None then None
      else
        var rest := ReadChars(c.value.1);
        if rest == None then None else Some(([c.value.0] + rest.value.0, rest.value.1))
  }

  function Power16(w: nat): nat { if w == 0 then 1 else 16 * Power16(w - 1) }

  function Folded(s: string, acc: nat): nat
    requires forall i :: 0 <= i < |s| ==> HexValue(s[i]).Some?
  {
    if s == "" then acc else Folded(s[1..], 16 * acc + HexValue(s[0]).value)
  }

  lemma {:induction false} FoldedAppend(s: string, c: char, acc: nat)
    requires HexValue(c).Some? && forall i :: 0 <= i < |s| ==> HexValue(s[i]).Some?
    ensures Folded(s + [c], acc) == 16 * Folded(s, acc) + HexValue(c).value
  {
    if s == "" {
      assert s + [c] == [c];
      assert [c][1..] == "";
    } else {
      assert (s + [c])[1..] == s[1..] + [c];
      FoldedAppend(s[1..], c, 16 * acc + HexValue(s[0]).value);
    }
  }

  lemma {:induction false} FoldedHex(n: nat, width: nat)
    requires n < Power16(width)
    ensures Folded(Hex(n, width), 0) == n
  {
    if width > 0 {
      FoldedHex(n / 16, width - 1);
      HexDigitValue(n % 16);
      FoldedAppend(Hex(n / 16, width - 1), HEX[n % 16], 0);
    }
  }

  lemma HexDigitValue(d: nat)
    requires d < 16
    ensures HexValue(HEX[d]) == Some(d)
  {
  }

  lemma {:induction false} ReadHexFolded(s: string, rest: string, acc: nat)
    requires forall i :: 0 <= i < |s| ==> HexValue(s[i]).Some?
    ensures ReadHex(s + rest, |s|, acc) == Some((Folded(s, acc), rest))
  {
    if s == "" {
      assert s + rest == rest;
    } else {
      assert (s + rest)[1..] == s[1..] + rest;
      ReadHexFolded(s[1..], rest, 16 * acc + HexValue(s[0]).value);
    }
  }

  lemma ReadsHex(c: char, width: nat, rest: string)
    requires c as int < Power16(width)
    ensures ReadHexChar(Hex(c as int, width) + rest, width) == Some((c, rest))
  {
    FoldedHex(c as int, width);
    ReadHexFolded(Hex(c as int, width), rest, 0);
  }

  lemma Powers()
    ensures Power16(2) == 0x100 && Power16(4) == 0x10000 && Power16(8) == 0x1_0000_0000
  {
    assert Power16(2) == 16 * Power16(1) && Power16(1) == 16 * Power16(0);
    assert Power16(4) == 16 * Power16(3) && Power16(3) == 16 * Power16(2);
    assert Power16(8) == 16 * Power16(7) && Power16(7) == 16 * Power16(6);
    assert Power16(6) == 16 * Power16(5) && Power16(5) == 16 * Power16(4);
  }

  /** A backslash, a letter, and what the letter makes of the rest. */
  lemma ReadsLetter(i: nat, rest: string)
    requires i < 7
    ensures ReadChar(['\\', ESCAPES[i]] + rest) == Some((Control(i), rest))
  {
    var s := ['\\', ESCAPES[i]] + rest;
    assert s[0] == '\\' && s[1] == ESCAPES[i] && s[2..] == rest;
    assert LetterIndex(ESCAPES[i]) == i;
  }

  lemma ReadsNumeric(c: char, letter: char, width: nat, rest: string)
    requires (letter == 'x' && width == 2) || (letter == 'u' && width == 4) || (letter == 'U' && width == 8)
    requires c as int < Power16(width)
    ensures ReadChar(['\\', letter] + Hex(c as int, width) + rest) == Some((c, rest))
  {
    var s := ['\\', letter] + Hex(c as int, width) + rest;
    assert s[0] == '\\' && s[1] == letter && s[2..] == Hex(c as int, width) + rest;
    ReadsHex(c, width, rest);
  }

  lemma ReadsVerbatim(c: char, rest: string)
    ensures c != '\\' ==> ReadChar([c] + rest) == Some((c, rest))
    ensures c == '\"' || c == '\\' ==> ReadChar(['\\', c] + rest) == Some((c, rest))
  {
    assert ([c] + rest)[1..] == rest;
    assert (['\\', c] + rest)[2..] == rest;
  }

  /** Every escape reads back as the character it stands for. */
  lemma ReadsEscape(c: char, isPrint: Printable, rest: string)
    ensures ReadChar(Escape(c, isPrint) + rest) == Some((c, rest))
  {
    Powers();
    if c == '\"' || c == '\\' || isPrint(c) {
      ReadsVerbatim(c, rest);
    } else if ControlIndex(c) < 7 {
      ReadsLetter(ControlIndex(c), rest);
    } else if c < ' ' || c == 0x7f as char {
      ReadsNumeric(c, 'x', 2, rest);
    } else if c as int < 0x10000 {
      ReadsNumeric(c, 'u', 4, rest);
    } else {
      ReadsNumeric(c, 'U', 8, rest);
    }
  }

  lemma EscapeNotQuote(c: char, isPrint: Printable)
    ensures Escape(c, isPrint) != "" && Escape(c, isPrint)[0] != '\"'
  {
  }

  lemma ReadCharsStep(s: string, c: char, tail: string)
    requires s != "" && s[0] != '\"' && ReadChar(s) == Some((c, tail)) && ReadChars(tail).Some?
    ensures ReadChars(s) == Some(([c] + ReadChars(tail).value.0, ReadChars(tail).value.1))
  {
  }

  lemma Split(first: string, more: string, rest: string)
    ensures first + more + "\"" + rest == first + (more + "\"" + rest)
  {
  }

  lemma {:induction false} ReadsEscaped(s: string, isPrint: Printable, rest: string)
    ensures ReadChars(EscapeAll(s, isPrint) + "\"" + rest) == Some((s, rest))
  {
    if s == "" {
      assert "" + "\"" + rest == "\"" + rest;
      assert ("\"" + rest)[1..] == rest;
    } else {
      var first, more := Escape(s[0], isPrint), EscapeAll(s[1..], isPrint);
      var tail := more + "\"" + rest;
      Split(first, more, rest);
      EscapeNotQuote(s[0], isPrint);
      ReadsEscape(s[0], isPrint, tail);
      ReadsEscaped(s[1..], isPrint, rest);
      ReadCharsStep(first + tail, s[0], tail);
      assert s == [s[0]] + s[1..];
    }
  }

  lemma HexHasNoNewline(n: nat, width: nat)
    ensures '\n' !in Hex(n, width)
  {
    forall i | 0 <= i < width ensures Hex(n, width)[i] != '\n' {
      assert HexValue(Hex(n, width)[i]).Some?;
    }
  }

  lemma {:induction false} QuotedOnOneLine(s: string, isPrint: Printable)
    requires !isPrint('\n')
    ensures '\n' !in EscapeAll(s, isPrint)
  {
    if s != "" {
      QuotedOnOneLine(s[1..], isPrint);
      HexHasNoNewline(s[0] as int, 2);
      HexHasNoNewline(s[0] as int, 4);
      HexHasNoNewline(s[0] as int, 8);
      assert '\n' !in Escape(s[0], isPrint);
    }
  }
}
