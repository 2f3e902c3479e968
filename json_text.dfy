/** JSON text as the routes panel builds it by hand: string escaping and the
    reading side of section 7 of RFC 8259 (strings) and section 6 (integers),
    used to state what the escaped text means. */
module JsonText {
  import opened Wrappers
  import opened Ids
  import opened Text

  // ---------------------------------------------------------------------------
  // Escaping.

  /** The text one character of a string value becomes: the two-character escape
      for backslash, quote, backspace, form feed, newline, carriage return and tab,
      `\u` and four lowercase hex digits for any other character below U+0020,
      and the character itself otherwise. */
  function EscapeChar(c: char): (e: string)
    ensures 1 <= |e| <= 6
  {
    if c == '\\' then "\\\\"
    else if c == '"' then "\\\""
    else if c == '\U{0008}' then "\\b"
    else if c == '\U{000C}' then "\\f"
    else if c == '\n' then "\\n"
    else if c == '\r' then "\\r"
    else if c == '\t' then "\\t"
    else if c < ' ' then "\\u" + Hex(c as int, 4)
    else [c]
  }

  /** The escaped form of a whole string, character by character. */
  function Escaped(s: string): string {
    if s == [] then "" else Escaped(s[..|s| - 1]) + EscapeChar(s[|s| - 1])
  }

  /** A character that needs no escape. */
  predicate Plain(c: char) {
    c >= ' ' && c != '"' && c != '\\'
  }

  lemma {:induction false} EscapedAppend(a: string, b: string)
    ensures Escaped(a + b) == Escaped(a) + Escaped(b)
    decreases |b|
  {
    if b == [] {
      assert a + b == a;
    } else {
      var b', c := b[..|b| - 1], b[|b| - 1];
      assert (a + b)[..|a + b| - 1] == a + b';
      assert (a + b)[|a + b| - 1] == c;
      EscapedAppend(a, b');
      var e := EscapeChar(c);
      assert Escaped(a + b) == Escaped(a + b') + e;
      assert Escaped(b) == Escaped(b') + e;
      ConcatAssoc(Escaped(a), Escaped(b'), e);
    }
  }

  lemma EscapedSingle(c: char)
    ensures Escaped([c]) == EscapeChar(c)
  {
    assert [c][..0] == [];
  }

  /** Escaping works character by character from the front as well. */
  lemma EscapedCons(c: char, s: string)
    ensures Escaped([c] + s) == EscapeChar(c) + Escaped(s)
  {
    EscapedAppend([c], s);
    EscapedSingle(c);
  }

  /** Escaping never shortens a string. */
  lemma {:induction false} EscapedNotShorter(s: string)
    ensures |Escaped(s)| >= |s|
  {
    if s != [] {
      EscapedNotShorter(s[..|s| - 1]);
    }
  }

  /** The escaped form holds no raw control character. */
  lemma {:induction false} EscapedHasNoControl(s: string)
    ensures forall i :: 0 <= i < |Escaped(s)| ==> Escaped(s)[i] >= ' '
  {
    if s != [] {
      EscapedHasNoControl(s[..|s| - 1]);
      var c := s[|s| - 1];
      if c < ' ' && c != '\U{0008}' && c != '\U{000C}' && c != '\n' && c != '\r' && c != '\t' {
        var h := Hex(c as int, 4);
        assert forall i :: 0 <= i < |h| ==> IsHexChar(h[i]);
      }
    }
  }

  /** A string with no character that needs escaping is its own escaped form. */
  lemma {:induction false} EscapedIdentity(s: string)
    requires forall i :: 0 <= i < |s| ==> Plain(s[i])
    ensures Escaped(s) == s
  {
    if s != [] {
      var front, c := s[..|s| - 1], s[|s| - 1];
      EscapedIdentity(front);
      EscapePlain(c);
      assert s == front + [c];
    }
  }

  /** A character that needs no escaping is written as itself. */
  lemma EscapePlain(c: char)
    requires Plain(c)
    ensures EscapeChar(c) == [c]
  {
  }

  // ---------------------------------------------------------------------------
  // Reading a string value (section 7 of RFC 8259).

  /** The character a two-character escape `\x` stands for. */
  function ShortEscape(x: char): Option<char> {
    if x == '"' then Some('"')
    else if x == '\\' then Some('\\')
    else if x == '/' then Some('/')
    else if x == 'b' then Some('\U{0008}')
    else if x == 'f' then Some('\U{000C}')
    else if x == 'n' then Some('\n')
    else if x == 'r' then Some('\r')
    else if x == 't' then Some('\t')
    else None
  }

  function Prepend(c: char, r: Option<(string, string)>): Option<(string, string)> {
    match r
    case None => None
    case Some((v, rest)) => Some(([c] + v, rest))
  }

  predicate AllHex(s: string) {
    forall i :: 0 <= i < |s| ==> IsHexChar(s[i])
  }

  /** A code that is a Unicode scalar value (a `\u` escape of a lone surrogate is
      not read as a character here). */
  predicate IsScalar(n: nat) {
    n < 0xD800 || 0xE000 <= n < 0x11_0000
  }

  /** Reads the body of a string value that has already lost its opening quote, up to
      and including the closing quote; gives the decoded value and what follows.
      A raw control character, a bad escape or a missing closing quote is an error. */
  function ReadString(t: string): (r: Option<(string, string)>)
    ensures r.Some? ==> |r.value.1| < |t|
    decreases |t|
  {
    if t == [] then None
    else if t[0] == '"' then Some(("", t[1..]))
    else if t[0] == '\\' then
      if |t| >= 2 && ShortEscape(t[1]).Some? then
        Prepend(ShortEscape(t[1]).value, ReadString(t[2..]))
      else if |t| >= 6 && t[1] == 'u' && AllHex(t[2..6]) && IsScalar(FromHex(t[2..6])) then
        Prepend(FromHex(t[2..6]) as char, ReadString(t[6..]))
      else None
    else if t[0] < ' ' then None
    else Prepend(t[0], ReadString(t[1..]))
  }

  lemma Pow16Four()
    ensures Pow16(4) == 0x1_0000
  {
  }

  /** The characters written as a two-character escape. */
  predicate ShortEscaped(c: char) {
    c == '\\' || c == '"' || c == '\U{0008}' || c == '\U{000C}' || c == '\n' || c == '\r' || c == '\t'
  }

  lemma ReadShortEscapeChar(c: char, more: string)
    requires ShortEscaped(c)
    ensures ReadString(EscapeChar(c) + more) == Prepend(c, ReadString(more))
  {
    var t := EscapeChar(c) + more;
    assert t[2..] == more;
  }

  lemma ReadUnicodeEscapeChar(c: char, more: string)
    requires c < ' ' && !ShortEscaped(c)
    ensures ReadString(EscapeChar(c) + more) == Prepend(c, ReadString(more))
  {
    var t := EscapeChar(c) + more;
    var h := Hex(c as int, 4);
    assert EscapeChar(c) == "\\u" + h;
    assert t[2..6] == h;
    assert t[6..] == more;
    Pow16Four();
    FromHexOfHex(c as int, 4);
  }

  lemma ReadPlainChar(c: char, more: string)
    requires Plain(c)
    ensures ReadString(EscapeChar(c) + more) == Prepend(c, ReadString(more))
  {
    EscapePlain(c);
    assert ([c] + more)[1..] == more;
  }

  /** Reading the escape of one character gives that character and goes on after it. */
  lemma ReadEscapeChar(c: char, more: string)
    ensures ReadString(EscapeChar(c) + more) == Prepend(c, ReadString(more))
  {
    if ShortEscaped(c) {
      ReadShortEscapeChar(c, more);
    } else if c < ' ' {
      ReadUnicodeEscapeChar(c, more);
    } else {
      ReadPlainChar(c, more);
    }
  }

  /** The escaped form of a string, closed by a quote, reads back as that string and
      stops exactly at the quote: the escape round trip. */
  lemma {:induction false} ReadEscaped(s: string, rest: string)
    ensures ReadString(Escaped(s) + "\"" + rest) == Some((s, rest))
    decreases |s|
  {
    if s == [] {
      assert Escaped(s) + "\"" + rest == "\"" + rest;
      assert ("\"" + rest)[1..] == rest;
    } else {
      var c, s' := s[0], s[1..];
      var q := "\"" + rest;
      assert s == [c] + s';
      EscapedCons(c, s');
      ConcatAssoc(Escaped(s), "\"", rest);
      ConcatAssoc(Escaped(s'), "\"", rest);
      ConcatAssoc(EscapeChar(c), Escaped(s'), q);
      ReadEscapeChar(c, Escaped(s') + q);
      ReadEscaped(s', rest);
    }
  }

  // ---------------------------------------------------------------------------
  // Reading an integer (section 6 of RFC 8259) and literal text.

  predicate IsDigit(c: char) {
    '0' <= c <= '9'
  }

  function DigitValue(c: char): (d: nat)
    requires IsDigit(c)
    ensures d < 10
  {
    c as int - '0' as int
  }

  /** The value of a string of decimal digits, most significant first. */
  function DigitsValue(s: string): nat
    requires forall i :: 0 <= i < |s| ==> IsDigit(s[i])
  {
    if s == [] then 0 else DigitsValue(s[..|s| - 1]) * 10 + DigitValue(s[|s| - 1])
  }

  function Pow10(k: nat): (r: nat)
    ensures r >= 1
  {
    if k == 0 then 1 else 10 * Pow10(k - 1)
  }

  /** Reads the longest run of digits, adding them to `acc`; gives the value and
      what follows the run. */
  function ReadDigits(t: string, acc: nat): (r: (nat, string))
    ensures |r.1| <= |t|
    decreases |t|
  {
    if t != [] && IsDigit(t[0]) then ReadDigits(t[1..], acc * 10 + DigitValue(t[0]))
    else (acc, t)
  }

  /** Reads an optional minus sign followed by at least one digit. */
  function ReadInt(t: string): (r: Option<(int, string)>)
    ensures r.Some? ==> |r.value.1| < |t|
  {
    if t != [] && t[0] == '-' && |t| >= 2 && IsDigit(t[1]) then
      var (n, rest) := ReadDigits(t[1..], 0);
      var v: int := 0 - (n as int);
      Some((v, rest))
    else if t != [] && IsDigit(t[0]) then
      var (n, rest) := ReadDigits(t, 0);
      Some((n, rest))
    else None
  }

  lemma ReadDigitsOne(d: char, rest: string, acc: nat)
    requires IsDigit(d)
    ensures ReadDigits([d] + rest, acc) == ReadDigits(rest, acc * 10 + DigitValue(d))
  {
    assert ([d] + rest)[1..] == rest;
  }

  lemma ShiftDigit(acc: nat, p: nat, v: nat, d: nat)
    ensures (acc * p + v) * 10 + d == acc * (10 * p) + (v * 10 + d)
  {
    calc {
      (acc * p + v) * 10 + d;
      (acc * p) * 10 + v * 10 + d;
      acc * (p * 10) + v * 10 + d;
    }
  }

  lemma {:induction false} ReadDigitsAppend(ds: string, rest: string, acc: nat)
    requires forall i :: 0 <= i < |ds| ==> IsDigit(ds[i])
    ensures ReadDigits(ds + rest, acc) == ReadDigits(rest, acc * Pow10(|ds|) + DigitsValue(ds))
    decreases |ds|
  {
    if ds != [] {
      var front, d := ds[..|ds| - 1], ds[|ds| - 1];
      assert ds + rest == front + ([d] + rest);
      ReadDigitsAppend(front, [d] + rest, acc);
      var p, v := Pow10(|front|), DigitsValue(front);
      ReadDigitsOne(d, rest, acc * p + v);
      ShiftDigit(acc, p, v, DigitValue(d));
      assert Pow10(|ds|) == 10 * p;
      assert DigitsValue(ds) == v * 10 + DigitValue(d);
    } else {
      assert ds + rest == rest;
    }
  }

  lemma {:induction false} DigitsOfDecimal(n: nat)
    ensures DigitsValue(DecimalDigits(n)) == n
  {
    if n >= 10 {
      var s := DecimalDigits(n);
      assert s[..|s| - 1] == DecimalDigits(n / 10);
      DigitsOfDecimal(n / 10);
    }
  }

  lemma ReadDecimal(m: nat, rest: string)
    requires rest == [] || !IsDigit(rest[0])
    ensures ReadDigits(DecimalDigits(m) + rest, 0) == (m, rest)
  {
    var ds := DecimalDigits(m);
    ReadDigitsAppend(ds, rest, 0);
    DigitsOfDecimal(m);
    assert 0 * Pow10(|ds|) + DigitsValue(ds) == m;
  }

  /** The decimal text of an integer reads back as that integer, when what follows
      it does not start with a digit. */
  lemma ReadIntToString(n: int, rest: string)
    requires rest == [] || !IsDigit(rest[0])
    ensures ReadInt(IntToString(n) + rest) == Some((n, rest))
  {
    var m: nat := if n < 0 then -n else n;
    var ds := DecimalDigits(m);
    ReadDecimal(m, rest);
    var t := IntToString(n) + rest;
    if n < 0 {
      assert t == "-" + (ds + rest);
      assert t[1..] == ds + rest;
      assert IsDigit(t[1]);
    } else {
      assert t == ds + rest;
      assert IsDigit(t[0]);
    }
  }

  /** Expects the literal text `lit` at the front of `t`; gives what follows it. */
  function Expect(lit: string, t: string): (r: Option<string>)
    ensures r.Some? ==> t == lit + r.value
  {
    if |lit| <= |t| && t[..|lit|] == lit then Some(t[|lit|..]) else None
  }

  lemma ExpectLiteral(lit: string, rest: string)
    ensures Expect(lit, lit + rest) == Some(rest)
  {
    assert (lit + rest)[..|lit|] == lit;
    assert (lit + rest)[|lit|..] == rest;
  }
}
