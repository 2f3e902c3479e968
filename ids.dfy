/** Entity handles and the 128-bit rule identifier with its text form. */
module Ids {
  import opened Wrappers

  /** A Unity ECS entity handle; `Null` is the default value (index 0, version 0). */
  datatype Entity = Entity(index: int, version: int)

  const Null: Entity := Entity(0, 0)

  const HashBound: int := 0x1_0000_0000_0000_0000_0000_0000_0000_0000

  /** Colossal.Hash128: an opaque 128-bit value; its default is 0. */
  newtype Hash128 = x: int | 0 <= x < 0x1_0000_0000_0000_0000_0000_0000_0000_0000

  const DefaultHash: Hash128 := 0

  /** Number of hexadecimal digits in the text form of a Hash128. */
  const HashDigits: nat := 32

  function Pow16(k: nat): (r: nat)
    ensures r >= 1
  {
    if k == 0 then 1 else 16 * Pow16(k - 1)
  }

  function HexDigit(d: nat): (c: char)
    requires d < 16
  {
    if d < 10 then ('0' as int + d) as char else ('a' as int + d - 10) as char
  }

  predicate IsHexChar(c: char) {
    ('0' <= c <= '9') || ('a' <= c <= 'f') || ('A' <= c <= 'F')
  }

  function HexValue(c: char): (d: nat)
    requires IsHexChar(c)
    ensures d < 16
  {
    if '0' <= c <= '9' then c as int - '0' as int
    else if 'a' <= c <= 'f' then c as int - 'a' as int + 10
    else c as int - 'A' as int + 10
  }

  lemma HexValueOfDigit(d: nat)
    requires d < 16
    ensures IsHexChar(HexDigit(d)) && HexValue(HexDigit(d)) == d
  {
  }

  /** The last `k` hexadecimal digits of `n`, most significant first. */
  function Hex(n: nat, k: nat): (s: string)
    ensures |s| == k
    ensures forall i :: 0 <= i < |s| ==> IsHexChar(s[i])
  {
    if k == 0 then []
    else
      HexValueOfDigit(n % 16);
      Hex(n / 16, k - 1) + [HexDigit(n % 16)]
  }

  /** The number denoted by a string of hexadecimal digits, most significant first. */
  function FromHex(s: string): (n: nat)
    requires forall i :: 0 <= i < |s| ==> IsHexChar(s[i])
    ensures n < Pow16(|s|)
  {
    if s == [] then 0
    else FromHex(s[..|s| - 1]) * 16 + HexValue(s[|s| - 1])
  }

  lemma {:induction false} FromHexOfHex(n: nat, k: nat)
    requires n < Pow16(k)
    ensures FromHex(Hex(n, k)) == n
  {
    if k > 0 {
      var s := Hex(n, k);
      assert s[..|s| - 1] == Hex(n / 16, k - 1);
      HexValueOfDigit(n % 16);
      FromHexOfHex(n / 16, k - 1);
    }
  }

  lemma {:induction false} Pow16Add(a: nat, b: nat)
    ensures Pow16(a + b) == Pow16(a) * Pow16(b)
  {
    if a > 0 {
      Pow16Add(a - 1, b);
    }
  }

  lemma Pow16HashDigits()
    ensures Pow16(HashDigits) == HashBound
  {
    assert Pow16(4) == 0x1_0000;
    Pow16Add(4, 4);
    Pow16Add(8, 8);
    Pow16Add(16, 16);
  }

  /** Hash128.ToString(): 32 lowercase hexadecimal digits. */
  function ToText(id: Hash128): (s: string)
    ensures |s| == HashDigits
  {
    Hex(id as int, HashDigits)
  }

  /** Hash128 parsing from text, which fails on malformed input. */
  function Parse(s: string): (r: Option<Hash128>)
    ensures r.Some? <==> |s| == HashDigits && forall i :: 0 <= i < |s| ==> IsHexChar(s[i])
  {
    if |s| == HashDigits && forall i :: 0 <= i < |s| ==> IsHexChar(s[i]) then
      Pow16HashDigits();
      Some(FromHex(s) as Hash128)
    else None
  }

  /** Parsing the text form of an id gives the id back. */
  lemma ParseToText(id: Hash128)
    ensures Parse(ToText(id)) == Some(id)
  {
    Pow16HashDigits();
    FromHexOfHex(id as int, HashDigits);
  }

  /** Distinct ids have distinct text forms, so matching by text is matching by id. */
  lemma ToTextInjective(a: Hash128, b: Hash128)
    ensures ToText(a) == ToText(b) <==> a == b
  {
    ParseToText(a);
    ParseToText(b);
  }
}
