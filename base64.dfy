/** Base64 encoding with the standard alphabet and `=` padding (section 4 of
    RFC 4648), and the browser's `btoa`, which applies it to a string whose
    characters are all in the Latin-1 range and throws otherwise. */
module Base64 {
  import opened Wrappers

  type Byte = x: int | 0 <= x < 256

  /** A 6-bit group, or `Pad` (64) for the `=` padding character. */
  type Symbol = x: int | 0 <= x <= 64
  const Pad: Symbol := 64

  /** Table 1 of RFC 4648, plus `=` for padding. */
  function SymbolChar(v: Symbol): char {
    if v < 26 then ('A' as int + v) as char
    else if v < 52 then ('a' as int + v - 26) as char
    else if v < 62 then ('0' as int + v - 52) as char
    else if v == 62 then '+'
    else if v == 63 then '/'
    else '='
  }

  /** The symbol a character stands for, if it is in the alphabet or is `=`. */
  function CharSymbol(c: char): Option<Symbol>
  {
    if 'A' <= c <= 'Z' then Some(c as int - 'A' as int)
    else if 'a' <= c <= 'z' then Some(c as int - 'a' as int + 26)
    else if '0' <= c <= '9' then Some(c as int - '0' as int + 52)
    else if c == '+' then Some(62)
    else if c == '/' then Some(63)
    else if c == '=' then Some(Pad)
    else None
  }

  lemma CharSymbolOfSymbolChar(v: Symbol)
    ensures CharSymbol(SymbolChar(v)) == Some(v)
  {
  }

  /** Every three bytes become four 6-bit symbols; a final group of one or two
      bytes is completed with padding. */
  function Symbols(b: seq<Byte>): (r: seq<Symbol>)
    ensures (r == []) == (b == [])
    decreases |b|
  {
    if |b| == 0 then []
    else if |b| == 1 then [b[0] / 4, (b[0] % 4) * 16, Pad, Pad]
    else if |b| == 2 then [b[0] / 4, (b[0] % 4) * 16 + b[1] / 16, (b[1] % 16) * 4, Pad]
    else FullGroup(b[0], b[1], b[2]) + Symbols(b[3..])
  }

  /** The four symbols for three bytes: their 24 bits, six at a time. */
  function FullGroup(b0: Byte, b1: Byte, b2: Byte): (r: seq<Symbol>)
    ensures |r| == 4
  {
    [b0 / 4, (b0 % 4) * 16 + b1 / 16, (b1 % 16) * 4 + b2 / 64, b2 % 64]
  }

  /** Reverses `Symbols`, group by group; `None` for a malformed group. */
  function SymbolBytes(v: seq<Symbol>): Option<seq<Byte>>
    decreases |v|
  {
    if v == [] then Some([])
    else if |v| < 4 then None
    else
      var group := GroupBytes(v[0], v[1], v[2], v[3]);
      var rest := SymbolBytes(v[4..]);
      if group.Some? && rest.Some? then Some(group.value + rest.value) else None
  }

  /** The one, two or three bytes of a group of four symbols. */
  function GroupBytes(v0: Symbol, v1: Symbol, v2: Symbol, v3: Symbol): Option<seq<Byte>>
  {
    var n0, n1, n2, n3: int := v0, v1, v2, v3;
    if v0 == Pad || v1 == Pad then None
    else if v2 == Pad then
      if v3 == Pad then Some([n0 * 4 + n1 / 16]) else None
    else if v3 == Pad then Some([n0 * 4 + n1 / 16, (n1 % 16) * 16 + n2 / 4])
    else Some([n0 * 4 + n1 / 16, (n1 % 16) * 16 + n2 / 4, (n2 % 4) * 64 + n3])
  }

  /** The encoded text. */
  function Encode(b: seq<Byte>): (r: string)
    ensures (r == "") == (b == [])
  {
    var v := Symbols(b);
    seq(|v|, i requires 0 <= i < |v| => SymbolChar(v[i]))
  }

  function Decode(s: string): Option<seq<Byte>>
  {
    if forall i :: 0 <= i < |s| ==> CharSymbol(s[i]).Some? then
      SymbolBytes(seq(|s|, i requires 0 <= i < |s| => CharSymbol(s[i]).value))
    else None
  }

  lemma DivMod16(q: int, r: int)
    requires 0 <= r < 16
    ensures (q * 16 + r) / 16 == q && (q * 16 + r) % 16 == r
  {
  }

  lemma DivMod4(q: int, r: int)
    requires 0 <= r < 4
    ensures (q * 4 + r) / 4 == q && (q * 4 + r) % 4 == r
  {
  }

  lemma DecodeOneByte(b0: Byte)
    ensures GroupBytes(b0 / 4, (b0 % 4) * 16, Pad, Pad) == Some([b0])
  {
    var n0, n1 := b0 / 4, (b0 % 4) * 16;
    DivMod16(b0 % 4, 0);
    assert n0 * 4 + n1 / 16 == b0;
  }

  lemma DecodeTwoBytes(b0: Byte, b1: Byte)
    ensures GroupBytes(b0 / 4, (b0 % 4) * 16 + b1 / 16, (b1 % 16) * 4, Pad) == Some([b0, b1])
  {
    var n0, n1, n2 := b0 / 4, (b0 % 4) * 16 + b1 / 16, (b1 % 16) * 4;
    DivMod16(b0 % 4, b1 / 16);
    DivMod4(b1 % 16, 0);
    assert n0 * 4 + n1 / 16 == b0;
    assert (n1 % 16) * 16 + n2 / 4 == b1;
  }

  lemma DecodeThreeBytes(b0: Byte, b1: Byte, b2: Byte)
    ensures var g := FullGroup(b0, b1, b2); GroupBytes(g[0], g[1], g[2], g[3]) == Some([b0, b1, b2])
  {
    var n0, n1, n2, n3 := b0 / 4, (b0 % 4) * 16 + b1 / 16, (b1 % 16) * 4 + b2 / 64, b2 % 64;
    DivMod16(b0 % 4, b1 / 16);
    DivMod4(b1 % 16, b2 / 64);
    assert n0 * 4 + n1 / 16 == b0;
    assert (n1 % 16) * 16 + n2 / 4 == b1;
    assert (n2 % 4) * 64 + n3 == b2;
  }

  lemma OneByteGroup(b: seq<Byte>)
    requires |b| == 1
    ensures SymbolBytes(Symbols(b)) == Some(b)
  {
    var v := Symbols(b);
    DecodeOneByte(b[0]);
    assert v[4..] == [];
    assert [b[0]] + [] == b;
  }

  lemma TwoByteGroup(b: seq<Byte>)
    requires |b| == 2
    ensures SymbolBytes(Symbols(b)) == Some(b)
  {
    var v := Symbols(b);
    DecodeTwoBytes(b[0], b[1]);
    assert v[4..] == [];
    assert [b[0], b[1]] + [] == b;
  }

  lemma SymbolBytesAppend(g: seq<Symbol>, rest: seq<Symbol>, x: seq<Byte>, y: seq<Byte>)
    requires |g| == 4 && GroupBytes(g[0], g[1], g[2], g[3]) == Some(x) && SymbolBytes(rest) == Some(y)
    ensures SymbolBytes(g + rest) == Some(x + y)
  {
    var v := g + rest;
    assert v[4..] == rest;
    assert v[0] == g[0] && v[1] == g[1] && v[2] == g[2] && v[3] == g[3];
  }

  lemma ThreeByteGroup(b0: Byte, b1: Byte, b2: Byte, tail: seq<Byte>)
    requires SymbolBytes(Symbols(tail)) == Some(tail)
    ensures SymbolBytes(Symbols([b0, b1, b2] + tail)) == Some([b0, b1, b2] + tail)
  {
    var b := [b0, b1, b2] + tail;
    assert b[3..] == tail;
    assert Symbols(b) == FullGroup(b0, b1, b2) + Symbols(tail);
    DecodeThreeBytes(b0, b1, b2);
    SymbolBytesAppend(FullGroup(b0, b1, b2), Symbols(tail), [b0, b1, b2], tail);
  }

  lemma {:induction false} SymbolBytesOfSymbols(b: seq<Byte>)
    ensures SymbolBytes(Symbols(b)) == Some(b)
    decreases |b|
  {
    if |b| == 1 {
      OneByteGroup(b);
    } else if |b| == 2 {
      TwoByteGroup(b);
    } else if |b| >= 3 {
      SymbolBytesOfSymbols(b[3..]);
      ThreeByteGroup(b[0], b[1], b[2], b[3..]);
      assert b == [b[0], b[1], b[2]] + b[3..];
    }
  }

  /** Decoding inverts encoding. */
  lemma DecodeEncode(b: seq<Byte>)
    ensures Decode(Encode(b)) == Some(b)
  {
    var v, s := Symbols(b), Encode(b);
    forall i | 0 <= i < |s| ensures CharSymbol(s[i]) == Some(v[i]) {
      CharSymbolOfSymbolChar(v[i]);
    }
    assert seq(|s|, i requires 0 <= i < |s| => CharSymbol(s[i]).value) == v;
    SymbolBytesOfSymbols(b);
  }

  lemma EncodeInjective(a: seq<Byte>, b: seq<Byte>)
    requires Encode(a) == Encode(b)
    ensures a == b
  {
    DecodeEncode(a);
    DecodeEncode(b);
  }

  predicate IsLatin1(s: string) {
    forall i :: 0 <= i < |s| ==> s[i] as int < 256
  }

  function Latin1Bytes(s: string): (b: seq<Byte>)
    requires IsLatin1(s)
    ensures |b| == |s| && forall i :: 0 <= i < |s| ==> b[i] == s[i] as int
  {
    seq(|s|, i requires 0 <= i < |s| => s[i] as int as Byte)
  }

  /** `btoa(s)`: `None` models the InvalidCharacterError thrown for a
      character beyond U+00FF. */
  function Btoa(s: string): (r: Option<string>)
    ensures r.Some? <==> IsLatin1(s)
    ensures r.Some? ==> (r.value == "" <==> s == "")
  {
    if IsLatin1(s) then Some(Encode(Latin1Bytes(s))) else None
  }

  /** Two strings with the same `btoa` encoding are equal: comparing encoded
      passwords is the same as comparing the passwords. */
  lemma BtoaInjective(s: string, t: string)
    requires Btoa(s).Some? && Btoa(s) == Btoa(t)
    ensures s == t
  {
    EncodeInjective(Latin1Bytes(s), Latin1Bytes(t));
    assert forall i :: 0 <= i < |s| ==> s[i] as int == Latin1Bytes(s)[i];
  }
}
