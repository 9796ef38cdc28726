/** The JavaScript string built-ins the core relies on, over Dafny strings:
    whitespace and `trim`, `toLowerCase`, `includes`, `split(' ')`,
    `parseInt` with no radix and `Number.prototype.toString` for integers. */
module JsText {
  import opened Wrappers

  /** The characters of ECMAScript's WhiteSpace and LineTerminator productions,
      which both `String.prototype.trim` and the regular-expression class `\s` use. */
  predicate IsWhiteSpace(c: char) {
    c == '\t' || c == '\n' || c == '\U{B}' || c == '\U{C}' || c == '\r' || c == ' ' ||
    c == '\U{A0}' || c == '\U{1680}' || ('\U{2000}' <= c <= '\U{200A}') ||
    c == '\U{2028}' || c == '\U{2029}' || c == '\U{202F}' || c == '\U{205F}' ||
    c == '\U{3000}' || c == '\U{FEFF}'
  }

  /** `s.length`: JavaScript strings count UTF-16 code units, so a
      character above U+FFFF (a surrogate pair) counts twice. */
  function Utf16Length(s: string): (n: nat)
    ensures |s| <= n <= 2 * |s|
    ensures (forall i :: 0 <= i < |s| ==> s[i] as int < 0x1_0000) ==> n == |s|
    ensures (forall i :: 0 <= i < |s| ==> s[i] as int >= 0x1_0000) ==> n == 2 * |s|
  {
    if s == [] then 0
    else (if s[0] as int < 0x1_0000 then 1 else 2) + Utf16Length(s[1..])
  }

  predicate IsBlank(s: string) {
    forall i :: 0 <= i < |s| ==> IsWhiteSpace(s[i])
  }

  /** The number of white-space characters `trimStart` removes. */
  function LeadingSpace(s: string): (n: nat)
    ensures n <= |s|
    ensures forall i :: 0 <= i < n ==> IsWhiteSpace(s[i])
    ensures n < |s| ==> !IsWhiteSpace(s[n])
    decreases |s|
  {
    if s != [] && IsWhiteSpace(s[0]) then
      var n := LeadingSpace(s[1..]);
      assert forall i :: 1 <= i < n + 1 ==> s[i] == s[1..][i - 1];
      n + 1
    else 0
  }

  /** The length `trimEnd` keeps. */
  function KeptLength(s: string): (n: nat)
    ensures n <= |s|
    ensures forall i :: n <= i < |s| ==> IsWhiteSpace(s[i])
    ensures n > 0 ==> !IsWhiteSpace(s[n - 1])
    decreases |s|
  {
    if s != [] && IsWhiteSpace(s[|s| - 1]) then KeptLength(s[..|s| - 1]) else |s|
  }

  function TrimStart(s: string): string {
    s[LeadingSpace(s)..]
  }

  function TrimEnd(s: string): string {
    s[..KeptLength(s)]
  }

  /** `s.trim()`. */
  function Trim(s: string): string {
    TrimEnd(TrimStart(s))
  }

  /** `!s.trim()` holds exactly for the strings made only of white space. */
  lemma TrimEmptyIffBlank(s: string)
    ensures Trim(s) == "" <==> IsBlank(s)
  {
    var a := LeadingSpace(s);
    var t := TrimStart(s);
    assert forall i :: a <= i < |s| ==> s[i] == t[i - a];
    if IsBlank(s) {
      assert a == |s|;
    }
    if Trim(s) == "" {
      assert KeptLength(t) == 0;
    }
  }

  /** ASCII case mapping of `toLowerCase`/`toUpperCase`. */
  function LowerChar(c: char): char {
    if 'A' <= c <= 'Z' then (c as int - 'A' as int + 'a' as int) as char else c
  }

  function UpperChar(c: char): char {
    if 'a' <= c <= 'z' then (c as int - 'a' as int + 'A' as int) as char else c
  }

  function ToLower(s: string): (r: string)
    ensures |r| == |s| && forall i :: 0 <= i < |s| ==> r[i] == LowerChar(s[i])
  {
    seq(|s|, i requires 0 <= i < |s| => LowerChar(s[i]))
  }

  function ToUpper(s: string): (r: string)
    ensures |r| == |s| && forall i :: 0 <= i < |s| ==> r[i] == UpperChar(s[i])
  {
    seq(|s|, i requires 0 <= i < |s| => UpperChar(s[i]))
  }

  /** Lower-casing forgets the case the string was written in. */
  lemma LowerOfUpper(s: string)
    ensures ToLower(ToUpper(s)) == ToLower(s)
  {
  }

  /** `s.includes(t)`, computed by trying each start position in turn. */
  function Includes(s: string, t: string): bool
    decreases |s|
  {
    t <= s || (s != [] && Includes(s[1..], t))
  }

  /** `t` occurs in `s` starting at index `i`. */
  predicate OccursAt(s: string, t: string, i: int) {
    0 <= i <= |s| - |t| && s[i..i + |t|] == t
  }

  /** `Includes` holds exactly when `t` occurs at some position of `s`. */
  lemma {:induction false} IncludesIffOccurs(s: string, t: string)
    ensures Includes(s, t) <==> exists i :: OccursAt(s, t, i)
    decreases |s|
  {
    if t <= s {
      assert OccursAt(s, t, 0);
    } else if s == [] {
    } else {
      IncludesIffOccurs(s[1..], t);
      if Includes(s, t) {
        var i :| OccursAt(s[1..], t, i);
        assert s[1..][i..i + |t|] == s[i + 1..i + 1 + |t|];
        assert OccursAt(s, t, i + 1);
      }
      if exists i :: OccursAt(s, t, i) {
        var i :| OccursAt(s, t, i);
        assert i != 0 by {
          assert s[0..|t|] == s[..|t|];
        }
        assert s[1..][i - 1..i - 1 + |t|] == s[i..i + |t|];
        assert OccursAt(s[1..], t, i - 1);
      }
    }
  }

  /** The empty string is included in every string. */
  lemma IncludesEmpty(s: string)
    ensures Includes(s, "")
  {
  }

  /** `s.split(sep)` for a one-character separator: every occurrence splits,
      and empty fields are kept. */
  function Split(s: string, sep: char): (r: seq<string>)
    ensures |r| >= 1
    ensures forall k :: 0 <= k < |r| ==> sep !in r[k]
    decreases |s|
  {
    if s == [] then [""]
    else if s[0] == sep then [""] + Split(s[1..], sep)
    else
      var rest := Split(s[1..], sep);
      [[s[0]] + rest[0]] + rest[1..]
  }

  /** A string without the separator is a single field. */
  lemma {:induction false} SplitNoSep(s: string, sep: char)
    requires sep !in s
    ensures Split(s, sep) == [s]
    decreases |s|
  {
    if s != [] {
      SplitNoSep(s[1..], sep);
      assert s == [s[0]] + s[1..];
    }
  }

  /** A leading field ends at the first separator. */
  lemma {:induction false} SplitField(w: string, rest: string, sep: char)
    requires sep !in w
    ensures Split(w + [sep] + rest, sep) == [w] + Split(rest, sep)
    decreases |w|
  {
    var s := w + [sep] + rest;
    if w == [] {
      assert s == [sep] + rest && s[1..] == rest;
    } else {
      SplitField(w[1..], rest, sep);
      assert s[0] == w[0] && s[1..] == w[1..] + [sep] + rest;
      assert w == [w[0]] + w[1..];
    }
  }

  /** `fields.join(sep)`. */
  function Join(fields: seq<string>, sep: char): string
    decreases |fields|
  {
    if fields == [] then ""
    else if |fields| == 1 then fields[0]
    else fields[0] + [sep] + Join(fields[1..], sep)
  }

  /** Joining the fields of a split restores the string. */
  lemma {:induction false} JoinSplit(s: string, sep: char)
    ensures Join(Split(s, sep), sep) == s
    decreases |s|
  {
    if s == [] {
    } else if s[0] == sep {
      JoinSplit(s[1..], sep);
      assert s == [sep] + s[1..];
    } else {
      JoinSplit(s[1..], sep);
      var rest := Split(s[1..], sep);
      if |rest| == 1 {
        assert s == [s[0]] + rest[0];
      } else {
        assert rest == [rest[0]] + rest[1..];
        assert Join(rest, sep) == rest[0] + [sep] + Join(rest[1..], sep);
        assert s == [s[0]] + s[1..];
      }
    }
  }

  // ---------------------------------------------------------------------------
  // Integers and their decimal text

  predicate IsDigit(c: char) { '0' <= c <= '9' }

  predicate IsHexDigit(c: char) { IsDigit(c) || 'a' <= c <= 'f' || 'A' <= c <= 'F' }

  function HexDigitValue(c: char): (d: nat)
    requires IsHexDigit(c)
    ensures d < 16
  {
    if IsDigit(c) then c as int - '0' as int
    else if 'a' <= c <= 'f' then c as int - 'a' as int + 10
    else c as int - 'A' as int + 10
  }

  predicate AllDigits(s: string) {
    forall i :: 0 <= i < |s| ==> IsDigit(s[i])
  }

  predicate IsDigitIn(c: char, hex: bool) {
    if hex then IsHexDigit(c) else IsDigit(c)
  }

  /** The length of the longest prefix of `s` made of digits (hexadecimal
      ones when `hex`). */
  function DigitCount(s: string, hex: bool): (n: nat)
    ensures n <= |s|
    ensures forall i :: 0 <= i < n ==> IsDigitIn(s[i], hex)
    ensures n < |s| ==> !IsDigitIn(s[n], hex)
    decreases |s|
  {
    if s != [] && IsDigitIn(s[0], hex) then
      var n := DigitCount(s[1..], hex);
      assert forall i :: 1 <= i < n + 1 ==> s[i] == s[1..][i - 1];
      n + 1
    else 0
  }

  /** The value of a string of digits in base `radix`. */
  function ValueIn(s: string, radix: nat): (v: nat)
    requires forall i :: 0 <= i < |s| ==> IsHexDigit(s[i])
    decreases |s|
  {
    if s == [] then 0 else ValueIn(s[..|s| - 1], radix) * radix + HexDigitValue(s[|s| - 1])
  }

  /** The magnitude `parseInt` reads after the sign: a `0x`/`0X` prefix
      selects base 16, otherwise base 10; `None` when no digit follows. */
  function ParseMagnitude(body: string): Option<nat>
  {
    var hex := |body| >= 2 && body[0] == '0' && (body[1] == 'x' || body[1] == 'X');
    var rest := if hex then body[2..] else body;
    var n := DigitCount(rest, hex);
    if n == 0 then None else Some(ValueIn(rest[..n], if hex then 16 else 10))
  }

  /** `parseInt(s)` with no radix argument; `None` stands for NaN. Leading white
      space is skipped, one sign is allowed, and parsing stops at the first
      character that is not a digit. */
  function ParseInt(s: string): Option<int>
  {
    var t := TrimStart(s);
    var signed := t != [] && (t[0] == '-' || t[0] == '+');
    match ParseMagnitude(if signed then t[1..] else t)
    case None => None
    case Some(m) => Some(if t[0] == '-' then -(m as int) else m as int)
  }

  function DigitChar(d: nat): (c: char)
    requires d < 10
    ensures IsDigit(c)
  {
    ('0' as int + d) as char
  }

  /** Decimal text of a natural number, without leading zeros. */
  function NatString(n: nat): (s: string)
    ensures s != [] && AllDigits(s)
    decreases n
  {
    if n < 10 then [DigitChar(n)] else NatString(n / 10) + [DigitChar(n % 10)]
  }

  /** `n.toString()` for an integer `n`. */
  function IntString(n: int): string {
    if n < 0 then "-" + NatString(-n) else NatString(n)
  }

  /** A non-empty string of digits with no leading zero: what `toString`
      produces for a positive integer. */
  predicate IsCanonicalPositive(s: string) {
    s != [] && AllDigits(s) && s[0] != '0'
  }

  lemma {:induction false} ValueOfNatString(n: nat)
    ensures ValueIn(NatString(n), 10) == n
    decreases n
  {
    if n >= 10 {
      ValueOfNatString(n / 10);
      var s := NatString(n);
      assert s[..|s| - 1] == NatString(n / 10);
    }
  }

  lemma {:induction false} CanonicalValuePositive(s: string)
    requires IsCanonicalPositive(s)
    ensures ValueIn(s, 10) >= 1
    decreases |s|
  {
    if |s| > 1 {
      CanonicalValuePositive(s[..|s| - 1]);
    }
  }

  lemma {:induction false} NatStringOfValue(s: string)
    requires IsCanonicalPositive(s)
    ensures NatString(ValueIn(s, 10)) == s
    decreases |s|
  {
    var v := ValueIn(s, 10);
    if |s| == 1 {
      assert s[..0] == [];
      assert ValueIn(s[..0], 10) == 0;
      assert v == HexDigitValue(s[0]) < 10;
      assert s == [DigitChar(v)];
    } else {
      var init := s[..|s| - 1];
      NatStringOfValue(init);
      CanonicalValuePositive(init);
      var d := HexDigitValue(s[|s| - 1]);
      assert v / 10 == ValueIn(init, 10) && v % 10 == d;
      assert s == init + [DigitChar(d)];
    }
  }

  /** A non-empty run of decimal digits is read as its base-10 value. */
  lemma MagnitudeOfDigits(d: string)
    requires d != [] && AllDigits(d)
    ensures ParseMagnitude(d) == Some(ValueIn(d, 10))
  {
    assert d[0] != '0' || |d| < 2 || (d[1] != 'x' && d[1] != 'X');
    assert DigitCount(d, false) == |d|;
    assert d[..|d|] == d;
  }

  /** `parseInt` reads back what `toString` writes for every integer. */
  lemma ParseIntString(n: int)
    ensures ParseInt(IntString(n)) == Some(n)
  {
    var m: nat := if n < 0 then -n else n;
    var digits := NatString(m);
    ValueOfNatString(m);
    MagnitudeOfDigits(digits);
    var t := IntString(n);
    assert !IsWhiteSpace(t[0]);
    assert TrimStart(t) == t;
    if n < 0 {
      assert t[0] == '-' && t[1..] == digits;
    } else {
      assert t == digits && t[0] != '-' && t[0] != '+';
    }
  }

  /** `parseInt` stops at the first character that is not a digit: a positive
      number followed by any such text reads as that number. */
  lemma ParseIntStopsAtNonDigit(n: nat, rest: string)
    requires n >= 1
    requires rest == [] || !IsDigit(rest[0])
    ensures ParseInt(NatString(n) + rest) == Some(n)
  {
    var d := NatString(n);
    var s := d + rest;
    ValueOfNatString(n);
    assert s[0] == d[0] && IsDigit(s[0]) && !IsWhiteSpace(s[0]);
    assert TrimStart(s) == s;
    if |d| == 1 {
      assert n < 10 && d == [DigitChar(n)];
    } else {
      assert s[1] == d[1] && IsDigit(s[1]);
    }
    var k := DigitCount(s, false);
    assert forall i :: 0 <= i < |d| ==> s[i] == d[i] && IsDigitIn(s[i], false);
    assert |d| < |s| ==> s[|d|] == rest[0] && !IsDigitIn(s[|d|], false);
    assert k == |d|;
    assert s[..k] == d;
  }

  /** `toString` writes back a canonical positive decimal that `parseInt` read. */
  lemma ParseIntCanonical(s: string)
    requires IsCanonicalPositive(s)
    ensures ParseInt(s).Some? && ParseInt(s).value >= 1 && IntString(ParseInt(s).value) == s
  {
    MagnitudeOfDigits(s);
    assert !IsWhiteSpace(s[0]) && s[0] != '-' && s[0] != '+';
    assert TrimStart(s) == s;
    var v := ValueIn(s, 10);
    assert ParseInt(s) == Some(v);
    CanonicalValuePositive(s);
    NatStringOfValue(s);
    assert IntString(v) == NatString(v);
  }
}
