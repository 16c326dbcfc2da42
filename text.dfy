/**
  The JavaScript string primitives the provider queries and the dialogue rely on:
  `toLowerCase`, `includes`, `trim` (as a blank test), `parseInt` and the decimal
  rendering `String(n)` of an integer.

  Case folding is ASCII only; JavaScript's full Unicode case mapping is not modelled.
*/
module Text {
  import opened Wrappers

  // ---------------------------------------------------------------------------
  // Case folding
  // ---------------------------------------------------------------------------

  predicate IsUpper(c: char) {
    'A' <= c <= 'Z'
  }

  function LowerChar(c: char): char {
    if IsUpper(c) then (c as int - 'A' as int + 'a' as int) as char else c
  }

  /** `s.toLowerCase()` on ASCII letters; every other character is kept. */
  function Lower(s: string): string {
    seq(|s|, i requires 0 <= i < |s| => LowerChar(s[i]))
  }

  /** A string without upper-case letters is its own lower-case form. */
  lemma LowerKeeps(s: string)
    requires forall c :: c in s ==> !IsUpper(c)
    ensures Lower(s) == s
  {
    forall i | 0 <= i < |s| ensures Lower(s)[i] == s[i] {
      assert s[i] in s;
    }
  }

  lemma LowerAppend(a: string, b: string)
    ensures Lower(a + b) == Lower(a) + Lower(b)
  {
    forall i | 0 <= i < |a + b| ensures Lower(a + b)[i] == (Lower(a) + Lower(b))[i] {
      if i < |a| { assert (a + b)[i] == a[i]; } else { assert (a + b)[i] == b[i - |a|]; }
    }
  }

  // ---------------------------------------------------------------------------
  // Substring search
  // ---------------------------------------------------------------------------

  /** `needle` occurs in `hay` at some position; the empty needle occurs everywhere. */
  ghost predicate Substring(needle: string, hay: string) {
    exists i :: 0 <= i <= |hay| && needle <= hay[i..]
  }

  lemma SubstringStep(needle: string, hay: string)
    requires hay != [] && !(needle <= hay)
    ensures Substring(needle, hay) <==> Substring(needle, hay[1..])
  {
    if Substring(needle, hay) {
      var i :| 0 <= i <= |hay| && needle <= hay[i..];
      assert hay[0..] == hay;
      assert 0 < i;
      assert hay[1..][i - 1..] == hay[i..];
    }
    if Substring(needle, hay[1..]) {
      var i :| 0 <= i <= |hay[1..]| && needle <= hay[1..][i..];
      assert hay[1..][i..] == hay[i + 1..];
    }
  }

  /** `hay.includes(needle)`: scans the start positions of `hay` from the left. */
  function Includes(hay: string, needle: string): (b: bool)
    ensures b <==> Substring(needle, hay)
    decreases |hay|
  {
    if needle <= hay then
      assert hay[0..] == hay;
      true
    else if hay == [] then
      false
    else
      SubstringStep(needle, hay);
      Includes(hay[1..], needle)
  }

  /** Every character of an occurring needle is a character of the haystack. */
  lemma CharsOfSubstring(needle: string, hay: string)
    ensures Substring(needle, hay) ==> forall c :: c in needle ==> c in hay
  {
    if Substring(needle, hay) {
      var i :| 0 <= i <= |hay| && needle <= hay[i..];
      forall c | c in needle ensures c in hay {
        var k :| 0 <= k < |needle| && needle[k] == c;
        assert hay[i..][k] == c;
      }
    }
  }

  /** A needle holding a character the haystack lacks is not included. */
  lemma MissingChar(hay: string, needle: string, c: char)
    requires c in needle && c !in hay
    ensures !Includes(hay, needle)
  {
    CharsOfSubstring(needle, hay);
  }

  /** A needle longer than the haystack is never found. */
  lemma LongerNeedle(hay: string, needle: string)
    requires |needle| > |hay|
    ensures !Includes(hay, needle)
  {
  }

  /** A needle found at position `i` is included. */
  lemma FoundAt(hay: string, needle: string, i: nat)
    requires i <= |hay| && needle <= hay[i..]
    ensures Includes(hay, needle)
  {
  }

  // ---------------------------------------------------------------------------
  // Whitespace
  // ---------------------------------------------------------------------------

  /** ECMAScript WhiteSpace and LineTerminator code points, the set `trim` and `parseInt` skip. */
  predicate IsWhiteSpace(c: char) {
    || c == '\t' || c == '\n' || c == '\U{B}' || c == '\U{C}' || c == '\r' || c == ' '
    || c == '\U{A0}' || c == '\U{1680}' || ('\U{2000}' <= c <= '\U{200A}')
    || c == '\U{2028}' || c == '\U{2029}' || c == '\U{202F}' || c == '\U{205F}'
    || c == '\U{3000}' || c == '\U{FEFF}'
  }

  /** `!s.trim()`: the string is empty once surrounding whitespace is removed. */
  predicate IsBlank(s: string) {
    forall i :: 0 <= i < |s| ==> IsWhiteSpace(s[i])
  }

  /** Leading whitespace removed, as `parseInt` does before reading a sign. */
  function TrimStart(s: string): (r: string)
    ensures |r| <= |s| && r == s[|s| - |r|..]
    ensures r != [] ==> !IsWhiteSpace(r[0])
    ensures IsBlank(s) <==> r == []
  {
    if s != [] && IsWhiteSpace(s[0]) then
      var r := TrimStart(s[1..]);
      assert s[1..][|s[1..]| - |r|..] == s[|s| - |r|..];
      r
    else
      s
  }

  // ---------------------------------------------------------------------------
  // Digits, parseInt and decimal rendering
  // ---------------------------------------------------------------------------

  /** Value of `c` as a digit of radix 36: '0'..'9', then 'a'/'A' = 10 up to 'z'/'Z' = 35. */
  function DigitValue(c: char): Option<nat> {
    if '0' <= c <= '9' then Some(c as int - '0' as int)
    else if 'a' <= c <= 'z' then Some(c as int - 'a' as int + 10)
    else if 'A' <= c <= 'Z' then Some(c as int - 'A' as int + 10)
    else None
  }

  predicate IsDigitOf(c: char, radix: nat) {
    DigitValue(c).Some? && DigitValue(c).value < radix
  }

  /** The longest prefix of `s` made of radix-`radix` digits. */
  function DigitPrefix(s: string, radix: nat): (r: string)
    ensures r <= s
    ensures forall i :: 0 <= i < |r| ==> IsDigitOf(r[i], radix)
    ensures |r| < |s| ==> !IsDigitOf(s[|r|], radix)
  {
    if s != [] && IsDigitOf(s[0], radix) then [s[0]] + DigitPrefix(s[1..], radix) else []
  }

  /** The number a string of digits denotes, most significant digit first. */
  function DigitsValue(ds: string, radix: nat): nat
    requires forall i :: 0 <= i < |ds| ==> IsDigitOf(ds[i], radix)
  {
    if ds == [] then 0
    else
      assert IsDigitOf(ds[|ds| - 1], radix);
      DigitsValue(ds[..|ds| - 1], radix) * radix + DigitValue(ds[|ds| - 1]).value
  }

  /**
    `parseInt(s)` with no radix argument: leading whitespace is skipped, one sign is
    read, and the magnitude follows; without any digit the result is NaN, here None.
  */
  function ParseInt(s: string): Option<int> {
    var t := TrimStart(s);
    if t != [] && t[0] == '-' then
      match Magnitude(t[1..])
      case None => None
      case Some(m) => Some(-(m as int))
    else if t != [] && t[0] == '+' then
      match Magnitude(t[1..])
      case None => None
      case Some(m) => Some(m as int)
    else
      match Magnitude(t)
      case None => None
      case Some(m) => Some(m as int)
  }

  /**
    The unsigned part of `parseInt`: a "0x"/"0X" prefix switches to radix 16, and the
    longest run of digits that follows is read; an empty run is None.
  */
  function Magnitude(u: string): Option<nat> {
    var hex := |u| >= 2 && u[0] == '0' && (u[1] == 'x' || u[1] == 'X');
    var radix := if hex then 16 else 10;
    var ds := DigitPrefix(if hex then u[2..] else u, radix);
    if ds == [] then None else Some(DigitsValue(ds, radix))
  }

  function DigitChar(d: nat): (c: char)
    requires d < 10
    ensures IsDigitOf(c, 10) && DigitValue(c) == Some(d)
  {
    ('0' as int + d) as char
  }

  /** `String(n)` for a natural number: its decimal digits without leading zeros. */
  function NatToDecimal(n: nat): (s: string)
    ensures |s| > 0
    ensures forall i :: 0 <= i < |s| ==> IsDigitOf(s[i], 10)
    decreases n
  {
    if n < 10 then [DigitChar(n)] else NatToDecimal(n / 10) + [DigitChar(n % 10)]
  }

  /** `String(n)` for an integer. */
  function Decimal(n: int): string {
    if n < 0 then "-" + NatToDecimal(-n) else NatToDecimal(n)
  }

  /** Reading back the digits of `n` gives `n`. */
  lemma {:induction false} NatToDecimalValue(n: nat)
    ensures DigitsValue(NatToDecimal(n), 10) == n
    decreases n
  {
    var s := NatToDecimal(n);
    if n >= 10 {
      NatToDecimalValue(n / 10);
      assert s[..|s| - 1] == NatToDecimal(n / 10);
    }
  }

  /** Only zero is written with a leading '0'. */
  lemma {:induction false} NatToDecimalLeadingZero(n: nat)
    ensures NatToDecimal(n)[0] == '0' ==> n == 0 && |NatToDecimal(n)| == 1
    decreases n
  {
    if n >= 10 {
      NatToDecimalLeadingZero(n / 10);
      assert NatToDecimal(n)[0] == NatToDecimal(n / 10)[0];
    }
  }

  /** A run of digits followed by a non-digit is read up to the non-digit. */
  lemma {:induction false} DigitPrefixStops(ds: string, rest: string, radix: nat)
    requires forall i :: 0 <= i < |ds| ==> IsDigitOf(ds[i], radix)
    requires rest == [] || !IsDigitOf(rest[0], radix)
    ensures DigitPrefix(ds + rest, radix) == ds
  {
    if ds != [] {
      assert (ds + rest)[1..] == ds[1..] + rest;
      DigitPrefixStops(ds[1..], rest, radix);
    } else {
      assert ds + rest == rest;
    }
  }

  /** The digits of `m`, followed by a non-digit, are read back as `m`. */
  lemma MagnitudeReadsDecimal(m: nat, rest: string)
    requires rest == [] || !IsDigitOf(rest[0], 10)
    requires m == 0 && rest != [] ==> rest[0] != 'x' && rest[0] != 'X'
    ensures Magnitude(NatToDecimal(m) + rest) == Some(m)
  {
    var digits := NatToDecimal(m);
    var u := digits + rest;
    NatToDecimalLeadingZero(m);
    if |u| >= 2 && u[0] == '0' {
      assert |digits| == 1 && u[1] == rest[0];
    }
    DigitPrefixStops(digits, rest, 10);
    NatToDecimalValue(m);
  }

  /**
    `parseInt` reads back the decimal rendering of any integer, whatever non-digit
    text follows it, except that "0" followed by "x" or "X" is a hexadecimal prefix.
  */
  lemma ParseIntReadsDecimal(n: int, rest: string)
    requires rest == [] || !IsDigitOf(rest[0], 10)
    requires n == 0 && rest != [] ==> rest[0] != 'x' && rest[0] != 'X'
    ensures ParseInt(Decimal(n) + rest) == Some(n)
  {
    var m: nat := if n < 0 then -n else n;
    var digits := NatToDecimal(m);
    var u := digits + rest;
    MagnitudeReadsDecimal(m, rest);
    assert u[0] == digits[0];
    if n < 0 {
      assert Decimal(n) == "-" + digits;
      assert Decimal(n) + rest == "-" + u;
      ParseIntNegated(u, m);
    } else {
      assert Decimal(n) == digits;
      ParseIntUnsigned(u, m);
    }
  }

  /** A magnitude starting with a digit is read as it stands. */
  lemma ParseIntUnsigned(u: string, m: nat)
    requires u != [] && IsDigitOf(u[0], 10) && Magnitude(u) == Some(m)
    ensures ParseInt(u) == Some(m as int)
  {
    DigitIsNotSpace(u[0]);
    TrimStartKeeps(u);
  }

  /** A magnitude starting with a digit, after a minus sign, is read negated. */
  lemma ParseIntNegated(u: string, m: nat)
    requires u != [] && IsDigitOf(u[0], 10) && Magnitude(u) == Some(m)
    ensures ParseInt("-" + u) == Some(-(m as int))
  {
    var t := "-" + u;
    assert t[0] == '-' && t[1..] == u;
    TrimStartKeeps(t);
  }

  lemma TrimStartKeeps(s: string)
    requires s != [] && !IsWhiteSpace(s[0])
    ensures TrimStart(s) == s
  {
  }

  lemma DigitIsNotSpace(c: char)
    requires IsDigitOf(c, 10)
    ensures !IsWhiteSpace(c) && c != '-' && c != '+'
  {
  }

  /** Text whose first character is neither whitespace, a sign nor a digit reads as NaN. */
  lemma ParseIntRejects(s: string)
    requires s != [] && !IsWhiteSpace(s[0]) && s[0] != '-' && s[0] != '+'
    requires !IsDigitOf(s[0], 10)
    ensures ParseInt(s) == None
  {
    assert TrimStart(s) == s;
  }
}
