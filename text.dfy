/** Character and number formatting helpers shared by the modules. */
module Text {
  /** `char.IsWhiteSpace`, i.e. the class `\s` of .NET regular expressions. */
  predicate IsWhiteSpace(c: char) {
    ('\t' <= c <= '\r') || c == ' ' || c == '\U{85}' || c == '\U{A0}' || c == '\U{1680}'
    || ('\U{2000}' <= c <= '\U{200A}') || c == '\U{2028}' || c == '\U{2029}'
    || c == '\U{202F}' || c == '\U{205F}' || c == '\U{3000}'
  }

  /** `string.IsNullOrWhiteSpace` for a non-null string. */
  predicate IsWhiteSpaceOnly(s: string) {
    forall i :: 0 <= i < |s| ==> IsWhiteSpace(s[i])
  }

  function Digit(d: nat): (c: char)
    requires d < 10
    ensures '0' <= c <= '9'
  {
    "0123456789"[d]
  }

  /** Decimal digits of a natural number, no leading zeros. */
  function NatToString(n: nat): (s: string)
    ensures |s| >= 1
    ensures forall i :: 0 <= i < |s| ==> '0' <= s[i] <= '9'
  {
    if n < 10 then [Digit(n)] else NatToString(n / 10) + [Digit(n % 10)]
  }

  /** `int.ToString()` under the invariant culture. */
  function IntToString(n: int): (s: string)
    ensures |s| >= 1
    ensures forall i :: 0 <= i < |s| ==> s[i] == '-' || '0' <= s[i] <= '9'
  {
    if n < 0 then "-" + NatToString(-n) else NatToString(n)
  }

  lemma DigitInjective(a: nat, b: nat)
    requires a < 10 && b < 10 && Digit(a) == Digit(b)
    ensures a == b
  {
  }

  /** Distinct numbers print differently. */
  lemma {:induction false} NatToStringInjective(a: nat, b: nat)
    requires NatToString(a) == NatToString(b)
    ensures a == b
  {
    var s := NatToString(a);
    if a < 10 && b < 10 {
      DigitInjective(a, b);
    } else if a >= 10 && b >= 10 {
      assert s[|s| - 1] == Digit(a % 10) && s[|s| - 1] == Digit(b % 10);
      DigitInjective(a % 10, b % 10);
      assert NatToString(a / 10) == s[..|s| - 1] == NatToString(b / 10);
      NatToStringInjective(a / 10, b / 10);
    }
  }

  /** A number prints with a leading `-` exactly when it is negative, and the digits follow it. */
  lemma SignShown(n: int)
    ensures IntToString(n)[0] == '-' <==> n < 0
    ensures n < 0 ==> IntToString(n)[1..] == NatToString(-n)
    ensures n >= 0 ==> IntToString(n) == NatToString(n)
  {
    if n >= 0 {
      assert '0' <= NatToString(n)[0] <= '9';
    } else {
      assert IntToString(n) == "-" + NatToString(-n);
    }
  }

  lemma IntToStringInjective(a: int, b: int)
    requires IntToString(a) == IntToString(b)
    ensures a == b
  {
    SignShown(a);
    SignShown(b);
    assert IntToString(a)[0] == IntToString(b)[0];
    if a < 0 {
      NatToStringInjective(-a, -b);
    } else {
      NatToStringInjective(a, b);
    }
  }

  /** The ASCII part of `ToLowerInvariant`. */
  function ToLowerChar(c: char): (r: char)
    ensures !('A' <= r <= 'Z')
  {
    if 'A' <= c <= 'Z' then (c as int + 32) as char else c
  }

  function ToLower(s: string): (r: string)
    ensures |r| == |s|
    ensures forall i :: 0 <= i < |s| ==> r[i] == ToLowerChar(s[i])
  {
    if s == [] then [] else [ToLowerChar(s[0])] + ToLower(s[1..])
  }

  /** A string with no upper-case ASCII letter is its own lower case. */
  lemma ToLowerKeepsLower(s: string)
    requires forall i :: 0 <= i < |s| ==> !('A' <= s[i] <= 'Z')
    ensures ToLower(s) == s
  {
    forall i | 0 <= i < |s|
      ensures ToLower(s)[i] == s[i]
    {
    }
  }

  /** A UTF-16 code unit: the C# `char`. */
  type CodeUnit = u: int | 0 <= u < 0x1_0000

  /** A C# string as it is held: a sequence of UTF-16 code units. */
  type CodeUnits = seq<CodeUnit>

  predicate IsSurrogate(u: int) {
    0xD800 <= u < 0xE000
  }

  /** The high surrogate of a character beyond U+FFFF. */
  function HighSurrogate(v: int): CodeUnit
    requires 0x1_0000 <= v < 0x11_0000
  {
    0xD800 + (v - 0x1_0000) / 0x400
  }

  /** The low surrogate of a character beyond U+FFFF. */
  function LowSurrogate(v: int): CodeUnit
    requires 0x1_0000 <= v
  {
    0xDC00 + (v - 0x1_0000) % 0x400
  }

  /** The code units of one character: itself below U+10000, otherwise a surrogate pair. */
  function Utf16Char(c: char): CodeUnits {
    var v := c as int;
    if v < 0x1_0000 then [v] else [HighSurrogate(v), LowSurrogate(v)]
  }

  /**
   * A character below U+10000 is one code unit that is no surrogate; any
   * other is a high and a low surrogate that decode back to it.
   */
  lemma Utf16CharDecodes(c: char)
    ensures c as int < 0x1_0000 ==> Utf16Char(c) == [c as int] && !IsSurrogate(c as int)
    ensures c as int >= 0x1_0000 ==>
      && |Utf16Char(c)| == 2 && 0xD800 <= Utf16Char(c)[0] < 0xDC00 && 0xDC00 <= Utf16Char(c)[1] < 0xE000
      && (Utf16Char(c)[0] as int - 0xD800) * 0x400 + (Utf16Char(c)[1] as int - 0xDC00) + 0x1_0000 == c as int
  {
  }

  /** A string's UTF-16 encoding: each character's code units in order. */
  function Utf16(s: string): CodeUnits {
    if s == [] then [] else Utf16Char(s[0]) + Utf16(s[1..])
  }

  /** Every character takes one or two code units. */
  lemma {:induction false} Utf16Length(s: string)
    ensures |s| <= |Utf16(s)| <= 2 * |s|
  {
    if s != [] {
      Utf16CharDecodes(s[0]);
      Utf16Length(s[1..]);
    }
  }

  lemma {:induction false} Utf16Append(a: string, b: string)
    ensures Utf16(a + b) == Utf16(a) + Utf16(b)
  {
    if a == [] {
      assert a + b == b;
    } else {
      assert (a + b)[0] == a[0] && (a + b)[1..] == a[1..] + b;
      Utf16Append(a[1..], b);
    }
  }

  /** Below U+10000 every character is one code unit, its own value. */
  lemma {:induction false} Utf16OfBasicPlane(s: string)
    requires forall i :: 0 <= i < |s| ==> s[i] as int < 0x1_0000
    ensures |Utf16(s)| == |s|
    ensures forall i :: 0 <= i < |s| ==> Utf16(s)[i] == s[i] as int
  {
    if s != [] {
      Utf16OfBasicPlane(s[1..]);
      assert forall i :: 1 <= i < |s| ==> s[1..][i - 1] == s[i];
    }
  }

  /**
   * A character below U+10000 occurs in a string exactly when its code unit
   * occurs in the encoding: no surrogate of a pair equals a character.
   */
  lemma {:induction false} BasicPlaneUnitIn(c: char, s: string)
    requires c as int < 0x1_0000
    ensures c as int in Utf16(s) <==> c in s
  {
    if s != [] {
      Utf16CharDecodes(s[0]);
      BasicPlaneUnitIn(c, s[1..]);
      assert c in s <==> c == s[0] || c in s[1..] by {
        assert s == [s[0]] + s[1..];
      }
    }
  }

  /** One character's code units are never a proper prefix of another's. */
  lemma Utf16CharPrefix(x: char, y: char, s: CodeUnits, t: CodeUnits)
    requires Utf16Char(x) + s == Utf16Char(y) + t
    ensures x == y && s == t
  {
    Utf16CharDecodes(x);
    Utf16CharDecodes(y);
    var u, w := Utf16Char(x) + s, Utf16Char(y) + t;
    assert u[0] == Utf16Char(x)[0] && w[0] == Utf16Char(y)[0];
    if x as int >= 0x1_0000 && y as int >= 0x1_0000 {
      assert u[1] == Utf16Char(x)[1] && w[1] == Utf16Char(y)[1];
    }
    assert x as int == y as int;
    assert s == u[|Utf16Char(x)|..] && t == w[|Utf16Char(y)|..];
  }

  /** Distinct strings encode differently. */
  lemma {:induction false} Utf16Injective(a: string, b: string)
    requires Utf16(a) == Utf16(b)
    ensures a == b
  {
    Utf16Length(a);
    Utf16Length(b);
    if a != [] && b != [] {
      Utf16CharPrefix(a[0], b[0], Utf16(a[1..]), Utf16(b[1..]));
      Utf16Injective(a[1..], b[1..]);
      assert a == [a[0]] + a[1..] && b == [b[0]] + b[1..];
    }
  }
}
