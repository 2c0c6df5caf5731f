/**
 * String facts the rest of the model relies on: prefixes, JavaScript's UTF-16
 * string length and `substring`, and the decimal rendering `${n}` of a
 * non-negative integer together with its reading back.
 */
module Text {

  predicate StartsWith(s: string, prefix: string) {
    |prefix| <= |s| && s[..|prefix|] == prefix
  }

  lemma StartsWithAppend(s: string, t: string, prefix: string)
    requires StartsWith(s, prefix)
    ensures StartsWith(s + t, prefix)
  {
    assert (s + t)[..|prefix|] == s[..|prefix|];
  }

  lemma ConcatAssoc(a: string, b: string, c: string)
    ensures (a + b) + c == a + (b + c)
  {
  }

  // ---------------------------------------------------------------------------
  // UTF-16 lengths. Dafny characters are Unicode scalar values; JavaScript
  // counts a character outside the Basic Multilingual Plane as two code units.
  // ---------------------------------------------------------------------------

  /** Number of UTF-16 code units JavaScript uses for the character `c`. */
  function Utf16Units(c: char): nat {
    if c as int < 0x1_0000 then 1 else 2
  }

  /** JavaScript's `s.length`. */
  function Utf16Length(s: string): nat {
    if s == [] then 0 else Utf16Units(s[0]) + Utf16Length(s[1..])
  }

  lemma {:induction false} Utf16LengthAppend(a: string, b: string)
    ensures Utf16Length(a + b) == Utf16Length(a) + Utf16Length(b)
  {
    if a == [] {
      assert a + b == b;
    } else {
      assert (a + b)[0] == a[0];
      assert (a + b)[1..] == a[1..] + b;
      Utf16LengthAppend(a[1..], b);
    }
  }

  lemma {:induction false} Utf16LengthAtLeastLength(s: string)
    ensures |s| <= Utf16Length(s)
  {
    if s != [] {
      Utf16LengthAtLeastLength(s[1..]);
    }
  }

  predicate IsAscii(s: string) {
    forall i :: 0 <= i < |s| ==> s[i] as int < 0x80
  }

  lemma {:induction false} AsciiUtf16Length(s: string)
    requires IsAscii(s)
    ensures Utf16Length(s) == |s|
  {
    if s != [] {
      assert s[0] as int < 0x80;
      assert IsAscii(s[1..]) by {
        forall i | 0 <= i < |s[1..]| ensures s[1..][i] as int < 0x80 {
          assert s[1..][i] == s[i + 1];
        }
      }
      AsciiUtf16Length(s[1..]);
    }
  }

  /**
   * `s.substring(0, n)` measured in UTF-16 code units, keeping whole
   * characters: the longest prefix of `s` whose UTF-16 length is at most `n`.
   */
  function TakeUtf16(s: string, n: nat): (p: string)
    ensures StartsWith(s, p)
    ensures Utf16Length(p) <= n
    ensures |p| < |s| ==> n < Utf16Length(p) + Utf16Units(s[|p|])
    decreases |s|
  {
    if s == [] || n < Utf16Units(s[0]) then []
    else
      var rest := TakeUtf16(s[1..], n - Utf16Units(s[0]));
      var p := [s[0]] + rest;
      assert p[0] == s[0] && p[1..] == rest;
      assert |p| < |s| ==> s[|p|] == s[1..][|rest|];
      p
  }

  /** Cutting a string that is too long leaves at least `n - 1` code units. */
  lemma TakeUtf16NearlyFull(s: string, n: nat)
    requires n < Utf16Length(s)
    ensures n <= Utf16Length(TakeUtf16(s, n)) + 1
  {
    var p := TakeUtf16(s, n);
    if |p| == |s| {
      assert p == s;
    }
  }

  /** Of two prefixes of one string, the one with fewer code units is a prefix of the other. */
  lemma {:induction false} ShorterPrefixIsPrefix(s: string, a: string, b: string)
    requires StartsWith(s, a) && StartsWith(s, b)
    requires Utf16Length(a) <= Utf16Length(b)
    ensures StartsWith(b, a)
  {
    if |a| > |b| {
      assert a == b + a[|b|..];
      Utf16LengthAppend(b, a[|b|..]);
      Utf16LengthAtLeastLength(a[|b|..]);
      assert false;
    }
    assert a == s[..|a|] == s[..|b|][..|a|];
  }

  // ---------------------------------------------------------------------------
  // Decimal numerals.
  // ---------------------------------------------------------------------------

  predicate IsDigit(c: char) {
    '0' <= c <= '9'
  }

  predicate AllDigits(s: string) {
    forall i :: 0 <= i < |s| ==> IsDigit(s[i])
  }

  function DigitChar(d: nat): (c: char)
    requires d < 10
  {
    ('0' as int + d) as char
  }

  /** `${n}` for a non-negative integer `n`. */
  function NatToDecimal(n: nat): (s: string)
    ensures |s| >= 1 && AllDigits(s)
    decreases n
  {
    if n < 10 then [DigitChar(n)] else NatToDecimal(n / 10) + [DigitChar(n % 10)]
  }

  /** The value of a string of decimal digits (the empty string reads as 0). */
  function DecimalValue(s: string): nat
    requires AllDigits(s)
  {
    if s == [] then 0
    else
      var init := s[..|s| - 1];
      assert AllDigits(init) by {
        forall i | 0 <= i < |init| ensures IsDigit(init[i]) {
          assert init[i] == s[i];
        }
      }
      10 * DecimalValue(init) + (s[|s| - 1] as int - '0' as int)
  }

  /** Reading back the rendering of `n` gives `n`. */
  lemma {:induction false} DecimalRoundTrip(n: nat)
    ensures DecimalValue(NatToDecimal(n)) == n
  {
    if n >= 10 {
      var s := NatToDecimal(n);
      assert s[..|s| - 1] == NatToDecimal(n / 10);
      DecimalRoundTrip(n / 10);
    }
  }
}
