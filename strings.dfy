/**
 * The JavaScript string operations the dashboard relies on: `startsWith`,
 * `includes`, `toLowerCase` (ASCII letters only), `trim`, and the decimal
 * rendering of an integer that template literals and `JSON.stringify` perform.
 */
module Strings {

  /** `s.startsWith(prefix)`. */
  predicate StartsWith(s: string, prefix: string) {
    |prefix| <= |s| && s[..|prefix|] == prefix
  }

  /** One differing character within the prefix's length rules the prefix out. */
  lemma NotStartsWith(s: string, prefix: string, k: nat)
    requires k < |prefix| && k < |s| && s[k] != prefix[k]
    ensures !StartsWith(s, prefix)
  {
    assert |prefix| <= |s| ==> s[..|prefix|][k] == s[k];
  }

  /** `needle` sits in `hay` starting at index `i`. */
  predicate OccursAt(hay: string, needle: string, i: int) {
    0 <= i && i + |needle| <= |hay| && hay[i..i + |needle|] == needle
  }

  /** `hay.includes(needle)`, computed by trying every start position in turn. */
  function Includes(hay: string, needle: string): bool
    decreases |hay|
  {
    if StartsWith(hay, needle) then true
    else if hay == [] then false
    else Includes(hay[1..], needle)
  }

  /** `includes` holds exactly when the needle occurs at some index. */
  lemma {:induction false} IncludesIffOccurs(hay: string, needle: string)
    ensures Includes(hay, needle) <==> exists i :: OccursAt(hay, needle, i)
    decreases |hay|
  {
    if |needle| <= |hay| {
      assert hay[0..|needle|] == hay[..|needle|];
    }
    if StartsWith(hay, needle) {
      assert OccursAt(hay, needle, 0);
    } else if hay == [] {
      forall i ensures !OccursAt(hay, needle, i) {
      }
    } else {
      var tail := hay[1..];
      IncludesIffOccurs(tail, needle);
      if Includes(tail, needle) {
        var j :| OccursAt(tail, needle, j);
        SliceOfTail(hay, j + 1, |needle|);
        assert OccursAt(hay, needle, j + 1);
      } else {
        forall i ensures !OccursAt(hay, needle, i) {
          if 1 <= i && i + |needle| <= |hay| {
            var j := i - 1;
            assert !OccursAt(tail, needle, j);
            SliceOfTail(hay, i, |needle|);
          }
        }
      }
    }
  }

  /** A slice of `hay[1..]` is the slice of `hay` one place further on. */
  lemma SliceOfTail(hay: string, i: int, len: nat)
    requires 1 <= i && i + len <= |hay|
    ensures hay[1..][i - 1..i - 1 + len] == hay[i..i + len]
  {
    var a := hay[1..][i - 1..i - 1 + len];
    var b := hay[i..i + len];
    assert |a| == |b|;
    forall k | 0 <= k < len ensures a[k] == b[k] {
      assert a[k] == hay[1..][i - 1 + k];
    }
  }

  /** Every string includes the empty string, so an empty search filters nothing out. */
  lemma IncludesEmpty(hay: string)
    ensures Includes(hay, "")
  {
    assert StartsWith(hay, "");
  }

  /** A string includes itself. */
  lemma IncludesSelf(s: string)
    ensures Includes(s, s)
  {
    assert StartsWith(s, s);
  }

  /** `toLowerCase` on one character; only the ASCII capitals are mapped. */
  function LowerChar(c: char): char {
    if 'A' <= c <= 'Z' then (c as int + 32) as char else c
  }

  /** `s.toLowerCase()` with ASCII case mapping. */
  function Lower(s: string): (r: string)
    ensures |r| == |s|
    ensures forall i :: 0 <= i < |s| ==> r[i] == LowerChar(s[i])
  {
    seq(|s|, i requires 0 <= i < |s| => LowerChar(s[i]))
  }

  /** Lower-casing twice is lower-casing once. */
  lemma LowerIdempotent(s: string)
    ensures Lower(Lower(s)) == Lower(s)
  {
  }

  /** `hay.toLowerCase().includes(needle.toLowerCase())`: the search test every list page uses. */
  predicate ContainsFolded(hay: string, needle: string) {
    Includes(Lower(hay), Lower(needle))
  }

  /** An empty search text matches every string. */
  lemma ContainsFoldedEmpty(hay: string)
    ensures ContainsFolded(hay, "")
  {
    assert Lower("") == "";
    IncludesEmpty(Lower(hay));
  }

  /** The search ignores the case of both sides. */
  lemma ContainsFoldedIgnoresCase(hay: string, needle: string)
    ensures ContainsFolded(Lower(hay), needle) == ContainsFolded(hay, needle)
    ensures ContainsFolded(hay, Lower(needle)) == ContainsFolded(hay, needle)
  {
    LowerIdempotent(hay);
    LowerIdempotent(needle);
  }

  /**
   * The characters `String.prototype.trim` strips: the ECMAScript WhiteSpace
   * code points (TAB, VT, FF, ZWNBSP and every Zs space) and the LineTerminator
   * code points (LF, CR, LS, PS).
   */
  predicate IsJsSpace(c: char) {
    || c == ' ' || c == '\t' || c == '\n' || c == '\r'
    || c == '\U{0B}' || c == '\U{0C}' || c == '\U{A0}' || c == '\U{1680}'
    || ('\U{2000}' <= c <= '\U{200A}')
    || c == '\U{2028}' || c == '\U{2029}' || c == '\U{202F}' || c == '\U{205F}'
    || c == '\U{3000}' || c == '\U{FEFF}'
  }

  /** Drops leading white space: what is left is a suffix that does not start with a space. */
  function TrimStart(s: string): (r: string)
    ensures |r| <= |s| && r == s[|s| - |r|..]
    ensures r == [] || !IsJsSpace(r[0])
    ensures forall k :: 0 <= k < |s| - |r| ==> IsJsSpace(s[k])
  {
    if |s| > 0 && IsJsSpace(s[0]) then TrimStart(s[1..]) else s
  }

  /** Drops trailing white space: what is left is a prefix that does not end with a space. */
  function TrimEnd(s: string): (r: string)
    ensures |r| <= |s| && r == s[..|r|]
    ensures r == [] || !IsJsSpace(r[|r| - 1])
    ensures forall k :: |r| <= k < |s| ==> IsJsSpace(s[k])
  {
    if |s| > 0 && IsJsSpace(s[|s| - 1]) then TrimEnd(s[..|s| - 1]) else s
  }

  /** `s.trim()`. */
  function Trim(s: string): string {
    TrimEnd(TrimStart(s))
  }

  /** `trim` yields a slice of its input with white space stripped from both ends, and no more. */
  lemma TrimIsSlice(s: string)
    ensures exists i, j :: (0 <= i <= j <= |s| && Trim(s) == s[i..j]
                            && (forall k :: 0 <= k < i ==> IsJsSpace(s[k]))
                            && (forall k :: j <= k < |s| ==> IsJsSpace(s[k])))
    ensures Trim(s) == [] || (!IsJsSpace(Trim(s)[0]) && !IsJsSpace(Trim(s)[|Trim(s)| - 1]))
  {
    var a := TrimStart(s);
    var i := |s| - |a|;
    var r := TrimEnd(a);
    var j := i + |r|;
    assert r == s[i..j];
    forall k | j <= k < |s| ensures IsJsSpace(s[k]) {
      assert s[k] == a[k - i];
    }
  }

  /** A name is blank after trimming exactly when every character is white space. */
  lemma TrimEmptyIff(s: string)
    ensures Trim(s) == [] <==> forall k :: 0 <= k < |s| ==> IsJsSpace(s[k])
  {
    var a := TrimStart(s);
    assert a != [] ==> a[0] == s[|s| - |a|];
  }

  /** Trimming twice is trimming once. */
  lemma TrimIdempotent(s: string)
    ensures Trim(Trim(s)) == Trim(s)
  {
    var r := Trim(s);
    TrimIsSlice(s);
    if r != [] {
      assert TrimStart(r) == r;
    } else {
      assert TrimStart(r) == r;
    }
  }

  /** The digit character for `d`. */
  function DigitChar(d: int): char
    requires 0 <= d < 10
  {
    "0123456789"[d]
  }

  /** The numeric value of a decimal digit character (0 for any other character). */
  function DigitValue(c: char): nat {
    if '0' <= c <= '9' then c as int - '0' as int else 0
  }

  predicate IsDigit(c: char) {
    '0' <= c <= '9'
  }

  /** The decimal rendering of a natural number, most significant digit first. */
  function NatToString(n: nat): (r: string)
    ensures |r| >= 1 && forall k :: 0 <= k < |r| ==> IsDigit(r[k])
    ensures r[0] == '0' ==> n == 0
    decreases n
  {
    if n < 10 then [DigitChar(n)] else NatToString(n / 10) + [DigitChar(n % 10)]
  }

  /** `String(n)` for an integer: a minus sign, then the digits of the magnitude. */
  function IntToString(n: int): string {
    if n < 0 then "-" + NatToString(-n) else NatToString(n)
  }

  /** The value of a string of decimal digits, read left to right. */
  function DecimalValue(s: string): nat {
    if s == [] then 0 else DecimalValue(s[..|s| - 1]) * 10 + DigitValue(s[|s| - 1])
  }

  /** Reading an integer's rendering back as a signed decimal. */
  function SignedDecimalValue(s: string): int {
    if |s| > 0 && s[0] == '-' then 0 - DecimalValue(s[1..]) else DecimalValue(s)
  }

  lemma {:induction false} NatToStringRoundTrip(n: nat)
    ensures DecimalValue(NatToString(n)) == n
    decreases n
  {
    if n >= 10 {
      var a := NatToString(n / 10);
      NatToStringRoundTrip(n / 10);
      var r := a + [DigitChar(n % 10)];
      assert r[..|r| - 1] == a;
    }
  }

  /** The decimal rendering of an integer determines the integer. */
  lemma IntToStringRoundTrip(n: int)
    ensures SignedDecimalValue(IntToString(n)) == n
  {
    if n < 0 {
      var digits := NatToString(-n);
      var r := "-" + digits;
      assert r == IntToString(n);
      assert |r| > 0 && r[0] == '-';
      assert r[1..] == digits;
      NatToStringRoundTrip(-n);
      assert SignedDecimalValue(r) == 0 - DecimalValue(digits);
    } else {
      NatToStringRoundTrip(n);
    }
  }
}
