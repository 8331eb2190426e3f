/** JavaScript strings as UTF-16: code units, and how many of them a character takes. */
module Utf16 {

  /** A UTF-16 code unit: JavaScript strings are sequences of these. */
  type CodeUnit = x: int | 0 <= x < 0x1_0000

  /** A character outside the Basic Multilingual Plane, which UTF-16 stores as a surrogate pair. */
  predicate Astral(c: char) {
    c as int >= 0x1_0000
  }

  /** The UTF-16 code units that encode `c`. */
  function Units(c: char): nat {
    if Astral(c) then 2 else 1
  }

  /** JavaScript's `length`: the number of UTF-16 code units, between one and two per character. */
  function Length(s: string): (n: nat)
    ensures |s| <= n <= 2 * |s|
    ensures n == 0 <==> |s| == 0
  {
    if |s| == 0 then 0 else Units(s[0]) + Length(s[1..])
  }

  /** A string is at least as long as its other characters plus the units of any one of them. */
  lemma {:induction false} LengthAtLeast(s: string, k: nat)
    requires k < |s|
    ensures Length(s) >= |s| - 1 + Units(s[k])
  {
    if k > 0 {
      LengthAtLeast(s[1..], k - 1);
      assert s[1..][k - 1] == s[k];
    }
  }

  /** The code unit of a character from the Basic Multilingual Plane (U+FFFD stands in for any other). */
  function BmpUnit(c: char): CodeUnit {
    if c as int < 0x1_0000 then c as int else 0xFFFD
  }

  /** The code units of a string: exact for every character of the Basic Multilingual Plane. */
  function Utf16Bmp(s: string): (r: seq<CodeUnit>)
    ensures |r| == |s|
    ensures forall k :: 0 <= k < |s| && !Astral(s[k]) ==> r[k] == s[k] as int
  {
    seq(|s|, k requires 0 <= k < |s| => BmpUnit(s[k]))
  }

  /** Without astral characters, the encoding has exactly `length` code units. */
  lemma {:induction false} BmpLength(s: string)
    requires forall k :: 0 <= k < |s| ==> !Astral(s[k])
    ensures |Utf16Bmp(s)| == Length(s)
  {
    if |s| > 0 {
      assert forall k :: 0 <= k < |s[1..]| ==> s[1..][k] == s[k + 1];
      BmpLength(s[1..]);
    }
  }
}
