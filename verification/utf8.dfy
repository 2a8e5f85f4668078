/** Well-formed UTF-8 (the grammar in section 4 of RFC 3629) and truncation at character boundaries. */
module Utf8 {
  import opened Bytes

  predicate Between(b: byte, lo: int, hi: int) { lo <= b as int <= hi }

  predicate IsTail(b: byte) { Between(b, 0x80, 0xBF) }

  /** The length of the well-formed character at the front of s, or 0 when there is none. */
  function CharLength(s: Text): (n: nat)
    ensures n <= 4 && n <= |s|
    ensures n > 0 ==> !IsTail(s[0]) && forall i :: 1 <= i < n ==> IsTail(s[i])
  {
    if |s| >= 1 && Between(s[0], 0x00, 0x7F) then 1
    else if |s| >= 2 && Between(s[0], 0xC2, 0xDF) && IsTail(s[1]) then 2
    else if |s| >= 3 && IsTail(s[2])
      && (|| (Between(s[0], 0xE0, 0xE0) && Between(s[1], 0xA0, 0xBF))
          || (Between(s[0], 0xE1, 0xEC) && IsTail(s[1]))
          || (Between(s[0], 0xED, 0xED) && Between(s[1], 0x80, 0x9F))
          || (Between(s[0], 0xEE, 0xEF) && IsTail(s[1]))) then 3
    else if |s| >= 4 && IsTail(s[2]) && IsTail(s[3])
      && (|| (Between(s[0], 0xF0, 0xF0) && Between(s[1], 0x90, 0xBF))
          || (Between(s[0], 0xF1, 0xF3) && IsTail(s[1]))
          || (Between(s[0], 0xF4, 0xF4) && Between(s[1], 0x80, 0x8F))) then 4
    else 0
  }

  predicate ValidUtf8(s: Text)
    decreases |s|
  {
    s == [] || (CharLength(s) > 0 && ValidUtf8(s[CharLength(s)..]))
  }

  /** What `is_char_boundary` tests. */
  predicate IsCharBoundary(s: Text, i: nat) {
    i == 0 || i == |s| || (i < |s| && !IsTail(s[i]))
  }

  lemma FirstCharOfPrefix(s: Text, i: nat)
    requires CharLength(s) > 0 && i <= |s|
    ensures i >= CharLength(s) ==> CharLength(s[..i]) == CharLength(s)
    ensures 0 < i < CharLength(s) ==> CharLength(s[..i]) == 0
  {
  }

  /** In valid text, a cut leaves a valid prefix exactly at the character boundaries. */
  lemma {:induction false} ValidPrefixIffBoundary(s: Text, i: nat)
    requires ValidUtf8(s) && i <= |s|
    ensures ValidUtf8(s[..i]) <==> IsCharBoundary(s, i)
    decreases |s|
  {
    if i > 0 {
      var k := CharLength(s);
      FirstCharOfPrefix(s, i);
      if i >= k {
        ValidPrefixIffBoundary(s[k..], i - k);
        assert s[..i][k..] == s[k..][..i - k];
        assert i - k == 0 && i < |s| ==> CharLength(s[k..]) > 0;
      }
    }
  }

  lemma {:induction false} ValidSuffixIffBoundary(s: Text, i: nat)
    requires ValidUtf8(s) && i <= |s|
    ensures ValidUtf8(s[i..]) <==> IsCharBoundary(s, i)
    decreases |s|
  {
    if i == 0 {
      assert s[0..] == s;
    } else if i < CharLength(s) {
      assert s[i..][0] == s[i];
    } else {
      var k := CharLength(s);
      ValidSuffixIffBoundary(s[k..], i - k);
      assert s[k..][i - k..] == s[i..];
      assert i - k == 0 && i < |s| ==> CharLength(s[k..]) > 0;
    }
  }

  /** In valid text a boundary is never more than three bytes away, in either direction. */
  lemma {:induction false} BoundaryIsNear(s: Text, i: nat) returns (below: nat, above: nat)
    requires ValidUtf8(s) && i <= |s|
    ensures i - 3 <= below <= i && IsCharBoundary(s, below)
    ensures i <= above <= i + 3 && above <= |s| && IsCharBoundary(s, above)
    decreases |s|
  {
    if s == [] {
      below, above := 0, 0;
    } else {
      var k := CharLength(s);
      assert IsCharBoundary(s, k) by { if k < |s| { assert CharLength(s[k..]) > 0; } }
      if i < k {
        below, above := 0, if i == 0 then 0 else k;
      } else {
        below, above := BoundaryIsNear(s[k..], i - k);
        below, above := below + k, above + k;
      }
    }
  }

  /** n euro signs, of three bytes each. */
  function Euros(n: nat): Text {
    seq(3 * n, i requires 0 <= i < 3 * n => if i % 3 == 0 then 0xE2 else if i % 3 == 1 then 0x82 else 0xAC)
  }

  lemma {:induction false} EurosAreValid(n: nat)
    ensures ValidUtf8(Euros(n))
  {
    if n > 0 {
      EurosAreValid(n - 1);
      assert Euros(n)[3..] == Euros(n - 1);
      assert CharLength(Euros(n)) == 3;
    }
  }

  lemma EurosBoundary(n: nat, i: nat)
    requires i <= 3 * n
    ensures |Euros(n)| == 3 * n
    ensures IsCharBoundary(Euros(n), i) <==> i % 3 == 0
  {
  }

  /** Overlong forms, surrogates and numbers beyond the last code point are not well-formed; their neighbours are. */
  lemma EdgesOfTheGrammar()
    ensures ValidUtf8([0x7F]) && !ValidUtf8([0x80])
    ensures ValidUtf8([0xC2, 0x80]) && !ValidUtf8([0xC1, 0xBF]) && ValidUtf8([0xDF, 0xBF]) && !ValidUtf8([0xDF, 0xC0])
    ensures ValidUtf8([0xE0, 0xA0, 0x80]) && !ValidUtf8([0xE0, 0x9F, 0xBF])
    ensures ValidUtf8([0xED, 0x9F, 0xBF]) && !ValidUtf8([0xED, 0xA0, 0x80]) && ValidUtf8([0xEE, 0x80, 0x80])
  {
    assert ValidUtf8([]);
  }

  lemma EdgesOfFourBytes()
    ensures ValidUtf8([0xF0, 0x90, 0x80, 0x80]) && !ValidUtf8([0xF0, 0x8F, 0xBF, 0xBF])
    ensures ValidUtf8([0xF4, 0x8F, 0xBF, 0xBF]) && !ValidUtf8([0xF4, 0x90, 0x80, 0x80])
    ensures !ValidUtf8([0xF5, 0x80, 0x80, 0x80])
  {
    assert ValidUtf8([]);
  }

  // ---- Truncation ----

  /** The largest boundary not above n. */
  function FloorBoundary(s: Text, n: nat): (end: nat)
    requires n <= |s|
    ensures end <= n && IsCharBoundary(s, end)
    ensures forall i :: end < i <= n ==> !IsCharBoundary(s, i)
  {
    if n == 0 || IsCharBoundary(s, n) then n else FloorBoundary(s, n - 1)
  }

  /** The smallest boundary not below n. */
  function CeilBoundary(s: Text, n: nat): (start: nat)
    requires n <= |s|
    ensures n <= start <= |s| && IsCharBoundary(s, start)
    ensures forall i :: n <= i < start ==> !IsCharBoundary(s, i)
    decreases |s| - n
  {
    if n == |s| || IsCharBoundary(s, n) then n else CeilBoundary(s, n + 1)
  }

  function Truncated(s: Text, maxBytes: nat): Text {
    if maxBytes >= |s| then s else s[..FloorBoundary(s, maxBytes)]
  }

  function TruncatedTail(s: Text, maxBytes: nat): Text {
    if maxBytes >= |s| then s else s[CeilBoundary(s, |s| - maxBytes)..]
  }

  method SafeTruncate(s: Text, maxBytes: nat) returns (r: Text)
    ensures r == Truncated(s, maxBytes)
  {
    if maxBytes >= |s| {
      return s;
    }
    var end := maxBytes;
    while end > 0 && !IsCharBoundary(s, end)
      invariant 0 <= end <= maxBytes && FloorBoundary(s, end) == FloorBoundary(s, maxBytes)
    {
      end := end - 1;
    }
    r := s[..end];
  }

  method SafeTruncateTail(s: Text, maxBytes: nat) returns (r: Text)
    ensures r == TruncatedTail(s, maxBytes)
  {
    if maxBytes >= |s| {
      return s;
    }
    var start := |s| - maxBytes;
    while start < |s| && !IsCharBoundary(s, start)
      invariant |s| - maxBytes <= start <= |s|
      invariant CeilBoundary(s, start) == CeilBoundary(s, |s| - maxBytes)
    {
      start := start + 1;
    }
    r := s[start..];
  }

  /** Of all valid prefixes within the budget, the head truncation returns the longest, at most 3 bytes short. */
  lemma TruncationKeepsLongestPrefix(s: Text, maxBytes: nat)
    requires ValidUtf8(s)
    ensures ValidUtf8(Truncated(s, maxBytes)) && Truncated(s, maxBytes) <= s
    ensures Min(maxBytes, |s|) - 3 <= |Truncated(s, maxBytes)| <= Min(maxBytes, |s|)
    ensures forall i :: 0 <= i <= Min(maxBytes, |s|) && ValidUtf8(s[..i]) ==> i <= |Truncated(s, maxBytes)|
  {
    if maxBytes < |s| {
      var below, _ := BoundaryIsNear(s, maxBytes);
      ValidPrefixIffBoundary(s, FloorBoundary(s, maxBytes));
      forall i | 0 <= i <= maxBytes && ValidUtf8(s[..i]) ensures i <= FloorBoundary(s, maxBytes) {
        ValidPrefixIffBoundary(s, i);
      }
    }
  }

  /** Of all valid suffixes within the budget, the tail truncation returns the longest, at most 3 bytes short. */
  lemma TruncationKeepsLongestSuffix(s: Text, maxBytes: nat)
    requires ValidUtf8(s)
    ensures ValidUtf8(TruncatedTail(s, maxBytes))
    ensures Min(maxBytes, |s|) - 3 <= |TruncatedTail(s, maxBytes)| <= Min(maxBytes, |s|)
    ensures forall i :: |s| - Min(maxBytes, |s|) <= i <= |s| && ValidUtf8(s[i..]) ==>
      |s| - i <= |TruncatedTail(s, maxBytes)|
  {
    if maxBytes < |s| {
      var _, above := BoundaryIsNear(s, |s| - maxBytes);
      ValidSuffixIffBoundary(s, CeilBoundary(s, |s| - maxBytes));
      forall i | |s| - maxBytes <= i <= |s| && ValidUtf8(s[i..]) ensures CeilBoundary(s, |s| - maxBytes) <= i {
        ValidSuffixIffBoundary(s, i);
      }
    }
  }

  // ---- Joining ----

  lemma FirstCharOfConcat(a: Text, b: Text)
    requires CharLength(a) > 0
    ensures CharLength(a + b) == CharLength(a)
  {
  }

  lemma {:induction false} ConcatIsValid(a: Text, b: Text)
    requires ValidUtf8(a) && ValidUtf8(b)
    ensures ValidUtf8(a + b)
    decreases |a|
  {
    hide CharLength;
    if a == [] {
      assert a + b == b;
    } else {
      var k := CharLength(a);
      FirstCharOfConcat(a, b);
      ConcatIsValid(a[k..], b);
      assert (a + b)[k..] == a[k..] + b;
    }
  }

  lemma TruncatedIsValid(s: Text, maxBytes: nat)
    requires ValidUtf8(s)
    ensures ValidUtf8(Truncated(s, maxBytes)) && ValidUtf8(TruncatedTail(s, maxBytes))
  {
    TruncationKeepsLongestPrefix(s, maxBytes);
    TruncationKeepsLongestSuffix(s, maxBytes);
  }

  predicate IsAscii(s: Text) { forall i :: 0 <= i < |s| ==> s[i] < 128 }

  lemma {:induction false} AsciiIsValid(s: Text)
    requires IsAscii(s)
    ensures ValidUtf8(s)
    decreases |s|
  {
    if s != [] { AsciiIsValid(s[1..]); }
  }

  lemma {:induction false} DecimalIsAscii(n: nat)
    ensures IsAscii(Decimal(n))
  {
    if n >= 10 { DecimalIsAscii(n / 10); }
  }

  lemma LiteralIsAscii(s: string)
    ensures IsAscii(Ascii(s))
  {
  }

  lemma {:induction false} FormatIsAscii(pieces: seq<Text>)
    requires forall i :: 0 <= i < |pieces| ==> IsAscii(pieces[i])
    ensures IsAscii(Format(pieces))
  {
    if pieces != [] { FormatIsAscii(pieces[1..]); }
  }

  lemma PieceIsAscii(s: Text, lo: nat, hi: nat)
    requires lo <= hi <= |s| && IsAscii(s)
    ensures IsAscii(s[lo..hi]) && IsAscii(s[..hi]) && IsAscii(s[lo..])
  {
  }

  lemma {:induction false} FormatIsValid(pieces: seq<Text>)
    requires forall i :: 0 <= i < |pieces| ==> ValidUtf8(pieces[i])
    ensures ValidUtf8(Format(pieces))
  {
    if pieces != [] {
      FormatIsValid(pieces[1..]);
      ConcatIsValid(pieces[0], Format(pieces[1..]));
    }
  }

  lemma FiveAreValid(a: Text, b: Text, c: Text, d: Text, e: Text)
    requires ValidUtf8(a) && ValidUtf8(b) && ValidUtf8(c) && ValidUtf8(d) && ValidUtf8(e)
    ensures ValidUtf8(Format([a, b, c, d, e]))
  {
    hide ValidUtf8, Format;
    FormatIsValid([a, b, c, d, e]);
  }

  lemma LiteralIsValid(s: string)
    ensures ValidUtf8(Ascii(s))
  {
    LiteralIsAscii(s);
    AsciiIsValid(Ascii(s));
  }

  lemma DecimalIsValid(n: nat)
    ensures ValidUtf8(Decimal(n))
  {
    DecimalIsAscii(n);
    AsciiIsValid(Decimal(n));
  }
}
