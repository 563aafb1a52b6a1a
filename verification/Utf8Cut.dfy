/** Cutting a long tool result at a character boundary. */
module Utf8Cut {

  newtype byte = x: int | 0 <= x < 256

  const RESULT_LIMIT: nat := 4096

  /** "…[truncated]" in UTF-8. */
  const MARKER: seq<byte> := [0xE2, 0x80, 0xA6, 0x5B, 0x74, 0x72, 0x75, 0x6E, 0x63, 0x61, 0x74, 0x65, 0x64, 0x5D]

  predicate Tail(b: byte) {
    0x80 <= b <= 0xBF
  }

  predicate RuneStart(b: byte) {
    !Tail(b)
  }

  /** The length of the character that the bytes begin with, or 0 if they begin with none: section 4 of
      RFC 3629. */
  function CharLength(s: seq<byte>): (n: nat)
    ensures n <= |s| && n <= 4
  {
    if |s| >= 1 && s[0] <= 0x7F then 1
    else if |s| >= 2 && 0xC2 <= s[0] <= 0xDF && Tail(s[1]) then 2
    else if |s| >= 3 && SecondOfThree(s[0], s[1]) && Tail(s[2]) then 3
    else if |s| >= 4 && SecondOfFour(s[0], s[1]) && Tail(s[2]) && Tail(s[3]) then 4
    else 0
  }

  /** No overlong forms and no surrogates. */
  predicate SecondOfThree(first: byte, second: byte) {
    || (first == 0xE0 && 0xA0 <= second <= 0xBF)
    || ((0xE1 <= first <= 0xEC || 0xEE <= first <= 0xEF) && Tail(second))
    || (first == 0xED && 0x80 <= second <= 0x9F)
  }

  predicate SecondOfFour(first: byte, second: byte) {
    || (first == 0xF0 && 0x90 <= second <= 0xBF)
    || (0xF1 <= first <= 0xF3 && Tail(second))
    || (first == 0xF4 && 0x80 <= second <= 0x8F)
  }

  predicate ValidUtf8(s: seq<byte>) {
    s == [] || (CharLength(s) > 0 && ValidUtf8(s[CharLength(s)..]))
  }

  /** The last position up to i that is 0 or starts a character. */
  function CutPoint(s: seq<byte>, i: nat): (k: nat)
    requires i < |s|
    ensures k <= i && (k == 0 || RuneStart(s[k]))
    ensures forall j :: k < j <= i ==> !RuneStart(s[j])
  {
    if i == 0 || RuneStart(s[i]) then i else CutPoint(s, i - 1)
  }

  function Shorten(s: seq<byte>): seq<byte> {
    if |s| <= RESULT_LIMIT then s else s[..CutPoint(s, RESULT_LIMIT)] + MARKER
  }

  method ShortenResult(s: seq<byte>) returns (r: seq<byte>)
    ensures r == Shorten(s)
  {
    r := s;
    if |s| > 4096 {
      var i := 4096;
      while i > 0 && !RuneStart(s[i])
        invariant 0 <= i <= 4096
        invariant CutPoint(s, i) == CutPoint(s, RESULT_LIMIT)
      {
        i := i - 1;
      }
      r := s[..i] + MARKER;
    }
  }

  lemma CharIsTails(s: seq<byte>, i: nat)
    requires i < CharLength(s)
    ensures RuneStart(s[i]) <==> i == 0
  {
  }

  /** A character cut short is none. */
  lemma CutCharacter(s: seq<byte>, i: nat)
    requires 0 < i < CharLength(s)
    ensures CharLength(s[..i]) == 0
  {
  }

  lemma CharThenRest(s: seq<byte>, more: seq<byte>)
    requires CharLength(s) > 0
    ensures CharLength(s + more) == CharLength(s)
    ensures (s + more)[CharLength(s)..] == s[CharLength(s)..] + more
  {
  }

  lemma {:induction false} ValidConcat(a: seq<byte>, b: seq<byte>)
    requires ValidUtf8(a) && ValidUtf8(b)
    ensures ValidUtf8(a + b)
  {
    if a == [] {
      assert a + b == b;
    } else {
      CharThenRest(a, b);
      ValidConcat(a[CharLength(a)..], b);
    }
  }

  /** In valid UTF-8 the bytes that start a character are exactly the places where a cut leaves valid UTF-8. */
  lemma {:induction false} StartsAreBoundaries(s: seq<byte>, i: nat)
    requires ValidUtf8(s) && i < |s|
    ensures RuneStart(s[i]) <==> ValidUtf8(s[..i])
  {
    var n := CharLength(s);
    if i < n {
      CharIsTails(s, i);
      if i > 0 {
        CutCharacter(s, i);
      }
    } else {
      var rest := s[n..];
      StartsAreBoundaries(rest, i - n);
      assert s == s[..n] + rest && s[..i] == s[..n] + rest[..i - n] && s[..i][n..] == rest[..i - n];
      FirstCharacter(s, i);
      assert s[i] == rest[i - n];
    }
  }

  lemma FirstCharacter(s: seq<byte>, i: nat)
    requires 0 < CharLength(s) <= i <= |s|
    ensures CharLength(s[..i]) == CharLength(s)
  {
  }

  /** Within any four consecutive bytes of valid UTF-8 a character starts. */
  lemma {:induction false} StartNearby(s: seq<byte>, i: nat) returns (k: nat)
    requires ValidUtf8(s) && i < |s|
    ensures k <= i <= k + 3 && RuneStart(s[k])
  {
    var n := CharLength(s);
    if i < n {
      CharIsTails(s, 0);
      k := 0;
    } else {
      k := StartNearby(s[n..], i - n);
      assert s[n..][k] == s[n + k];
      k := n + k;
    }
  }

  /** Shortening valid UTF-8 gives valid UTF-8: the kept part ends at a character boundary, 4093 to 4096
      bytes in, and no boundary lies between it and byte 4096. */
  lemma ShortenedIsValid(s: seq<byte>)
    requires ValidUtf8(s)
    ensures ValidUtf8(Shorten(s))
    ensures |s| <= RESULT_LIMIT ==> Shorten(s) == s
    ensures |s| > RESULT_LIMIT ==>
              exists k :: 4093 <= k <= 4096 && Shorten(s) == s[..k] + MARKER && ValidUtf8(s[..k])
                          && forall j :: k < j <= 4096 ==> !ValidUtf8(s[..j])
  {
    if |s| > RESULT_LIMIT {
      var k := CutPoint(s, RESULT_LIMIT);
      var start := StartNearby(s, RESULT_LIMIT);
      assert k >= start;
      StartsAreBoundaries(s, k);
      forall j | k < j <= 4096 ensures !ValidUtf8(s[..j]) {
        StartsAreBoundaries(s, j);
      }
      MarkerIsValid();
      ValidConcat(s[..k], MARKER);
    }
  }

  lemma {:induction false} AsciiIsValid(s: seq<byte>)
    requires forall i :: 0 <= i < |s| ==> s[i] <= 0x7F
    ensures ValidUtf8(s)
  {
    if s != [] { AsciiIsValid(s[1..]); }
  }

  lemma MarkerIsValid()
    ensures ValidUtf8(MARKER)
  {
    AsciiIsValid(MARKER[3..]);
    assert CharLength(MARKER) == 3;
  }

  /** Bytes that are not UTF-8 can lose more: behind the first byte, a run of continuation bytes is cut whole. */
  lemma ContinuationsAreLost(s: seq<byte>)
    requires |s| > RESULT_LIMIT && forall i :: 1 <= i <= RESULT_LIMIT ==> Tail(s[i])
    ensures Shorten(s) == MARKER
  {
    var k := CutPoint(s, RESULT_LIMIT);
    assert k == 0;
    assert s[..0] + MARKER == MARKER;
  }

  /** The marker is an ellipsis, which three bytes encode, and a word in brackets. */
  lemma MarkerIs()
    ensures |MARKER| == 14 && CharLength(MARKER) == 3
    ensures (MARKER[0] as int - 0xE0) * 0x1000 + (MARKER[1] as int - 0x80) * 0x40 + (MARKER[2] as int - 0x80) == 0x2026
    ensures forall i :: 0 <= i < 11 ==> MARKER[3 + i] as int == "[truncated]"[i] as int
  {
  }
}
