/** The string operations of the standard library that the modelled code uses. */
module Strings {

  lemma Associative<T>(a: seq<T>, b: seq<T>, c: seq<T>)
    ensures (a + b) + c == a + (b + c)
  {
  }

  /** The number of bytes of a text in UTF-8. */
  function ByteLength(s: string): nat {
    if s == "" then 0
    else
      var c := s[|s| - 1] as int;
      ByteLength(s[..|s| - 1]) + (if c < 0x80 then 1 else if c < 0x800 then 2 else if c < 0x1_0000 then 3 else 4)
  }

  /** One byte for a character of ASCII, two below 0x800, three below 0x10000, else four. */
  lemma BytesOf(s: string, c: char)
    ensures ByteLength("") == 0
    ensures ByteLength(s + [c]) - ByteLength(s)
         == if c < '\U{80}' then 1 else if c < '\U{800}' then 2 else if (c as int) <= 0xFFFF then 3 else 4
  {
    assert (s + [c])[..|s|] == s;
  }

  predicate IsSpace(c: char) {
    '\t' <= c <= '\r' || c == ' ' || c == '\U{85}' || c == '\U{A0}' || c == '\U{1680}'
    || '\U{2000}' <= c <= '\U{200A}' || c == '\U{2028}' || c == '\U{2029}' || c == '\U{202F}'
    || c == '\U{205F}' || c == '\U{3000}'
  }

  predicate AllSpace(s: string) {
    forall i :: 0 <= i < |s| ==> IsSpace(s[i])
  }

  function TrimLeft(s: string): string {
    if s != "" && IsSpace(s[0]) then TrimLeft(s[1..]) else s
  }

  function TrimRight(s: string): string {
    if s != "" && IsSpace(s[|s| - 1]) then TrimRight(s[..|s| - 1]) else s
  }

  function Trim(s: string): string {
    TrimRight(TrimLeft(s))
  }

  predicate OpenEnds(s: string) {
    s != "" ==> !IsSpace(s[0]) && !IsSpace(s[|s| - 1])
  }

  lemma {:induction false} TrimLeftCuts(s: string) returns (k: nat)
    ensures k <= |s| && TrimLeft(s) == s[k..] && AllSpace(s[..k])
    ensures k < |s| ==> !IsSpace(s[k])
  {
    if s != "" && IsSpace(s[0]) {
      var rest := s[1..];
      k := TrimLeftCuts(rest);
      k := k + 1;
      assert rest[k - 1..] == s[k..];
      forall i | 0 <= i < k ensures IsSpace(s[i]) {
        assert i > 0 ==> s[i] == rest[..k - 1][i - 1];
      }
    } else {
      k := 0;
    }
  }

  lemma {:induction false} TrimRightCuts(s: string) returns (k: nat)
    ensures k <= |s| && TrimRight(s) == s[..k] && AllSpace(s[k..])
    ensures k > 0 ==> !IsSpace(s[k - 1])
  {
    if s != "" && IsSpace(s[|s| - 1]) {
      var rest := s[..|s| - 1];
      k := TrimRightCuts(rest);
      assert rest[..k] == s[..k];
      forall i | k <= i < |s| ensures IsSpace(s[i]) {
        assert i < |s| - 1 ==> s[i] == rest[k..][i - k];
      }
    } else {
      k := |s|;
      assert s[..k] == s;
    }
  }

  /** Trimming takes spaces off the ends, and nothing else. */
  lemma TrimCuts(s: string) returns (from: nat, to: nat)
    ensures from <= to <= |s| && Trim(s) == s[from..to]
    ensures AllSpace(s[..from]) && AllSpace(s[to..]) && OpenEnds(Trim(s))
  {
    from := TrimLeftCuts(s);
    var left := s[from..];
    var k := TrimRightCuts(left);
    to := from + k;
    assert left[..k] == s[from..to] && left[k..] == s[to..];
  }

  predicate OccursAt(s: string, part: string, i: nat) {
    i + |part| <= |s| && s[i..i + |part|] == part
  }

  predicate Contains(s: string, part: string) {
    exists i :: 0 <= i <= |s| && OccursAt(s, part, i)
  }

  /** The first occurrence, or -1. */
  function IndexOf(s: string, part: string): (r: int)
    ensures -1 <= r <= |s|
    ensures r >= 0 ==> OccursAt(s, part, r)
    ensures forall i :: 0 <= i <= |s| && OccursAt(s, part, i) ==> 0 <= r <= i
  {
    IndexFrom(s, part, 0)
  }

  function IndexFrom(s: string, part: string, from: nat): (r: int)
    requires from <= |s|
    ensures r == -1 || from <= r <= |s|
    ensures r >= 0 ==> OccursAt(s, part, r)
    ensures forall i :: from <= i <= |s| && OccursAt(s, part, i) ==> 0 <= r <= i
    decreases |s| - from
  {
    if OccursAt(s, part, from) then from
    else if from == |s| then -1
    else IndexFrom(s, part, from + 1)
  }

  /** All occurrences removed, from left to right. */
  function RemoveAll(s: string, part: string): string
    requires part != ""
    decreases |s|
  {
    if |s| < |part| then s
    else if s[..|part|] == part then RemoveAll(s[|part|..], part)
    else [s[0]] + RemoveAll(s[1..], part)
  }

  function Concatenated(pieces: seq<string>): string {
    if pieces == [] then "" else pieces[0] + Concatenated(pieces[1..])
  }

  /** The pieces put together with the part between each two of them. */
  function JoinedBy(pieces: seq<string>, part: string): string
    requires pieces != []
  {
    if |pieces| == 1 then pieces[0] else pieces[0] + part + JoinedBy(pieces[1..], part)
  }

  /** The part begins in s + part only where s ends. */
  predicate EndsFirst(s: string, part: string) {
    forall i :: 0 <= i < |s| ==> !OccursAt(s + part, part, i)
  }

  /** What is removed: the text is some pieces with the part between them, each occurrence of the part being the
      first that begins in its piece or behind it, and the last piece has none.  The pieces are what is left. */
  lemma {:induction false} RemovesAll(s: string, part: string) returns (pieces: seq<string>)
    requires part != ""
    ensures pieces != [] && JoinedBy(pieces, part) == s && Concatenated(pieces) == RemoveAll(s, part)
    ensures forall k :: 0 <= k < |pieces| - 1 ==> EndsFirst(pieces[k], part)
    ensures !Contains(pieces[|pieces| - 1], part)
    decreases |s|
  {
    if |s| < |part| {
      pieces := [s];
      assert Concatenated(pieces) == s;
    } else if s[..|part|] == part {
      var rest := RemovesAll(s[|part|..], part);
      pieces := [""] + rest;
      assert s == part + s[|part|..];
      NothingInFront(rest, part);
    } else {
      var rest := RemovesAll(s[1..], part);
      pieces := [[s[0]] + rest[0]] + rest[1..];
      PutInFront(s[0], rest, part);
      FirstPiece(s, rest, part);
    }
  }

  lemma NothingInFront(rest: seq<string>, part: string)
    requires rest != []
    ensures JoinedBy([""] + rest, part) == part + JoinedBy(rest, part)
    ensures Concatenated([""] + rest) == Concatenated(rest)
  {
    assert ([""] + rest)[1..] == rest;
    assert "" + part + JoinedBy(rest, part) == part + JoinedBy(rest, part);
    assert "" + Concatenated(rest) == Concatenated(rest);
  }

  lemma PutInFront(c: char, rest: seq<string>, part: string)
    requires rest != []
    ensures var pieces := [[c] + rest[0]] + rest[1..];
            && JoinedBy(pieces, part) == [c] + JoinedBy(rest, part)
            && Concatenated(pieces) == [c] + Concatenated(rest)
  {
    var pieces := [[c] + rest[0]] + rest[1..];
    assert pieces[1..] == rest[1..];
    Associative([c], rest[0], Concatenated(rest[1..]));
    if |rest| > 1 {
      Associative([c] + rest[0], part, JoinedBy(rest[1..], part));
      Associative([c], rest[0], part + JoinedBy(rest[1..], part));
      Associative(rest[0], part, JoinedBy(rest[1..], part));
    }
  }

  lemma OccursShifted(c: char, t: string, part: string, i: nat)
    requires i > 0 && part != ""
    ensures OccursAt([c] + t, part, i) <==> OccursAt(t, part, i - 1)
  {
    if i + |part| <= |t| + 1 {
      assert ([c] + t)[i..i + |part|] == t[i - 1..i - 1 + |part|];
    }
  }

  lemma NoneBefore(c: char, t: string, part: string)
    requires part != "" && !Contains(t, part) && !OccursAt([c] + t, part, 0)
    ensures !Contains([c] + t, part)
  {
    forall i | 0 <= i <= |t| + 1 ensures !OccursAt([c] + t, part, i) {
      if i > 0 { OccursShifted(c, t, part, i); }
    }
  }

  lemma NoneFirst(c: char, t: string, part: string)
    requires part != "" && EndsFirst(t, part) && !OccursAt([c] + (t + part), part, 0)
    ensures EndsFirst([c] + t, part)
  {
    assert [c] + t + part == [c] + (t + part);
    forall i | 0 <= i < |t| + 1 ensures !OccursAt([c] + (t + part), part, i) {
      if i > 0 { OccursShifted(c, t + part, part, i); }
    }
  }

  /** A character in front of the first piece begins no part, as the text does not begin with one. */
  lemma FirstPiece(s: string, rest: seq<string>, part: string)
    requires part != "" && |part| <= |s| && s[..|part|] != part && rest != [] && JoinedBy(rest, part) == s[1..]
    requires if |rest| > 1 then EndsFirst(rest[0], part) else !Contains(rest[0], part)
    ensures if |rest| > 1 then EndsFirst([s[0]] + rest[0], part) else !Contains([s[0]] + rest[0], part)
  {
    assert s == [s[0]] + s[1..];
    if |rest| > 1 {
      assert ([s[0]] + (rest[0] + part))[..|part|] == s[..|part|];
      NoneFirst(s[0], rest[0], part);
    } else {
      NoneBefore(s[0], rest[0], part);
    }
  }

  /** The white space of Unicode. */
  lemma SpacesAre(c: char)
    ensures IsSpace(c) <==>
              c as int in {0x9, 0xA, 0xB, 0xC, 0xD, 0x20, 0x85, 0xA0, 0x1680, 0x2000, 0x2001, 0x2002, 0x2003, 0x2004,
                           0x2005, 0x2006, 0x2007, 0x2008, 0x2009, 0x200A, 0x2028, 0x2029, 0x202F, 0x205F, 0x3000}
  {
  }
}
