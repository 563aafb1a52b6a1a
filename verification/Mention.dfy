/** Cutting the mentions of the bot out of a LINE message. */
module Mention {
  import opened Wrappers
  import opened Strings

  /** Index and length count characters of the text. */
  datatype Mentionee = Mentionee(index: int, length: int, userId: string)

  datatype Bot = Bot(userId: string, displayName: string)

  /** A fault is a range of negative length that lies outside the text: it ends before the first character
      or starts behind the last. */
  datatype Outcome = Text(value: string) | Fault

  function End(m: Mentionee): int {
    m.index + m.length
  }

  predicate InText(m: Mentionee, size: nat) {
    0 <= m.index && End(m) <= size
  }

  /** The mention is the bot's: by user id, or by its display name in the mentioned range. */
  predicate Matches(bot: Bot, text: string, m: Mentionee) {
    if bot.userId != "" && m.userId == bot.userId then true
    else bot.displayName != "" && m.length > 0 && InText(m, |text|) && Contains(text[m.index..End(m)], bot.displayName)
  }

  predicate Cuts(bot: Bot, text: string, m: Mentionee) {
    Matches(bot, text, m) && InText(m, |text|)
  }

  /** What remains of the text, and whether anything was cut. */
  datatype Stripped = Stripped(text: string, cut: bool) | Failed

  function CutOne(bot: Bot, s: Stripped, m: Mentionee): Stripped {
    if s.Failed? || !Cuts(bot, s.text, m) then s
    else if End(m) < 0 || m.index > |s.text| then Failed
    else Stripped(s.text[..m.index] + s.text[End(m)..], true)
  }

  /** The mentions taken from the last to the first. */
  function CutAll(bot: Bot, s: Stripped, ms: seq<Mentionee>): Stripped
    decreases |ms|
  {
    if ms == [] then s else CutAll(bot, CutOne(bot, s, ms[|ms| - 1]), ms[..|ms| - 1])
  }

  function Fallback(bot: Bot, text: string): string {
    Trim(if bot.displayName != "" then RemoveAll(text, "@" + bot.displayName) else text)
  }

  function StripMention(bot: Bot, text: string, mention: Option<seq<Mentionee>>): Outcome {
    var s := CutAll(bot, Stripped(text, false), if mention.Some? then mention.value else []);
    if s.Failed? then Fault else if s.cut then Text(Trim(s.text)) else Text(Fallback(bot, text))
  }

  method StripBotMention(bot: Bot, text: string, mention: Option<seq<Mentionee>>) returns (outcome: Outcome)
    ensures outcome == StripMention(bot, text, mention)
  {
    var stripped := false;
    if mention.Some? {
      var ms := mention.value;
      var runes := text;
      var i := |ms| - 1;
      assert ms[..i + 1] == ms;
      while i >= 0
        invariant -1 <= i < |ms|
        invariant CutAll(bot, Stripped(runes, stripped), ms[..i + 1]) == CutAll(bot, Stripped(text, false), ms)
      {
        assert ms[..i + 1][..i] == ms[..i];
        var m := ms[i];
        var shouldStrip := false;
        if bot.userId != "" && m.userId == bot.userId {
          shouldStrip := true;
        } else if bot.displayName != "" && m.index >= 0 && m.length > 0 {
          var end := m.index + m.length;
          if end <= |runes| {
            var mentionText := runes[m.index..end];
            if Contains(mentionText, bot.displayName) {
              shouldStrip := true;
            }
          }
        }
        assert shouldStrip == Matches(bot, runes, m);
        if shouldStrip {
          var start, end := m.index, m.index + m.length;
          if start >= 0 && end <= |runes| {
            if end < 0 || start > |runes| {
              CutFailed(bot, ms[..i]);
              return Fault;
            }
            runes := runes[..start] + runes[end..];
            stripped := true;
          }
        }
        i := i - 1;
      }
      if stripped {
        return Text(Trim(runes));
      }
    }
    var rest := text;
    if bot.displayName != "" {
      rest := RemoveAll(rest, "@" + bot.displayName);
    }
    outcome := Text(Trim(rest));
  }

  lemma {:induction false} CutFailed(bot: Bot, ms: seq<Mentionee>)
    ensures CutAll(bot, Failed, ms) == Failed
  {
    if ms != [] { CutFailed(bot, ms[..|ms| - 1]); }
  }

  // ---------------------------------------------------------------------------
  // What is cut
  // ---------------------------------------------------------------------------

  /** Ascending, disjoint, not empty and inside the text. */
  ghost predicate Ordered(ms: seq<Mentionee>, size: nat) {
    && (forall i :: 0 <= i < |ms| ==> ms[i].length > 0 && InText(ms[i], size))
    && forall i, j :: 0 <= i < j < |ms| ==> End(ms[i]) <= ms[j].index
  }

  predicate Covers(m: Mentionee, p: int) {
    m.index <= p < End(m)
  }

  /** The character lies in a mention of the bot, judged by the text itself. */
  predicate InBotMention(bot: Bot, text: string, ms: seq<Mentionee>, p: int) {
    exists i :: 0 <= i < |ms| && Covers(ms[i], p) && Matches(bot, text, ms[i])
  }

  /** The first n characters without those in mentions of the bot. */
  function Kept(bot: Bot, text: string, ms: seq<Mentionee>, n: nat): string
    requires n <= |text|
  {
    if n == 0 then ""
    else Kept(bot, text, ms, n - 1) + (if InBotMention(bot, text, ms, n - 1) then "" else [text[n - 1]])
  }

  /** Only the range itself decides, so cutting behind it changes nothing. */
  lemma MatchesPrefix(bot: Bot, text: string, other: string, m: Mentionee)
    requires m.length > 0 && InText(m, |text|) && InText(m, |other|)
    requires text[..End(m)] == other[..End(m)]
    ensures Matches(bot, text, m) == Matches(bot, other, m)
  {
    assert text[m.index..End(m)] == text[..End(m)][m.index..];
    assert other[m.index..End(m)] == other[..End(m)][m.index..];
  }

  /** Before the last mention, the last mention does not matter. */
  lemma {:induction false} KeptBefore(bot: Bot, text: string, ms: seq<Mentionee>, n: nat)
    requires ms != [] && Ordered(ms, |text|) && n <= ms[|ms| - 1].index
    ensures Kept(bot, text, ms, n) == Kept(bot, text, ms[..|ms| - 1], n)
  {
    if n > 0 {
      KeptBefore(bot, text, ms, n - 1);
      var past := ms[..|ms| - 1];
      if i :| 0 <= i < |ms| && Covers(ms[i], n - 1) && Matches(bot, text, ms[i]) {
        assert past[i] == ms[i];
      }
      if i :| 0 <= i < |past| && Covers(past[i], n - 1) && Matches(bot, text, past[i]) {
        assert past[i] == ms[i];
      }
    }
  }

  /** From the start of the last mention on, the last mention alone decides. */
  lemma {:induction false} KeptAfter(bot: Bot, text: string, ms: seq<Mentionee>, n: nat)
    requires ms != [] && Ordered(ms, |text|) && ms[|ms| - 1].index <= n <= |text|
    ensures var m := ms[|ms| - 1];
            var from := if !Matches(bot, text, m) then m.index else if n < End(m) then n else End(m);
            Kept(bot, text, ms, n) == Kept(bot, text, ms, m.index) + text[from..n]
  {
    var m := ms[|ms| - 1];
    if n > m.index {
      KeptAfter(bot, text, ms, n - 1);
      LastDecides(bot, text, ms, n - 1);
    }
  }

  lemma LastDecides(bot: Bot, text: string, ms: seq<Mentionee>, p: nat)
    requires ms != [] && Ordered(ms, |text|) && ms[|ms| - 1].index <= p
    ensures InBotMention(bot, text, ms, p) <==> p < End(ms[|ms| - 1]) && Matches(bot, text, ms[|ms| - 1])
  {
    var m := ms[|ms| - 1];
    if p < End(m) && Matches(bot, text, m) {
      assert Covers(m, p);
    }
    if i :| 0 <= i < |ms| && Covers(ms[i], p) && Matches(bot, text, ms[i]) {
      assert i == |ms| - 1;
    }
  }

  /** The kept part of a text depends on no character behind it. */
  lemma {:induction false} KeptPrefixAt(bot: Bot, text: string, other: string, ms: seq<Mentionee>, n: nat, k: nat)
    requires k <= n <= |text| && n <= |other| && text[..n] == other[..n] && Ordered(ms, n)
    ensures Kept(bot, text, ms, k) == Kept(bot, other, ms, k)
  {
    if k > 0 {
      KeptPrefixAt(bot, text, other, ms, n, k - 1);
      assert text[k - 1] == text[..n][k - 1] == other[..n][k - 1] == other[k - 1];
      forall i | 0 <= i < |ms| ensures Matches(bot, text, ms[i]) == Matches(bot, other, ms[i]) {
        var e := End(ms[i]);
        assert text[..e] == text[..n][..e] && other[..e] == other[..n][..e];
        MatchesPrefix(bot, text, other, ms[i]);
      }
    }
  }

  predicate AnyMatches(bot: Bot, text: string, ms: seq<Mentionee>) {
    exists i :: 0 <= i < |ms| && Matches(bot, text, ms[i])
  }

  /** Where the text behind the last mention goes on: behind it if it is the bot's, else with it. */
  function Resume(bot: Bot, text: string, m: Mentionee): int {
    if Matches(bot, text, m) then End(m) else m.index
  }

  lemma CutLast(bot: Bot, front: string, tail: string, cut: bool, m: Mentionee)
    requires m.length > 0 && InText(m, |front|)
    ensures CutOne(bot, Stripped(front + tail, cut), m)
         == Stripped(front[..m.index] + (front[Resume(bot, front, m)..] + tail), cut || Matches(bot, front, m))
  {
    assert (front + tail)[..End(m)] == front[..End(m)];
    MatchesPrefix(bot, front + tail, front, m);
    var from := Resume(bot, front, m);
    assert (front + tail)[..m.index] == front[..m.index] && (front + tail)[from..] == front[from..] + tail;
    assert front + tail == front[..m.index] + (front[m.index..] + tail);
  }

  lemma KeptLast(bot: Bot, text: string, ms: seq<Mentionee>)
    requires ms != [] && Ordered(ms, |text|)
    ensures var m := ms[|ms| - 1];
            var front := text[..m.index];
            Kept(bot, text, ms, |text|)
            == Kept(bot, front, ms[..|ms| - 1], |front|) + text[Resume(bot, text, m)..]
  {
    var m := ms[|ms| - 1];
    KeptAfter(bot, text, ms, |text|);
    KeptBefore(bot, text, ms, m.index);
    KeptPrefixAt(bot, text[..m.index], text, ms[..|ms| - 1], m.index, m.index);
  }

  /** Cutting from the last mention to the first leaves the text kept so far and what lies behind it. */
  lemma {:induction false} CutAllKeeps(bot: Bot, front: string, tail: string, cut: bool, ms: seq<Mentionee>)
    requires Ordered(ms, |front|)
    ensures CutAll(bot, Stripped(front + tail, cut), ms)
         == Stripped(Kept(bot, front, ms, |front|) + tail, cut || AnyMatches(bot, front, ms))
    decreases |ms|
  {
    if ms == [] {
      KeepsAll(bot, front, |front|);
      assert front[..|front|] == front;
    } else {
      var m, past := ms[|ms| - 1], ms[..|ms| - 1];
      var a, rest := front[..m.index], front[Resume(bot, front, m)..];
      CutLast(bot, front, tail, cut, m);
      CutAllKeeps(bot, a, rest + tail, cut || Matches(bot, front, m), past);
      KeptLast(bot, front, ms);
      SomeMatch(bot, front, ms);
      Associative(Kept(bot, a, past, |a|), rest, tail);
    }
  }

  lemma SomeMatch(bot: Bot, text: string, ms: seq<Mentionee>)
    requires ms != [] && Ordered(ms, |text|)
    ensures AnyMatches(bot, text, ms)
       <==> Matches(bot, text, ms[|ms| - 1]) || AnyMatches(bot, text[..ms[|ms| - 1].index], ms[..|ms| - 1])
  {
    var past, front := ms[..|ms| - 1], text[..ms[|ms| - 1].index];
    forall i | 0 <= i < |past| ensures Matches(bot, front, past[i]) == Matches(bot, text, ms[i]) {
      assert front[..End(ms[i])] == text[..End(ms[i])];
      MatchesPrefix(bot, text, front, ms[i]);
    }
    if i :| 0 <= i < |ms| && Matches(bot, text, ms[i]) {
      assert i < |past| ==> Matches(bot, front, past[i]);
    }
    if i :| 0 <= i < |past| && Matches(bot, front, past[i]) {
      assert Matches(bot, text, ms[i]);
    }
  }

  lemma {:induction false} KeepsAll(bot: Bot, text: string, n: nat)
    requires n <= |text|
    ensures Kept(bot, text, [], n) == text[..n]
  {
    if n > 0 { KeepsAll(bot, text, n - 1); }
  }

  /** Cutting in place is right.  For mentions in ascending order the result is the original text without
      exactly the characters in mentions of the bot, trimmed; without such a mention the display name is
      removed wherever it follows an @. */
  lemma StripsExactlyTheBot(bot: Bot, text: string, ms: seq<Mentionee>)
    requires Ordered(ms, |text|)
    ensures StripMention(bot, text, Some(ms))
         == Text(if AnyMatches(bot, text, ms) then Trim(Kept(bot, text, ms, |text|)) else Fallback(bot, text))
  {
    assert text + "" == text;
    CutAllKeeps(bot, text, "", false, ms);
    assert Kept(bot, text, ms, |text|) + "" == Kept(bot, text, ms, |text|);
  }

  lemma NamedInside(text: string, pre: string, x: string, post: string, m: Mentionee)
    requires text == pre + x + post && m.index == |pre| && m.length == |x| > 0
    ensures InText(m, |text|) && text[m.index..End(m)] == x && text[..m.index] + text[End(m)..] == pre + post
  {
  }

  /** A single mention: it goes if it is of the bot's user id, or if the bot's name is in the mentioned text.  If
      not, what goes is the name behind an @, if there is a name at all. */
  lemma OneMentionIs(bot: Bot, pre: string, x: string, post: string, id: string)
    requires x != ""
    ensures var text := pre + x + post;
            var outcome := StripMention(bot, text, Some([Mentionee(|pre|, |x|, id)]));
            if (id != "" && id == bot.userId) || (bot.displayName != "" && Contains(x, bot.displayName))
            then outcome == Text(Trim(pre + post))
            else outcome == Text(Trim(if bot.displayName == "" then text else RemoveAll(text, "@" + bot.displayName)))
  {
    var text, m := pre + x + post, Mentionee(|pre|, |x|, id);
    NamedInside(text, pre, x, post, m);
    var s := Stripped(text, false);
    assert [m][..0] == [] && CutAll(bot, s, [m]) == CutAll(bot, CutOne(bot, s, m), []);
  }

  /** When a mention's turn comes, the decision is the one the original text calls for. */
  lemma DecisionsAgree(bot: Bot, text: string, ms: seq<Mentionee>, i: nat)
    requires Ordered(ms, |text|) && i < |ms|
    ensures var now := CutAll(bot, Stripped(text, false), ms[i + 1..]);
            now.Stripped? && Cuts(bot, now.text, ms[i]) == Matches(bot, text, ms[i])
  {
    var m, rest := ms[i], ms[i + 1..];
    assert text + "" == text;
    CutAllKeeps(bot, text, "", false, rest);
    UntouchedBefore(bot, text, rest, End(m), |text|);
    var now := Kept(bot, text, rest, |text|);
    assert now + "" == now;
    MatchesPrefix(bot, now, text, m);
  }

  lemma {:induction false} UntouchedBefore(bot: Bot, text: string, ms: seq<Mentionee>, e: nat, n: nat)
    requires e <= n <= |text| && forall j :: 0 <= j < |ms| ==> e <= ms[j].index
    ensures |Kept(bot, text, ms, n)| >= e && Kept(bot, text, ms, n)[..e] == text[..e]
    decreases n
  {
    if n > 0 {
      if e < n {
        UntouchedBefore(bot, text, ms, e, n - 1);
      } else {
        UntouchedBefore(bot, text, ms, e - 1, n - 1);
        assert !InBotMention(bot, text, ms, n - 1);
        assert Kept(bot, text, ms, n - 1)[..e - 1] + [text[e - 1]] == text[..e];
        KeptNoLonger(bot, text, ms, n - 1);
      }
    }
  }

  lemma {:induction false} KeptNoLonger(bot: Bot, text: string, ms: seq<Mentionee>, n: nat)
    requires n <= |text|
    ensures |Kept(bot, text, ms, n)| <= n
  {
    if n > 0 { KeptNoLonger(bot, text, ms, n - 1); }
  }

  // ---------------------------------------------------------------------------
  // Overlapping mentions
  // ---------------------------------------------------------------------------

  /** A mention of the bot by user id, not empty and inside the text. */
  predicate Names(bot: Bot, m: Mentionee, size: nat) {
    bot.userId != "" && m.userId == bot.userId && m.length > 0 && InText(m, size)
  }

  lemma InEither(bot: Bot, text: string, a: Mentionee, b: Mentionee, p: int)
    requires Names(bot, a, |text|) && Names(bot, b, |text|)
    ensures InBotMention(bot, text, [a, b], p) <==> Covers(a, p) || Covers(b, p)
  {
    var ms := [a, b];
    if Covers(a, p) {
      assert Covers(ms[0], p) && Matches(bot, text, ms[0]);
    }
    if Covers(b, p) {
      assert Covers(ms[1], p) && Matches(bot, text, ms[1]);
    }
  }

  /** What is left without the union of two ranges that touch or overlap. */
  lemma {:induction false} KeptWithoutUnion(bot: Bot, text: string, a: Mentionee, b: Mentionee, n: nat)
    requires Names(bot, a, |text|) && Names(bot, b, |text|) && a.index <= b.index <= End(a) && n <= |text|
    ensures var end := if End(a) < End(b) then End(b) else End(a);
            Kept(bot, text, [a, b], n)
            == if n <= a.index then text[..n] else text[..a.index] + text[(if n < end then n else end)..n]
  {
    if n > 0 {
      KeptWithoutUnion(bot, text, a, b, n - 1);
      InEither(bot, text, a, b, n - 1);
    }
  }

  lemma CutTwo(bot: Bot, text: string, a: Mentionee, b: Mentionee)
    requires Names(bot, a, |text|) && Names(bot, b, |text|)
    ensures var cut := text[..b.index] + text[End(b)..];
            CutAll(bot, Stripped(text, false), [a, b])
            == Stripped(if End(a) <= |cut| then cut[..a.index] + cut[End(a)..] else cut, true)
  {
    var ms := [a, b];
    assert ms[..1] == [a] && [a][..0] == [];
    var cut := text[..b.index] + text[End(b)..];
    assert CutOne(bot, Stripped(text, false), b) == Stripped(cut, true);
    assert CutAll(bot, Stripped(cut, true), [a]) == CutOne(bot, Stripped(cut, true), a);
  }

  /** Of two mentions of the bot exactly their characters go if and only if the second begins behind the
      first, or it covers the first from its start and the text that its cut leaves is too short for the
      first to be cut as well. */
  lemma OverlapCutIff(bot: Bot, text: string, a: Mentionee, b: Mentionee)
    requires Names(bot, a, |text|) && Names(bot, b, |text|) && a.index <= b.index
    ensures CutAll(bot, Stripped(text, false), [a, b]) == Stripped(Kept(bot, text, [a, b], |text|), true)
       <==> End(a) <= b.index
            || (a.index == b.index && End(a) <= End(b) && End(a) > |text| - b.length)
  {
    CutTwo(bot, text, a, b);
    if End(a) <= b.index {
      assert text + "" == text;
      CutAllKeeps(bot, text, "", false, [a, b]);
      assert Matches(bot, text, [a, b][0]);
      assert Kept(bot, text, [a, b], |text|) + "" == Kept(bot, text, [a, b], |text|);
    } else {
      KeptWithoutUnion(bot, text, a, b, |text|);
    }
  }

  /** The order in which two mentions are listed does not matter for what they cover. */
  lemma {:induction false} KeptSwapped(bot: Bot, text: string, a: Mentionee, b: Mentionee, n: nat)
    requires Names(bot, a, |text|) && Names(bot, b, |text|) && n <= |text|
    ensures Kept(bot, text, [a, b], n) == Kept(bot, text, [b, a], n)
  {
    if n > 0 {
      KeptSwapped(bot, text, a, b, n - 1);
      InEither(bot, text, a, b, n - 1);
      InEither(bot, text, b, a, n - 1);
    }
  }

  /** What is left without two ranges of which the second lies behind the first. */
  lemma KeptWithoutBoth(bot: Bot, text: string, a: Mentionee, b: Mentionee)
    requires Names(bot, a, |text|) && Names(bot, b, |text|) && End(a) <= b.index
    ensures Kept(bot, text, [a, b], |text|) == text[..a.index] + (text[End(a)..b.index] + text[End(b)..])
  {
    var cut := text[..b.index] + text[End(b)..];
    CutTwo(bot, text, a, b);
    assert text + "" == text;
    CutAllKeeps(bot, text, "", false, [a, b]);
    assert Kept(bot, text, [a, b], |text|) + "" == Kept(bot, text, [a, b], |text|);
    assert cut[..a.index] == text[..a.index] && cut[End(a)..] == text[End(a)..b.index] + text[End(b)..];
  }

  /** The text that cutting b leaves, cut again at a's range, which has moved. */
  lemma MovedCut(text: string, a: Mentionee, b: Mentionee)
    requires 0 <= b.index < End(b) <= a.index < End(a) <= |text| - b.length
    ensures var cut := text[..b.index] + text[End(b)..];
            cut[..a.index] + cut[End(a)..]
            == text[..b.index] + (text[End(b)..a.index + b.length] + text[End(a) + b.length..])
  {
    var cut := text[..b.index] + text[End(b)..];
    assert cut[..a.index] == text[..b.index] + text[End(b)..a.index + b.length];
    assert cut[End(a)..] == text[End(a) + b.length..];
  }

  lemma SameRest(head: string, x: string, y: string)
    ensures head + x == head + y <==> x == y
  {
    assert (head + x)[|head|..] == x && (head + y)[|head|..] == y;
  }

  /** Both readings of the text behind b differ only in the b.length characters at a's two ends. */
  lemma MovedDifference(text: string, a: Mentionee, b: Mentionee)
    requires 0 <= b.index < End(b) <= a.index < End(a) <= |text| - b.length
    ensures text[End(b)..a.index + b.length] + text[End(a) + b.length..] == text[End(b)..a.index] + text[End(a)..]
       <==> text[a.index..a.index + b.length] == text[End(a)..End(a) + b.length]
  {
    var head, rest := text[End(b)..a.index], text[End(a) + b.length..];
    var front, back := text[a.index..a.index + b.length], text[End(a)..End(a) + b.length];
    assert text[End(b)..a.index + b.length] + rest == head + (front + rest);
    assert text[End(a)..] == back + rest;
    SameRest(head, front + rest, back + rest);
    assert (front + rest)[..b.length] == front && (back + rest)[..b.length] == back;
  }

  /** Two mentions of the bot that are listed against their order in the text are cut at moved places.  If they
      are apart, what remains is the text without them if and only if the range of the first listed is still
      inside the text and the characters that stay in its place equal those that go instead; if they overlap,
      if and only if the second listed covers the first and leaves too little text for it to be cut as well. */
  lemma DescendingCutIff(bot: Bot, text: string, a: Mentionee, b: Mentionee)
    requires Names(bot, a, |text|) && Names(bot, b, |text|) && b.index < a.index
    ensures CutAll(bot, Stripped(text, false), [a, b]) == Stripped(Kept(bot, text, [a, b], |text|), true)
       <==> if End(b) <= a.index
            then End(a) <= |text| - b.length
                 && text[a.index..a.index + b.length] == text[End(a)..End(a) + b.length]
            else End(a) <= End(b) && End(a) > |text| - b.length
  {
    CutTwo(bot, text, a, b);
    KeptSwapped(bot, text, a, b, |text|);
    if a.index < End(b) {
      KeptWithoutUnion(bot, text, b, a, |text|);
    } else {
      KeptWithoutBoth(bot, text, b, a);
      if End(a) <= |text| - b.length {
        MovedCut(text, a, b);
        MovedDifference(text, a, b);
        SameRest(text[..b.index], text[End(b)..a.index + b.length] + text[End(a) + b.length..],
                 text[End(b)..a.index] + text[End(a)..]);
      }
    }
  }

  /** For instance, of "abcd" with the mention "c" listed before the mention "a" the "c" stays and "d" goes. */
  lemma DescendingCutsOther(bot: Bot, id: string)
    requires bot.userId == id != ""
    ensures var text, a, b := "abcd", Mentionee(2, 1, id), Mentionee(0, 1, id);
            CutAll(bot, Stripped(text, false), [a, b]) == Stripped("bc", true) && Kept(bot, text, [a, b], 4) == "bd"
  {
    var text, a, b := "abcd", Mentionee(2, 1, id), Mentionee(0, 1, id);
    CutTwo(bot, text, a, b);
    var cut := text[..0] + text[1..];
    assert cut[..2] + cut[3..] == "bc";
    KeptSwapped(bot, text, a, b, 4);
    KeptWithoutBoth(bot, text, b, a);
    assert text[..0] + (text[1..2] + text[3..]) == "bd";
  }

  /** For instance, of "abcd" with the mentions "abc" and "bcd" the first letter stays. */
  lemma OverlapKeepsText(bot: Bot, id: string)
    requires bot.userId == id != ""
    ensures var text, a, b := "abcd", Mentionee(0, 3, id), Mentionee(1, 3, id);
            CutAll(bot, Stripped(text, false), [a, b]) == Stripped("a", true) && Kept(bot, text, [a, b], 4) == ""
  {
    var text, a, b := "abcd", Mentionee(0, 3, id), Mentionee(1, 3, id);
    CutTwo(bot, text, a, b);
    assert text[..1] + text[4..] == "a";
    KeptWithoutUnion(bot, text, a, b, 4);
    assert text[..0] + text[4..4] == "";
  }
}
