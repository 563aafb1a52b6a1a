/** Tool calls that a command-line model writes into its answer as JSON text. */
module ToolCallText {
  import opened Wrappers
  import opened Strings

  const TOOL_CALLS: string := "{\"tool_calls\""

  /** A call as the JSON object states it. */
  datatype RawCall = RawCall(id: string, kind: string, name: string, arguments: string)

  datatype ToolCall = ToolCall(id: string, kind: string, name: string, args: Option<string>, arguments: string)

  /** JSON decoding: of the whole object, None when it fails, and of a call's arguments. */
  type Decoder = string -> Option<seq<RawCall>>

  type ArgDecoder = string -> Option<string>

  function Weight(c: char): int {
    if c == '{' then 1 else if c == '}' then -1 else 0
  }

  /** The opening minus the closing braces in text[from..to]. */
  function Depth(text: string, from: nat, to: nat): int
    requires from <= to <= |text|
  {
    if from == to then 0 else Depth(text, from, to - 1) + Weight(text[to - 1])
  }

  predicate Closes(text: string, pos: nat, end: nat) {
    pos < end <= |text| && text[end - 1] == '}' && Depth(text, pos, end) == 0
  }

  /** The least end at which a closing brace brings the depth back to 0, or pos when there is none. */
  function MatchingBrace(text: string, pos: nat): (end: nat)
    ensures pos <= end
    ensures end > pos ==> Closes(text, pos, end)
    ensures forall e :: pos < e && (end == pos || e < end) ==> !Closes(text, pos, e)
  {
    FirstClose(text, pos, pos + 1)
  }

  function FirstClose(text: string, pos: nat, from: nat): (end: nat)
    requires pos < from
    ensures end == pos || from <= end
    ensures end > pos ==> Closes(text, pos, end)
    ensures forall e :: from <= e && (end == pos || e < end) ==> !Closes(text, pos, e)
    decreases |text| - from
  {
    if from > |text| then pos
    else if Closes(text, pos, from) then from
    else FirstClose(text, pos, from + 1)
  }

  method FindMatchingBrace(text: string, pos: nat) returns (end: nat)
    ensures end == MatchingBrace(text, pos)
  {
    var depth := 0;
    var i := pos;
    while i < |text|
      invariant pos <= i && (i <= |text| || i == pos)
      invariant i <= |text| ==> depth == Depth(text, pos, i)
      invariant forall e :: pos < e <= i ==> !Closes(text, pos, e)
    {
      if text[i] == '{' {
        depth := depth + 1;
      } else if text[i] == '}' {
        depth := depth - 1;
        if depth == 0 {
          assert Closes(text, pos, i + 1);
          return i + 1;
        }
      }
      i := i + 1;
    }
    end := pos;
  }

  /** The part of the text that is taken for the tool calls. */
  function Found(text: string): Option<(nat, nat)> {
    var start := IndexOf(text, TOOL_CALLS);
    if start < 0 || MatchingBrace(text, start) == start then None else Some((start, MatchingBrace(text, start)))
  }

  function Build(decodeArgs: ArgDecoder, c: RawCall): ToolCall {
    ToolCall(c.id, c.kind, c.name, decodeArgs(c.arguments), c.arguments)
  }

  function BuildAll(decodeArgs: ArgDecoder, cs: seq<RawCall>): seq<ToolCall> {
    seq(|cs|, i requires 0 <= i < |cs| => Build(decodeArgs, cs[i]))
  }

  function CallsIn(decode: Decoder, decodeArgs: ArgDecoder, json: string): seq<ToolCall> {
    match decode(json)
    case None => []
    case Some(cs) => BuildAll(decodeArgs, cs)
  }

  function Extract(decode: Decoder, decodeArgs: ArgDecoder, text: string): seq<ToolCall> {
    match Found(text)
    case None => []
    case Some((start, end)) => CallsIn(decode, decodeArgs, text[start..end])
  }

  function StripToolCallsFromText(text: string): string {
    match Found(text)
    case None => text
    case Some((start, end)) => Trim(text[..start] + text[end..])
  }

  method ExtractToolCallsFromText(decode: Decoder, decodeArgs: ArgDecoder, text: string) returns (calls: seq<ToolCall>)
    ensures calls == Extract(decode, decodeArgs, text)
  {
    calls := [];
    var start := IndexOf(text, TOOL_CALLS);
    if start == -1 {
      return;
    }
    var end := FindMatchingBrace(text, start);
    if end == start {
      return;
    }
    var wrapper := decode(text[start..end]);
    if wrapper.None? {
      return;
    }
    var i := 0;
    while i < |wrapper.value|
      invariant 0 <= i <= |wrapper.value| && |calls| == i
      invariant forall k :: 0 <= k < i ==> calls[k] == Build(decodeArgs, wrapper.value[k])
    {
      calls := calls + [Build(decodeArgs, wrapper.value[i])];
      i := i + 1;
    }
    assert calls == BuildAll(decodeArgs, wrapper.value);
  }

  /** The depth counts the braces, and nothing but braces. */
  lemma {:induction false} DepthCounts(text: string, from: nat, to: nat)
    requires from <= to <= |text|
    ensures Depth(text, from, to) + multiset(text[from..to])['}'] == multiset(text[from..to])['{']
  {
    if from < to {
      DepthCounts(text, from, to - 1);
      assert text[from..to] == text[from..to - 1] + [text[to - 1]];
    }
  }

  // ---------------------------------------------------------------------------
  // Balanced text
  // ---------------------------------------------------------------------------

  /** Opens with a brace that its last character closes, and no earlier one. */
  ghost predicate Balanced(json: string) {
    && json != "" && json[0] == '{' && Depth(json, 0, |json|) == 0
    && forall e :: 0 < e < |json| ==> Depth(json, 0, e) > 0
  }

  lemma {:induction false} DepthInside(pre: string, json: string, post: string, e: nat)
    requires e <= |json|
    ensures Depth(pre + json + post, |pre|, |pre| + e) == Depth(json, 0, e)
  {
    if e > 0 { DepthInside(pre, json, post, e - 1); }
  }

  lemma MatchBalanced(pre: string, json: string, post: string)
    requires Balanced(json)
    ensures MatchingBrace(pre + json + post, |pre|) == |pre| + |json|
  {
    ClosesAtEnd(pre, json, post, |json|);
    var end := MatchingBrace(pre + json + post, |pre|);
    if |pre| < end < |pre| + |json| {
      ClosesAtEnd(pre, json, post, end - |pre|);
    }
  }

  lemma ClosesAtEnd(pre: string, json: string, post: string, e: nat)
    requires Balanced(json) && 0 < e <= |json|
    ensures Closes(pre + json + post, |pre|, |pre| + e) <==> e == |json|
  {
    DepthInside(pre, json, post, e);
    LastCloses(json);
    assert (pre + json + post)[|pre| + e - 1] == json[e - 1];
  }

  lemma LastCloses(json: string)
    requires Balanced(json)
    ensures json[|json| - 1] == '}'
  {
    assert Depth(json, 0, 1) == Depth(json, 0, 0) + 1;
    assert |json| > 1 ==> Depth(json, 0, |json| - 1) > 0;
  }

  /** What the scan finds at an opening brace is balanced. */
  lemma {:induction false} MatchIsBalanced(text: string, pos: nat)
    requires pos < |text| && text[pos] == '{' && MatchingBrace(text, pos) > pos
    ensures Balanced(text[pos..MatchingBrace(text, pos)])
  {
    var end := MatchingBrace(text, pos);
    var json := text[pos..end];
    assert text == text[..pos] + json + text[end..];
    forall e | 0 < e < |json| ensures Depth(json, 0, e) > 0 {
      PositiveBefore(text, pos, pos + e);
      DepthInside(text[..pos], json, text[end..], e);
    }
    DepthInside(text[..pos], json, text[end..], |json|);
  }

  lemma {:induction false} PositiveBefore(text: string, pos: nat, e: nat)
    requires pos < e <= |text| && text[pos] == '{'
    requires forall k :: pos < k <= e ==> !Closes(text, pos, k)
    ensures Depth(text, pos, e) > 0
  {
    if e > pos + 1 {
      PositiveBefore(text, pos, e - 1);
      assert !Closes(text, pos, e);
    } else {
      assert Depth(text, pos, pos) == 0;
    }
  }

  lemma Slices(pre: string, json: string, post: string)
    ensures (pre + json + post)[|pre|..|pre| + |json|] == json
    ensures (pre + json + post)[..|pre|] == pre && (pre + json + post)[|pre| + |json|..] == post
  {
  }

  /** Extraction decodes exactly the balanced text that begins at the first marker, and stripping removes
      exactly that. */
  lemma ExtractsBalanced(decode: Decoder, decodeArgs: ArgDecoder, pre: string, json: string, post: string)
    requires IndexOf(pre + json + post, TOOL_CALLS) == |pre| && Balanced(json)
    ensures Extract(decode, decodeArgs, pre + json + post) == CallsIn(decode, decodeArgs, json)
    ensures StripToolCallsFromText(pre + json + post) == Trim(pre + post)
  {
    MatchBalanced(pre, json, post);
    Slices(pre, json, post);
  }

  /** So each call that the balanced text behind the first marker states comes out with its own id, type, name and
      argument text, and with what this text decodes to; nothing comes out if the whole does not decode. */
  lemma ExtractedCalls(decode: Decoder, decodeArgs: ArgDecoder, pre: string, json: string, post: string)
    requires IndexOf(pre + json + post, "{\"tool_calls\"") == |pre| && Balanced(json)
    ensures var calls := Extract(decode, decodeArgs, pre + json + post);
            && (decode(json).None? ==> calls == [])
            && (decode(json).Some? ==>
                  var stated := decode(json).value;
                  && |calls| == |stated|
                  && forall i :: 0 <= i < |stated| ==>
                       && calls[i].id == stated[i].id && calls[i].kind == stated[i].kind
                       && calls[i].name == stated[i].name && calls[i].arguments == stated[i].arguments
                       && calls[i].args == decodeArgs(stated[i].arguments))
  {
    ExtractsBalanced(decode, decodeArgs, pre, json, post);
  }

  ghost predicate Parts(text: string, pre: string, json: string, post: string) {
    text == pre + json + post && IndexOf(text, TOOL_CALLS) == |pre| && Balanced(json)
  }

  /** Every text is of that kind, or nothing is extracted and the text stays as it is. */
  lemma ExtractsOrLeaves(decode: Decoder, decodeArgs: ArgDecoder, text: string)
    ensures Found(text).Some? <==> exists pre, json, post :: Parts(text, pre, json, post)
    ensures Found(text).None? ==> Extract(decode, decodeArgs, text) == [] && StripToolCallsFromText(text) == text
  {
    if Found(text).Some? {
      var (start, end) := Found(text).value;
      StartsWithBrace(text, start);
      MatchIsBalanced(text, start);
      assert text == text[..start] + text[start..end] + text[end..];
      assert Parts(text, text[..start], text[start..end], text[end..]);
    }
    if pre, json, post :| Parts(text, pre, json, post) {
      MatchBalanced(pre, json, post);
    }
  }

  lemma StartsWithBrace(text: string, start: nat)
    requires OccursAt(text, TOOL_CALLS, start)
    ensures start < |text| && text[start] == '{'
  {
    assert text[start..start + |TOOL_CALLS|][0] == TOOL_CALLS[0] == '{';
  }

  // ---------------------------------------------------------------------------
  // Braces inside JSON strings
  // ---------------------------------------------------------------------------

  datatype Lex = Code | InString | Escaped

  /** The state of a JSON reader behind the first n characters. */
  function LexAfter(json: string, n: nat): Lex
    requires n <= |json|
  {
    if n == 0 then Code
    else
      var c := json[n - 1];
      match LexAfter(json, n - 1)
      case Code => if c == '"' then InString else Code
      case InString => if c == '"' then Code else if c == '\\' then Escaped else InString
      case Escaped => InString
  }

  /** The depth when braces inside strings do not count. */
  function JsonDepth(json: string, n: nat): int
    requires n <= |json|
  {
    if n == 0 then 0
    else JsonDepth(json, n - 1) + (if LexAfter(json, n - 1).Code? then Weight(json[n - 1]) else 0)
  }

  /** The text ends where its outermost object ends. */
  ghost predicate JsonObject(json: string) {
    && json != "" && json[0] == '{' && JsonDepth(json, |json|) == 0
    && forall e :: 0 < e < |json| ==> JsonDepth(json, e) > 0
  }

  /** The brace weight of the strings in the first n characters. */
  function InStrings(json: string, n: nat): int
    requires n <= |json|
  {
    if n == 0 then 0
    else InStrings(json, n - 1) + (if LexAfter(json, n - 1).Code? then 0 else Weight(json[n - 1]))
  }

  /** Before the end, the strings never take away the whole depth. */
  ghost predicate StringsKeepDepth(json: string) {
    forall e :: 0 < e < |json| ==> JsonDepth(json, e) + InStrings(json, e) > 0
  }

  lemma {:induction false} DepthSplits(json: string, n: nat)
    requires n <= |json|
    ensures Depth(json, 0, n) == JsonDepth(json, n) + InStrings(json, n)
  {
    if n > 0 { DepthSplits(json, n - 1); }
  }

  /** The scan, which knows no strings, finds the end of a JSON object exactly when the braces in its
      strings balance in all, and at no earlier point take away the whole depth. */
  lemma ScanFindsObjectIff(pre: string, json: string, post: string)
    requires JsonObject(json)
    ensures MatchingBrace(pre + json + post, |pre|) == |pre| + |json|
       <==> InStrings(json, |json|) == 0 && StringsKeepDepth(json)
  {
    BalancedByStrings(json);
    if MatchingBrace(pre + json + post, |pre|) == |pre| + |json| {
      Slices(pre, json, post);
      assert (pre + json + post)[|pre|] == json[0];
      MatchIsBalanced(pre + json + post, |pre|);
    }
    if Balanced(json) {
      MatchBalanced(pre, json, post);
    }
  }

  lemma BalancedByStrings(json: string)
    requires JsonObject(json)
    ensures Balanced(json) <==> InStrings(json, |json|) == 0 && StringsKeepDepth(json)
  {
    DepthSplits(json, |json|);
    if Balanced(json) {
      forall e | 0 < e < |json| ensures JsonDepth(json, e) + InStrings(json, e) > 0 {
        DepthSplits(json, e);
        assert Depth(json, 0, e) > 0;
      }
    }
    if StringsKeepDepth(json) {
      forall e | 0 < e < |json| ensures Depth(json, 0, e) > 0 {
        DepthSplits(json, e);
        assert JsonDepth(json, e) + InStrings(json, e) > 0;
      }
    }
  }

  /** In particular when no string contains a brace. */
  lemma PlainStringsAreFound(pre: string, json: string, post: string)
    requires JsonObject(json)
    requires forall i :: 0 <= i < |json| && Weight(json[i]) != 0 ==> LexAfter(json, i).Code?
    ensures MatchingBrace(pre + json + post, |pre|) == |pre| + |json|
  {
    forall e | 0 <= e <= |json| ensures InStrings(json, e) == 0 {
      NothingInStrings(json, e);
    }
    ScanFindsObjectIff(pre, json, post);
  }

  lemma {:induction false} NothingInStrings(json: string, n: nat)
    requires n <= |json|
    requires forall i :: 0 <= i < |json| && Weight(json[i]) != 0 ==> LexAfter(json, i).Code?
    ensures InStrings(json, n) == 0
  {
    if n > 0 { NothingInStrings(json, n - 1); }
  }

  /** Otherwise the call can be lost: a closing brace in a string ends the scan before the object ends, when
      no further brace stands between it and the marker. */
  lemma StringBraceEndsCall(pre: string, x: string, y: string, post: string)
    requires JsonObject(TOOL_CALLS + x + "}" + y) && forall i :: 0 <= i < |x| ==> Weight(x[i]) == 0
    requires LexAfter(TOOL_CALLS + x + "}" + y, |TOOL_CALLS + x|).InString?
    ensures var json := TOOL_CALLS + x + "}" + y;
            MatchingBrace(pre + json + post, |pre|) == |pre| + |TOOL_CALLS + x| + 1 < |pre| + |json|
  {
    var found, json := TOOL_CALLS + x + "}", TOOL_CALLS + x + "}" + y;
    FirstBraceCloses(pre, x, y + post);
    assert pre + json + post == pre + found + (y + post);
    assert json[|found| - 1] == '}' && JsonDepth(json, |found|) == JsonDepth(json, |found| - 1);
  }

  lemma FirstBraceCloses(pre: string, x: string, post: string)
    requires forall i :: 0 <= i < |x| ==> Weight(x[i]) == 0
    ensures var found := TOOL_CALLS + x + "}"; MatchingBrace(pre + found + post, |pre|) == |pre| + |found|
  {
    var found := TOOL_CALLS + x + "}";
    forall i | 0 <= i < |found| ensures Weight(found[i]) == if i == 0 then 1 else if i == |found| - 1 then -1 else 0 {
      MarkerWeights(i);
    }
    forall e | 0 < e < |found| ensures Depth(found, 0, e) == 1 {
      FlatDepth(found, e);
    }
    FlatDepth(found, |found| - 1);
    MatchBalanced(pre, found, post);
  }

  lemma MarkerWeights(i: nat)
    ensures |TOOL_CALLS| == 13
    ensures i < |TOOL_CALLS| ==> Weight(TOOL_CALLS[i]) == if i == 0 then 1 else 0
  {
  }

  lemma {:induction false} FlatDepth(json: string, e: nat)
    requires 0 < e <= |json| && Weight(json[0]) == 1 && forall i :: 0 < i < e ==> Weight(json[i]) == 0
    ensures Depth(json, 0, e) == 1
  {
    if e > 1 {
      FlatDepth(json, e - 1);
    } else {
      assert Depth(json, 0, 0) == 0;
    }
  }

  /** Reading on over characters that are neither quotes nor backslashes nor braces changes nothing. */
  lemma {:induction false} ReadsOver(json: string, lo: nat, hi: nat)
    requires lo <= hi <= |json| && !LexAfter(json, lo).Escaped?
    requires forall i :: lo <= i < hi ==> json[i] != '"' && json[i] != '\\' && Weight(json[i]) == 0
    ensures LexAfter(json, hi) == LexAfter(json, lo)
    ensures forall e :: lo <= e <= hi ==> JsonDepth(json, e) == JsonDepth(json, lo)
    decreases hi
  {
    if hi > lo { ReadsOver(json, lo, hi - 1); }
  }

  lemma ReadOne(json: string, n: nat, c: char)
    requires n < |json| && json[n] == c
    ensures LexAfter(json, n).Code? ==>
              LexAfter(json, n + 1) == (if c == '"' then InString else Code)
              && JsonDepth(json, n + 1) == JsonDepth(json, n) + Weight(c)
    ensures LexAfter(json, n).InString? && c != '\\' ==>
              LexAfter(json, n + 1) == (if c == '"' then Code else InString)
              && JsonDepth(json, n + 1) == JsonDepth(json, n)
  {
  }

  /** This happens to an object of a single field whose text is one closing brace. */
  lemma BraceTextEndsCall(pre: string, post: string)
    ensures var json := TOOL_CALLS + ":\"" + "}" + "\"}";
            && JsonObject(json)
            && MatchingBrace(pre + json + post, |pre|) == |pre| + 16 && |json| == 18
  {
    var json := TOOL_CALLS + ":\"" + "}" + "\"}";
    MarkerWeights(0);
    assert json[0] == '{' && json[1] == '"' && json[12] == '"' && json[13] == ':' && json[14] == '"';
    assert json[15] == '}' && json[16] == '"' && json[17] == '}' && |json| == 18;
    ReadOne(json, 0, '{');
    ReadOne(json, 1, '"');
    forall i | 2 <= i < 12 ensures json[i] != '"' && json[i] != '\\' && Weight(json[i]) == 0 {
      assert json[i] == TOOL_CALLS[i];
    }
    ReadsOver(json, 2, 12);
    ReadOne(json, 12, '"');
    ReadOne(json, 13, ':');
    ReadOne(json, 14, '"');
    ReadOne(json, 15, '}');
    ReadOne(json, 16, '"');
    ReadOne(json, 17, '}');
    assert JsonDepth(json, 0) == 0;
    assert forall e :: 2 <= e <= 12 ==> JsonDepth(json, e) == 1;
    StringBraceEndsCall(pre, ":\"", "\"}", post);
  }
}
