/** Background summarisation: what is sent to the model, and what the truncation that follows drops. */
module Summariser {
  import opened Transcript
  import opened SessionStore
  import opened ChatRetry
  import opened Strings

  const KEEP_LAST: nat := 4
  const SPLIT_ABOVE: nat := 10
  const OMITTED_NOTE := "\n[Note: Some oversized messages were omitted from this summary for efficiency.]"

  datatype SummaryRequest =
    | Batch(existing: string, messages: seq<Message>)
    | Merge(first: string, second: string)

  predicate Conversational(m: Message) {
    m.role == User || m.role == Assistant
  }

  predicate Oversized(m: Message, window: nat) {
    ByteLength(m.content) / 4 > window / 2
  }

  /** The user and assistant messages under the size guard, in order. */
  function Eligible(ms: seq<Message>, window: nat): seq<Message> {
    if ms == [] then []
    else
      var m := ms[|ms| - 1];
      Eligible(ms[..|ms| - 1], window) + (if Conversational(m) && !Oversized(m, window) then [m] else [])
  }

  predicate Omits(ms: seq<Message>, window: nat) {
    exists i :: 0 <= i < |ms| && Conversational(ms[i]) && Oversized(ms[i], window)
  }

  /** The i-th request of a summarisation succeeds with a text or fails. */
  type Summarizer = nat -> ChatOutcome

  function Text(outcome: ChatOutcome): string {
    if outcome.Reply? then outcome.response.content else ""
  }

  datatype Outcome = Outcome(summary: string, requests: seq<SummaryRequest>)

  function WithNote(summary: string, omitted: bool): string {
    if omitted && summary != "" then summary + OMITTED_NOTE else summary
  }

  function Condense(valid: seq<Message>, existing: string, llm: Summarizer): Outcome {
    if |valid| > SPLIT_ABOVE then
      var mid := |valid| / 2;
      var s1, s2 := Text(llm(0)), Text(llm(1));
      Outcome(if llm(2).Reply? then llm(2).response.content else s1 + " " + s2,
              [Batch("", valid[..mid]), Batch("", valid[mid..]), Merge(s1, s2)])
    else Outcome(Text(llm(0)), [Batch(existing, valid)])
  }

  function Summarise(history: seq<Message>, existing: string, window: nat, llm: Summarizer): Outcome {
    if |history| <= KEEP_LAST then Outcome("", [])
    else
      var old' := history[..|history| - KEEP_LAST];
      var valid := Eligible(old', window);
      if valid == [] then Outcome("", [])
      else
        var c := Condense(valid, existing, llm);
        Outcome(WithNote(c.summary, Omits(old', window)), c.requests)
  }

  method SelectMessages(ms: seq<Message>, window: nat) returns (valid: seq<Message>, omitted: bool)
    ensures valid == Eligible(ms, window)
    ensures omitted == Omits(ms, window)
  {
    valid, omitted := [], false;
    var i := 0;
    while i < |ms|
      invariant 0 <= i <= |ms|
      invariant valid == Eligible(ms[..i], window)
      invariant omitted == Omits(ms[..i], window)
    {
      var m := ms[i];
      assert ms[..i + 1][..i] == ms[..i];
      assert ms[..i + 1][i] == m;
      OmitsSnoc(ms[..i], m, window);
      assert ms[..i + 1] == ms[..i] + [m];
      i := i + 1;
      if m.role != User && m.role != Assistant {
        continue;
      }
      var tokens := ByteLength(m.content) / 4;
      if tokens > window / 2 {
        omitted := true;
        continue;
      }
      valid := valid + [m];
    }
    assert ms[..i] == ms;
  }

  lemma OmitsSnoc(ms: seq<Message>, m: Message, window: nat)
    ensures Omits(ms + [m], window) <==> Omits(ms, window) || (Conversational(m) && Oversized(m, window))
  {
    var all := ms + [m];
    if Omits(ms, window) {
      var i :| 0 <= i < |ms| && Conversational(ms[i]) && Oversized(ms[i], window);
      assert all[i] == ms[i];
    }
    if Conversational(m) && Oversized(m, window) {
      assert all[|ms|] == m;
    }
  }

  method SummarizeSession(history: seq<Message>, existing: string, window: nat, llm: Summarizer)
    returns (summary: string, requests: seq<SummaryRequest>)
    ensures Outcome(summary, requests) == Summarise(history, existing, window, llm)
  {
    if |history| <= KEEP_LAST {
      return "", [];
    }
    var valid, omitted := SelectMessages(history[..|history| - KEEP_LAST], window);
    if |valid| == 0 {
      return "", [];
    }
    if |valid| > SPLIT_ABOVE {
      var mid := |valid| / 2;
      var part1, part2 := valid[..mid], valid[mid..];
      requests := [Batch("", part1), Batch("", part2)];
      var s1, s2 := Text(llm(0)), Text(llm(1));
      requests := requests + [Merge(s1, s2)];
      var merged := llm(2);
      if merged.Reply? {
        summary := merged.response.content;
      } else {
        summary := s1 + " " + s2;
      }
    } else {
      requests := [Batch(existing, valid)];
      summary := Text(llm(0));
    }
    if omitted && summary != "" {
      summary := summary + OMITTED_NOTE;
    }
  }

  function Batched(requests: seq<SummaryRequest>): seq<Message> {
    if requests == [] then []
    else (if requests[0].Batch? then requests[0].messages else []) + Batched(requests[1..])
  }

  /** The batches sent, put together, are exactly the eligible messages of the snapshot without its
      last four; with more than ten of them the previous summary is not passed on. */
  lemma BatchesCoverEligible(history: seq<Message>, existing: string, window: nat, llm: Summarizer)
    requires |history| > KEEP_LAST
    ensures var valid := Eligible(history[..|history| - KEEP_LAST], window);
            var o := Summarise(history, existing, window, llm);
            && Batched(o.requests) == valid
            && forall i :: 0 <= i < |o.requests| && o.requests[i].Batch? ==>
                 o.requests[i].existing == if |valid| > SPLIT_ABOVE then "" else existing
  {
    var valid := Eligible(history[..|history| - KEEP_LAST], window);
    var o := Summarise(history, existing, window, llm);
    if valid != [] {
      if |valid| > SPLIT_ABOVE {
        var mid := |valid| / 2;
        var first, second, merge := o.requests[0], o.requests[1], o.requests[2];
        assert o.requests[1..] == [second, merge];
        assert o.requests[1..][1..] == [merge];
        assert Batched([merge]) == [];
        assert Batched([second, merge]) == valid[mid..];
        assert valid == valid[..mid] + valid[mid..];
      } else {
        assert o.requests[1..] == [];
      }
    }
  }

  /** When no summary comes out, and so nothing is truncated. */
  lemma NoSummaryIff(history: seq<Message>, existing: string, window: nat, llm: Summarizer)
    ensures Summarise(history, existing, window, llm).summary == ""
       <==> || |history| <= KEEP_LAST
            || (var n := |Eligible(history[..|history| - KEEP_LAST], window)|;
                || n == 0
                || (n <= SPLIT_ABOVE && Text(llm(0)) == "")
                || (n > SPLIT_ABOVE && llm(2).Reply? && llm(2).response.content == ""))
  {
    if |history| > KEEP_LAST {
      var valid := Eligible(history[..|history| - KEEP_LAST], window);
      if |valid| > SPLIT_ABOVE && llm(2).Failed? {
        assert |Text(llm(0)) + " " + Text(llm(1))| > 0;
      }
    }
  }

  /** With more than ten messages a total failure of the model still yields a summary, a blank one:
      the history is truncated although nothing was summarised. */
  lemma TotalFailureStillSummarises(history: seq<Message>, existing: string, window: nat, llm: Summarizer)
    requires |history| > KEEP_LAST
    requires |Eligible(history[..|history| - KEEP_LAST], window)| > SPLIT_ABOVE
    requires llm(0).Failed? && llm(1).Failed? && llm(2).Failed?
    ensures Summarise(history, existing, window, llm).summary
         == WithNote(" ", Omits(history[..|history| - KEEP_LAST], window))
    ensures Summarise(history, existing, window, llm).summary != ""
  {
    NoSummaryIff(history, existing, window, llm);
    assert "" + " " + "" == " ";
  }

  /** A user or assistant message of at most half the window, at four bytes a token, is kept, no other. */
  lemma EligibleIs(ms: seq<Message>, m: Message, window: nat)
    ensures Eligible([], window) == []
    ensures Eligible(ms + [m], window)
         == Eligible(ms, window)
          + if m.role in {User, Assistant} && ByteLength(m.content) / 4 <= window / 2 then [m] else []
  {
    assert (ms + [m])[..|ms|] == ms;
  }

  /** The text of an answer; a failure counts as an empty one. */
  predicate Answers(outcome: ChatOutcome, text: string) {
    match outcome
    case Reply(response) => text == response.content
    case Failed(_) => text == ""
  }

  /** The summary is the text, with the note behind it if it is not empty and a message was too large. */
  predicate Notes(summary: string, text: string, ms: seq<Message>, window: nat) {
    var large := exists i :: 0 <= i < |ms| && ms[i].role in {User, Assistant}
                             && ByteLength(ms[i].content) / 4 > window / 2;
    if text != "" && large
    then summary == text + "\n[Note: Some oversized messages were omitted from this summary for efficiency.]"
    else summary == text
  }

  /** No more than four messages, or none of them eligible: no request and no summary. */
  lemma NothingToSummarise(history: seq<Message>, existing: string, window: nat, llm: Summarizer)
    ensures |history| <= 4 || Eligible(history[..|history| - 4], window) == [] <==>
            Summarise(history, existing, window, llm).requests == []
    ensures Summarise(history, existing, window, llm).requests == [] ==>
              Summarise(history, existing, window, llm).summary == ""
  {
  }

  /** Up to ten messages: one request, which passes the summary so far on, and its answer. */
  lemma ShortSummaryIs(history: seq<Message>, existing: string, window: nat, llm: Summarizer) returns (text: string)
    requires |history| > 4 && 0 < |Eligible(history[..|history| - 4], window)| <= 10
    ensures var old', o := history[..|history| - 4], Summarise(history, existing, window, llm);
            && o.requests == [Batch(existing, Eligible(old', window))]
            && Answers(llm(0), text) && Notes(o.summary, text, old', window)
  {
    text := Text(llm(0));
  }

  /** More than ten: the two halves, and a third request that merges the two answers; their sum with a space
      between them takes the place of a merge that fails. */
  lemma LongSummaryIs(history: seq<Message>, existing: string, window: nat, llm: Summarizer)
    returns (first: string, second: string, text: string)
    requires |history| > 4 && |Eligible(history[..|history| - 4], window)| > 10
    ensures var old', o := history[..|history| - 4], Summarise(history, existing, window, llm);
            var valid := Eligible(old', window);
            && |o.requests| == 3
            && o.requests[0] == Batch("", valid[..|valid| / 2]) && o.requests[1] == Batch("", valid[|valid| / 2..])
            && o.requests[2] == Merge(first, second)
            && Answers(llm(0), first) && Answers(llm(1), second)
            && (llm(2).Reply? ==> text == llm(2).response.content)
            && (llm(2).Failed? ==> text == first + " " + second)
            && Notes(o.summary, text, old', window)
  {
    first, second := Text(llm(0)), Text(llm(1));
    text := if llm(2).Reply? then llm(2).response.content else first + " " + second;
  }
}
