/** What a call with its retries sends and returns, told from the errors of the provider alone. */
module RetryOutcomes {
  import opened Transcript
  import opened ChatRetry
  import opened Strings

  /** The words of a rate limit or a transient failure, and those of a context error. */
  const RESEND_WORDS: seq<string> := ["429", "rate", "quota", "502", "503", "timeout"]
  const CONTEXT_WORDS: seq<string> := ["token", "context", "invalidparameter", "length"]

  /** The lower-cased error text has one of the words in it. */
  predicate Mentions(error: string, words: seq<string>) {
    exists i :: 0 <= i < |words| && Contains(ToLower(error), words[i])
  }

  /** Lower-casing moves each capital by the distance of the small letters, and nothing else. */
  lemma LowerIs(s: string, i: nat)
    requires i < |s|
    ensures |ToLower(s)| == |s|
    ensures 65 <= s[i] as int <= 90 ==> ToLower(s)[i] as int == s[i] as int + 32
    ensures !(65 <= s[i] as int <= 90) ==> ToLower(s)[i] == s[i]
  {
  }

  lemma WordsAreRules()
    ensures |RULES| == 10 && |RESEND_WORDS| == 6 && |CONTEXT_WORDS| == 4
    ensures forall i :: 0 <= i < 6 ==> RULES[i].word == RESEND_WORDS[i] && RULES[i].verdict in {RateLimit, Transient}
    ensures forall i :: 0 <= i < 4 ==> RULES[6 + i].word == CONTEXT_WORDS[i] && RULES[6 + i].verdict == ContextTooLong
  {
  }

  lemma NamedIsMentioned(error: string, i: nat)
    requires i < 10 && |RULES| == 10 && NamesWord(error, i)
    ensures if i < 6 then Mentions(error, RESEND_WORDS) else Mentions(error, CONTEXT_WORDS)
  {
    WordsAreRules();
    assert Contains(ToLower(error), RULES[i].word);
    assert i >= 6 ==> RULES[6 + (i - 6)].word == CONTEXT_WORDS[i - 6];
  }

  lemma MentionedIsNamed(error: string) returns (i: nat)
    requires Mentions(error, RESEND_WORDS) || Mentions(error, CONTEXT_WORDS)
    ensures i < |RULES| == 10 && NamesWord(error, i) && (Mentions(error, RESEND_WORDS) ==> i < 6)
  {
    WordsAreRules();
    if Mentions(error, RESEND_WORDS) {
      i :| 0 <= i < |RESEND_WORDS| && Contains(ToLower(error), RESEND_WORDS[i]);
    } else {
      var k :| 0 <= k < |CONTEXT_WORDS| && Contains(ToLower(error), CONTEXT_WORDS[k]);
      i := 6 + k;
      assert RULES[6 + k].word == CONTEXT_WORDS[k];
    }
  }

  /** How an error counts: the words of a rate limit or a transient failure come first. */
  lemma VerdictIs(error: string)
    ensures Mentions(error, RESEND_WORDS) <==> Classify(error) in {RateLimit, Transient}
    ensures !Mentions(error, RESEND_WORDS) && Mentions(error, CONTEXT_WORDS) <==> Classify(error) == ContextTooLong
  {
    WordsAreRules();
    var msg := ToLower(error);
    if Mentions(error, RESEND_WORDS) || Mentions(error, CONTEXT_WORDS) {
      var i := MentionedIsNamed(error);
      var n := FirstNamed(error, i);
      FirstMatchFinds(msg, RULES, n);
      NamedIsMentioned(error, n);
      assert n >= 6 ==> RULES[6 + (n - 6)].verdict == ContextTooLong;
    } else {
      forall i | 0 <= i < |RULES| ensures !Contains(msg, RULES[i].word) {
        if NamesWord(error, i) { NamedIsMentioned(error, i); }
      }
      FirstMatchFinds(msg, RULES, |RULES|);
    }
  }

  /** The first message and the newest ones, if there are more than so many; else all. */
  predicate KeepsNewest(next: seq<Message>, messages: seq<Message>, above: nat, newest: nat)
    requires newest <= |messages|
  {
    if |messages| > above then
      |next| == 1 + newest && next[0] == messages[0] && next[1..] == messages[|messages| - newest..]
    else next == messages
  }

  /** What a request that follows a context error has lost against the one before it. */
  predicate Shrunk(next: ChatRequest, request: ChatRequest, attempt: nat) {
    match attempt
    case 0 => next.messages == request.messages && !next.withTools
    case 1 =>
      next.withTools == request.withTools
      && KeepsNewest(next.messages, request.messages, 4, |request.messages| / 4)
    case _ =>
      next.withTools == request.withTools
      && KeepsNewest(next.messages, request.messages, 3, if |request.messages| < 2 then 0 else 2)
  }

  /** The request that follows a failed one. */
  predicate Follows(next: ChatRequest, request: ChatRequest, attempt: nat, error: string) {
    if Mentions(error, RESEND_WORDS) then next == request
    else Mentions(error, CONTEXT_WORDS) && Shrunk(next, request, attempt)
  }

  lemma CompressShrinks(attempt: nat, messages: seq<Message>, withTools: bool)
    requires attempt < 3
    ensures Shrunk(ChatRequest(Compress(attempt, messages), withTools && attempt != 0),
                   ChatRequest(messages, withTools), attempt)
  {
  }

  lemma AgainFollows(error: string, attempt: nat, messages: seq<Message>, withTools: bool)
    ensures var plan := AfterError(error, attempt, messages, withTools);
            && (plan.Again? ==>
                  Follows(ChatRequest(plan.messages, plan.withTools), ChatRequest(messages, withTools), attempt, error))
            && (plan.GiveUp? <==>
                  attempt >= 3 || (!Mentions(error, RESEND_WORDS) && !Mentions(error, CONTEXT_WORDS)))
  {
    var verdict := Classify(error);
    VerdictIs(error);
    if attempt < 3 && verdict == ContextTooLong {
      CompressShrinks(attempt, messages, withTools);
    }
  }

  /** The log of a call from its attempt `retry` on. */
  ghost predicate Told(chat: nat -> ChatOutcome, retry: nat, request: ChatRequest, sent: seq<ChatRequest>, r: Attempt) {
    var n, last := |sent|, |r.sent| - 1;
    && n <= last && last - n + retry <= 3 && sent <= r.sent && r.sent[n] == request
    && (forall i :: n <= i < last ==>
          chat(i).Failed? && Follows(r.sent[i + 1], r.sent[i], i - n + retry, chat(i).error))
    && r.outcome == chat(last) && r.messages == r.sent[last].messages
    && (r.outcome.Failed? ==>
          || last - n + retry == 3
          || (!Mentions(r.outcome.error, RESEND_WORDS) && !Mentions(r.outcome.error, CONTEXT_WORDS)))
  }

  lemma ToldStep(chat: nat -> ChatOutcome, retry: nat, request: ChatRequest, next: ChatRequest,
                 sent: seq<ChatRequest>, r: Attempt)
    requires Told(chat, retry + 1, next, sent + [request], r)
    requires chat(|sent|).Failed? && Follows(next, request, retry, chat(|sent|).error)
    ensures Told(chat, retry, request, sent, r)
  {
    var n := |sent|;
    assert r.sent[n] == (sent + [request])[n];
    forall i | n <= i < |r.sent| - 1
      ensures chat(i).Failed? && Follows(r.sent[i + 1], r.sent[i], i - n + retry, chat(i).error)
    {
      if i > n {
        assert i - (n + 1) + (retry + 1) == i - n + retry;
      }
    }
  }

  lemma {:induction false} RetryTold(chat: nat -> ChatOutcome, retry: nat, messages: seq<Message>, withTools: bool,
                                     sent: seq<ChatRequest>)
    requires retry <= 3
    ensures Told(chat, retry, ChatRequest(messages, withTools), sent, Retry(chat, retry, messages, withTools, sent))
    decreases MAX_RETRIES - retry
  {
    var outcome, request := chat(|sent|), ChatRequest(messages, withTools);
    var r := Retry(chat, retry, messages, withTools, sent);
    if outcome.Failed? {
      AgainFollows(outcome.error, retry, messages, withTools);
    }
    if outcome.Failed? && AfterError(outcome.error, retry, messages, withTools).Again? {
      var plan := AfterError(outcome.error, retry, messages, withTools);
      assert r == Retry(chat, retry + 1, plan.messages, plan.withTools, sent + [request]);
      RetryTold(chat, retry + 1, plan.messages, plan.withTools, sent + [request]);
      ToldStep(chat, retry, request, ChatRequest(plan.messages, plan.withTools), sent, r);
    } else {
      assert r == Attempt(outcome, messages, sent + [request]);
    }
  }

  /** One call, told from the errors.  It begins with the whole list and the tools.  A request that fails with
      the words of a rate limit or a transient failure is sent again as it is; one that fails with those of a
      context error only is followed by a smaller one: without tools, then with the newest quarter, then with the
      newest two messages.  The call ends with the first request that succeeds, or that fails with none of the
      words, or with the fourth. */
  lemma CallIs(chat: nat -> ChatOutcome, messages: seq<Message>, sent: seq<ChatRequest>)
    ensures var r := Retry(chat, 0, messages, true, sent);
            var n, last := |sent|, |r.sent| - 1;
            && n <= last <= n + 3 && sent <= r.sent && r.sent[n] == ChatRequest(messages, true)
            && (forall i :: n <= i < last ==> chat(i).Failed?)
            && (forall i :: n <= i < last ==> Follows(r.sent[i + 1], r.sent[i], i - n, chat(i).error))
            && r.messages == r.sent[last].messages
            && r.outcome == chat(last)
            && (r.outcome.Failed? ==>
                  || last == n + 3
                  || (!Mentions(r.outcome.error, RESEND_WORDS) && !Mentions(r.outcome.error, CONTEXT_WORDS)))
  {
    RetryTold(chat, 0, messages, true, sent);
  }

  /** A rate limit or transient failure is retried: unless it is the fourth, the failed request is followed by
      the very same request. */
  lemma ResendsAfter(chat: nat -> ChatOutcome, messages: seq<Message>, sent: seq<ChatRequest>, i: nat)
    requires |sent| <= i < |Retry(chat, 0, messages, true, sent).sent| && i < |sent| + 3
    requires chat(i).Failed? && Mentions(chat(i).error, RESEND_WORDS)
    ensures var r := Retry(chat, 0, messages, true, sent);
            i + 1 < |r.sent| && r.sent[i + 1] == r.sent[i]
  {
    CallIs(chat, messages, sent);
  }

  /** A call fails with an error if and only if its last request failed with that error and was the fourth, or
      the error has none of the ten words. */
  lemma FailsIff(chat: nat -> ChatOutcome, messages: seq<Message>, sent: seq<ChatRequest>, error: string)
    ensures var r := Retry(chat, 0, messages, true, sent);
            |r.sent| > 0
            && (r.outcome == Failed(error)
                <==> chat(|r.sent| - 1) == Failed(error)
                     && (|r.sent| == |sent| + 4
                         || (!Mentions(error, RESEND_WORDS) && !Mentions(error, CONTEXT_WORDS))))
  {
    CallIs(chat, messages, sent);
  }

  /** An error that mentions "generate" has "rate" in it, so the request is sent again as it is, oversized or not. */
  lemma GenerateIsResent(chat: nat -> ChatOutcome, messages: seq<Message>, sent: seq<ChatRequest>, i: nat, at: nat)
    requires |sent| <= i < |Retry(chat, 0, messages, true, sent).sent| && i < |sent| + 3
    requires chat(i).Failed? && OccursAt(ToLower(chat(i).error), "generate", at)
    ensures var r := Retry(chat, 0, messages, true, sent);
            i + 1 < |r.sent| && r.sent[i + 1] == r.sent[i]
  {
    GenerateErrorsNeverCompress(chat(i).error, at);
    VerdictIs(chat(i).error);
    ResendsAfter(chat, messages, sent, i);
  }
}
