/** One LLM request with its retries: error classification, back-off and progressive compression. */
module ChatRetry {
  import opened Transcript
  import opened SessionStore
  import opened Strings

  datatype Response = Response(content: string, reasoning: string, calls: seq<CallRef>)

  datatype ChatOutcome = Reply(response: Response) | Failed(error: string)

  /** A request as it reaches the provider. */
  datatype ChatRequest = ChatRequest(messages: seq<Message>, withTools: bool)

  const MAX_RETRIES: nat := 3

  function ToLower(s: string): string {
    seq(|s|, i requires 0 <= i < |s| => if 'A' <= s[i] <= 'Z' then s[i] - 'A' + 'a' else s[i])
  }

  datatype Verdict = RateLimit | Transient | ContextTooLong | Fatal

  datatype Rule = Rule(word: string, verdict: Verdict)

  /** The words looked for in a lower-cased error text, in the order in which they decide. */
  const RULES: seq<Rule> := [
    Rule("429", RateLimit), Rule("rate", RateLimit), Rule("quota", RateLimit),
    Rule("502", Transient), Rule("503", Transient), Rule("timeout", Transient),
    Rule("token", ContextTooLong), Rule("context", ContextTooLong),
    Rule("invalidparameter", ContextTooLong), Rule("length", ContextTooLong)]

  function FirstMatch(msg: string, rules: seq<Rule>): Verdict {
    if rules == [] then Fatal
    else if Contains(msg, rules[0].word) then rules[0].verdict
    else FirstMatch(msg, rules[1..])
  }

  function Classify(error: string): Verdict {
    FirstMatch(ToLower(error), RULES)
  }

  /** The message list kept after a context error on the given retry. */
  function Compress(retry: nat, messages: seq<Message>): seq<Message> {
    if retry == 1 && |messages| > 4 then
      var quarter := |messages| - |messages| / 4;
      [messages[0]] + messages[if quarter < 2 then 2 else quarter..]
    else if retry == 2 && |messages| > 3 then
      [messages[0]] + messages[|messages| - 2..]
    else messages
  }

  datatype Plan = GiveUp | Again(messages: seq<Message>, withTools: bool)

  function AfterError(error: string, retry: nat, messages: seq<Message>, withTools: bool): Plan {
    if retry >= MAX_RETRIES then GiveUp
    else match Classify(error)
      case ContextTooLong => Again(Compress(retry, messages), withTools && retry != 0)
      case Fatal => GiveUp
      case _ => Again(messages, withTools)
  }

  datatype Attempt = Attempt(outcome: ChatOutcome, messages: seq<Message>, sent: seq<ChatRequest>)

  /** The provider is an arbitrary function from the number of a request within the turn to its
      outcome; `sent` logs the requests of the turn. */
  function Retry(chat: nat -> ChatOutcome, retry: nat, messages: seq<Message>, withTools: bool,
                 sent: seq<ChatRequest>): Attempt
    decreases MAX_RETRIES - retry
  {
    var outcome := chat(|sent|);
    var sent' := sent + [ChatRequest(messages, withTools)];
    if outcome.Reply? then Attempt(outcome, messages, sent')
    else match AfterError(outcome.error, retry, messages, withTools)
      case GiveUp => Attempt(outcome, messages, sent')
      case Again(next, tools) => Retry(chat, retry + 1, next, tools, sent')
  }

  /** Decides what to do after a failed attempt. */
  method HandleError(error: string, retry: nat, messages: seq<Message>, withTools: bool)
    returns (again: bool, kept: seq<Message>, tools: bool)
    requires messages != []
    ensures AfterError(error, retry, messages, withTools) == if again then Again(kept, tools) else GiveUp
    ensures kept != []
  {
    again, kept, tools := true, messages, withTools;
    var verdict := Classify(error);
    if verdict == RateLimit && retry < MAX_RETRIES {
      return;
    }
    if verdict == Transient && retry < MAX_RETRIES {
      return;
    }
    if verdict == ContextTooLong && retry < MAX_RETRIES {
      if retry == 0 {
        tools := false;
      } else if retry == 1 {
        if |kept| > 4 {
          var quarter := |kept| - |kept| / 4;
          if quarter < 2 {
            quarter := 2;
          }
          kept := [kept[0]] + kept[quarter..];
        }
      } else if retry == 2 {
        if |kept| > 3 {
          kept := [kept[0]] + kept[|kept| - 2..];
        }
      }
      return;
    }
    again := false;
  }

  method ChatWithRetry(chat: nat -> ChatOutcome, messages: seq<Message>, sent: seq<ChatRequest>)
    returns (outcome: ChatOutcome, kept: seq<Message>, log: seq<ChatRequest>)
    requires messages != []
    ensures Attempt(outcome, kept, log) == Retry(chat, 0, messages, true, sent)
  {
    kept, log := messages, sent;
    outcome := Failed("");
    var withTools, again := true, true;
    var retry := 0;
    while again
      invariant 0 <= retry <= MAX_RETRIES && kept != []
      invariant Retry(chat, 0, messages, true, sent)
             == if again then Retry(chat, retry, kept, withTools, log) else Attempt(outcome, kept, log)
      decreases again, MAX_RETRIES - retry
    {
      outcome := chat(|log|);
      log := log + [ChatRequest(kept, withTools)];
      if outcome.Reply? {
        again := false;
        break;
      }
      var next;
      again, next, withTools := HandleError(outcome.error, retry, kept, withTools);
      if again {
        kept, retry := next, retry + 1;
      }
    }
  }

  /** The first message followed by a suffix of the rest that still holds the newest message. */
  predicate KeepsEnds(kept: seq<Message>, messages: seq<Message>) {
    |kept| >= 2 && |messages| >= 2 && kept[0] == messages[0] && IsSuffix(kept[1..], messages[1..])
  }

  lemma CompressKeepsEnds(retry: nat, messages: seq<Message>)
    requires |messages| >= 2
    ensures KeepsEnds(Compress(retry, messages), messages)
  {
    var kept := Compress(retry, messages);
    if kept == messages {
    } else {
      var cut := |messages| + 1 - |kept|;
      assert kept[1..] == messages[cut..];
      assert messages[1..][cut - 1..] == messages[cut..];
    }
  }

  lemma KeepsEndsTransitive(a: seq<Message>, b: seq<Message>, c: seq<Message>)
    requires KeepsEnds(a, b) && KeepsEnds(b, c)
    ensures KeepsEnds(a, c)
  {
    assert c[1..][|c| - |b|..][|b| - |a|..] == c[1..][|c| - |a|..];
  }

  lemma AgainKeepsEnds(error: string, retry: nat, messages: seq<Message>, withTools: bool)
    requires |messages| >= 2 && AfterError(error, retry, messages, withTools).Again?
    ensures KeepsEnds(AfterError(error, retry, messages, withTools).messages, messages)
    ensures retry < MAX_RETRIES
  {
    CompressKeepsEnds(retry, messages);
  }

  /** What one call with its retries adds to the request log. */
  ghost predicate SentFew(messages: seq<Message>, sent: seq<ChatRequest>, retry: nat, r: Attempt) {
    && |sent| + 1 <= |r.sent| <= |sent| + 1 + MAX_RETRIES - retry
    && sent <= r.sent
    && (forall i :: |sent| <= i < |r.sent| ==> KeepsEnds(r.sent[i].messages, messages))
    && KeepsEnds(r.messages, messages)
  }

  lemma SentFewLast(messages: seq<Message>, sent: seq<ChatRequest>, withTools: bool, retry: nat,
                    outcome: ChatOutcome)
    requires |messages| >= 2 && retry <= MAX_RETRIES
    ensures SentFew(messages, sent, retry, Attempt(outcome, messages, sent + [ChatRequest(messages, withTools)]))
  {
  }

  lemma SentFewStep(messages: seq<Message>, next: seq<Message>, sent: seq<ChatRequest>, withTools: bool,
                    retry: nat, r: Attempt)
    requires |messages| >= 2 && KeepsEnds(next, messages)
    requires SentFew(next, sent + [ChatRequest(messages, withTools)], retry + 1, r)
    ensures SentFew(messages, sent, retry, r)
  {
    var sent' := sent + [ChatRequest(messages, withTools)];
    forall i | |sent| <= i < |r.sent| ensures KeepsEnds(r.sent[i].messages, messages) {
      if i == |sent| {
        assert r.sent[i] == sent'[i];
      } else {
        KeepsEndsTransitive(r.sent[i].messages, next, messages);
      }
    }
    KeepsEndsTransitive(r.messages, next, messages);
  }

  /** At most one request per remaining retry is sent; every one of them, and the list that the turn
      goes on with, keeps the first and the newest message and a suffix in between. */
  lemma {:induction false} RetrySendsFew(chat: nat -> ChatOutcome, retry: nat, messages: seq<Message>,
                                         withTools: bool, sent: seq<ChatRequest>)
    requires retry <= MAX_RETRIES && |messages| >= 2
    ensures SentFew(messages, sent, retry, Retry(chat, retry, messages, withTools, sent))
    decreases MAX_RETRIES - retry
  {
    var outcome := chat(|sent|);
    var sent' := sent + [ChatRequest(messages, withTools)];
    var r := Retry(chat, retry, messages, withTools, sent);
    if outcome.Failed? && AfterError(outcome.error, retry, messages, withTools).Again? {
      var plan := AfterError(outcome.error, retry, messages, withTools);
      assert r == Retry(chat, retry + 1, plan.messages, plan.withTools, sent');
      AgainKeepsEnds(outcome.error, retry, messages, withTools);
      RetrySendsFew(chat, retry + 1, plan.messages, plan.withTools, sent');
      SentFewStep(messages, plan.messages, sent, withTools, retry, r);
    } else {
      assert r == Attempt(outcome, messages, sent');
      SentFewLast(messages, sent, withTools, retry, outcome);
    }
  }

  /** The outcome of a call is that of its last request. */
  lemma {:induction false} LastRequestDecides(chat: nat -> ChatOutcome, retry: nat, messages: seq<Message>,
                                              withTools: bool, sent: seq<ChatRequest>)
    requires retry <= MAX_RETRIES
    ensures var r := Retry(chat, retry, messages, withTools, sent);
            |r.sent| > |sent| && r.outcome == chat(|r.sent| - 1)
    decreases MAX_RETRIES - retry
  {
    var outcome := chat(|sent|);
    if outcome.Failed? && AfterError(outcome.error, retry, messages, withTools).Again? {
      var plan := AfterError(outcome.error, retry, messages, withTools);
      var sent' := sent + [ChatRequest(messages, withTools)];
      assert Retry(chat, retry, messages, withTools, sent)
          == Retry(chat, retry + 1, plan.messages, plan.withTools, sent');
      LastRequestDecides(chat, retry + 1, plan.messages, plan.withTools, sent');
    }
  }

  predicate ContextFailure(outcome: ChatOutcome) {
    outcome.Failed? && Classify(outcome.error).ContextTooLong?
  }

  lemma {:induction false} ToolsStay(chat: nat -> ChatOutcome, retry: nat, messages: seq<Message>,
                                     withTools: bool, sent: seq<ChatRequest>)
    requires 1 <= retry <= MAX_RETRIES
    ensures var r := Retry(chat, retry, messages, withTools, sent);
            && sent <= r.sent
            && forall i :: |sent| <= i < |r.sent| ==> r.sent[i].withTools == withTools
    decreases MAX_RETRIES - retry
  {
    var outcome := chat(|sent|);
    var sent' := sent + [ChatRequest(messages, withTools)];
    if outcome.Failed? && AfterError(outcome.error, retry, messages, withTools).Again? {
      var next := AfterError(outcome.error, retry, messages, withTools).messages;
      ToolsStay(chat, retry + 1, next, withTools, sent');
      var r := Retry(chat, retry, messages, withTools, sent);
      assert r == Retry(chat, retry + 1, next, withTools, sent');
      assert r.sent[|sent|] == sent'[|sent|];
    }
  }

  /** A retried request goes out without tool definitions exactly when the very first attempt failed
      with a context error; a later context error never removes them. */
  lemma ToolsDroppedIff(chat: nat -> ChatOutcome, messages: seq<Message>, sent: seq<ChatRequest>, i: nat)
    requires |sent| < i < |Retry(chat, 0, messages, true, sent).sent|
    ensures Retry(chat, 0, messages, true, sent).sent[i].withTools <==> !ContextFailure(chat(|sent|))
  {
    var outcome := chat(|sent|);
    var sent' := sent + [ChatRequest(messages, true)];
    ToolsStay(chat, 1, messages, !ContextFailure(outcome), sent');
    assert Compress(0, messages) == messages;
  }

  /** Three context errors in a row: the fourth request carries at most three messages, the first of
      them the system prompt and the last of them the newest, and no tool definitions. */
  lemma FourthRequestIsMinimal(chat: nat -> ChatOutcome, messages: seq<Message>, sent: seq<ChatRequest>)
    requires |messages| >= 2
    requires forall i :: |sent| <= i < |sent| + MAX_RETRIES ==> ContextFailure(chat(i))
    ensures var r := Retry(chat, 0, messages, true, sent);
            && |r.sent| == |sent| + 4
            && 2 <= |r.sent[|sent| + 3].messages| <= 3
            && KeepsEnds(r.sent[|sent| + 3].messages, messages)
            && !r.sent[|sent| + 3].withTools
  {
    var r := Retry(chat, 0, messages, true, sent);
    RetrySendsFew(chat, 0, messages, true, sent);
    var s1 := sent + [ChatRequest(messages, true)];
    var m2 := Compress(1, messages);
    var s2 := s1 + [ChatRequest(messages, false)];
    var m3 := Compress(2, m2);
    var s3 := s2 + [ChatRequest(m2, false)];
    assert r == Retry(chat, 1, messages, false, s1);
    assert r == Retry(chat, 2, m2, false, s2);
    assert r == Retry(chat, 3, m3, false, s3);
    assert r.sent == s3 + [ChatRequest(m3, false)];
  }

  lemma {:induction false} FirstMatchFinds(msg: string, rules: seq<Rule>, n: nat)
    requires n <= |rules| && forall i :: 0 <= i < n ==> !Contains(msg, rules[i].word)
    ensures FirstMatch(msg, rules) == FirstMatch(msg, rules[n..])
    ensures n < |rules| && Contains(msg, rules[n].word) ==> FirstMatch(msg, rules) == rules[n].verdict
    decreases n
  {
    if n > 0 {
      forall i | 0 <= i < n - 1 ensures !Contains(msg, rules[1..][i].word) {
        assert rules[1..][i] == rules[i + 1];
      }
      FirstMatchFinds(msg, rules[1..], n - 1);
      assert rules[1..][n - 1..] == rules[n..];
    }
  }

  /** The words of rate limits and transient failures come before those of context errors. */
  const RETRY_WORDS: nat := 6

  lemma RulesInOrder()
    ensures |RULES| == 10
    ensures forall i :: 0 <= i < |RULES| ==> (RULES[i].verdict == ContextTooLong <==> i >= RETRY_WORDS)
    ensures forall i :: 0 <= i < |RULES| ==> RULES[i].verdict != Fatal
  {
  }

  predicate NamesWord(error: string, i: nat)
    requires i < |RULES|
  {
    Contains(ToLower(error), RULES[i].word)
  }

  /** An error leads to compression exactly when its lower-cased text has one of the four words of a
      context error and none of the six words of a rate limit or a transient failure. */
  lemma ContextErrorIff(error: string)
    ensures |RULES| == 10
    ensures Classify(error) == ContextTooLong
       <==> (exists i :: RETRY_WORDS <= i < 10 && NamesWord(error, i))
            && forall i :: 0 <= i < RETRY_WORDS ==> !NamesWord(error, i)
  {
    RulesInOrder();
    var msg := ToLower(error);
    if i :| 0 <= i < 10 && NamesWord(error, i) {
      var n := FirstNamed(error, i);
      FirstMatchFinds(msg, RULES, n);
    } else {
      forall i | 0 <= i < |RULES| ensures !Contains(msg, RULES[i].word) {
        assert !NamesWord(error, i);
      }
      FirstMatchFinds(msg, RULES, |RULES|);
    }
  }

  lemma {:induction false} FirstNamed(error: string, i: nat) returns (n: nat)
    requires i < |RULES| && NamesWord(error, i)
    ensures n <= i && NamesWord(error, n) && forall k :: 0 <= k < n ==> !Contains(ToLower(error), RULES[k].word)
  {
    if k :| 0 <= k < i && Contains(ToLower(error), RULES[k].word) {
      n := FirstNamed(error, k);
    } else {
      n := i;
    }
  }

  /** "rate" is looked for before the words of a context error, so any error that mentions
      "generate" is retried with the same oversized request and never leads to compression. */
  lemma GenerateErrorsNeverCompress(error: string, i: nat)
    requires OccursAt(ToLower(error), "generate", i)
    ensures Classify(error) == RateLimit
  {
    var msg := ToLower(error);
    assert msg[i + 4..i + 8] == msg[i..i + 8][4..8] == "generate"[4..8] == "rate";
    assert OccursAt(msg, "rate", i + 4);
    assert FirstMatch(msg, RULES[1..]) == RateLimit;
  }

  lemma LowerOccurs(a: string, part: string, b: string)
    ensures OccursAt(ToLower(a + part + b), ToLower(part), |a|)
  {
    var msg := ToLower(a + part + b);
    assert msg[|a|..|a| + |part|] == ToLower(part);
  }

  lemma MentionsBoth(a: string, b: string, c: string)
    ensures var error := a + "generate" + b + "context" + c;
            Contains(ToLower(error), "context") && Classify(error) == RateLimit
  {
    var error := a + "generate" + b + "context" + c;
    assert ToLower("generate") == "generate" && ToLower("context") == "context";
    var rest := b + "context" + c;
    assert error == a + "generate" + rest;
    LowerOccurs(a, "generate", rest);
    GenerateErrorsNeverCompress(error, |a|);
    LowerOccurs(a + "generate" + b, "context", c);
  }

  /** So a provider that reports what went wrong in these words is asked again with the same request. */
  lemma GenerateContextError()
    ensures var error := "could not " + "generate" + ": " + "context" + " length exceeded";
            Contains(ToLower(error), "context") && Classify(error) == RateLimit
  {
    MentionsBoth("could not ", ": ", " length exceeded");
  }

  lemma SuffixClosedIff(t: seq<Message>, cut: nat)
    requires Closed(t) && cut <= |t|
    ensures Closed(t[cut..]) <==> cut == |t| || t[cut].role != Tool
  {
    assert t == t[..cut] + t[cut..];
    ReadConcat(Owing([]), t[..cut], t[cut..]);
    PrefixUnbroken(t[..cut], t[cut..]);
    BrokenStays(t[cut..]);
    if cut < |t| {
      BrokenStays(t[cut..][1..]);
    }
  }

  /** A list that keeps the ends of a well-paired one is well paired exactly when what follows its first
      message does not begin with a tool result. */
  lemma EndsPairedIff(kept: seq<Message>, whole: seq<Message>)
    requires KeepsEnds(kept, whole) && whole[0].role == System && Closed(whole)
    ensures Paired(kept) <==> kept[1].role != Tool
  {
    ReaderDecidesPairing(kept);
    var cut := |whole| + 1 - |kept|;
    assert kept[1..] == whole[cut..] by {
      assert whole[1..][cut - 1..] == whole[cut..];
    }
    SuffixClosedIff(whole, cut);
    assert ReadAll(kept) == ReadFrom(Read(Owing([]), kept[0]), kept[1..]);
  }

  /** Compressing a well-paired request keeps it well paired exactly when the suffix that is kept does
      not begin with a tool result. */
  lemma CompressionPairedIff(retry: nat, messages: seq<Message>)
    requires |messages| >= 2 && messages[0].role == System && Paired(messages)
    ensures Paired(Compress(retry, messages)) <==> Compress(retry, messages)[1].role != Tool
  {
    ReaderDecidesPairing(messages);
    CompressKeepsEnds(retry, messages);
    EndsPairedIff(Compress(retry, messages), messages);
  }
}
