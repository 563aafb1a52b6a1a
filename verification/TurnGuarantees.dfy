/** What every turn guarantees, whatever the model answers and the tools return. */
module TurnGuarantees {
  import opened Wrappers
  import opened Transcript
  import opened SessionStore
  import opened ContextBuilder
  import opened ChatRetry
  import opened ToolCalls
  import opened TurnEngine

  ghost predicate Sound(t: Turn, prompt: Message) {
    && |t.messages| >= 2
    && t.messages[0] == prompt
    && Closed(t.stored)
    && |t.sent| <= 4 * t.iteration
    && (forall key :: Guarded(t.counts, t.executed, key))
    && (forall i :: 0 <= i < |t.sent| ==> t.sent[i].messages != [] && t.sent[i].messages[0] == prompt)
  }

  lemma RequestsSound(world: World, t: Turn, prompt: Message)
    requires Sound(t, prompt)
    ensures var a := Retry(world.chat, 0, t.messages, true, t.sent);
            && |a.messages| >= 2 && a.messages[0] == prompt
            && |a.sent| <= 4 * t.iteration + 4
            && forall i :: 0 <= i < |a.sent| ==> a.sent[i].messages != [] && a.sent[i].messages[0] == prompt
  {
    RetrySendsFew(world.chat, 0, t.messages, true, t.sent);
    var a := Retry(world.chat, 0, t.messages, true, t.sent);
    forall i | 0 <= i < |a.sent| ensures a.sent[i].messages != [] && a.sent[i].messages[0] == prompt {
      if i < |t.sent| {
        assert a.sent[i] == t.sent[i];
      } else {
        assert KeepsEnds(a.sent[i].messages, t.messages);
      }
    }
  }

  lemma CallsSound(world: World, t: Turn, a: Attempt, response: Response)
    requires Closed(t.stored) && forall key :: Guarded(t.counts, t.executed, key)
    ensures var t' := AfterCalls(world, t, a, response);
            Closed(t'.stored) && forall key :: Guarded(t'.counts, t'.executed, key)
  {
    var n := |response.calls|;
    var results := Results(world, t.iteration, n);
    BlockCloses(response.content, t.counts, response.calls, world.warn, results);
    ReadConcat(Owing([]), t.stored,
               [AssistantMessage(response)] + AnswersTo(t.counts, response.calls, world.warn, results, n));
    forall key
      ensures Guarded(CountsAfter(t.counts, response.calls, n), t.executed + Launched(t.counts, response.calls, n), key)
    {
      LaunchingStaysGuarded(t.counts, t.executed, response.calls, n, key);
    }
  }

  lemma IterateSound(world: World, t: Turn, prompt: Message)
    requires Sound(t, prompt)
    ensures Sound(Iterate(world, t), prompt)
  {
    RequestsSound(world, t, prompt);
    var a := Retry(world.chat, 0, t.messages, true, t.sent);
    if a.outcome.Reply? && a.outcome.response.calls != [] {
      CallsSound(world, t.(iteration := t.iteration + 1), a, a.outcome.response);
    }
  }

  lemma {:induction false} LoopSound(world: World, t: Turn, prompt: Message)
    requires Sound(t, prompt)
    ensures Sound(Loop(world, t), prompt)
    ensures Loop(world, t).iteration <= t.iteration || Loop(world, t).iteration <= world.maxIterations
    decreases world.maxIterations - t.iteration
  {
    if !t.done && t.iteration < world.maxIterations {
      IterateSound(world, t, prompt);
      LoopSound(world, Iterate(world, t), prompt);
    }
  }

  lemma BeginSound(messages: seq<Message>)
    requires |messages| >= 2
    ensures Sound(Begin(messages), messages[0])
  {
  }

  /** For every sequence of model outcomes a turn sends at most four requests per iteration, and each
      of them starts with the turn's system prompt. */
  lemma ChatCallsBounded(world: World, messages: seq<Message>)
    requires |messages| >= 2 && world.maxIterations >= 0
    ensures var t := Loop(world, Begin(messages));
            && |t.sent| <= 4 * t.iteration <= 4 * world.maxIterations
            && forall i :: 0 <= i < |t.sent| ==> t.sent[i].messages != [] && t.sent[i].messages[0] == messages[0]
  {
    BeginSound(messages);
    LoopSound(world, Begin(messages), messages[0]);
  }

  /** No (name, arguments) pair is executed more than twice in a turn. */
  lemma NoCallRunsThrice(world: World, messages: seq<Message>, key: Key)
    requires |messages| >= 2
    ensures Times(Loop(world, Begin(messages)).executed, key) <= 2
  {
    BeginSound(messages);
    LoopSound(world, Begin(messages), messages[0]);
    var t := Loop(world, Begin(messages));
    assert Guarded(t.counts, t.executed, key);
  }

  /** What a turn appends to its session is a closed transcript, also when the model fails midway. */
  lemma TurnsAreClosed(world: World, opts: Options, messages: seq<Message>)
    requires |messages| >= 2
    ensures Closed(TurnAppends(opts, Loop(world, Begin(messages))))
  {
    BeginSound(messages);
    LoopSound(world, Begin(messages), messages[0]);
    var t := Loop(world, Begin(messages));
    var user := [Plain(User, opts.userMessage)];
    var last := if t.error.Some? then []
                else [Plain(Assistant, if t.final == "" then opts.defaultResponse else t.final)];
    assert TurnAppends(opts, t) == user + t.stored + last;
    ReadConcat(Owing([]), user + t.stored, last);
    ReadConcat(Owing([]), user, t.stored);
    assert ReadFrom(Owing([]), user) == Read(Owing([]), user[0]);
    if last != [] {
      assert ReadFrom(Owing([]), last) == Read(Owing([]), last[0]);
    }
  }

  // ---------------------------------------------------------------------------
  // Pairing of the requests of a turn
  // ---------------------------------------------------------------------------

  /** Every request is well paired exactly when its second message is no tool result. */
  ghost predicate PairedUnlessCut(sent: seq<ChatRequest>) {
    forall i :: 0 <= i < |sent| ==>
      |sent[i].messages| >= 2 && (Paired(sent[i].messages) <==> sent[i].messages[1].role != Tool)
  }

  /** `whole` is what the message list would be had nothing been compressed. */
  ghost predicate Trails(messages: seq<Message>, whole: seq<Message>) {
    KeepsEnds(messages, whole) && whole[0].role == System && Closed(whole)
  }

  lemma KeepsEndsAppend(kept: seq<Message>, whole: seq<Message>, more: seq<Message>)
    requires KeepsEnds(kept, whole)
    ensures KeepsEnds(kept + more, whole + more)
  {
    assert (kept + more)[1..] == kept[1..] + more;
    assert (whole + more)[1..][|whole| - |kept|..] == whole[1..][|whole| - |kept|..] + more;
  }

  lemma RequestsTrail(world: World, t: Turn, whole: seq<Message>)
    requires Trails(t.messages, whole) && PairedUnlessCut(t.sent)
    ensures var a := Retry(world.chat, 0, t.messages, true, t.sent);
            Trails(a.messages, whole) && PairedUnlessCut(a.sent)
  {
    var a := Retry(world.chat, 0, t.messages, true, t.sent);
    RetrySendsFew(world.chat, 0, t.messages, true, t.sent);
    KeepsEndsTransitive(a.messages, t.messages, whole);
    forall i | 0 <= i < |a.sent|
      ensures |a.sent[i].messages| >= 2
      ensures Paired(a.sent[i].messages) <==> a.sent[i].messages[1].role != Tool
    {
      if i < |t.sent| {
        assert a.sent[i] == t.sent[i];
      } else {
        KeepsEndsTransitive(a.sent[i].messages, t.messages, whole);
        EndsPairedIff(a.sent[i].messages, whole);
      }
    }
  }

  lemma IterateTrails(world: World, t: Turn, whole: seq<Message>) returns (whole': seq<Message>)
    requires Trails(t.messages, whole) && PairedUnlessCut(t.sent)
    ensures Trails(Iterate(world, t).messages, whole') && PairedUnlessCut(Iterate(world, t).sent)
  {
    RequestsTrail(world, t, whole);
    var a := Retry(world.chat, 0, t.messages, true, t.sent);
    whole' := whole;
    if a.outcome.Reply? && a.outcome.response.calls != [] {
      var response := a.outcome.response;
      var n := |response.calls|;
      var results := Results(world, t.iteration + 1, n);
      var block := [AssistantMessage(response)] + AnswersTo(t.counts, response.calls, world.warn, results, n);
      BlockCloses(response.content, t.counts, response.calls, world.warn, results);
      ReadConcat(Owing([]), whole, block);
      KeepsEndsAppend(a.messages, whole, block);
      whole' := whole + block;
    }
  }

  lemma {:induction false} LoopTrails(world: World, t: Turn, whole: seq<Message>)
    requires Trails(t.messages, whole) && PairedUnlessCut(t.sent)
    ensures PairedUnlessCut(Loop(world, t).sent)
    decreases world.maxIterations - t.iteration
  {
    if !t.done && t.iteration < world.maxIterations {
      var whole' := IterateTrails(world, t, whole);
      LoopTrails(world, Iterate(world, t), whole');
    }
  }

  /** Whatever the model answers and however often the list is compressed: a request of a turn that began
      with a well-paired list pairs every tool result with its call exactly when the message behind the
      system prompt is no tool result. */
  lemma RequestPairedIff(world: World, first: seq<Message>, i: nat)
    requires |first| >= 2 && first[0].role == System && Paired(first)
    requires i < |Loop(world, Begin(first)).sent|
    ensures var messages := Loop(world, Begin(first)).sent[i].messages;
            |messages| >= 2 && (Paired(messages) <==> messages[1].role != Tool)
  {
    ReaderDecidesPairing(first);
    assert KeepsEnds(first, first);
    LoopTrails(world, Begin(first), first);
  }

  /** A first response with two calls leaves five messages, the last of them the second result. */
  lemma AfterTwoCalls(world: World, prompt: string, current: string, response: Response)
    requires |response.calls| == 2 && world.chat(0) == Reply(response)
    ensures var t := Iterate(world, Begin(Request(prompt, [], current)));
            && t.iteration == 1 && !t.done && |t.sent| == 1 && |t.messages| == 5
            && t.messages[0] == Plain(System, prompt)
            && t.messages[4].role == Tool && t.messages[4].callId == response.calls[1].id
  {
    var first := Request(prompt, [], current);
    assert first == [Plain(System, prompt), Plain(User, current)];
    var results := Results(world, 1, 2);
    var answers := AnswersTo(map[], response.calls, world.warn, results, 2);
    assert Retry(world.chat, 0, first, true, []) == Attempt(Reply(response), first, [] + [ChatRequest(first, true)]);
    AnswersMatchCalls(map[], response.calls, world.warn, results, 2);
    var t := Iterate(world, Begin(first));
    assert t.messages == first + ([AssistantMessage(response)] + answers);
    assert t.messages[4] == answers[1];
  }

  /** The other case occurs: a response with two calls, and then two context errors.  The third request
      that follows has the system prompt and the second result only. */
  lemma OrphanedResultIsSent(world: World, prompt: string, current: string, response: Response)
    requires world.maxIterations >= 2 && |response.calls| == 2
    requires world.chat(0) == Reply(response) && ContextFailure(world.chat(1)) && ContextFailure(world.chat(2))
    ensures var t := Loop(world, Begin(Request(prompt, [], current)));
            |t.sent| > 3 && |t.sent[3].messages| == 2
            && t.sent[3].messages[1].role == Tool && t.sent[3].messages[1].callId == response.calls[1].id
            && !Paired(t.sent[3].messages)
  {
    var first := Request(prompt, [], current);
    var t1 := Iterate(world, Begin(first));
    AfterTwoCalls(world, prompt, current, response);
    ThirdAfterTwoFailures(world.chat, t1.messages, t1.sent);
    var t2 := Iterate(world, t1);
    assert t2.sent == Retry(world.chat, 0, t1.messages, true, t1.sent).sent;
    SentGrows(world, t2);
    assert Loop(world, Begin(first)) == Loop(world, t1) == Loop(world, t2);
    assert Loop(world, t2).sent[3] == t2.sent[3];
    EmptyHistoryPaired(prompt, current);
    RequestPairedIff(world, first, 3);
  }

  lemma EmptyHistoryPaired(prompt: string, current: string)
    ensures Paired(Request(prompt, [], current))
  {
    RequestClosedIff(prompt, [], current);
    ReaderDecidesPairing(Request(prompt, [], current));
  }

  lemma ThirdAfterTwoFailures(chat: nat -> ChatOutcome, messages: seq<Message>, sent: seq<ChatRequest>)
    requires |messages| == 5 && ContextFailure(chat(|sent|)) && ContextFailure(chat(|sent| + 1))
    ensures var r := Retry(chat, 0, messages, true, sent);
            |r.sent| > |sent| + 2 && r.sent[|sent| + 2].messages == [messages[0], messages[4]]
  {
    var s1 := sent + [ChatRequest(messages, true)];
    var s2 := s1 + [ChatRequest(messages, false)];
    var kept := Compress(1, messages);
    assert kept == [messages[0], messages[4]];
    assert Retry(chat, 0, messages, true, sent) == Retry(chat, 1, messages, false, s1);
    assert Retry(chat, 1, messages, false, s1) == Retry(chat, 2, kept, false, s2);
    RetryStarts(chat, 2, kept, false, s2);
  }

  lemma RetryStarts(chat: nat -> ChatOutcome, retry: nat, messages: seq<Message>, withTools: bool,
                    sent: seq<ChatRequest>)
    requires retry <= MAX_RETRIES && |messages| >= 2
    ensures var r := Retry(chat, retry, messages, withTools, sent);
            |r.sent| > |sent| && r.sent[|sent|] == ChatRequest(messages, withTools)
  {
    var outcome := chat(|sent|);
    var sent' := sent + [ChatRequest(messages, withTools)];
    if outcome.Failed? && AfterError(outcome.error, retry, messages, withTools).Again? {
      var plan := AfterError(outcome.error, retry, messages, withTools);
      assert Retry(chat, retry, messages, withTools, sent)
          == Retry(chat, retry + 1, plan.messages, plan.withTools, sent');
      RetryLogGrows(chat, retry + 1, plan.messages, plan.withTools, sent');
      assert sent'[|sent|] == ChatRequest(messages, withTools);
    }
  }

  lemma {:induction false} SentGrows(world: World, t: Turn)
    ensures t.sent <= Loop(world, t).sent
    ensures |Loop(world, t).sent| - Loop(world, t).iteration >= |t.sent| - t.iteration
    decreases world.maxIterations - t.iteration
  {
    if !t.done && t.iteration < world.maxIterations {
      var a := Retry(world.chat, 0, t.messages, true, t.sent);
      RetryLogGrows(world.chat, 0, t.messages, true, t.sent);
      assert Iterate(world, t).sent == a.sent;
      SentGrows(world, Iterate(world, t));
    }
  }

  lemma {:induction false} RetryLogGrows(chat: nat -> ChatOutcome, retry: nat, messages: seq<Message>,
                                         withTools: bool, sent: seq<ChatRequest>)
    requires retry <= MAX_RETRIES
    ensures sent < Retry(chat, retry, messages, withTools, sent).sent
    decreases MAX_RETRIES - retry
  {
    var outcome := chat(|sent|);
    if outcome.Failed? && AfterError(outcome.error, retry, messages, withTools).Again? {
      var plan := AfterError(outcome.error, retry, messages, withTools);
      RetryLogGrows(chat, retry + 1, plan.messages, plan.withTools, sent + [ChatRequest(messages, withTools)]);
    }
  }

  // ---------------------------------------------------------------------------
  // Without context errors
  // ---------------------------------------------------------------------------

  lemma {:induction false} RetryResends(chat: nat -> ChatOutcome, retry: nat, messages: seq<Message>,
                                        withTools: bool, sent: seq<ChatRequest>)
    requires retry <= MAX_RETRIES
    requires var r := Retry(chat, retry, messages, withTools, sent);
             forall i :: |sent| <= i < |r.sent| ==> !ContextFailure(chat(i))
    ensures var r := Retry(chat, retry, messages, withTools, sent);
            && r.messages == messages
            && sent < r.sent
            && forall i :: |sent| <= i < |r.sent| ==> r.sent[i].messages == messages
    decreases MAX_RETRIES - retry
  {
    var r := Retry(chat, retry, messages, withTools, sent);
    LastRequestDecides(chat, retry, messages, withTools, sent);
    var outcome := chat(|sent|);
    var sent' := sent + [ChatRequest(messages, withTools)];
    assert !ContextFailure(outcome);
    if outcome.Failed? && AfterError(outcome.error, retry, messages, withTools).Again? {
      assert r == Retry(chat, retry + 1, messages, withTools, sent');
      RetryResends(chat, retry + 1, messages, withTools, sent');
      assert r.sent[|sent|] == sent'[|sent|];
    } else {
      assert r == Attempt(outcome, messages, sent');
    }
  }

  ghost predicate AllBegin(sent: seq<ChatRequest>, head: seq<Message>) {
    forall i :: 0 <= i < |sent| ==> head <= sent[i].messages
  }

  lemma {:induction false} LoopKeepsHead(world: World, t: Turn, head: seq<Message>)
    requires head <= t.messages && AllBegin(t.sent, head)
    requires forall i :: |t.sent| <= i < |Loop(world, t).sent| ==> !ContextFailure(world.chat(i))
    ensures AllBegin(Loop(world, t).sent, head)
    decreases world.maxIterations - t.iteration
  {
    if !t.done && t.iteration < world.maxIterations {
      var a := Retry(world.chat, 0, t.messages, true, t.sent);
      var next := Iterate(world, t);
      assert next.sent == a.sent;
      SentGrows(world, next);
      RetryResends(world.chat, 0, t.messages, true, t.sent);
      forall i | 0 <= i < |a.sent| ensures head <= a.sent[i].messages {
        if i < |t.sent| { assert a.sent[i] == t.sent[i]; }
      }
      LoopKeepsHead(world, next, head);
    }
  }

  /** In particular, unless a request of the turn fails with a context error, every request is well paired. */
  lemma EveryRequestIsPaired(world: World, first: seq<Message>)
    requires |first| >= 2 && first[0].role == System && Paired(first)
    requires var t := Loop(world, Begin(first));
             forall i :: 0 <= i < |t.sent| ==> !ContextFailure(world.chat(i))
    ensures var t := Loop(world, Begin(first));
            forall i :: 0 <= i < |t.sent| ==> Paired(t.sent[i].messages)
  {
    var t := Loop(world, Begin(first));
    LoopKeepsHead(world, Begin(first), first);
    assert first[1].role != Tool by {
      ReaderDecidesPairing(first);
      EndsPairedIff(first, first);
    }
    forall i | 0 <= i < |t.sent| ensures Paired(t.sent[i].messages) {
      RequestPairedIff(world, first, i);
      assert first <= t.sent[i].messages;
      assert t.sent[i].messages[1] == first[1];
    }
  }
}
