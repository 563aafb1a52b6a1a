/** What a whole turn answers, stores and publishes, told from the outcomes of the model. */
module TurnAnswers {
  import opened Wrappers
  import opened Transcript
  import opened SessionStore
  import opened ContextBuilder
  import opened ChatRetry
  import opened ToolCalls
  import opened TurnEngine
  import opened TurnGuarantees
  import opened RetryOutcomes
  import opened Strings

  /** Whether the turn is over, and with what, is decided by the outcome of its newest request. */
  ghost predicate Told(world: World, t: Turn) {
    if t.sent == [] then !t.done && t.final == "" && t.error.None?
    else match world.chat(|t.sent| - 1)
      case Failed(error) => t.done && t.error == Some(error)
      case Reply(response) =>
        && t.error.None? && (t.done <==> response.calls == [])
        && (response.calls != [] ==> t.final == "")
        && (response.calls == [] ==>
              && (response.content != "" ==> t.final == response.content)
              && (response.content == "" ==> t.final == response.reasoning))
  }

  lemma IterateTold(world: World, t: Turn)
    requires Told(world, t) && !t.done
    ensures Told(world, Iterate(world, t))
  {
    LastRequestDecides(world.chat, 0, t.messages, true, t.sent);
  }

  lemma {:induction false} LoopTold(world: World, t: Turn)
    requires Told(world, t)
    ensures Told(world, Loop(world, t))
    ensures Loop(world, t).done || Loop(world, t).iteration >= world.maxIterations
    decreases world.maxIterations - t.iteration
  {
    if !t.done && t.iteration < world.maxIterations {
      IterateTold(world, t);
      LoopTold(world, Iterate(world, t));
    }
  }

  /** The list that a turn begins with: the prompt, which ends with the session's summary if it has one; the
      session's history from its first message that is no tool result; and the user's message.  A turn that
      takes no history begins with a prompt without summary and the user's message. */
  lemma FirstRequestIs(store: Store, opts: Options) returns (k: nat)
    ensures k <= |Messages(store, opts.key)|
    ensures forall i :: 0 <= i < k ==> Messages(store, opts.key)[i].role == Tool
    ensures k < |Messages(store, opts.key)| ==> Messages(store, opts.key)[k].role != Tool
    ensures var first, summary := FirstRequest(store, opts), Summary(store, opts.key);
            && |first| >= 2 && first[0].role == System && opts.basePrompt <= first[0].content
            && first[|first| - 1] == Message(User, opts.userMessage, [], "")
            && first[1..|first| - 1] == (if opts.noHistory then [] else Messages(store, opts.key)[k..])
            && (!opts.noHistory && summary != "" ==>
                  |summary| <= |first[0].content|
                  && first[0].content[|first[0].content| - |summary|..] == summary)
            && (opts.noHistory && opts.channel == "" ==> first[0].content == opts.basePrompt)
  {
    var history, summary := Messages(store, opts.key), Summary(store, opts.key);
    var used := if opts.noHistory then "" else summary;
    PromptTells(opts.basePrompt, opts.channel, opts.chatId, used);
    k := RequestIs(SystemPrompt(opts.basePrompt, opts.channel, opts.chatId, used), history, opts.userMessage);
    if opts.noHistory {
      var none := RequestIs(SystemPrompt(opts.basePrompt, opts.channel, opts.chatId, used), [], opts.userMessage);
    }
  }

  /** The first request carries the whole list and the tools. */
  lemma FirstIsSent(world: World, first: seq<Message>)
    requires world.maxIterations > 0
    ensures var t := Loop(world, Begin(first));
            t.sent != [] && t.sent[0] == ChatRequest(first, true)
  {
    var t1 := Iterate(world, Begin(first));
    CallIs(world.chat, first, []);
    assert t1.sent == Retry(world.chat, 0, first, true, []).sent;
    SentGrows(world, t1);
  }

  /** The answer.  If the last request of a turn got a reply without calls, the answer is its content, or its
      reasoning if that is empty, or the default if both are.  If it failed, the answer is empty and the error
      is its error.  If it got calls, the iterations have run out and the answer is the default, as it is for a
      turn that is allowed no iteration and sends nothing. */
  lemma AnswerIs(world: World, opts: Options, first: seq<Message>)
    ensures var t := Loop(world, Begin(first));
            && (t.sent == [] <==> world.maxIterations <= 0)
            && (t.sent == [] ==> t.error.None? && AnswerOf(opts, t) == opts.defaultResponse)
            && (t.sent != [] ==> AnswerFrom(world.chat(|t.sent| - 1), opts.defaultResponse, t.error, AnswerOf(opts, t)))
            && (t.sent != [] && world.chat(|t.sent| - 1).Reply? && world.chat(|t.sent| - 1).response.calls != [] ==>
                  t.iteration >= world.maxIterations)
  {
    LoopTold(world, Begin(first));
    if world.maxIterations > 0 {
      FirstIsSent(world, first);
    }
  }

  /** What the outcome of the last request makes of the turn. */
  predicate AnswerFrom(last: ChatOutcome, default: string, error: Option<string>, answer: string) {
    match last
    case Failed(e) => error == Some(e) && answer == ""
    case Reply(response) =>
      && error.None?
      && (response.calls != [] ==> answer == default)
      && (response.calls == [] && response.content != "" ==> answer == response.content)
      && (response.calls == [] && response.content == "" && response.reasoning != "" ==> answer == response.reasoning)
      && (response.calls == [] && response.content == "" && response.reasoning == "" ==> answer == default)
  }

  /** The newest text of the session is the text that the turn returns, and what it publishes is that text,
      once if the turn is to respond and not otherwise. */
  lemma AnswerIsStored(world: World, opts: Options, t: Turn)
    requires t.error.None?
    ensures var appends, answer := TurnAppends(opts, t), AnswerOf(opts, t);
            && |appends| == |t.stored| + 2 && appends[1..|appends| - 1] == t.stored
            && appends[0] == Message(User, opts.userMessage, [], "")
            && appends[|appends| - 1] == Message(Assistant, answer, [], "")
    ensures var effects := EndEffects(world, opts, AnswerOf(opts, t), t.error);
            && (world.send <==> PublishOutbound(AnswerOf(opts, t)) in effects)
            && forall text :: PublishOutbound(text) in effects ==> text == AnswerOf(opts, t)
  {
  }

  /** So a session that a turn without error is played on ends with the returned text, behind all it had before. */
  lemma AnswerIsNewest(store: Store, opts: Options, t: Turn)
    requires t.error.None?
    ensures var history := Messages(Run(store, Adds(opts.key, TurnAppends(opts, t))), opts.key);
            && history == Messages(store, opts.key) + TurnAppends(opts, t)
            && history[|history| - 1] == Message(Assistant, AnswerOf(opts, t), [], "")
  {
    var appends := TurnAppends(opts, t);
    AddsAppend(opts.key, appends);
    Untruncated(store, Adds(opts.key, appends), opts.key);
  }

  /** A failed turn leaves the user's message and the blocks so far. */
  lemma FailureIsStored(world: World, opts: Options, t: Turn)
    requires t.error.Some?
    ensures TurnAppends(opts, t) == [Message(User, opts.userMessage, [], "")] + t.stored
    ensures AnswerOf(opts, t) == "" && EndEffects(world, opts, AnswerOf(opts, t), t.error) == []
  {
  }

  // ---------------------------------------------------------------------------
  // What is stored
  // ---------------------------------------------------------------------------

  lemma RetryGrows(world: World, t: Turn)
    ensures |t.sent| < |Iterate(world, t).sent|
  {
    RetryLogGrows(world.chat, 0, t.messages, true, t.sent);
    assert Iterate(world, t).sent == Retry(world.chat, 0, t.messages, true, t.sent).sent;
  }

  /** An iteration without context errors stores what it adds to the list. */
  lemma IterateStores(world: World, t: Turn, first: seq<Message>)
    requires t.messages == first + t.stored
    requires forall i :: |t.sent| <= i < |Iterate(world, t).sent| ==> !ContextFailure(world.chat(i))
    ensures Iterate(world, t).messages == first + Iterate(world, t).stored
  {
    var a := Retry(world.chat, 0, t.messages, true, t.sent);
    assert Iterate(world, t).sent == a.sent;
    RetryResends(world.chat, 0, t.messages, true, t.sent);
    if a.outcome.Reply? && a.outcome.response.calls != [] {
      var calls := a.outcome.response.calls;
      var results := Results(world, t.iteration + 1, |calls|);
      Associative(first, t.stored, [AssistantMessage(a.outcome.response)]
                                   + AnswersTo(t.counts, calls, world.warn, results, |calls|));
    }
  }

  lemma {:induction false} LoopStores(world: World, t: Turn, first: seq<Message>)
    requires t.messages == first + t.stored
    requires forall i :: |t.sent| <= i < |Loop(world, t).sent| ==> !ContextFailure(world.chat(i))
    ensures Loop(world, t).messages == first + Loop(world, t).stored
    decreases world.maxIterations - t.iteration
  {
    if !t.done && t.iteration < world.maxIterations {
      SentGrows(world, Iterate(world, t));
      RetryGrows(world, t);
      IterateStores(world, t, first);
      LoopStores(world, Iterate(world, t), first);
    }
  }

  /** The session records the conversation: unless a request fails with a context error, what the model is sent
      at the end of a turn is the first list followed by exactly what the turn has stored. */
  lemma ConversationIsStored(world: World, first: seq<Message>)
    requires var t := Loop(world, Begin(first));
             forall i :: 0 <= i < |t.sent| ==> !ContextFailure(world.chat(i))
    ensures var t := Loop(world, Begin(first));
            t.messages == first + t.stored
  {
    assert first + [] == first;
    LoopStores(world, Begin(first), first);
  }

  /** The assistant messages among some, in order. */
  function Spoken(ms: seq<Message>): seq<Message> {
    if ms == [] then []
    else Spoken(ms[..|ms| - 1]) + (if ms[|ms| - 1].role == Assistant then [ms[|ms| - 1]] else [])
  }

  /** The replies that ask for calls among the first n outcomes, as messages. */
  function Calling(chat: nat -> ChatOutcome, n: nat): seq<Message> {
    if n == 0 then []
    else
      Calling(chat, n - 1)
      + match chat(n - 1)
        case Reply(r) => if r.calls == [] then [] else [Message(Assistant, r.content, r.calls, "")]
        case Failed(_) => []
  }

  lemma {:induction false} SpokenConcat(a: seq<Message>, b: seq<Message>)
    ensures Spoken(a + b) == Spoken(a) + Spoken(b)
    decreases |b|
  {
    if b == [] {
      assert a + b == a;
    } else {
      assert (a + b)[..|a + b| - 1] == a + b[..|b| - 1];
      SpokenConcat(a, b[..|b| - 1]);
    }
  }

  lemma {:induction false} ToolsAreSilent(ms: seq<Message>)
    requires forall i :: 0 <= i < |ms| ==> ms[i].role == Tool
    ensures Spoken(ms) == []
  {
    if ms != [] { ToolsAreSilent(ms[..|ms| - 1]); }
  }

  lemma BlockSpeaks(world: World, t: Turn, a: Attempt, response: Response)
    ensures Spoken(AfterCalls(world, t, a, response).stored)
         == Spoken(t.stored) + [Message(Assistant, response.content, response.calls, "")]
  {
    var n := |response.calls|;
    var message := [AssistantMessage(response)];
    var answers := AnswersTo(t.counts, response.calls, world.warn, Results(world, t.iteration, n), n);
    SpokenConcat(t.stored, message + answers);
    SpokenConcat(message, answers);
    AnswersMatchCalls(t.counts, response.calls, world.warn, Results(world, t.iteration, n), n);
    ToolsAreSilent(answers);
    assert message[..0] == [];
  }

  /** Failed outcomes ask for nothing. */
  lemma {:induction false} CallingLast(chat: nat -> ChatOutcome, n: nat, last: nat)
    requires n <= last && forall i :: n <= i < last ==> chat(i).Failed?
    ensures Calling(chat, last) == Calling(chat, n)
    decreases last
  {
    if n < last { CallingLast(chat, n, last - 1); }
  }

  /** Of the requests of one call only the last can get a reply. */
  lemma CallAsks(chat: nat -> ChatOutcome, messages: seq<Message>, sent: seq<ChatRequest>, a: Attempt)
    requires a == Retry(chat, 0, messages, true, sent)
    ensures |a.sent| > 0 && a.outcome == chat(|a.sent| - 1) && Calling(chat, |a.sent| - 1) == Calling(chat, |sent|)
  {
    CallIs(chat, messages, sent);
    CallingLast(chat, |sent|, |a.sent| - 1);
  }

  lemma IterationOf(world: World, t: Turn) returns (a: Attempt)
    ensures a == Retry(world.chat, 0, t.messages, true, t.sent)
    ensures Iterate(world, t) == AfterChat(world, t.(iteration := t.iteration + 1), a)
  {
    a := Retry(world.chat, 0, t.messages, true, t.sent);
  }

  lemma AfterSpeaks(world: World, t: Turn, a: Attempt)
    requires |a.sent| > 0 && a.outcome == world.chat(|a.sent| - 1)
    requires Spoken(t.stored) == Calling(world.chat, |a.sent| - 1)
    ensures Spoken(AfterChat(world, t, a).stored) == Calling(world.chat, |AfterChat(world, t, a).sent|)
  {
    if a.outcome.Reply? && a.outcome.response.calls != [] {
      BlockSpeaks(world, t, a, a.outcome.response);
    }
  }

  lemma IterateSpeaks(world: World, t: Turn)
    requires Spoken(t.stored) == Calling(world.chat, |t.sent|)
    ensures Spoken(Iterate(world, t).stored) == Calling(world.chat, |Iterate(world, t).sent|)
  {
    var a := IterationOf(world, t);
    CallAsks(world.chat, t.messages, t.sent, a);
    AfterSpeaks(world, t.(iteration := t.iteration + 1), a);
  }

  lemma {:induction false} LoopSpeaks(world: World, t: Turn)
    requires Spoken(t.stored) == Calling(world.chat, |t.sent|)
    ensures Spoken(Loop(world, t).stored) == Calling(world.chat, |Loop(world, t).sent|)
    decreases world.maxIterations - t.iteration
  {
    if !t.done && t.iteration < world.maxIterations {
      IterateSpeaks(world, t);
      LoopSpeaks(world, Iterate(world, t));
    }
  }

  /** The assistant messages that the iterations of a turn store are, in order, the model's replies that ask for
      calls, each with its content and its calls; none is left out or stored twice. */
  lemma RepliesAreStored(world: World, first: seq<Message>)
    ensures var t := Loop(world, Begin(first));
            Spoken(t.stored) == Calling(world.chat, |t.sent|)
  {
    LoopSpeaks(world, Begin(first));
  }

  /** After a reply with calls: what an iteration stores is what it adds to the list, and if the turn goes on the
      whole list is sent next, with the tools. */
  lemma NextRequestIs(world: World, t: Turn)
    requires !t.done && t.iteration < world.maxIterations && !Iterate(world, t).done
    ensures var a, t' := Retry(world.chat, 0, t.messages, true, t.sent), Iterate(world, t);
            && t'.iteration == t.iteration + 1 && t.stored <= t'.stored
            && t'.messages == a.messages + t'.stored[|t.stored|..]
            && (t'.iteration < world.maxIterations ==>
                  |a.sent| < |Loop(world, t).sent| && Loop(world, t).sent[|a.sent|] == ChatRequest(t'.messages, true))
  {
    var t' := Iterate(world, t);
    if t'.iteration < world.maxIterations {
      CallIs(world.chat, t'.messages, t'.sent);
      assert Iterate(world, t').sent == Retry(world.chat, 0, t'.messages, true, t'.sent).sent;
      SentGrows(world, Iterate(world, t'));
    }
  }

  // ---------------------------------------------------------------------------
  // What is executed
  // ---------------------------------------------------------------------------

  /** How often messages ask for a call with this name and these arguments. */
  function Asked(ms: seq<Message>, key: Key): nat {
    if ms == [] then 0 else Asked(ms[..|ms| - 1], key) + Requested(ms[|ms| - 1].calls, key)
  }

  lemma {:induction false} AskedConcat(a: seq<Message>, b: seq<Message>, key: Key)
    ensures Asked(a + b, key) == Asked(a, key) + Asked(b, key)
    decreases |b|
  {
    if b == [] {
      assert a + b == a;
    } else {
      assert (a + b)[..|a + b| - 1] == a + b[..|b| - 1];
      AskedConcat(a, b[..|b| - 1], key);
    }
  }

  lemma {:induction false} AnswersAskNothing(counts: map<Key, nat>, calls: seq<CallRef>, warn: Warning,
                                             results: seq<ToolResult>, i: nat, key: Key)
    requires i <= |calls| == |results|
    ensures Asked(AnswersTo(counts, calls, warn, results, i), key) == 0
  {
    if i > 0 {
      AnswersAskNothing(counts, calls, warn, results, i - 1, key);
      var past := AnswersTo(counts, calls, warn, results, i - 1);
      var last := Answer(counts, calls, warn, i - 1, results[i - 1]);
      assert AnswersTo(counts, calls, warn, results, i)[..|past|] == past;
    }
  }

  lemma CallsCounted(world: World, t: Turn, a: Attempt, response: Response, key: Key)
    requires Count(t.counts, key) == Asked(t.stored, key)
    ensures var t' := AfterCalls(world, t, a, response);
            Count(t'.counts, key) == Asked(t'.stored, key)
  {
    var n := |response.calls|;
    var results := Results(world, t.iteration, n);
    var message, answers := [AssistantMessage(response)], AnswersTo(t.counts, response.calls, world.warn, results, n);
    CountsRequests(t.counts, response.calls, n, key);
    assert response.calls[..n] == response.calls;
    AskedConcat(t.stored, message + answers, key);
    AskedConcat(message, answers, key);
    AnswersAskNothing(t.counts, response.calls, world.warn, results, n, key);
    assert message[..0] == [];
  }

  lemma {:induction false} LoopCounts(world: World, t: Turn, key: Key)
    requires Count(t.counts, key) == Asked(t.stored, key)
    ensures Count(Loop(world, t).counts, key) == Asked(Loop(world, t).stored, key)
    decreases world.maxIterations - t.iteration
  {
    if !t.done && t.iteration < world.maxIterations {
      var a := Retry(world.chat, 0, t.messages, true, t.sent);
      if a.outcome.Reply? && a.outcome.response.calls != [] {
        CallsCounted(world, t.(iteration := t.iteration + 1), a, a.outcome.response, key);
      }
      LoopCounts(world, Iterate(world, t), key);
    }
  }

  /** In a turn a pair of name and arguments is executed exactly as often as the stored messages ask for it,
      but at most twice. */
  lemma ExecutedAsAsked(world: World, first: seq<Message>, key: Key)
    requires |first| >= 2
    ensures var t := Loop(world, Begin(first));
            Times(t.executed, key) == if Asked(t.stored, key) < 2 then Asked(t.stored, key) else 2
  {
    BeginSound(first);
    LoopSound(world, Begin(first), first[0]);
    LoopCounts(world, Begin(first), key);
    assert Guarded(Loop(world, Begin(first)).counts, Loop(world, Begin(first)).executed, key);
  }
}
