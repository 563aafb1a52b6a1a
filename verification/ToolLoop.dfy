/** The sequential tool loop that subagents use, and its relation to the parallel turn engine. */
module ToolLoop {
  import opened Wrappers
  import opened Transcript
  import opened ChatRetry
  import opened ToolCalls
  import opened TurnEngine
  import opened TurnGuarantees

  datatype SubTurn = SubTurn(iteration: nat, messages: seq<Message>, final: string, error: Option<string>,
                             done: bool)

  /** One answer for each of the first i calls, executed one after the other. */
  function SequentialAnswers(calls: seq<CallRef>, results: seq<ToolResult>, i: nat): seq<Message>
    requires i <= |calls| == |results|
  {
    if i == 0 then []
    else SequentialAnswers(calls, results, i - 1) + [ToolAnswer(calls[i - 1].id, ContentForLlm(results[i - 1]))]
  }

  function SubIterate(world: World, s: SubTurn): SubTurn {
    var s' := s.(iteration := s.iteration + 1);
    match world.chat(s.iteration)
    case Failed(error) => s'.(error := Some(error), done := true)
    case Reply(response) =>
      if response.calls == [] then s'.(final := response.content, done := true)
      else
        var n := |response.calls|;
        s'.(messages := s.messages + [AssistantMessage(response)]
                        + SequentialAnswers(response.calls, Results(world, s'.iteration, n), n))
  }

  function SubLoop(world: World, s: SubTurn): SubTurn
    decreases world.maxIterations - s.iteration
  {
    if s.done || s.iteration >= world.maxIterations then s else SubLoop(world, SubIterate(world, s))
  }

  function SubBegin(messages: seq<Message>): SubTurn {
    SubTurn(0, messages, "", None, false)
  }

  method RunToolLoop(world: World, messages: seq<Message>) returns (s: SubTurn)
    ensures s == SubLoop(world, SubBegin(messages))
  {
    s := SubBegin(messages);
    while !s.done && s.iteration < world.maxIterations
      invariant SubLoop(world, s) == SubLoop(world, SubBegin(messages))
      decreases world.maxIterations - s.iteration
    {
      ghost var before := s;
      var outcome := world.chat(s.iteration);
      s := s.(iteration := s.iteration + 1);
      match outcome {
        case Failed(error) =>
          s := s.(error := Some(error), done := true);
        case Reply(response) =>
          if response.calls == [] {
            s := s.(final := response.content, done := true);
          } else {
            var answered := AnswerInTurn(world, s.iteration, s.messages + [AssistantMessage(response)], response.calls);
            s := s.(messages := answered);
          }
      }
      assert s == SubIterate(world, before);
    }
  }

  method AnswerInTurn(world: World, iteration: nat, messages: seq<Message>, calls: seq<CallRef>)
    returns (answered: seq<Message>)
    ensures |answered| == |messages| + |calls|
    ensures answered == messages + SequentialAnswers(calls, Results(world, iteration, |calls|), |calls|)
  {
    answered := messages;
    ghost var results := Results(world, iteration, |calls|);
    var i := 0;
    while i < |calls|
      invariant 0 <= i <= |calls|
      invariant |answered| == |messages| + i
      invariant answered == messages + SequentialAnswers(calls, results, i)
    {
      var result := world.tool(iteration, i);
      var content := result.forLlm;
      if content == "" && result.error.Some? {
        content := result.error.value;
      }
      answered := answered + [ToolAnswer(calls[i].id, content)];
      i := i + 1;
    }
  }

  /** No call was stopped by the repeat guard: nothing was requested more than twice. */
  ghost predicate Unstopped(counts: map<Key, nat>) {
    forall key :: Count(counts, key) <= REPEAT_LIMIT
  }

  lemma {:induction false} UnstoppedAnswers(counts: map<Key, nat>, calls: seq<CallRef>, warn: Warning,
                                            results: seq<ToolResult>, i: nat)
    requires i <= |calls| == |results|
    requires Unstopped(CountsAfter(counts, calls, |calls|))
    ensures AnswersTo(counts, calls, warn, results, i) == SequentialAnswers(calls, results, i)
  {
    if i > 0 {
      UnstoppedAnswers(counts, calls, warn, results, i - 1);
      CountsGrow(counts, calls, i, |calls|, KeyOf(calls[i - 1]));
      assert !Stopped(counts, calls, i - 1);
    }
  }

  /** The reasoning text of the last response, if that had no calls. */
  function LastReasoning(world: World, iteration: nat): string {
    if iteration == 0 then ""
    else match world.chat(iteration - 1)
      case Failed(_) => ""
      case Reply(response) => if response.calls == [] then response.reasoning else ""
  }

  /** The two loops are at the same point. */
  predicate InStep(world: World, t: Turn, s: SubTurn) {
    && t.iteration == s.iteration == |t.sent|
    && t.messages == s.messages
    && t.done == s.done && t.error == s.error
    && t.final == (if s.final == "" then LastReasoning(world, t.iteration) else s.final)
    && (t.done || t.final == "" == s.final)
  }

  lemma {:induction false} CountsOnlyGrow(world: World, t: Turn, key: Key)
    ensures Count(t.counts, key) <= Count(Loop(world, t).counts, key)
    decreases world.maxIterations - t.iteration
  {
    if !t.done && t.iteration < world.maxIterations {
      var a := Retry(world.chat, 0, t.messages, true, t.sent);
      if a.outcome.Reply? && a.outcome.response.calls != [] {
        var calls := a.outcome.response.calls;
        CountsGrow(t.counts, calls, 0, |calls|, key);
      }
      CountsOnlyGrow(world, Iterate(world, t), key);
    }
  }

  lemma SingleRequest(chat: nat -> ChatOutcome, messages: seq<Message>, sent: seq<ChatRequest>)
    requires |Retry(chat, 0, messages, true, sent).sent| == |sent| + 1
    ensures Retry(chat, 0, messages, true, sent).outcome == chat(|sent|)
    ensures Retry(chat, 0, messages, true, sent).messages == messages
  {
    var outcome := chat(|sent|);
    if outcome.Failed? && AfterError(outcome.error, 0, messages, true).Again? {
      var plan := AfterError(outcome.error, 0, messages, true);
      RetryLogGrows(chat, 1, plan.messages, plan.withTools, sent + [ChatRequest(messages, true)]);
    }
  }

  lemma IterateInStep(world: World, t: Turn, s: SubTurn)
    requires InStep(world, t, s) && !t.done
    requires |Iterate(world, t).sent| == |t.sent| + 1 && Unstopped(Iterate(world, t).counts)
    ensures InStep(world, Iterate(world, t), SubIterate(world, s))
  {
    var a := Retry(world.chat, 0, t.messages, true, t.sent);
    assert Iterate(world, t).sent == a.sent;
    SingleRequest(world.chat, t.messages, t.sent);
    if a.outcome.Reply? && a.outcome.response.calls != [] {
      var calls := a.outcome.response.calls;
      var results := Results(world, t.iteration + 1, |calls|);
      UnstoppedAnswers(t.counts, calls, world.warn, results, |calls|);
      var head, tail := [AssistantMessage(a.outcome.response)], SequentialAnswers(calls, results, |calls|);
      assert t.messages + (head + tail) == t.messages + head + tail;
    }
  }

  lemma {:induction false} LoopInStep(world: World, t: Turn, s: SubTurn)
    requires InStep(world, t, s)
    requires |Loop(world, t).sent| == Loop(world, t).iteration && Unstopped(Loop(world, t).counts)
    ensures InStep(world, Loop(world, t), SubLoop(world, s))
    decreases world.maxIterations - t.iteration
  {
    if !t.done && t.iteration < world.maxIterations {
      var next := Iterate(world, t);
      var a := Retry(world.chat, 0, t.messages, true, t.sent);
      RetryLogGrows(world.chat, 0, t.messages, true, t.sent);
      assert next.sent == a.sent && next.iteration == t.iteration + 1;
      SentGrows(world, next);
      forall key ensures Count(next.counts, key) <= REPEAT_LIMIT {
        CountsOnlyGrow(world, next, key);
      }
      IterateInStep(world, t, s);
      LoopInStep(world, next, SubIterate(world, s));
    }
  }

  /** The parallel engine refines the sequential loop.  For the same model outcomes and tool results,
      if no request had to be repeated and no call was requested more than twice, both end with the same
      message list, the same error and the same answer; where the sequential loop's answer is empty the engine's
      is the reasoning text of the last response, if that had no calls, and otherwise empty too. */
  lemma ParallelRefinesSequential(world: World, messages: seq<Message>)
    requires var t := Loop(world, Begin(messages));
             |t.sent| == t.iteration && Unstopped(t.counts)
    ensures var t, s := Loop(world, Begin(messages)), SubLoop(world, SubBegin(messages));
            && t.messages == s.messages
            && t.iteration == s.iteration
            && t.error == s.error
            && t.final == (if s.final == "" then LastReasoning(world, t.iteration) else s.final)
  {
    LoopInStep(world, Begin(messages), SubBegin(messages));
  }
}
