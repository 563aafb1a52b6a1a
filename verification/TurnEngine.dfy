/** The agent's turn: the loop of LLM requests and parallel tool calls, and the sequential loop that
    subagents use. */
module TurnEngine {
  import opened Wrappers
  import opened Transcript
  import opened SessionStore
  import opened ContextBuilder
  import opened ChatRetry
  import opened ToolCalls
  import opened Strings

  /** Everything a turn depends on but does not control.  `chat` gives the outcome of the n-th request
      of the turn, `tool` what executing the j-th call of the i-th iteration returns. */
  datatype World = World(chat: nat -> ChatOutcome, tool: (nat, nat) -> ToolResult, warn: Warning,
                         maxIterations: int, send: bool)

  function Results(world: World, iteration: nat, n: nat): seq<ToolResult> {
    seq(n, j requires 0 <= j < n => world.tool(iteration, j))
  }

  datatype Turn = Turn(
    iteration: nat,
    messages: seq<Message>,          // the list sent to the model
    sent: seq<ChatRequest>,          // every request so far
    stored: seq<Message>,            // what was appended to the session
    counts: map<Key, nat>,           // how often each call was requested
    executed: seq<Key>,              // the calls that were executed
    published: seq<string>,          // tool output shown to the user
    final: string,
    error: Option<string>,
    done: bool)

  function Begin(messages: seq<Message>): Turn {
    Turn(0, messages, [], [], map[], [], [], "", None, false)
  }

  function AssistantMessage(response: Response): Message {
    Message(Assistant, response.content, response.calls, "")
  }

  function FinalText(response: Response): string {
    if response.content == "" && response.reasoning != "" then response.reasoning else response.content
  }

  /** What a response with tool calls does to the turn. */
  function AfterCalls(world: World, t: Turn, a: Attempt, response: Response): Turn {
    var n := |response.calls|;
    var results := Results(world, t.iteration, n);
    var block := [AssistantMessage(response)] + AnswersTo(t.counts, response.calls, world.warn, results, n);
    t.(messages := a.messages + block,
       sent := a.sent,
       stored := t.stored + block,
       counts := CountsAfter(t.counts, response.calls, n),
       executed := t.executed + Launched(t.counts, response.calls, n),
       published := t.published + Published(t.counts, response.calls, results, world.send, n))
  }

  /** What the outcome of a request does to a turn whose iteration has just begun. */
  function AfterChat(world: World, t: Turn, a: Attempt): Turn {
    match a.outcome
    case Failed(error) => t.(sent := a.sent, messages := a.messages, error := Some(error), done := true)
    case Reply(response) =>
      if response.calls == [] then
        t.(sent := a.sent, messages := a.messages, final := FinalText(response), done := true)
      else AfterCalls(world, t, a, response)
  }

  function Iterate(world: World, t: Turn): Turn {
    AfterChat(world, t.(iteration := t.iteration + 1), Retry(world.chat, 0, t.messages, true, t.sent))
  }

  function Loop(world: World, t: Turn): Turn
    decreases world.maxIterations - t.iteration
  {
    if t.done || t.iteration >= world.maxIterations then t else Loop(world, Iterate(world, t))
  }

  /** The appends a turn makes to one session. */
  function Adds(key: string, ms: seq<Message>): seq<Event> {
    seq(|ms|, i requires 0 <= i < |ms| => Add(key, ms[i]))
  }

  lemma AddsSnoc(init: Store, key: string, ms: seq<Message>, m: Message)
    ensures Run(init, Adds(key, ms + [m])) == Apply(Run(init, Adds(key, ms)), Add(key, m))
  {
    var evs := Adds(key, ms + [m]);
    assert evs[..|ms|] == Adds(key, ms);
  }

  lemma {:induction false} AddsAppend(key: string, ms: seq<Message>)
    ensures Appended(key, Adds(key, ms)) == ms
  {
    if ms != [] {
      var n := |ms| - 1;
      var evs := Adds(key, ms);
      AddsAppend(key, ms[..n]);
      assert evs[..n] == Adds(key, ms[..n]);
      assert Appended(key, evs) == Appended(key, evs[..n]) + AppendedBy(key, evs[n]);
      assert ms == ms[..n] + [ms[n]];
    }
  }

  method StoreAll(sessions: SessionManager, key: string, ghost stored: seq<Message>, more: seq<Message>,
                  ghost init: Store)
    requires sessions.Valid() && sessions.View() == Run(init, Adds(key, stored))
    modifies sessions, sessions.sessions.Values
    ensures sessions.Valid() && sessions.View() == Run(init, Adds(key, stored + more))
    ensures fresh(sessions.sessions.Values - old(sessions.sessions.Values))
  {
    var i := 0;
    assert stored + more[..0] == stored;
    while i < |more|
      invariant 0 <= i <= |more|
      invariant sessions.Valid() && sessions.View() == Run(init, Adds(key, stored + more[..i]))
      invariant fresh(sessions.sessions.Values - old(sessions.sessions.Values))
    {
      AddsSnoc(init, key, stored + more[..i], more[i]);
      assert stored + more[..i + 1] == stored + more[..i] + [more[i]];
      sessions.AddFullMessage(key, more[i]);
      i := i + 1;
    }
    assert more[..i] == more;
  }

  /** Handles a response with tool calls: saves the assistant message, runs the calls, and saves their
      results in call order. */
  method HandleCalls(world: World, before: Turn, a: Attempt, response: Response,
                     sessions: SessionManager, key: string, ghost init: Store)
    returns (t: Turn)
    requires sessions.Valid() && sessions.View() == Run(init, Adds(key, before.stored))
    modifies sessions, sessions.sessions.Values
    ensures t == AfterCalls(world, before, a, response)
    ensures sessions.Valid() && sessions.View() == Run(init, Adds(key, t.stored))
    ensures fresh(sessions.sessions.Values - old(sessions.sessions.Values))
  {
    var message := AssistantMessage(response);
    StoreAll(sessions, key, before.stored, [message], init);
    var results := Results(world, before.iteration, |response.calls|);
    var answers, counts, executed, published :=
      ExecuteToolCalls(before.counts, response.calls, world.warn, results, world.send);
    StoreAll(sessions, key, before.stored + [message], answers, init);
    Associative(before.stored, [message], answers);
    var block := [message] + answers;
    t := before.(messages := a.messages + block, sent := a.sent, stored := before.stored + block, counts := counts,
                 executed := before.executed + executed, published := before.published + published);
  }

  /** The iteration loop.  Its appends to the session appear in the order in which `stored` lists them. */
  method RunLlmIteration(world: World, messages: seq<Message>, sessions: SessionManager, key: string)
    returns (t: Turn)
    requires messages != [] && sessions.Valid()
    modifies sessions, sessions.sessions.Values
    ensures t == Loop(world, Begin(messages))
    ensures sessions.Valid() && sessions.View() == Run(old(sessions.View()), Adds(key, t.stored))
    ensures fresh(sessions.sessions.Values - old(sessions.sessions.Values))
  {
    ghost var init := sessions.View();
    t := Begin(messages);
    while !t.done && t.iteration < world.maxIterations
      invariant t.messages != []
      invariant Loop(world, t) == Loop(world, Begin(messages))
      invariant sessions.Valid() && sessions.View() == Run(init, Adds(key, t.stored))
      invariant fresh(sessions.sessions.Values - old(sessions.sessions.Values))
      decreases world.maxIterations - t.iteration
    {
      ghost var before := t;
      RetryNonEmpty(world.chat, 0, t.messages, true, t.sent);
      var outcome, kept, log := ChatWithRetry(world.chat, t.messages, t.sent);
      t := t.(iteration := t.iteration + 1);
      match outcome {
        case Failed(error) =>
          t := t.(sent := log, messages := kept, error := Some(error), done := true);
        case Reply(response) =>
          if response.calls == [] {
            t := t.(sent := log, messages := kept, final := FinalText(response), done := true);
          } else {
            t := HandleCalls(world, t, Attempt(outcome, kept, log), response, sessions, key, init);
          }
      }
      assert t == Iterate(world, before);
    }
  }

  lemma {:induction false} RetryNonEmpty(chat: nat -> ChatOutcome, retry: nat, messages: seq<Message>,
                                         withTools: bool, sent: seq<ChatRequest>)
    requires messages != []
    ensures Retry(chat, retry, messages, withTools, sent).messages != []
    decreases MAX_RETRIES - retry
  {
    var outcome := chat(|sent|);
    if outcome.Failed? && AfterError(outcome.error, retry, messages, withTools).Again? {
      var plan := AfterError(outcome.error, retry, messages, withTools);
      assert plan.messages != [];
      RetryNonEmpty(chat, retry + 1, plan.messages, plan.withTools, sent + [ChatRequest(messages, withTools)]);
    }
  }

  datatype Options = Options(key: string, userMessage: string, defaultResponse: string, noHistory: bool,
                             enableSummary: bool, basePrompt: string, channel: string, chatId: string)

  /** What a turn sets off at its end. */
  datatype Effect = SaveSession(key: string) | MaybeSummarise(key: string) | PublishOutbound(text: string)

  /** The first request of a turn. */
  function FirstRequest(store: Store, opts: Options): seq<Message> {
    var history := if opts.noHistory then [] else Messages(store, opts.key);
    var summary := if opts.noHistory then "" else Summary(store, opts.key);
    Request(SystemPrompt(opts.basePrompt, opts.channel, opts.chatId, summary), history, opts.userMessage)
  }

  /** Everything a whole turn appends to its session. */
  function TurnAppends(opts: Options, t: Turn): seq<Message> {
    [Plain(User, opts.userMessage)] + t.stored
    + (if t.error.Some? then []
       else [Plain(Assistant, if t.final == "" then opts.defaultResponse else t.final)])
  }

  function AnswerOf(opts: Options, t: Turn): string {
    if t.error.Some? then "" else if t.final == "" then opts.defaultResponse else t.final
  }

  method PrepareRequest(opts: Options, sessions: SessionManager) returns (messages: seq<Message>)
    requires sessions.Valid()
    ensures messages == FirstRequest(sessions.View(), opts) && messages != []
  {
    var history, summary := [], "";
    if !opts.noHistory {
      history := sessions.GetHistory(opts.key);
      summary := sessions.GetSummary(opts.key);
    }
    messages := BuildMessages(opts.basePrompt, history, summary, opts.userMessage, opts.channel, opts.chatId);
  }

  /** The turn up to its last append. */
  method PlayTurn(world: World, opts: Options, sessions: SessionManager)
    returns (answer: string, error: Option<string>, ghost t: Turn)
    requires sessions.Valid()
    modifies sessions, sessions.sessions.Values
    ensures t == Loop(world, Begin(FirstRequest(old(sessions.View()), opts)))
    ensures error == t.error
    ensures answer == AnswerOf(opts, t)
    ensures sessions.Valid()
    ensures sessions.View() == Run(old(sessions.View()), Adds(opts.key, TurnAppends(opts, t)))
  {
    ghost var init := sessions.View();
    var messages := PrepareRequest(opts, sessions);
    var user := Plain(User, opts.userMessage);
    StoreAll(sessions, opts.key, [], [user], init);
    ghost var mid := sessions.View();
    var turn := RunLlmIteration(world, messages, sessions, opts.key);
    t := turn;
    error := turn.error;
    RunAdds(init, opts.key, [user], t.stored);
    assert [] + [user] == [user];
    if turn.error.Some? {
      assert TurnAppends(opts, t) == [user] + t.stored;
      return "", error, t;
    }
    answer := turn.final;
    if answer == "" {
      answer := opts.defaultResponse;
    }
    StoreAll(sessions, opts.key, [user] + t.stored, [Plain(Assistant, answer)], init);
  }

  /** A failed turn ends there.  Otherwise the session is saved, a summary is asked for if that is
      enabled, and the answer is published if the turn is to respond. */
  function EndEffects(world: World, opts: Options, answer: string, error: Option<string>): seq<Effect> {
    if error.Some? then []
    else
      [SaveSession(opts.key)]
      + (if opts.enableSummary then [MaybeSummarise(opts.key)] else [])
      + (if world.send then [PublishOutbound(answer)] else [])
  }

  method EndTurn(world: World, opts: Options, answer: string, error: Option<string>) returns (effects: seq<Effect>)
    ensures effects == EndEffects(world, opts, answer, error)
  {
    effects := [];
    if error.Some? {
      return;
    }
    effects := effects + [SaveSession(opts.key)];
    if opts.enableSummary {
      effects := effects + [MaybeSummarise(opts.key)];
    }
    if world.send {
      effects := effects + [PublishOutbound(answer)];
    }
  }

  method RunAgentLoop(world: World, opts: Options, sessions: SessionManager)
    returns (answer: string, error: Option<string>, effects: seq<Effect>, ghost t: Turn)
    requires sessions.Valid()
    modifies sessions, sessions.sessions.Values
    ensures t == Loop(world, Begin(FirstRequest(old(sessions.View()), opts)))
    ensures error == t.error && answer == AnswerOf(opts, t) && effects == EndEffects(world, opts, answer, error)
    ensures sessions.Valid()
    ensures sessions.View() == Run(old(sessions.View()), Adds(opts.key, TurnAppends(opts, t)))
  {
    answer, error, t := PlayTurn(world, opts, sessions);
    effects := EndTurn(world, opts, answer, error);
  }

  lemma {:induction false} RunAdds(init: Store, key: string, a: seq<Message>, b: seq<Message>)
    ensures Run(Run(init, Adds(key, a)), Adds(key, b)) == Run(init, Adds(key, a + b))
    decreases |b|
  {
    if b == [] {
      assert a + b == a;
    } else {
      var n := |b| - 1;
      RunAdds(init, key, a, b[..n]);
      AddsSnoc(Run(init, Adds(key, a)), key, b[..n], b[n]);
      AddsSnoc(init, key, a + b[..n], b[n]);
      assert b[..n] + [b[n]] == b;
      assert a + b[..n] + [b[n]] == a + b;
    }
  }
}
