/** Assembling the request for a turn from a stored, possibly truncated, history. */
module ContextBuilder {
  import opened Transcript
  import opened SessionStore
  import opened Strings

  const CHANNEL_HEAD := "\n\n## Current Session\nChannel: "
  const CHAT_HEAD := "\nChat ID: "
  const SUMMARY_HEAD := "\n\n## Summary of Previous Conversation\n\n"

  function SystemPrompt(base: string, channel: string, chatId: string, summary: string): string {
    base
    + (if channel != "" && chatId != "" then CHANNEL_HEAD + channel + CHAT_HEAD + chatId else "")
    + (if summary != "" then SUMMARY_HEAD + summary else "")
  }

  function Request(prompt: string, history: seq<Message>, current: string): seq<Message> {
    [Plain(System, prompt)] + DropLeadingTools(history) + [Plain(User, current)]
  }

  method BuildMessages(base: string, history: seq<Message>, summary: string, current: string,
                       channel: string, chatId: string)
    returns (messages: seq<Message>)
    ensures messages == Request(SystemPrompt(base, channel, chatId, summary), history, current)
  {
    messages := [];
    var prompt := SystemPrompt(base, channel, chatId, summary);
    var kept := history;
    while |kept| > 0 && kept[0].role == Tool
      invariant DropLeadingTools(kept) == DropLeadingTools(history)
      decreases |kept|
    {
      kept := kept[1..];
    }
    messages := messages + [Plain(System, prompt)];
    messages := messages + kept;
    messages := messages + [Plain(User, current)];
  }

  lemma {:induction false} DropCuts(ms: seq<Message>) returns (k: nat)
    ensures k <= |ms| && DropLeadingTools(ms) == ms[k..]
    ensures forall i :: 0 <= i < k ==> ms[i].role == Tool
    ensures k < |ms| ==> ms[k].role != Tool
  {
    if ms != [] && ms[0].role == Tool {
      k := DropCuts(ms[1..]);
      forall i | 0 <= i <= k ensures ms[i].role == Tool {
        assert i > 0 ==> ms[i] == ms[1..][i - 1];
      }
      assert ms[1..][k..] == ms[k + 1..];
      k := k + 1;
    } else {
      k := 0;
    }
  }

  /** A request is the system prompt, the history from its first message that is no tool result, and the
      current message. */
  lemma RequestIs(prompt: string, history: seq<Message>, current: string) returns (k: nat)
    ensures k <= |history| && (forall i :: 0 <= i < k ==> history[i].role == Tool)
    ensures k < |history| ==> history[k].role != Tool
    ensures Request(prompt, history, current)
         == [Message(System, prompt, [], "")] + history[k..] + [Message(User, current, [], "")]
  {
    k := DropCuts(history);
  }

  /** The prompt begins with the base; behind it, it names the channel and the chat when both are known; and
      it ends with the summary if there is one. */
  lemma PromptTells(base: string, channel: string, chatId: string, summary: string)
    ensures var prompt := SystemPrompt(base, channel, chatId, summary);
            && base <= prompt
            && (channel != "" && chatId != "" ==>
                  OccursAt(prompt, "\n\n## Current Session\nChannel: " + channel + "\nChat ID: " + chatId, |base|))
            && (summary != "" ==>
                  var part := "\n\n## Summary of Previous Conversation\n\n" + summary;
                  && |summary| <= |part| <= |prompt| && prompt[|prompt| - |part|..] == part
                  && prompt[|prompt| - |summary|..] == summary)
            && ((channel == "" || chatId == "") && summary == "" ==> prompt == base)
  {
    var place := if channel != "" && chatId != "" then CHANNEL_HEAD + channel + CHAT_HEAD + chatId else "";
    var rest := if summary != "" then SUMMARY_HEAD + summary else "";
    assert SystemPrompt(base, channel, chatId, summary) == base + place + rest;
    TextParts(base, place, rest);
  }

  lemma TextParts(a: string, b: string, c: string)
    ensures a <= a + b + c && OccursAt(a + b + c, b, |a|)
  {
  }

  lemma RequestClosedIff(prompt: string, kept: seq<Message>, current: string)
    ensures Closed([Plain(System, prompt)] + kept + [Plain(User, current)]) <==> Closed(kept)
  {
    var head, tail := [Plain(System, prompt)], [Plain(User, current)];
    ReadConcat(Owing([]), head + kept, tail);
    ReadConcat(Owing([]), head, kept);
    assert ReadFrom(Owing([]), head) == Owing([]);
    var p := ReadAll(kept);
    assert ReadFrom(p, tail) == Read(p, tail[0]);
  }

  /** Sending a suffix of an unbroken transcript: the request is paired exactly when the transcript
      owes nothing, or nothing but tool results is left of it. */
  lemma SuffixRequestIff(t: seq<Message>, s: seq<Message>, prompt: string, current: string)
    requires !ReadAll(t).Broken? && IsSuffix(s, t)
    ensures Paired(Request(prompt, s, current)) <==> ReadAll(t) == Owing([]) || AllTools(s)
  {
    RepairIff(t, |t| - |s|);
    ReaderDecidesPairing(DropLeadingTools(s));
    RequestClosedIff(prompt, DropLeadingTools(s), current);
    ReaderDecidesPairing(Request(prompt, s, current));
  }

  /** Between turns, the request built from the stored history never carries an orphaned tool result
      nor an unanswered call, wherever the summariser cut the history. */
  lemma RequestsBetweenTurnsArePaired(init: Store, evs: seq<Event>, key: string,
                                      before: seq<Message>, turns: seq<seq<Message>>,
                                      prompt: string, current: string)
    requires Closed(before) && IsSuffix(Messages(init, key), before)
    requires ClosedTurns(turns) && Appended(key, evs) == Flatten(turns)
    ensures Paired(Request(prompt, Messages(Run(init, evs), key), current))
  {
    HistoryIsSuffix(init, evs, key, before);
    ClosedTurnsClosed(before, turns);
    SuffixRequestIff(before + Appended(key, evs), Messages(Run(init, evs), key), prompt, current);
  }
}
