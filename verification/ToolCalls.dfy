/** Executing the tool calls of one response in parallel, with the repeat guard. */
module ToolCalls {
  import opened Wrappers
  import opened Transcript

  datatype ToolResult = ToolResult(forLlm: string, forUser: string, silent: bool, error: Option<string>)

  datatype Key = Key(name: string, args: string)

  function KeyOf(call: CallRef): Key {
    Key(call.name, call.args)
  }

  function Count(counts: map<Key, nat>, key: Key): nat {
    if key in counts then counts[key] else 0
  }

  /** The counts after the first i calls of a response. */
  function CountsAfter(counts: map<Key, nat>, calls: seq<CallRef>, i: nat): map<Key, nat>
    requires i <= |calls|
  {
    if i == 0 then counts
    else
      var before := CountsAfter(counts, calls, i - 1);
      before[KeyOf(calls[i - 1]) := Count(before, KeyOf(calls[i - 1])) + 1]
  }

  /** How often the i-th call's (name, arguments) pair has been requested in the turn, itself included. */
  function Occurrence(counts: map<Key, nat>, calls: seq<CallRef>, i: nat): nat
    requires i < |calls|
  {
    Count(CountsAfter(counts, calls, i + 1), KeyOf(calls[i]))
  }

  const REPEAT_LIMIT: nat := 2

  /** The guard stops a call whose pair was already requested twice. */
  predicate Stopped(counts: map<Key, nat>, calls: seq<CallRef>, i: nat)
    requires i < |calls|
  {
    Occurrence(counts, calls, i) > REPEAT_LIMIT
  }

  /** The pairs that are executed among the first i calls. */
  function Launched(counts: map<Key, nat>, calls: seq<CallRef>, i: nat): seq<Key>
    requires i <= |calls|
  {
    if i == 0 then []
    else
      Launched(counts, calls, i - 1)
      + (if Stopped(counts, calls, i - 1) then [] else [KeyOf(calls[i - 1])])
  }

  /** The text of the repeat guard: a rendering of the tool name and of how often it was called. */
  type Warning = (string, nat) -> string

  function ContentForLlm(result: ToolResult): string {
    if result.forLlm == "" && result.error.Some? then result.error.value else result.forLlm
  }

  predicate Shown(result: ToolResult, send: bool) {
    !result.silent && result.forUser != "" && send
  }

  /** The tool message for the i-th call, given what executing it returns. */
  function Answer(counts: map<Key, nat>, calls: seq<CallRef>, warn: Warning, i: nat, result: ToolResult)
    : Message
    requires i < |calls|
  {
    ToolAnswer(calls[i].id,
               if Stopped(counts, calls, i) then warn(calls[i].name, Occurrence(counts, calls, i) - 1)
               else ContentForLlm(result))
  }

  /** One tool message for each of the first i calls, in call order. */
  function AnswersTo(counts: map<Key, nat>, calls: seq<CallRef>, warn: Warning, results: seq<ToolResult>, i: nat)
    : seq<Message>
    requires i <= |calls| == |results|
  {
    if i == 0 then []
    else AnswersTo(counts, calls, warn, results, i - 1) + [Answer(counts, calls, warn, i - 1, results[i - 1])]
  }

  /** What is sent to the user while the results of the first i calls are processed. */
  function Published(counts: map<Key, nat>, calls: seq<CallRef>, results: seq<ToolResult>, send: bool, i: nat)
    : seq<string>
    requires i <= |calls| == |results|
  {
    if i == 0 then []
    else
      Published(counts, calls, results, send, i - 1)
      + (if !Stopped(counts, calls, i - 1) && Shown(results[i - 1], send) then [results[i - 1].forUser] else [])
  }

  datatype Slot = Slot(call: CallRef, loopHit: bool, loopMsg: string, result: Option<ToolResult>)

  function Planned(counts: map<Key, nat>, calls: seq<CallRef>, warn: Warning, i: nat): Slot
    requires i < |calls|
  {
    if Stopped(counts, calls, i)
    then Slot(calls[i], true, warn(calls[i].name, Occurrence(counts, calls, i) - 1), None)
    else Slot(calls[i], false, "", None)
  }

  function WithResult(slot: Slot, result: ToolResult): Slot {
    if slot.loopHit then slot else slot.(result := Some(result))
  }

  /** Counts the calls, fills their slots, and launches those that the guard lets through. */
  method LaunchCalls(counts: map<Key, nat>, calls: seq<CallRef>, warn: Warning, slots: array<Slot>)
    returns (counts': map<Key, nat>, executed: seq<Key>, running: set<nat>)
    requires slots.Length == |calls|
    modifies slots
    ensures counts' == CountsAfter(counts, calls, |calls|)
    ensures executed == Launched(counts, calls, |calls|)
    ensures forall j :: 0 <= j < |calls| ==> slots[j] == Planned(counts, calls, warn, j)
    ensures forall j: nat :: j in running <==> j < |calls| && !Planned(counts, calls, warn, j).loopHit
  {
    counts', executed, running := counts, [], {};
    var i := 0;
    while i < |calls|
      invariant 0 <= i <= |calls|
      invariant counts' == CountsAfter(counts, calls, i)
      invariant executed == Launched(counts, calls, i)
      invariant forall j: nat :: j in running <==> j < i && !Planned(counts, calls, warn, j).loopHit
      invariant forall j :: 0 <= j < i ==> slots[j] == Planned(counts, calls, warn, j)
    {
      var key := KeyOf(calls[i]);
      counts' := counts'[key := Count(counts', key) + 1];
      if counts'[key] > REPEAT_LIMIT {
        slots[i] := Slot(calls[i], true, warn(calls[i].name, counts'[key] - 1), None);
      } else {
        slots[i] := Slot(calls[i], false, "", None);
        running := running + {i};
        executed := executed + [key];
      }
      i := i + 1;
    }
  }

  /** The launched goroutines finish in any order: each iteration lets an arbitrary running one write
      its own slot. */
  method AwaitAll(results: seq<ToolResult>, slots: array<Slot>, launched: set<nat>)
    requires slots.Length == |results|
    requires forall j: nat :: j in launched <==> j < |results| && !slots[j].loopHit
    modifies slots
    ensures forall j :: 0 <= j < |results| ==> slots[j] == WithResult(old(slots[j]), results[j])
  {
    var running := launched;
    while running != {}
      invariant running <= launched
      invariant forall j :: 0 <= j < |results| ==>
        slots[j] == if j in running then old(slots[j]) else WithResult(old(slots[j]), results[j])
      decreases running
    {
      var done :| done in running;
      slots[done] := slots[done].(result := Some(results[done]));
      running := running - {done};
    }
  }

  /** Turns one slot into the tool message for the model and the text for the user, if any. */
  method ReadSlot(r: Slot, send: bool) returns (answer: Message, shown: seq<string>)
    requires r.loopHit || r.result.Some?
    ensures answer == ToolAnswer(r.call.id, if r.loopHit then r.loopMsg else ContentForLlm(r.result.value))
    ensures shown == if !r.loopHit && Shown(r.result.value, send) then [r.result.value.forUser] else []
  {
    shown := [];
    if r.loopHit {
      return ToolAnswer(r.call.id, r.loopMsg), shown;
    }
    var result := r.result.value;
    if !result.silent && result.forUser != "" && send {
      shown := [result.forUser];
    }
    var content := result.forLlm;
    if content == "" && result.error.Some? {
      content := result.error.value;
    }
    answer := ToolAnswer(r.call.id, content);
  }

  lemma AnswersStep(counts: map<Key, nat>, calls: seq<CallRef>, warn: Warning, results: seq<ToolResult>, i: nat)
    requires i < |calls| == |results|
    ensures AnswersTo(counts, calls, warn, results, i + 1)
         == AnswersTo(counts, calls, warn, results, i) + [Answer(counts, calls, warn, i, results[i])]
  {
  }

  lemma PublishedStep(counts: map<Key, nat>, calls: seq<CallRef>, results: seq<ToolResult>, send: bool, i: nat)
    requires i < |calls| == |results|
    ensures Published(counts, calls, results, send, i + 1)
         == Published(counts, calls, results, send, i)
            + if !Stopped(counts, calls, i) && Shown(results[i], send) then [results[i].forUser] else []
  {
  }

  method CollectResults(counts: map<Key, nat>, calls: seq<CallRef>, warn: Warning,
                        results: seq<ToolResult>, send: bool, slots: array<Slot>)
    returns (answers: seq<Message>, published: seq<string>)
    requires slots.Length == |calls| == |results|
    requires forall j :: 0 <= j < |calls| ==>
      slots[j] == WithResult(Planned(counts, calls, warn, j), results[j])
    ensures answers == AnswersTo(counts, calls, warn, results, |calls|)
    ensures published == Published(counts, calls, results, send, |calls|)
  {
    answers, published := [], [];
    var i := 0;
    while i < |calls|
      invariant 0 <= i <= |calls|
      invariant answers == AnswersTo(counts, calls, warn, results, i)
      invariant published == Published(counts, calls, results, send, i)
    {
      var r := slots[i];
      assert r == WithResult(Planned(counts, calls, warn, i), results[i]);
      var answer, shown := ReadSlot(r, send);
      AnswersStep(counts, calls, warn, results, i);
      PublishedStep(counts, calls, results, send, i);
      answers, published := answers + [answer], published + shown;
      i := i + 1;
    }
  }

  /** Runs the calls of one response.  Whatever the completion order, the results come out in call
      order, one tool message per call. */
  method ExecuteToolCalls(counts: map<Key, nat>, calls: seq<CallRef>, warn: Warning,
                          results: seq<ToolResult>, send: bool)
    returns (answers: seq<Message>, counts': map<Key, nat>, executed: seq<Key>, published: seq<string>)
    requires |results| == |calls|
    ensures answers == AnswersTo(counts, calls, warn, results, |calls|)
    ensures counts' == CountsAfter(counts, calls, |calls|)
    ensures executed == Launched(counts, calls, |calls|)
    ensures published == Published(counts, calls, results, send, |calls|)
  {
    var slots := new Slot[|calls|](_ => Slot(CallRef("", "", ""), false, "", None));
    var running;
    counts', executed, running := LaunchCalls(counts, calls, warn, slots);
    AwaitAll(results, slots, running);
    answers, published := CollectResults(counts, calls, warn, results, send, slots);
  }

  /** Each call gets exactly one answer, in call order, under its own id. */
  lemma {:induction false} AnswersMatchCalls(counts: map<Key, nat>, calls: seq<CallRef>, warn: Warning,
                                             results: seq<ToolResult>, i: nat)
    requires i <= |calls| == |results|
    ensures var answers := AnswersTo(counts, calls, warn, results, i);
            |answers| == i
            && forall j :: 0 <= j < i ==> answers[j].role == Tool && answers[j].callId == calls[j].id
  {
    if i > 0 { AnswersMatchCalls(counts, calls, warn, results, i - 1); }
  }

  lemma {:induction false} AnswersClose(calls: seq<CallRef>, answers: seq<Message>)
    requires |answers| == |calls|
    requires forall i :: 0 <= i < |calls| ==> answers[i].role == Tool && answers[i].callId == calls[i].id
    ensures ReadFrom(Owing(CallIds(calls)), answers) == Owing([])
    decreases |calls|
  {
    if calls != [] {
      AnswersClose(calls[1..], answers[1..]);
      assert CallIds(calls)[1..] == CallIds(calls[1..]);
    }
  }

  /** The block made of an assistant message and the answers to its calls is closed. */
  lemma BlockCloses(content: string, counts: map<Key, nat>, calls: seq<CallRef>, warn: Warning,
                    results: seq<ToolResult>)
    requires |results| == |calls|
    ensures Closed([Message(Assistant, content, calls, "")] + AnswersTo(counts, calls, warn, results, |calls|))
  {
    var head := [Message(Assistant, content, calls, "")];
    ReadConcat(Owing([]), head, AnswersTo(counts, calls, warn, results, |calls|));
    assert ReadFrom(Owing([]), head) == Read(Owing([]), head[0]);
    AnswersMatchCalls(counts, calls, warn, results, |calls|);
    AnswersClose(calls, AnswersTo(counts, calls, warn, results, |calls|));
  }

  /** How often a pair occurs among the executed ones. */
  function Times(executed: seq<Key>, key: Key): nat {
    if executed == [] then 0
    else Times(executed[..|executed| - 1], key) + (if executed[|executed| - 1] == key then 1 else 0)
  }

  lemma TimesSnoc(executed: seq<Key>, next: Key, key: Key)
    ensures Times(executed + [next], key) == Times(executed, key) + (if next == key then 1 else 0)
  {
    assert (executed + [next])[..|executed|] == executed;
  }

  /** A pair has been executed as often as it was requested, but at most twice. */
  predicate Guarded(counts: map<Key, nat>, executed: seq<Key>, key: Key) {
    Times(executed, key) == if Count(counts, key) > REPEAT_LIMIT then REPEAT_LIMIT else Count(counts, key)
  }

  lemma GuardedStep(counts: map<Key, nat>, executed: seq<Key>, next: Key, key: Key)
    requires Guarded(counts, executed, key)
    ensures var counts' := counts[next := Count(counts, next) + 1];
            Guarded(counts', if Count(counts', next) > REPEAT_LIMIT then executed else executed + [next], key)
  {
    TimesSnoc(executed, next, key);
  }

  lemma LaunchedStep(counts: map<Key, nat>, executed: seq<Key>, calls: seq<CallRef>, i: nat)
    requires 0 < i <= |calls|
    ensures executed + Launched(counts, calls, i)
         == if Stopped(counts, calls, i - 1) then executed + Launched(counts, calls, i - 1)
            else executed + Launched(counts, calls, i - 1) + [KeyOf(calls[i - 1])]
  {
  }

  /** The repeat guard, over any list of calls: what is launched never exceeds two per pair. */
  lemma {:induction false} LaunchingStaysGuarded(counts: map<Key, nat>, executed: seq<Key>,
                                                 calls: seq<CallRef>, i: nat, key: Key)
    requires i <= |calls| && Guarded(counts, executed, key)
    ensures Guarded(CountsAfter(counts, calls, i), executed + Launched(counts, calls, i), key)
  {
    if i == 0 {
      assert executed + Launched(counts, calls, 0) == executed;
    } else {
      LaunchingStaysGuarded(counts, executed, calls, i - 1, key);
      var sofar, next := Launched(counts, calls, i - 1), KeyOf(calls[i - 1]);
      GuardedStep(CountsAfter(counts, calls, i - 1), executed + sofar, next, key);
      LaunchedStep(counts, executed, calls, i);
    }
  }

  /** How often calls have this name and these arguments. */
  function Requested(calls: seq<CallRef>, key: Key): nat {
    if calls == [] then 0
    else
      var last := calls[|calls| - 1];
      Requested(calls[..|calls| - 1], key) + (if last.name == key.name && last.args == key.args then 1 else 0)
  }

  /** The counts are those of the requests, earlier ones of the turn included. */
  lemma {:induction false} CountsRequests(counts: map<Key, nat>, calls: seq<CallRef>, i: nat, key: Key)
    requires i <= |calls|
    ensures Count(CountsAfter(counts, calls, i), key) == Count(counts, key) + Requested(calls[..i], key)
  {
    if i > 0 {
      CountsRequests(counts, calls, i - 1, key);
      assert calls[..i][..i - 1] == calls[..i - 1];
    }
  }

  /** The call is executed exactly when it is asked for at most for the second time in the turn. */
  lemma StoppedIff(counts: map<Key, nat>, calls: seq<CallRef>, i: nat)
    requires i < |calls|
    ensures var key := Key(calls[i].name, calls[i].args);
            && Occurrence(counts, calls, i) == Count(counts, key) + Requested(calls[..i + 1], key)
            && (Stopped(counts, calls, i) <==> Count(counts, key) + Requested(calls[..i + 1], key) > 2)
  {
    CountsRequests(counts, calls, i + 1, KeyOf(calls[i]));
  }

  lemma {:induction false} AnswerAt(counts: map<Key, nat>, calls: seq<CallRef>, warn: Warning,
                                    results: seq<ToolResult>, n: nat, i: nat)
    requires i < n <= |calls| == |results|
    ensures |AnswersTo(counts, calls, warn, results, n)| == n
    ensures AnswersTo(counts, calls, warn, results, n)[i] == Answer(counts, calls, warn, i, results[i])
  {
    AnswersMatchCalls(counts, calls, warn, results, n - 1);
    if i < n - 1 { AnswerAt(counts, calls, warn, results, n - 1, i); }
  }

  /** What the model is told about the i-th call: for the third and later requests of the same call a warning
      with the number of earlier ones, otherwise the result's text for it, or the error where that is empty. */
  lemma AnswerTells(counts: map<Key, nat>, calls: seq<CallRef>, warn: Warning, results: seq<ToolResult>, i: nat)
    requires i < |calls| == |results|
    ensures var key := Key(calls[i].name, calls[i].args);
            var asked := Count(counts, key) + Requested(calls[..i + 1], key);
            var answers, r := AnswersTo(counts, calls, warn, results, |calls|), results[i];
            && |answers| == |calls| && asked > 0
            && answers[i].role == Tool && answers[i].callId == calls[i].id && answers[i].calls == []
            && (asked > 2 ==> answers[i].content == warn(calls[i].name, asked - 1))
            && (asked <= 2 && r.forLlm != "" ==> answers[i].content == r.forLlm)
            && (asked <= 2 && r.forLlm == "" && r.error.Some? ==> answers[i].content == r.error.value)
            && (asked <= 2 && r.forLlm == "" && r.error.None? ==> answers[i].content == "")
  {
    AnswerAt(counts, calls, warn, results, |calls|, i);
    StoppedIff(counts, calls, i);
    assert calls[..i + 1][..i] == calls[..i];
  }

  /** What the user is shown for the i-th call, behind what the calls before it show: the result's text for the
      user, if the call was executed, is not silent and has such a text, and the turn is to respond. */
  lemma ShownToUser(counts: map<Key, nat>, calls: seq<CallRef>, results: seq<ToolResult>, send: bool, i: nat)
    requires i < |calls| == |results|
    ensures var key, r := Key(calls[i].name, calls[i].args), results[i];
            var executed := Count(counts, key) + Requested(calls[..i + 1], key) <= 2;
            var before := Published(counts, calls, results, send, i);
            var after := Published(counts, calls, results, send, i + 1);
            && (executed && !r.silent && r.forUser != "" && send ==> after == before + [r.forUser])
            && (!executed || r.silent || r.forUser == "" || !send ==> after == before)
    ensures Published(counts, calls, results, send, 0) == []
  {
    StoppedIff(counts, calls, i);
    PublishedStep(counts, calls, results, send, i);
    var before := Published(counts, calls, results, send, i);
    assert before + [] == before;
  }

  /** Counts only grow. */
  lemma {:induction false} CountsGrow(counts: map<Key, nat>, calls: seq<CallRef>, i: nat, j: nat, key: Key)
    requires i <= j <= |calls|
    ensures Count(CountsAfter(counts, calls, i), key) <= Count(CountsAfter(counts, calls, j), key)
    decreases j
  {
    if i < j { CountsGrow(counts, calls, i, j - 1, key); }
  }
}
