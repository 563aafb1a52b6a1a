/** Reassembling a streamed chat response, and the parser for whole responses that it must agree with. */
module Stream {
  import opened Strings
  import opened Wrappers

  datatype Usage = Usage(prompt: int, completion: int, total: int)

  datatype Function = Function(name: string, arguments: string)

  /** A piece of a tool call; the pieces of one call share its index. */
  datatype CallDelta = CallDelta(index: int, id: string, func: Option<Function>)

  datatype Choice = Choice(content: string, reasoning: string, calls: seq<CallDelta>, finish: Option<string>)

  datatype Chunk = Chunk(choices: seq<Choice>, usage: Option<Usage>)

  /** A line of the stream: without the data prefix, the end marker, not valid JSON, or a chunk. */
  datatype Line = Other | DoneMarker | Malformed | Data(chunk: Chunk)

  datatype Callback =
    | OnReasoning(text: string)
    | OnContent(text: string)
    | OnName(text: string)
    | OnArguments(text: string)
    | OnDone

  datatype Args = NoArgs | Parsed(value: string) | Raw(text: string)

  datatype ToolCall = ToolCall(id: string, name: string, args: Args)

  datatype Response = Response(content: string, reasoning: string, calls: seq<ToolCall>, finish: string,
                               usage: Option<Usage>)

  /** Decoding of an argument string; None when it is not a JSON object. */
  type Decoder = string -> Option<string>

  function ArgsOf(decode: Decoder, text: string): Args {
    if text == "" then NoArgs
    else match decode(text)
      case Some(value) => Parsed(value)
      case None => Raw(text)
  }

  datatype Partial = Partial(id: string, name: string, args: string)

  /** What the choices of the chunks add up to. */
  datatype Body = Body(content: string, reasoning: string, finish: string, calls: map<int, Partial>)

  datatype Acc = Acc(body: Body, usage: Option<Usage>, callbacks: seq<Callback>, done: bool)

  function At(calls: map<int, Partial>, index: int): Partial {
    if index in calls then calls[index] else Partial("", "", "")
  }

  function Later(new': string, old': string): string {
    if new' != "" then new' else old'
  }

  function NameOf(d: CallDelta): string {
    if d.func.Some? then d.func.value.name else ""
  }

  function ArgumentsOf(d: CallDelta): string {
    if d.func.Some? then d.func.value.arguments else ""
  }

  function AddDelta(calls: map<int, Partial>, d: CallDelta): map<int, Partial> {
    var p := At(calls, d.index);
    calls[d.index := Partial(Later(d.id, p.id), Later(NameOf(d), p.name), p.args + ArgumentsOf(d))]
  }

  function AddDeltas(calls: map<int, Partial>, ds: seq<CallDelta>): map<int, Partial> {
    if ds == [] then calls else AddDelta(AddDeltas(calls, ds[..|ds| - 1]), ds[|ds| - 1])
  }

  function DeltaCallback(d: CallDelta): seq<Callback> {
    (if NameOf(d) != "" then [OnName(NameOf(d))] else [])
    + (if ArgumentsOf(d) != "" then [OnArguments(ArgumentsOf(d))] else [])
  }

  function DeltaCallbacks(ds: seq<CallDelta>): seq<Callback> {
    if ds == [] then [] else DeltaCallbacks(ds[..|ds| - 1]) + DeltaCallback(ds[|ds| - 1])
  }

  function AddChoice(b: Body, c: Choice): Body {
    Body(b.content + c.content, b.reasoning + c.reasoning,
         if c.finish.Some? then c.finish.value else b.finish, AddDeltas(b.calls, c.calls))
  }

  function TextCallbacks(c: Choice): seq<Callback> {
    (if c.reasoning != "" then [OnReasoning(c.reasoning)] else [])
    + (if c.content != "" then [OnContent(c.content)] else [])
  }

  function ChoiceCallbacks(c: Choice): seq<Callback> {
    TextCallbacks(c) + DeltaCallbacks(c.calls)
  }

  function AddLine(acc: Acc, line: Line): Acc {
    match line
    case DoneMarker => acc.(callbacks := acc.callbacks + [OnDone], done := true)
    case Data(chunk) =>
      var usage := if chunk.usage.Some? then chunk.usage else acc.usage;
      if chunk.choices == [] then acc.(usage := usage)
      else
        acc.(usage := usage, body := AddChoice(acc.body, chunk.choices[0]),
             callbacks := acc.callbacks + ChoiceCallbacks(chunk.choices[0]))
    case _ => acc
  }

  function AddLines(acc: Acc, lines: seq<Line>): Acc
    decreases |lines|
  {
    if lines == [] || acc.done then acc else AddLines(AddLine(acc, lines[0]), lines[1..])
  }

  const Empty: Acc := Acc(Body("", "", "", map[]), None, [], false)

  function Built(decode: Decoder, p: Partial): ToolCall {
    ToolCall(p.id, p.name, ArgsOf(decode, p.args))
  }

  /** The partial calls with index below n, in index order. */
  function InOrder(calls: map<int, Partial>, n: nat): seq<Partial> {
    if n == 0 then [] else InOrder(calls, n - 1) + (if n - 1 in calls then [calls[n - 1]] else [])
  }

  function Assemble(decode: Decoder, ps: seq<Partial>): seq<ToolCall> {
    seq(|ps|, i requires 0 <= i < |ps| => Built(decode, ps[i]))
  }

  function Assembled(decode: Decoder, acc: Acc): Response {
    var b := acc.body;
    Response(b.content, b.reasoning, Assemble(decode, InOrder(b.calls, |b.calls|)), b.finish, acc.usage)
  }

  predicate Marked(lines: seq<Line>) {
    exists i :: 0 <= i < |lines| && lines[i].DoneMarker?
  }

  /** A read of the stream that fails, by the number of lines that were complete without it.  The lines behind
      them are those that the failing read delivered. */
  type Failure = Option<nat>

  predicate Inside(failure: Failure, lines: seq<Line>) {
    failure.Some? ==> failure.value <= |lines|
  }

  /** The failing read is made, because the lines complete without it do not hold the end marker. */
  predicate Fails(failure: Failure, lines: seq<Line>)
    requires Inside(failure, lines)
  {
    failure.Some? && !Marked(lines[..failure.value])
  }

  /** The response, or None when a read has failed, be it the very read that delivered the end marker. */
  function StreamResult(decode: Decoder, lines: seq<Line>, failure: Failure): Option<Response>
    requires Inside(failure, lines)
  {
    if Fails(failure, lines) then None else Some(Assembled(decode, AddLines(Empty, lines)))
  }

  method ReadDelta(calls: map<int, Partial>, d: CallDelta)
    returns (calls': map<int, Partial>, emitted: seq<Callback>)
    ensures calls' == AddDelta(calls, d) && emitted == DeltaCallback(d)
  {
    emitted := [];
    var existing := At(calls, d.index);
    assert existing.args + "" == existing.args;
    if d.id != "" {
      existing := existing.(id := d.id);
    }
    if d.func.Some? {
      if d.func.value.name != "" {
        existing := existing.(name := d.func.value.name);
        emitted := emitted + [OnName(d.func.value.name)];
      }
      if d.func.value.arguments != "" {
        existing := existing.(args := existing.args + d.func.value.arguments);
        emitted := emitted + [OnArguments(d.func.value.arguments)];
      }
    }
    calls' := calls[d.index := existing];
  }

  lemma DeltasSnoc(calls: map<int, Partial>, ds: seq<CallDelta>, i: nat)
    requires i < |ds|
    ensures AddDeltas(calls, ds[..i + 1]) == AddDelta(AddDeltas(calls, ds[..i]), ds[i])
    ensures DeltaCallbacks(ds[..i + 1]) == DeltaCallbacks(ds[..i]) + DeltaCallback(ds[i])
  {
    assert ds[..i + 1][..i] == ds[..i];
  }

  method ReadDeltas(calls: map<int, Partial>, ds: seq<CallDelta>)
    returns (calls': map<int, Partial>, emitted: seq<Callback>)
    ensures calls' == AddDeltas(calls, ds) && emitted == DeltaCallbacks(ds)
  {
    calls', emitted := calls, [];
    var i := 0;
    while i < |ds|
      invariant 0 <= i <= |ds|
      invariant calls' == AddDeltas(calls, ds[..i])
      invariant emitted == DeltaCallbacks(ds[..i])
    {
      DeltasSnoc(calls, ds, i);
      var more;
      calls', more := ReadDelta(calls', ds[i]);
      emitted := emitted + more;
      i := i + 1;
    }
    assert ds[..i] == ds;
  }

  method ReadChoice(b: Body, c: Choice) returns (b': Body, emitted: seq<Callback>)
    ensures b' == AddChoice(b, c) && emitted == ChoiceCallbacks(c)
  {
    var content, reasoning, finish := b.content, b.reasoning, b.finish;
    assert content + "" == content && reasoning + "" == reasoning;
    emitted := [];
    if c.reasoning != "" {
      reasoning := reasoning + c.reasoning;
      emitted := emitted + [OnReasoning(c.reasoning)];
    }
    if c.content != "" {
      content := content + c.content;
      emitted := emitted + [OnContent(c.content)];
    }
    var calls, more := ReadDeltas(b.calls, c.calls);
    emitted := emitted + more;
    if c.finish.Some? {
      finish := c.finish.value;
    }
    b' := Body(content, reasoning, finish, calls);
  }

  /** Where the scan stopped tells whether the marker lies before the failing read. */
  lemma MarkedBefore(lines: seq<Line>, stop: nat, done: bool, failure: Failure)
    requires Inside(failure, lines) && stop <= |lines| && (done || stop == |lines|) && (done ==> stop > 0)
    requires forall j :: 0 <= j < stop ==> (lines[j].DoneMarker? <==> done && j == stop - 1)
    ensures Fails(failure, lines) <==> failure.Some? && failure.value <= if done then stop - 1 else stop
  {
    if failure.Some? && done && failure.value >= stop {
      assert lines[..failure.value][stop - 1].DoneMarker?;
    }
  }

  method ReadLine(acc: Acc, line: Line) returns (acc': Acc)
    ensures acc' == AddLine(acc, line)
  {
    acc' := acc;
    match line {
      case DoneMarker =>
        acc' := acc'.(callbacks := acc'.callbacks + [OnDone], done := true);
      case Data(chunk) =>
        if chunk.usage.Some? {
          acc' := acc'.(usage := chunk.usage);
        }
        if chunk.choices != [] {
          var body, emitted := ReadChoice(acc'.body, chunk.choices[0]);
          acc' := acc'.(body := body, callbacks := acc'.callbacks + emitted);
        }
      case _ =>
    }
  }

  /** Reads line by line until the marker, the end, or the failing read; `failed` is what the reader reports. */
  method ReadLines(lines: seq<Line>, failure: Failure) returns (acc: Acc, failed: bool)
    requires Inside(failure, lines)
    ensures acc == AddLines(Empty, lines) && failed == Fails(failure, lines)
  {
    acc := Empty;
    var i := 0;
    failed := failure == Some(0); // the first read
    while i < |lines| && !acc.done
      invariant 0 <= i <= |lines|
      invariant AddLines(acc, lines[i..]) == AddLines(Empty, lines)
      invariant acc.done ==> i > 0
      invariant forall j :: 0 <= j < i ==> (lines[j].DoneMarker? <==> acc.done && j == i - 1)
      invariant failed <==> failure.Some? && failure.value <= if acc.done then i - 1 else i
    {
      acc := ReadLine(acc, lines[i]);
      i := i + 1;
      if !acc.done && failure == Some(i) {
        failed := true;
      }
    }
    MarkedBefore(lines, i, acc.done, failure);
  }

  method BuildCalls(decode: Decoder, partials: map<int, Partial>) returns (calls: seq<ToolCall>)
    ensures calls == Assemble(decode, InOrder(partials, |partials|))
  {
    calls := [];
    var k := 0;
    while k < |partials|
      invariant 0 <= k <= |partials|
      invariant calls == Assemble(decode, InOrder(partials, k))
    {
      if k in partials {
        calls := calls + [Built(decode, partials[k])];
      }
      k := k + 1;
    }
  }

  method ChatStream(decode: Decoder, lines: seq<Line>, failure: Failure)
    returns (result: Option<Response>, callbacks: seq<Callback>)
    requires Inside(failure, lines)
    ensures result == StreamResult(decode, lines, failure)
    ensures callbacks == AddLines(Empty, lines).callbacks
  {
    var acc, failed := ReadLines(lines, failure);
    callbacks := acc.callbacks;
    if failed {
      return None, callbacks;
    }
    var calls := BuildCalls(decode, acc.body.calls);
    result := Some(Response(acc.body.content, acc.body.reasoning, calls, acc.body.finish, acc.usage));
  }

  // ---------------------------------------------------------------------------
  // Whole responses
  // ---------------------------------------------------------------------------

  datatype WholeCall = WholeCall(id: string, kind: string, func: Option<Function>)

  datatype WholeChoice = WholeChoice(content: string, reasoning: string, calls: seq<WholeCall>, finish: string)

  datatype Document = NotJson | Document(choices: seq<WholeChoice>, usage: Option<Usage>)

  function WholeToolCall(decode: Decoder, c: WholeCall): ToolCall {
    if c.func.None? then ToolCall(c.id, "", NoArgs)
    else ToolCall(c.id, c.func.value.name, ArgsOf(decode, c.func.value.arguments))
  }

  function WholeToolCalls(decode: Decoder, calls: seq<WholeCall>): seq<ToolCall> {
    seq(|calls|, i requires 0 <= i < |calls| => WholeToolCall(decode, calls[i]))
  }

  function Parse(decode: Decoder, body: Document): Option<Response> {
    if body.NotJson? then None
    else if body.choices == [] then Some(Response("", "", [], "stop", None))
    else
      var c := body.choices[0];
      Some(Response(c.content, c.reasoning, WholeToolCalls(decode, c.calls), c.finish, body.usage))
  }

  method ParseResponse(decode: Decoder, body: Document) returns (result: Option<Response>)
    ensures result == Parse(decode, body)
  {
    if body.NotJson? {
      return None;
    }
    if body.choices == [] {
      return Some(Response("", "", [], "stop", None));
    }
    var choice := body.choices[0];
    var calls := [];
    var i := 0;
    while i < |choice.calls|
      invariant 0 <= i <= |choice.calls|
      invariant |calls| == i
      invariant forall j :: 0 <= j < i ==> calls[j] == WholeToolCall(decode, choice.calls[j])
    {
      var tc := choice.calls[i];
      var name, args := "", NoArgs;
      if tc.kind == "function" && tc.func.Some? {
        name := tc.func.value.name;
        args := ArgsOf(decode, tc.func.value.arguments);
      } else if tc.func.Some? {
        name := tc.func.value.name;
        args := ArgsOf(decode, tc.func.value.arguments);
      }
      calls := calls + [ToolCall(tc.id, name, args)];
      i := i + 1;
    }
    assert calls == WholeToolCalls(decode, choice.calls);
    result := Some(Response(choice.content, choice.reasoning, calls, choice.finish, body.usage));
  }

  // ---------------------------------------------------------------------------
  // What a stream stands for
  // ---------------------------------------------------------------------------

  /** The chunks before the end marker. */
  function Chunks(lines: seq<Line>): seq<Chunk> {
    if lines == [] || lines[0].DoneMarker? then []
    else (if lines[0].Data? then [lines[0].chunk] else []) + Chunks(lines[1..])
  }

  /** The first choice of each chunk that has one. */
  function Choices(lines: seq<Line>): seq<Choice> {
    if lines == [] || lines[0].DoneMarker? then []
    else
      (if lines[0].Data? && lines[0].chunk.choices != [] then [lines[0].chunk.choices[0]] else [])
      + Choices(lines[1..])
  }

  function Contents(cs: seq<Choice>): string {
    if cs == [] then "" else cs[0].content + Contents(cs[1..])
  }

  function Reasonings(cs: seq<Choice>): string {
    if cs == [] then "" else cs[0].reasoning + Reasonings(cs[1..])
  }

  function Deltas(cs: seq<Choice>): seq<CallDelta> {
    if cs == [] then [] else cs[0].calls + Deltas(cs[1..])
  }

  /** The finish reason named last. */
  function Finish(cs: seq<Choice>, default: string): string {
    if cs == [] then default
    else Finish(cs[1..], if cs[0].finish.Some? then cs[0].finish.value else default)
  }

  function LastUsage(cs: seq<Chunk>, default: Option<Usage>): Option<Usage> {
    if cs == [] then default else LastUsage(cs[1..], if cs[0].usage.Some? then cs[0].usage else default)
  }

  /** The argument text of one call: its pieces in order, whatever lies between them. */
  function ArgumentText(ds: seq<CallDelta>, index: int): string {
    if ds == [] then ""
    else
      ArgumentText(ds[..|ds| - 1], index)
      + (if ds[|ds| - 1].index == index then ArgumentsOf(ds[|ds| - 1]) else "")
  }

  /** The last non-empty id, and name, given for a call. */
  function LastId(ds: seq<CallDelta>, index: int): string {
    if ds == [] then ""
    else
      var d := ds[|ds| - 1];
      if d.index == index && d.id != "" then d.id else LastId(ds[..|ds| - 1], index)
  }

  function LastName(ds: seq<CallDelta>, index: int): string {
    if ds == [] then ""
    else
      var d := ds[|ds| - 1];
      if d.index == index && NameOf(d) != "" then NameOf(d) else LastName(ds[..|ds| - 1], index)
  }

  lemma {:induction false} AddDeltasConcat(calls: map<int, Partial>, a: seq<CallDelta>, b: seq<CallDelta>)
    ensures AddDeltas(calls, a + b) == AddDeltas(AddDeltas(calls, a), b)
    decreases |b|
  {
    if b == [] {
      assert a + b == a;
    } else {
      assert (a + b)[..|a + b| - 1] == a + b[..|b| - 1];
      AddDeltasConcat(calls, a, b[..|b| - 1]);
    }
  }

  lemma {:induction false} DeltasCollect(ds: seq<CallDelta>, index: int)
    ensures At(AddDeltas(map[], ds), index)
         == Partial(LastId(ds, index), LastName(ds, index), ArgumentText(ds, index))
    ensures index in AddDeltas(map[], ds) <==> exists i :: 0 <= i < |ds| && ds[i].index == index
  {
    if ds != [] {
      var past := ds[..|ds| - 1];
      DeltasCollect(past, index);
      assert index in AddDeltas(map[], past) ==> exists i :: 0 <= i < |past| && past[i].index == index;
      if i :| 0 <= i < |past| && past[i].index == index {
        assert ds[i].index == index;
      }
      if i :| 0 <= i < |ds| && ds[i].index == index {
        assert i < |past| ==> past[i].index == index;
      }
    }
  }

  /** What one more piece changes: the text grows under its index alone, and an id or a name replaces the one
      given before unless it is empty.  A piece without a function carries neither name nor text. */
  lemma PieceAdds(ds: seq<CallDelta>, d: CallDelta, index: int)
    ensures LastId(ds + [d], index) == if d.index == index && d.id != "" then d.id else LastId(ds, index)
    ensures d.index != index || d.func.None? ==>
              && LastName(ds + [d], index) == LastName(ds, index)
              && ArgumentText(ds + [d], index) == ArgumentText(ds, index)
    ensures d.index == index && d.func.Some? ==>
              && ArgumentText(ds + [d], index) == ArgumentText(ds, index) + d.func.value.arguments
              && LastName(ds + [d], index)
              == if d.func.value.name != "" then d.func.value.name else LastName(ds, index)
  {
    assert (ds + [d])[..|ds|] == ds;
    assert ArgumentText(ds, index) + "" == ArgumentText(ds, index);
  }

  /** The choices of a stream, one after the other. */
  function AddChoices(b: Body, cs: seq<Choice>): Body
    decreases |cs|
  {
    if cs == [] then b else AddChoices(AddChoice(b, cs[0]), cs[1..])
  }

  lemma {:induction false} LinesAreChoices(acc: Acc, lines: seq<Line>)
    requires !acc.done
    ensures AddLines(acc, lines).body == AddChoices(acc.body, Choices(lines))
    ensures AddLines(acc, lines).usage == LastUsage(Chunks(lines), acc.usage)
    decreases |lines|
  {
    if lines != [] {
      var next := AddLine(acc, lines[0]);
      if lines[0].DoneMarker? {
        assert AddLines(next, lines[1..]) == next;
      } else {
        LinesAreChoices(next, lines[1..]);
        if lines[0].Data? {
          var chunk := lines[0].chunk;
          assert Chunks(lines) == [chunk] + Chunks(lines[1..]);
          assert Choices(lines) == (if chunk.choices != [] then [chunk.choices[0]] else []) + Choices(lines[1..]);
          assert chunk.choices == [] ==> Choices(lines) == Choices(lines[1..]);
        } else {
          assert Chunks(lines) == Chunks(lines[1..]) && Choices(lines) == Choices(lines[1..]);
        }
      }
    }
  }

  lemma {:induction false} ChoicesCollect(b: Body, cs: seq<Choice>)
    ensures AddChoices(b, cs)
         == Body(b.content + Contents(cs), b.reasoning + Reasonings(cs), Finish(cs, b.finish),
                 AddDeltas(b.calls, Deltas(cs)))
    decreases |cs|
  {
    if cs == [] {
      assert b.content + "" == b.content && b.reasoning + "" == b.reasoning;
    } else {
      ChoicesCollect(AddChoice(b, cs[0]), cs[1..]);
      AddDeltasConcat(b.calls, cs[0].calls, Deltas(cs[1..]));
      Associative(b.content, cs[0].content, Contents(cs[1..]));
      Associative(b.reasoning, cs[0].reasoning, Reasonings(cs[1..]));
    }
  }

  /** A stream and a whole answer say the same: equal content, reasoning, finish reason and usage; and
      for each call of the answer its index carries its id, its name and its argument text. */
  ghost predicate Splits(lines: seq<Line>, whole: WholeChoice, usage: Option<Usage>) {
    var cs := Choices(lines);
    var ds := Deltas(cs);
    && Contents(cs) == whole.content && Reasonings(cs) == whole.reasoning
    && Finish(cs, "") == whole.finish && LastUsage(Chunks(lines), None) == usage
    && forall i :: 0 <= i < |whole.calls| ==> SplitsCall(ds, i, whole.calls[i])
  }

  predicate SplitsCall(ds: seq<CallDelta>, index: int, call: WholeCall) {
    && LastId(ds, index) == call.id
    && LastName(ds, index) == (if call.func.Some? then call.func.value.name else "")
    && ArgumentText(ds, index) == (if call.func.Some? then call.func.value.arguments else "")
  }

  predicate Seen(ds: seq<CallDelta>, index: int) {
    exists i :: 0 <= i < |ds| && ds[i].index == index
  }

  /** The tool indices seen are exactly 0..n-1. */
  ghost predicate Dense(ds: seq<CallDelta>, n: nat) {
    forall k :: Seen(ds, k) <==> 0 <= k < n
  }

  function UpTo(n: nat): set<int> {
    if n == 0 then {} else UpTo(n - 1) + {n - 1}
  }

  lemma {:induction false} UpToIs(n: nat)
    ensures |UpTo(n)| == n
    ensures forall k :: k in UpTo(n) <==> 0 <= k < n
  {
    if n > 0 { UpToIs(n - 1); }
  }

  predicate Describes(p: Partial, call: WholeCall) {
    && p.id == call.id
    && p.name == (if call.func.Some? then call.func.value.name else "")
    && p.args == (if call.func.Some? then call.func.value.arguments else "")
  }

  lemma SeenDescribes(ds: seq<CallDelta>, index: int, call: WholeCall)
    requires Seen(ds, index) && SplitsCall(ds, index, call)
    ensures index in AddDeltas(map[], ds) && Describes(AddDeltas(map[], ds)[index], call)
  {
    DeltasCollect(ds, index);
  }

  lemma {:induction false} InOrderDescribes(partials: map<int, Partial>, calls: seq<WholeCall>, n: nat)
    requires n <= |calls|
    requires forall i :: 0 <= i < n ==> i in partials && Describes(partials[i], calls[i])
    ensures var ps := InOrder(partials, n);
            |ps| == n && forall i :: 0 <= i < n ==> Describes(ps[i], calls[i])
  {
    if n > 0 { InOrderDescribes(partials, calls, n - 1); }
  }

  lemma AssembleDescribed(decode: Decoder, ps: seq<Partial>, calls: seq<WholeCall>)
    requires |ps| == |calls|
    requires forall i :: 0 <= i < |calls| ==> Describes(ps[i], calls[i])
    ensures Assemble(decode, ps) == WholeToolCalls(decode, calls)
  {
    forall i | 0 <= i < |calls| ensures Built(decode, ps[i]) == WholeToolCall(decode, calls[i]) {
      assert Describes(ps[i], calls[i]);
    }
  }

  lemma AssembleDense(decode: Decoder, ds: seq<CallDelta>, calls: seq<WholeCall>)
    requires Dense(ds, |calls|)
    requires forall i :: 0 <= i < |calls| ==> SplitsCall(ds, i, calls[i])
    ensures Assemble(decode, InOrder(AddDeltas(map[], ds), |calls|)) == WholeToolCalls(decode, calls)
  {
    var partials := AddDeltas(map[], ds);
    forall i | 0 <= i < |calls| ensures i in partials && Describes(partials[i], calls[i]) {
      assert Seen(ds, i);
      SeenDescribes(ds, i, calls[i]);
    }
    InOrderDescribes(partials, calls, |calls|);
    AssembleDescribed(decode, InOrder(partials, |calls|), calls);
  }

  lemma DenseCount(ds: seq<CallDelta>, n: nat)
    requires Dense(ds, n)
    ensures |AddDeltas(map[], ds)| == n
  {
    var calls := AddDeltas(map[], ds);
    forall k ensures k in calls <==> 0 <= k < n {
      DeltasCollect(ds, k);
      assert k in calls <==> Seen(ds, k);
    }
    UpToIs(n);
    assert calls.Keys == UpTo(n);
  }

  lemma EmptyCollects(cs: seq<Choice>)
    ensures AddChoices(Empty.body, cs)
         == Body(Contents(cs), Reasonings(cs), Finish(cs, ""), AddDeltas(map[], Deltas(cs)))
  {
    ChoicesCollect(Empty.body, cs);
    assert "" + Contents(cs) == Contents(cs) && "" + Reasonings(cs) == Reasonings(cs);
  }

  lemma StreamIs(decode: Decoder, lines: seq<Line>)
    ensures var cs := Choices(lines);
            var calls := AddDeltas(map[], Deltas(cs));
            StreamResult(decode, lines, None) == Some(
              Response(Contents(cs), Reasonings(cs), Assemble(decode, InOrder(calls, |calls|)), Finish(cs, ""),
                       LastUsage(Chunks(lines), None)))
  {
    var cs := Choices(lines);
    var body := AddChoices(Empty.body, cs);
    LinesAreChoices(Empty, lines);
    assert AddLines(Empty, lines).body == body;
    EmptyCollects(cs);
  }

  /** Reassembly refines parsing.  However content, reasoning and argument strings are split into chunks,
      however the pieces of different calls are interleaved, and whatever other or malformed lines lie
      between: if the indices seen are exactly 0..n-1, the stream yields the response that parsing the
      whole answer yields. */
  lemma StreamRefinesParse(decode: Decoder, lines: seq<Line>, whole: WholeChoice, more: seq<WholeChoice>,
                           usage: Option<Usage>)
    requires Splits(lines, whole, usage) && Dense(Deltas(Choices(lines)), |whole.calls|)
    ensures StreamResult(decode, lines, None) == Parse(decode, Document([whole] + more, usage))
  {
    var ds := Deltas(Choices(lines));
    StreamIs(decode, lines);
    DenseCount(ds, |whole.calls|);
    AssembleDense(decode, ds, whole.calls);
  }

  /** The arguments of a call by their text: none for an empty text, what the text decodes to, or the text itself
      if it does not decode. */
  predicate ArgumentsFit(decode: Decoder, text: string, args: Args) {
    && (text == "" ==> args == NoArgs)
    && (text != "" && decode(text).Some? ==> args == Parsed(decode(text).value))
    && (text != "" && decode(text).None? ==> args == Raw(text))
  }

  lemma BuiltFits(decode: Decoder, p: Partial)
    ensures var call := Built(decode, p);
            call.id == p.id && call.name == p.name && ArgumentsFit(decode, p.args, call.args)
  {
  }

  lemma {:induction false} InOrderDense(partials: map<int, Partial>, n: nat)
    requires forall k :: 0 <= k < n ==> k in partials
    ensures |InOrder(partials, n)| == n && forall k :: 0 <= k < n ==> InOrder(partials, n)[k] == partials[k]
  {
    if n > 0 { InOrderDense(partials, n - 1); }
  }

  lemma PartialAt(ds: seq<CallDelta>, n: nat, i: nat)
    requires Dense(ds, n) && i < n
    ensures var ps := InOrder(AddDeltas(map[], ds), n);
            |ps| == n && ps[i] == Partial(LastId(ds, i), LastName(ds, i), ArgumentText(ds, i))
  {
    var partials := AddDeltas(map[], ds);
    forall k | 0 <= k < n ensures k in partials {
      assert Seen(ds, k);
      DeltasCollect(ds, k);
    }
    InOrderDense(partials, n);
    DeltasCollect(ds, i);
  }

  /** The calls of a stream whose indices are exactly 0 to n - 1: call i has the last id and the last name given
      under index i, and the arguments that the joined text under index i stands for. */
  lemma StreamedCalls(decode: Decoder, lines: seq<Line>, n: nat, i: nat)
    requires Dense(Deltas(Choices(lines)), n) && i < n
    ensures var ds := Deltas(Choices(lines));
            var calls := StreamResult(decode, lines, None).value.calls;
            && |calls| == n && calls[i].id == LastId(ds, i) && calls[i].name == LastName(ds, i)
            && ArgumentsFit(decode, ArgumentText(ds, i), calls[i].args)
  {
    var ds := Deltas(Choices(lines));
    var partials := AddDeltas(map[], ds);
    StreamIs(decode, lines);
    DenseCount(ds, n);
    PartialAt(ds, n, i);
    BuiltFits(decode, InOrder(partials, n)[i]);
  }

  /** A whole answer: nothing if it is no JSON; an empty response that stops if it has no choice; otherwise the
      content, reasoning and finish reason of the first choice, the usage, and its calls, each with its own id,
      name and arguments. */
  lemma ParsedIs(decode: Decoder, body: Document)
    ensures body.NotJson? <==> Parse(decode, body).None?
    ensures body.Document? && body.choices == [] ==>
              Parse(decode, body) == Some(Response("", "", [], "stop", None))
    ensures body.Document? && body.choices != [] ==>
              var c, r := body.choices[0], Parse(decode, body).value;
              && r.content == c.content && r.reasoning == c.reasoning && r.finish == c.finish && r.usage == body.usage
              && |r.calls| == |c.calls|
              && forall i :: 0 <= i < |c.calls| ==> ParsedCall(decode, c.calls[i], r.calls[i])
  {
  }

  predicate ParsedCall(decode: Decoder, call: WholeCall, parsed: ToolCall) {
    && parsed.id == call.id
    && (call.func.None? ==> parsed.name == "" && parsed.args == NoArgs)
    && (call.func.Some? ==>
          parsed.name == call.func.value.name && ArgumentsFit(decode, call.func.value.arguments, parsed.args))
  }

  function CountBelow(keys: set<int>, n: nat): nat {
    if n == 0 then 0 else CountBelow(keys, n - 1) + (if n - 1 in keys then 1 else 0)
  }

  lemma OneMore(keys: set<int>, others: set<int>, x: int)
    requires x !in others
    ensures |keys * (others + {x})| == |keys * others| + if x in keys then 1 else 0
  {
    assert keys * (others + {x}) == keys * others + (if x in keys then {x} else {});
  }

  lemma {:induction false} CountBelowIs(keys: set<int>, n: nat)
    ensures CountBelow(keys, n) == |keys * UpTo(n)|
  {
    if n > 0 {
      CountBelowIs(keys, n - 1);
      UpToIs(n - 1);
      OneMore(keys, UpTo(n - 1), n - 1);
    }
  }

  /** As many calls come out as there are indices below n. */
  lemma {:induction false} InOrderLength(calls: map<int, Partial>, n: nat)
    ensures |InOrder(calls, n)| == CountBelow(calls.Keys, n)
  {
    if n > 0 { InOrderLength(calls, n - 1); }
  }

  /** A set of n integers that has n elements below n is 0..n-1. */
  lemma AllBelow(keys: set<int>, n: nat)
    requires |keys| == n
    ensures |keys * UpTo(n)| == n <==> keys == UpTo(n)
  {
    UpToIs(n);
    var below := keys * UpTo(n);
    if |below| == n {
      assert keys == below + (keys - below) && UpTo(n) == below + (UpTo(n) - below);
    }
    if keys == UpTo(n) {
      assert below == keys;
    }
  }

  /** The stream keeps all its calls exactly when the indices seen have no gap and start at 0; otherwise
      calls with high indices are lost. */
  lemma CallsKeptIff(decode: Decoder, lines: seq<Line>)
    ensures var calls := AddDeltas(map[], Deltas(Choices(lines)));
            |StreamResult(decode, lines, None).value.calls| == |calls| <==> Dense(Deltas(Choices(lines)), |calls|)
  {
    StreamIs(decode, lines);
    var ds := Deltas(Choices(lines));
    var calls := AddDeltas(map[], ds);
    InOrderLength(calls, |calls|);
    CountBelowIs(calls.Keys, |calls|);
    AllBelow(calls.Keys, |calls|);
    KeysAreSeen(ds, |calls|);
  }

  lemma KeysAreSeen(ds: seq<CallDelta>, n: nat)
    ensures AddDeltas(map[], ds).Keys == UpTo(n) <==> Dense(ds, n)
  {
    UpToIs(n);
    var keys := AddDeltas(map[], ds).Keys;
    forall k ensures k in keys <==> Seen(ds, k) {
      DeltasCollect(ds, k);
    }
    assert forall k :: k in UpTo(n) <==> 0 <= k < n;
    if Dense(ds, n) {
      forall k ensures k in keys <==> k in UpTo(n) {
        assert Seen(ds, k) <==> 0 <= k < n;
      }
      assert keys == UpTo(n);
    }
    if keys == UpTo(n) {
      forall k ensures Seen(ds, k) <==> 0 <= k < n {
        assert k in keys <==> k in UpTo(n);
      }
    }
  }

  /** A stream without any choice gives an empty finish reason where parsing gives "stop". */
  lemma EmptyStreamDiffers(decode: Decoder, lines: seq<Line>)
    requires Choices(lines) == []
    ensures StreamResult(decode, lines, None).value.finish == ""
    ensures Parse(decode, Document([], None)).value.finish == "stop"
    ensures StreamResult(decode, lines, None) != Parse(decode, Document([], None))
  {
    LinesAreChoices(Empty, lines);
    assert |"stop"| == 4;
  }

  lemma {:induction false} MarkedEnds(acc: Acc, lines: seq<Line>)
    requires !acc.done && Marked(lines)
    ensures var callbacks := AddLines(acc, lines).callbacks;
            AddLines(acc, lines).done && callbacks != [] && callbacks[|callbacks| - 1] == OnDone
    decreases |lines|
  {
    if !lines[0].DoneMarker? {
      var i :| 0 <= i < |lines| && lines[i].DoneMarker?;
      assert lines[1..][i - 1].DoneMarker?;
      MarkedEnds(AddLine(acc, lines[0]), lines[1..]);
    }
  }

  /** A read that brings the end marker and fails: the whole answer has arrived and all callbacks are made, the
      last of them for its end, and yet the result is an error.  Had the read before it brought the marker,
      the failing one would not have been made. */
  lemma MarkerInFailedRead(decode: Decoder, before: seq<Line>, arrived: seq<Line>)
    requires !Marked(before) && Marked(arrived)
    ensures var callbacks := AddLines(Empty, before + arrived).callbacks;
            callbacks != [] && callbacks[|callbacks| - 1] == OnDone
    ensures StreamResult(decode, before + arrived, Some(|before|)) == None
    ensures StreamResult(decode, before + arrived, Some(|before + arrived|)).Some?
  {
    var lines := before + arrived;
    assert lines[..|before|] == before && lines[..|lines|] == lines;
    var i :| 0 <= i < |arrived| && arrived[i].DoneMarker?;
    assert lines[|before| + i].DoneMarker?;
    MarkedEnds(Empty, lines);
  }

  // ---------------------------------------------------------------------------
  // Callbacks
  // ---------------------------------------------------------------------------

  datatype Kind = Reasoning | Content | Name | Arguments

  function TextOf(c: Callback, kind: Kind): seq<string> {
    match kind
    case Reasoning => if c.OnReasoning? then [c.text] else []
    case Content => if c.OnContent? then [c.text] else []
    case Name => if c.OnName? then [c.text] else []
    case Arguments => if c.OnArguments? then [c.text] else []
  }

  /** The texts of the callbacks of one kind. */
  function Texts(callbacks: seq<Callback>, kind: Kind): seq<string> {
    if callbacks == [] then []
    else Texts(callbacks[..|callbacks| - 1], kind) + TextOf(callbacks[|callbacks| - 1], kind)
  }

  function Given(text: string): seq<string> {
    if text == "" then [] else [text]
  }

  /** The texts of one kind that a piece, pieces, or choices bring, without the empty ones. */
  function PieceTexts(d: CallDelta, kind: Kind): seq<string> {
    if d.func.None? then []
    else match kind
      case Name => Given(d.func.value.name)
      case Arguments => Given(d.func.value.arguments)
      case _ => []
  }

  function PiecesTexts(ds: seq<CallDelta>, kind: Kind): seq<string> {
    if ds == [] then [] else PiecesTexts(ds[..|ds| - 1], kind) + PieceTexts(ds[|ds| - 1], kind)
  }

  function HeadTexts(c: Choice, kind: Kind): seq<string> {
    match kind
    case Reasoning => Given(c.reasoning)
    case Content => Given(c.content)
    case _ => []
  }

  function ChoiceTexts(c: Choice, kind: Kind): seq<string> {
    HeadTexts(c, kind) + PiecesTexts(c.calls, kind)
  }

  function ChoicesTexts(cs: seq<Choice>, kind: Kind): seq<string> {
    if cs == [] then [] else ChoiceTexts(cs[0], kind) + ChoicesTexts(cs[1..], kind)
  }

  lemma {:induction false} TextsConcat(a: seq<Callback>, b: seq<Callback>, kind: Kind)
    ensures Texts(a + b, kind) == Texts(a, kind) + Texts(b, kind)
    decreases |b|
  {
    if b == [] {
      assert a + b == a;
    } else {
      assert (a + b)[..|a + b| - 1] == a + b[..|b| - 1];
      TextsConcat(a, b[..|b| - 1], kind);
    }
  }

  lemma PieceTold(d: CallDelta, kind: Kind)
    ensures Texts(DeltaCallback(d), kind) == PieceTexts(d, kind)
  {
    var names := if NameOf(d) != "" then [OnName(NameOf(d))] else [];
    var arguments := if ArgumentsOf(d) != "" then [OnArguments(ArgumentsOf(d))] else [];
    TextsConcat(names, arguments, kind);
  }

  lemma {:induction false} PiecesTold(ds: seq<CallDelta>, kind: Kind)
    ensures Texts(DeltaCallbacks(ds), kind) == PiecesTexts(ds, kind)
  {
    if ds != [] {
      var past, d := ds[..|ds| - 1], ds[|ds| - 1];
      PiecesTold(past, kind);
      PieceTold(d, kind);
      TextsConcat(DeltaCallbacks(past), DeltaCallback(d), kind);
    }
  }

  lemma {:induction false} NoSuchPieces(ds: seq<CallDelta>, kind: Kind)
    requires kind.Reasoning? || kind.Content?
    ensures PiecesTexts(ds, kind) == []
  {
    if ds != [] { NoSuchPieces(ds[..|ds| - 1], kind); }
  }

  lemma TextTold(c: Choice, kind: Kind)
    ensures Texts(TextCallbacks(c), kind) == HeadTexts(c, kind)
  {
    TextsConcat(if c.reasoning != "" then [OnReasoning(c.reasoning)] else [],
                if c.content != "" then [OnContent(c.content)] else [], kind);
  }

  lemma ChoiceTold(c: Choice, kind: Kind)
    ensures Texts(ChoiceCallbacks(c), kind) == ChoiceTexts(c, kind)
  {
    TextsConcat(TextCallbacks(c), DeltaCallbacks(c.calls), kind);
    TextTold(c, kind);
    PiecesTold(c.calls, kind);
  }

  lemma LineTold(acc: Acc, line: Line, kind: Kind)
    ensures Texts(AddLine(acc, line).callbacks, kind)
         == Texts(acc.callbacks, kind)
          + if line.Data? && line.chunk.choices != [] then ChoiceTexts(line.chunk.choices[0], kind) else []
  {
    if line.DoneMarker? {
      TextsConcat(acc.callbacks, [OnDone], kind);
    } else if line.Data? && line.chunk.choices != [] {
      TextsConcat(acc.callbacks, ChoiceCallbacks(line.chunk.choices[0]), kind);
      ChoiceTold(line.chunk.choices[0], kind);
    }
  }

  lemma FirstChoice(lines: seq<Line>, kind: Kind)
    requires lines != [] && !lines[0].DoneMarker?
    ensures ChoicesTexts(Choices(lines), kind)
         == (if lines[0].Data? && lines[0].chunk.choices != []
             then ChoiceTexts(lines[0].chunk.choices[0], kind) else [])
          + ChoicesTexts(Choices(lines[1..]), kind)
  {
    if lines[0].Data? && lines[0].chunk.choices != [] {
      assert Choices(lines)[1..] == Choices(lines[1..]);
    } else {
      assert Choices(lines) == Choices(lines[1..]);
    }
  }

  lemma {:induction false} LinesTold(acc: Acc, lines: seq<Line>, kind: Kind)
    requires !acc.done
    ensures Texts(AddLines(acc, lines).callbacks, kind)
         == Texts(acc.callbacks, kind) + ChoicesTexts(Choices(lines), kind)
    decreases |lines|
  {
    if lines != [] {
      var next := AddLine(acc, lines[0]);
      LineTold(acc, lines[0], kind);
      if lines[0].DoneMarker? {
        assert AddLines(next, lines[1..]) == next;
      } else {
        LinesTold(next, lines[1..], kind);
        FirstChoice(lines, kind);
      }
    }
  }

  lemma FreshTold(acc: Acc, lines: seq<Line>, kind: Kind)
    requires !acc.done && acc.callbacks == []
    ensures Texts(AddLines(acc, lines).callbacks, kind) == ChoicesTexts(Choices(lines), kind)
  {
    LinesTold(acc, lines, kind);
  }

  /** The callbacks of each kind bring the texts of that kind which are not empty, each once and in order,
      whether the stream ends well or not. */
  lemma CallbacksTell(lines: seq<Line>, kind: Kind)
    ensures Texts(AddLines(Empty, lines).callbacks, kind) == ChoicesTexts(Choices(lines), kind)
  {
    FreshTold(Empty, lines, kind);
  }

  function Joined(texts: seq<string>): string {
    if texts == [] then "" else texts[0] + Joined(texts[1..])
  }

  lemma JoinedGiven(text: string, texts: seq<string>)
    ensures Joined(Given(text) + texts) == text + Joined(texts)
  {
    if text == "" {
      assert Given(text) + texts == texts && "" + Joined(texts) == Joined(texts);
    } else {
      assert (Given(text) + texts)[1..] == texts;
    }
  }

  lemma {:induction false} TextsJoin(cs: seq<Choice>)
    ensures Joined(ChoicesTexts(cs, Content)) == Contents(cs)
    ensures Joined(ChoicesTexts(cs, Reasoning)) == Reasonings(cs)
  {
    if cs != [] {
      TextsJoin(cs[1..]);
      NoSuchPieces(cs[0].calls, Content);
      NoSuchPieces(cs[0].calls, Reasoning);
      JoinedGiven(cs[0].content, ChoicesTexts(cs[1..], Content));
      JoinedGiven(cs[0].reasoning, ChoicesTexts(cs[1..], Reasoning));
    }
  }

  /** The content callbacks, concatenated, are the content of the response, and the reasoning callbacks its
      reasoning. */
  lemma CallbacksAreContent(decode: Decoder, lines: seq<Line>, failure: Failure)
    requires Inside(failure, lines) && StreamResult(decode, lines, failure).Some?
    ensures var callbacks, response := AddLines(Empty, lines).callbacks, StreamResult(decode, lines, failure).value;
            && Joined(Texts(callbacks, Content)) == response.content
            && Joined(Texts(callbacks, Reasoning)) == response.reasoning
  {
    CallbacksTell(lines, Content);
    CallbacksTell(lines, Reasoning);
    TextsJoin(Choices(lines));
    StreamIs(decode, lines);
  }
}
