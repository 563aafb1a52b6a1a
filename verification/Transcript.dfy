/** Chat transcripts and the rule that pairs tool results with the calls they answer.

    A provider rejects a request in which a tool result does not follow the assistant message that
    asked for it, or in which an assistant message's calls are not all answered.  The rule is given
    twice: as a reader that walks the messages (`ReadAll`), which the turn engine's proofs use, and
    as a statement about positions (`Paired`).  `ReaderDecidesPairing` shows that they agree. */
module Transcript {

  datatype Role = System | User | Assistant | Tool

  datatype CallRef = CallRef(id: string, name: string, args: string)

  datatype Message = Message(role: Role, content: string, calls: seq<CallRef>, callId: string)

  function Plain(role: Role, content: string): Message {
    Message(role, content, [], "")
  }

  function ToolAnswer(id: string, content: string): Message {
    Message(Tool, content, [], id)
  }

  function CallIds(calls: seq<CallRef>): seq<string> {
    seq(|calls|, i requires 0 <= i < |calls| => calls[i].id)
  }

  /** What a reader knows after some messages: the ids still owed to the newest assistant message,
      in order, or that the rule has been broken. */
  datatype Progress = Broken | Owing(ids: seq<string>)

  function Read(p: Progress, m: Message): Progress {
    if p.Broken? then Broken
    else if p.ids != [] then
      if m.role == Tool && m.callId == p.ids[0] then Owing(p.ids[1..]) else Broken
    else match m.role
      case Tool => Broken
      case Assistant => Owing(CallIds(m.calls))
      case _ => Owing([])
  }

  function ReadFrom(p: Progress, ms: seq<Message>): Progress
    decreases |ms|
  {
    if ms == [] then p else ReadFrom(Read(p, ms[0]), ms[1..])
  }

  function ReadAll(ms: seq<Message>): Progress {
    ReadFrom(Owing([]), ms)
  }

  predicate Closed(ms: seq<Message>) {
    ReadAll(ms) == Owing([])
  }

  lemma {:induction false} ReadConcat(p: Progress, a: seq<Message>, b: seq<Message>)
    ensures ReadFrom(p, a + b) == ReadFrom(ReadFrom(p, a), b)
    decreases |a|
  {
    if a == [] {
      assert a + b == b;
    } else {
      assert (a + b)[1..] == a[1..] + b;
      ReadConcat(Read(p, a[0]), a[1..], b);
    }
  }

  lemma {:induction false} BrokenStays(ms: seq<Message>)
    ensures ReadFrom(Broken, ms) == Broken
  {
    if ms != [] { BrokenStays(ms[1..]); }
  }

  /** An unbroken transcript has only unbroken prefixes. */
  lemma PrefixUnbroken(a: seq<Message>, b: seq<Message>)
    requires !ReadAll(a + b).Broken?
    ensures !ReadAll(a).Broken?
  {
    ReadConcat(Owing([]), a, b);
    BrokenStays(b);
  }

  // ---------------------------------------------------------------------------
  // The positional definition
  // ---------------------------------------------------------------------------

  /** Position p lies in the block of answers that belongs to the assistant message at a. */
  predicate InBlock(ms: seq<Message>, a: int, p: int) {
    0 <= a < p < |ms| && ms[a].role == Assistant && p - a - 1 < |ms[a].calls|
  }

  /** Position q holds the tool result that answers id. */
  predicate Answers(ms: seq<Message>, q: int, id: string) {
    0 <= q < |ms| && ms[q].role == Tool && ms[q].callId == id
  }

  ghost predicate EveryCallAnswered(ms: seq<Message>) {
    forall a, j :: 0 <= a < |ms| && ms[a].role == Assistant && 0 <= j < |ms[a].calls|
      ==> Answers(ms, a + 1 + j, ms[a].calls[j].id)
  }

  /** Every assistant message with calls c1..ck is followed by exactly the k results with their ids,
      in order, and no tool result stands anywhere else. */
  ghost predicate Paired(ms: seq<Message>) {
    && EveryCallAnswered(ms)
    && forall p :: 0 <= p < |ms| && ms[p].role == Tool ==> exists a :: InBlock(ms, a, p)
  }

  /** `Paired` for a list whose first |owed| messages answer calls made before it. */
  ghost predicate PairedAfter(owed: seq<string>, ms: seq<Message>) {
    && (forall j :: 0 <= j < |owed| ==> Answers(ms, j, owed[j]))
    && EveryCallAnswered(ms)
    && forall p :: |owed| <= p < |ms| && ms[p].role == Tool ==> exists a :: InBlock(ms, a, p)
  }

  lemma ShiftAnswers(ms: seq<Message>)
    requires ms != []
    ensures forall q, id :: q >= 0 ==> Answers(ms[1..], q, id) == Answers(ms, q + 1, id)
    ensures forall a, p :: a >= 0 ==> InBlock(ms[1..], a, p) == InBlock(ms, a + 1, p + 1)
  {
  }

  lemma {:induction false} PairedAfterOwed(owed: seq<string>, ms: seq<Message>)
    requires owed != [] && ms != []
    requires ms[0].role == Tool && ms[0].callId == owed[0]
    ensures PairedAfter(owed, ms) <==> PairedAfter(owed[1..], ms[1..])
  {
    var rest := ms[1..];
    ShiftAnswers(ms);
    if PairedAfter(owed, ms) {
      forall a, j | 0 <= a < |rest| && rest[a].role == Assistant && 0 <= j < |rest[a].calls|
        ensures Answers(rest, a + 1 + j, rest[a].calls[j].id)
      {
        assert Answers(ms, (a + 1) + 1 + j, ms[a + 1].calls[j].id);
      }
      forall j | 0 <= j < |owed[1..]| ensures Answers(rest, j, owed[1..][j]) {
        assert Answers(ms, j + 1, owed[j + 1]);
      }
      forall p | |owed[1..]| <= p < |rest| && rest[p].role == Tool
        ensures exists a :: InBlock(rest, a, p)
      {
        assert ms[p + 1].role == Tool;
        var a :| InBlock(ms, a, p + 1);
        assert InBlock(rest, a - 1, p);
      }
    }
    if PairedAfter(owed[1..], rest) {
      forall a, j | 0 <= a < |ms| && ms[a].role == Assistant && 0 <= j < |ms[a].calls|
        ensures Answers(ms, a + 1 + j, ms[a].calls[j].id)
      {
        assert rest[a - 1] == ms[a];
        assert Answers(rest, (a - 1) + 1 + j, rest[a - 1].calls[j].id);
      }
      forall j | 0 <= j < |owed| ensures Answers(ms, j, owed[j]) {
        if j > 0 { assert Answers(rest, j - 1, owed[1..][j - 1]); }
      }
      forall p | |owed| <= p < |ms| && ms[p].role == Tool
        ensures exists a :: InBlock(ms, a, p)
      {
        assert rest[p - 1].role == Tool;
        var a :| InBlock(rest, a, p - 1);
        assert InBlock(ms, a + 1, p);
      }
    }
  }

  lemma {:induction false} PairedAfterHead(ms: seq<Message>)
    requires ms != [] && ms[0].role != Tool
    ensures PairedAfter([], ms)
      <==> PairedAfter(if ms[0].role == Assistant then CallIds(ms[0].calls) else [], ms[1..])
  {
    var rest := ms[1..];
    var ids := if ms[0].role == Assistant then CallIds(ms[0].calls) else [];
    ShiftAnswers(ms);
    if PairedAfter([], ms) {
      forall a, j | 0 <= a < |rest| && rest[a].role == Assistant && 0 <= j < |rest[a].calls|
        ensures Answers(rest, a + 1 + j, rest[a].calls[j].id)
      {
        assert Answers(ms, (a + 1) + 1 + j, ms[a + 1].calls[j].id);
      }
      forall j | 0 <= j < |ids| ensures Answers(rest, j, ids[j]) {
        assert Answers(ms, 0 + 1 + j, ms[0].calls[j].id);
      }
      forall p | |ids| <= p < |rest| && rest[p].role == Tool
        ensures exists a :: InBlock(rest, a, p)
      {
        assert ms[p + 1].role == Tool;
        var a :| InBlock(ms, a, p + 1);
        assert a != 0;
        assert InBlock(rest, a - 1, p);
      }
    }
    if PairedAfter(ids, rest) {
      forall a, j | 0 <= a < |ms| && ms[a].role == Assistant && 0 <= j < |ms[a].calls|
        ensures Answers(ms, a + 1 + j, ms[a].calls[j].id)
      {
        if a == 0 {
          assert Answers(rest, j, ids[j]);
        } else {
          assert rest[a - 1] == ms[a];
          assert Answers(rest, (a - 1) + 1 + j, rest[a - 1].calls[j].id);
        }
      }
      forall p | 0 <= p < |ms| && ms[p].role == Tool
        ensures exists a :: InBlock(ms, a, p)
      {
        assert rest[p - 1].role == Tool;
        if p - 1 < |ids| {
          assert InBlock(ms, 0, p);
        } else {
          var a :| InBlock(rest, a, p - 1);
          assert InBlock(ms, a + 1, p);
        }
      }
    }
  }

  lemma {:induction false} ReaderDecides(owed: seq<string>, ms: seq<Message>)
    ensures ReadFrom(Owing(owed), ms) == Owing([]) <==> PairedAfter(owed, ms)
    decreases |ms|
  {
    if ms == [] {
      assert owed != [] ==> !Answers(ms, 0, owed[0]);
    } else if owed != [] {
      if ms[0].role == Tool && ms[0].callId == owed[0] {
        PairedAfterOwed(owed, ms);
        ReaderDecides(owed[1..], ms[1..]);
      } else {
        BrokenStays(ms[1..]);
        assert !Answers(ms, 0, owed[0]);
      }
    } else if ms[0].role == Tool {
      BrokenStays(ms[1..]);
      assert forall a :: !InBlock(ms, a, 0);
    } else {
      PairedAfterHead(ms);
      ReaderDecides(Read(Owing([]), ms[0]).ids, ms[1..]);
    }
  }

  /** The reader accepts exactly the lists that satisfy the positional rule. */
  lemma ReaderDecidesPairing(ms: seq<Message>)
    ensures Closed(ms) <==> Paired(ms)
  {
    ReaderDecides([], ms);
  }

  function AnswerAll(ids: seq<string>): seq<Message> {
    seq(|ids|, i requires 0 <= i < |ids| => ToolAnswer(ids[i], ""))
  }

  lemma {:induction false} AnsweringCloses(ids: seq<string>)
    ensures ReadFrom(Owing(ids), AnswerAll(ids)) == Owing([])
  {
    if ids != [] {
      AnsweringCloses(ids[1..]);
      assert AnswerAll(ids)[1..] == AnswerAll(ids[1..]);
    }
  }

  /** An unbroken transcript can be open in its newest block only: answering the ids it still owes,
      and nothing else, makes it obey the positional rule. */
  lemma OnlyNewestBlockOpen(ms: seq<Message>)
    requires !ReadAll(ms).Broken?
    ensures Paired(ms + AnswerAll(ReadAll(ms).ids))
  {
    ReadConcat(Owing([]), ms, AnswerAll(ReadAll(ms).ids));
    AnsweringCloses(ReadAll(ms).ids);
    ReaderDecidesPairing(ms + AnswerAll(ReadAll(ms).ids));
  }

  // ---------------------------------------------------------------------------
  // Repairing a truncated history
  // ---------------------------------------------------------------------------

  function DropLeadingTools(ms: seq<Message>): seq<Message> {
    if ms != [] && ms[0].role == Tool then DropLeadingTools(ms[1..]) else ms
  }

  predicate AllTools(ms: seq<Message>) {
    forall i :: 0 <= i < |ms| ==> ms[i].role == Tool
  }

  lemma {:induction false} DropReads(owed: seq<string>, ms: seq<Message>)
    requires !ReadFrom(Owing(owed), ms).Broken?
    ensures AllTools(ms) ==> DropLeadingTools(ms) == []
    ensures !AllTools(ms) ==> ReadAll(DropLeadingTools(ms)) == ReadFrom(Owing(owed), ms)
    decreases |ms|
  {
    if ms == [] {
    } else if ms[0].role == Tool {
      BrokenStays(ms[1..]);
      assert AllTools(ms[1..]) ==> AllTools(ms);
      DropReads(owed[1..], ms[1..]);
    } else {
      BrokenStays(ms[1..]);
      assert owed == [];
      assert !AllTools(ms);
    }
  }

  /** Dropping the leading tool results repairs a suffix of an unbroken transcript exactly when the
      transcript owes nothing, or nothing but tool results is left of it. */
  lemma RepairIff(t: seq<Message>, cut: nat)
    requires cut <= |t| && !ReadAll(t).Broken?
    ensures Paired(DropLeadingTools(t[cut..])) <==> ReadAll(t).ids == [] || AllTools(t[cut..])
  {
    assert t == t[..cut] + t[cut..];
    ReadConcat(Owing([]), t[..cut], t[cut..]);
    PrefixUnbroken(t[..cut], t[cut..]);
    DropReads(ReadAll(t[..cut]).ids, t[cut..]);
    ReaderDecidesPairing(DropLeadingTools(t[cut..]));
  }
}
