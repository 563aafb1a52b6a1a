/** Summarisers running beside turns: at most one per session, and an exact account of what their
    truncations drop. */
module SummaryRuns {
  import opened Transcript
  import opened SessionStore
  import opened Summariser

  /** Where a summarising goroutine stands.  `arrived` collects what turns appended to its session
      since it took its snapshot. */
  datatype Phase =
    | Started
    | Waiting(snapshot: seq<Message>, existing: string, arrived: seq<Message>)
    | Writing(snapshot: seq<Message>, arrived: seq<Message>)
    | Finished

  datatype Worker = Worker(key: string, phase: Phase)

  datatype State = State(store: Store, flags: set<string>, workers: map<nat, Worker>)

  datatype Label =
    | Append(key: string, msg: Message)              // a turn saves a message
    | TryStart(id: nat, key: string)                 // a turn's end wants a summary
    | TakeSnapshot(id: nat)
    | Answer(id: nat, window: nat, llm: Summarizer)  // the model is done; the summary, if any, is stored
    | Cut(id: nat)                                   // the history is truncated
    | Release(id: nat)                               // deferred clean-up, also after a panic

  function Arrive(w: Worker, key: string, msg: Message): Worker {
    if w.key != key then w
    else match w.phase
      case Waiting(snapshot, existing, arrived) => Worker(key, Waiting(snapshot, existing, arrived + [msg]))
      case Writing(snapshot, arrived) => Worker(key, Writing(snapshot, arrived + [msg]))
      case _ => w
  }

  function Next(s: State, l: Label): State {
    match l
    case Append(key, msg) =>
      s.(store := Apply(s.store, Add(key, msg)),
         workers := map id | id in s.workers :: Arrive(s.workers[id], key, msg))
    case TryStart(id, key) =>
      if id in s.workers || key in s.flags then s
      else s.(flags := s.flags + {key}, workers := s.workers[id := Worker(key, Started)])
    case TakeSnapshot(id) =>
      if id !in s.workers || !s.workers[id].phase.Started? then s
      else
        var key := s.workers[id].key;
        s.(workers := s.workers[id := Worker(key, Waiting(Messages(s.store, key), Summary(s.store, key), []))])
    case Answer(id, window, llm) =>
      if id !in s.workers || !s.workers[id].phase.Waiting? then s
      else
        var w := s.workers[id];
        var summary := Summarise(w.phase.snapshot, w.phase.existing, window, llm).summary;
        if summary == "" then s.(workers := s.workers[id := Worker(w.key, Finished)])
        else s.(store := Apply(s.store, SetSummary(w.key, summary)),
                workers := s.workers[id := Worker(w.key, Writing(w.phase.snapshot, w.phase.arrived))])
    case Cut(id) =>
      if id !in s.workers || !s.workers[id].phase.Writing? then s
      else
        var w := s.workers[id];
        s.(store := Apply(s.store, Truncate(w.key, KEEP_LAST)), workers := s.workers[id := Worker(w.key, Finished)])
    case Release(id) =>
      if id !in s.workers then s
      else s.(flags := s.flags - {s.workers[id].key}, workers := s.workers - {id})
  }

  function Execute(s: State, run: seq<Label>): State {
    if run == [] then s else Next(Execute(s, run[..|run| - 1]), run[|run| - 1])
  }

  predicate Tracks(store: Store, w: Worker) {
    match w.phase
    case Waiting(snapshot, _, arrived) => Messages(store, w.key) == snapshot + arrived
    case Writing(snapshot, arrived) => |snapshot| > KEEP_LAST && Messages(store, w.key) == snapshot + arrived
    case _ => true
  }

  /** Workers have pairwise distinct sessions, all of them marked. */
  ghost predicate Exclusive(s: State) {
    && (forall id :: id in s.workers ==> s.workers[id].key in s.flags)
    && (forall i, j :: i in s.workers && j in s.workers && i != j ==> s.workers[i].key != s.workers[j].key)
  }

  /** Every marked session has a worker. */
  ghost predicate Marked(s: State) {
    forall key :: key in s.flags ==> exists id :: id in s.workers && s.workers[id].key == key
  }

  ghost predicate Tracked(s: State) {
    forall id :: id in s.workers ==> Tracks(s.store, s.workers[id])
  }

  /** A worker keeps its session; a new one is started for a session that was not marked. */
  lemma WorkerOrigin(s: State, l: Label, id: nat)
    requires Exclusive(s) && id in Next(s, l).workers
    ensures var key := Next(s, l).workers[id].key;
            && key in Next(s, l).flags
            && if id in s.workers then key == s.workers[id].key else l == TryStart(id, key) && key !in s.flags
  {
  }

  lemma NextExclusive(s: State, l: Label)
    requires Exclusive(s)
    ensures Exclusive(Next(s, l))
  {
    var s' := Next(s, l);
    forall i | i in s'.workers ensures s'.workers[i].key in s'.flags {
      WorkerOrigin(s, l, i);
    }
    forall i, j | i in s'.workers && j in s'.workers && i != j ensures s'.workers[i].key != s'.workers[j].key {
      WorkerOrigin(s, l, i);
      WorkerOrigin(s, l, j);
    }
  }

  lemma NextMarked(s: State, l: Label)
    requires Exclusive(s) && Marked(s)
    ensures Marked(Next(s, l))
  {
    var s' := Next(s, l);
    forall key | key in s'.flags ensures exists id :: id in s'.workers && s'.workers[id].key == key {
      if key in s.flags {
        var id :| id in s.workers && s.workers[id].key == key;
        assert s'.workers[id].key == key;
      } else {
        assert s'.workers[l.id].key == key;
      }
    }
  }

  lemma AppendTracks(store: Store, w: Worker, key: string, msg: Message)
    requires Tracks(store, w)
    ensures Tracks(Apply(store, Add(key, msg)), Arrive(w, key, msg))
  {
    if w.key == key && (w.phase.Waiting? || w.phase.Writing?) {
      var snapshot, arrived := w.phase.snapshot, w.phase.arrived;
      assert snapshot + arrived + [msg] == snapshot + (arrived + [msg]);
    }
  }

  /** The worker that a label moves keeps track of its session. */
  lemma MoverTracks(s: State, l: Label, id: nat)
    requires !l.Append? && id in Next(s, l).workers
    requires id in s.workers ==> Tracks(s.store, s.workers[id])
    requires id !in s.workers || Next(s, l).workers[id] != s.workers[id]
    ensures Tracks(Next(s, l).store, Next(s, l).workers[id])
  {
    if id in s.workers {
      var w := s.workers[id];
      if w.phase.Started? {
        assert Messages(s.store, w.key) + [] == Messages(s.store, w.key);
      } else if l.Answer? {
        NoSummaryIff(w.phase.snapshot, w.phase.existing, l.window, l.llm);
      }
    }
  }

  /** The others keep track of theirs, because the only truncation is of the mover's own session. */
  lemma OthersTrack(s: State, l: Label, id: nat)
    requires Exclusive(s) && !l.Append?
    requires id in s.workers && Tracks(s.store, s.workers[id])
    requires id in Next(s, l).workers && Next(s, l).workers[id] == s.workers[id]
    ensures Tracks(Next(s, l).store, s.workers[id])
  {
  }

  lemma NextTracked(s: State, l: Label)
    requires Exclusive(s) && Tracked(s)
    ensures Tracked(Next(s, l))
  {
    var s' := Next(s, l);
    forall id | id in s'.workers ensures Tracks(s'.store, s'.workers[id]) {
      if l.Append? {
        AppendTracks(s.store, s.workers[id], l.key, l.msg);
      } else if id in s.workers && s'.workers[id] == s.workers[id] {
        OthersTrack(s, l, id);
      } else {
        MoverTracks(s, l, id);
      }
    }
  }

  function Initial(store: Store): State {
    State(store, {}, map[])
  }

  lemma {:induction false} Reachable(store: Store, run: seq<Label>)
    ensures var s := Execute(Initial(store), run);
            Exclusive(s) && Marked(s) && Tracked(s)
  {
    if run != [] {
      var past := Execute(Initial(store), run[..|run| - 1]);
      Reachable(store, run[..|run| - 1]);
      NextExclusive(past, run[|run| - 1]);
      NextMarked(past, run[|run| - 1]);
      NextTracked(past, run[|run| - 1]);
    }
  }

  /** In every run at most one summariser per session is active, and a session is marked as being
      summarised exactly while one is. */
  lemma OneSummariserPerSession(store: Store, run: seq<Label>, i: nat, j: nat)
    ensures var s := Execute(Initial(store), run);
            && (i in s.workers && j in s.workers && s.workers[i].key == s.workers[j].key ==> i == j)
            && (forall key :: key in s.flags <==> exists id :: id in s.workers && s.workers[id].key == key)
  {
    Reachable(store, run);
  }

  /** What keeping the last four of snapshot + arrived removes. */
  function Dropped(snapshot: seq<Message>, arrived: seq<Message>): seq<Message>
    requires |snapshot| > KEEP_LAST
  {
    var n := |snapshot| - KEEP_LAST;
    snapshot[..n] + (snapshot[n..] + arrived)[..|arrived|]
  }

  lemma DroppedPlusKept(snapshot: seq<Message>, arrived: seq<Message>)
    requires |snapshot| > KEEP_LAST
    ensures var kept := Truncated(snapshot + arrived, KEEP_LAST);
            && snapshot + arrived == Dropped(snapshot, arrived) + kept
            && |kept| == KEEP_LAST
            && (arrived == [] ==> kept == snapshot[|snapshot| - KEEP_LAST..])
            && (|arrived| >= KEEP_LAST ==> kept == arrived[|arrived| - KEEP_LAST..])
  {
    var n := |snapshot| - KEEP_LAST;
    assert snapshot == snapshot[..n] + snapshot[n..];
  }

  /** The account of one truncation.  Let the snapshot hold n messages and d more arrive before the
      cut: the cut removes the n - 4 messages that the summary was made from, and after them exactly d
      more that no summariser ever saw; none when d = 0. */
  lemma CutDropsArrivals(store: Store, run: seq<Label>, id: nat)
    requires id in Execute(Initial(store), run).workers
    requires Execute(Initial(store), run).workers[id].phase.Writing?
    ensures var s := Execute(Initial(store), run);
            var w := s.workers[id];
            var kept := Messages(Next(s, Cut(id)).store, w.key);
            && |w.phase.snapshot| > KEEP_LAST && |kept| == KEEP_LAST
            && Messages(s.store, w.key) == Dropped(w.phase.snapshot, w.phase.arrived) + kept
            && |Dropped(w.phase.snapshot, w.phase.arrived)| == |w.phase.snapshot| - KEEP_LAST + |w.phase.arrived|
            && (w.phase.arrived == [] ==> kept == w.phase.snapshot[|w.phase.snapshot| - KEEP_LAST..])
  {
    var s := Execute(Initial(store), run);
    Reachable(store, run);
    var w := s.workers[id];
    assert Tracks(s.store, w);
    DroppedPlusKept(w.phase.snapshot, w.phase.arrived);
  }

  /** Nothing is dropped except by a cut. */
  lemma OnlyCutsDrop(s: State, l: Label, key: string)
    requires !(l.Cut? && l.id in s.workers && s.workers[l.id].phase.Writing?)
    ensures Messages(s.store, key) <= Messages(Next(s, l).store, key)
  {
  }

  predicate IsWriting(s: State, id: nat, key: string, snapshot: seq<Message>) {
    && id in s.workers && s.workers[id].key == key
    && s.workers[id].phase.Writing? && s.workers[id].phase.snapshot == snapshot
  }

  predicate IsWaiting(s: State, id: nat, key: string, snapshot: seq<Message>) {
    && id in s.workers && s.workers[id].key == key
    && s.workers[id].phase.Waiting? && s.workers[id].phase.snapshot == snapshot
  }

  /** The state before the m-th label of a run. */
  function Before(store: Store, run: seq<Label>, m: nat): State
    requires m <= |run|
  {
    Execute(Initial(store), run[..m])
  }

  /** The m-th label answers a worker that waits with the snapshot, and the summary is not empty. */
  predicate Summarised(store: Store, run: seq<Label>, m: nat, id: nat, key: string, snapshot: seq<Message>)
    requires m < |run|
  {
    && run[m].Answer? && run[m].id == id && IsWaiting(Before(store, run, m), id, key, snapshot)
    && Summarise(snapshot, Before(store, run, m).workers[id].phase.existing, run[m].window, run[m].llm).summary != ""
  }

  /** The p-th label takes the worker's snapshot, which is the history at that moment. */
  predicate Snapped(store: Store, run: seq<Label>, p: nat, id: nat, key: string, snapshot: seq<Message>)
    requires p < |run|
  {
    && run[p] == TakeSnapshot(id) && id in Before(store, run, p).workers && Before(store, run, p).workers[id].key == key
    && Messages(Before(store, run, p).store, key) == snapshot
  }

  lemma WritingStep(s: State, l: Label, id: nat, key: string, snapshot: seq<Message>)
    requires IsWriting(Next(s, l), id, key, snapshot) && !IsWriting(s, id, key, snapshot)
    ensures l.Answer? && l.id == id && IsWaiting(s, id, key, snapshot)
    ensures Summarise(snapshot, s.workers[id].phase.existing, l.window, l.llm).summary != ""
  {
  }

  lemma WaitingStep(s: State, l: Label, id: nat, key: string, snapshot: seq<Message>)
    requires IsWaiting(Next(s, l), id, key, snapshot) && !IsWaiting(s, id, key, snapshot)
    ensures l == TakeSnapshot(id) && id in s.workers && s.workers[id].key == key && Messages(s.store, key) == snapshot
  {
  }

  lemma BeforePrefix(store: Store, run: seq<Label>, m: nat)
    requires m < |run|
    ensures Before(store, run[..|run| - 1], m) == Before(store, run, m)
    ensures m < |run| - 1 ==> run[..|run| - 1][m] == run[m]
  {
    assert run[..|run| - 1][..m] == run[..m];
  }

  lemma {:induction false} WritingIsSummarised(store: Store, run: seq<Label>, id: nat, key: string,
                                               snapshot: seq<Message>) returns (m: nat)
    requires IsWriting(Execute(Initial(store), run), id, key, snapshot)
    ensures m < |run| && Summarised(store, run, m, id, key, snapshot)
  {
    var past := run[..|run| - 1];
    if IsWriting(Execute(Initial(store), past), id, key, snapshot) {
      m := WritingIsSummarised(store, past, id, key, snapshot);
    } else {
      m := |run| - 1;
      WritingStep(Execute(Initial(store), past), run[m], id, key, snapshot);
    }
    BeforePrefix(store, run, m);
  }

  lemma {:induction false} WaitingIsSnapped(store: Store, run: seq<Label>, id: nat, key: string,
                                            snapshot: seq<Message>) returns (p: nat)
    requires IsWaiting(Execute(Initial(store), run), id, key, snapshot)
    ensures p < |run| && Snapped(store, run, p, id, key, snapshot)
  {
    var past := run[..|run| - 1];
    if IsWaiting(Execute(Initial(store), past), id, key, snapshot) {
      p := WaitingIsSnapped(store, past, id, key, snapshot);
    } else {
      p := |run| - 1;
      WaitingStep(Execute(Initial(store), past), run[p], id, key, snapshot);
    }
    BeforePrefix(store, run, p);
  }

  /** A step that takes messages away. */
  predicate Drops(s: State, l: Label, key: string) {
    !(Messages(s.store, key) <= Messages(Next(s, l).store, key))
  }

  /** No truncation without a summary: a label of a run that takes messages from a session is the cut of a
      summariser of that session, which earlier in the run took a snapshot of the history and then got a
      non-empty summary made from that very snapshot. */
  lemma CutNeedsSummary(store: Store, run: seq<Label>, k: nat, key: string) returns (p: nat, m: nat)
    requires k < |run| && Drops(Before(store, run, k), run[k], key)
    ensures p < m < k && run[k].Cut?
    ensures var id := run[k].id;
            var before := Before(store, run, k);
            && id in before.workers && before.workers[id].phase.Writing?
            && Summarised(store, run, m, id, key, before.workers[id].phase.snapshot)
            && Snapped(store, run, p, id, key, before.workers[id].phase.snapshot)
  {
    var before := Before(store, run, k);
    var id := CutterOf(before, run[k], key);
    var snapshot := before.workers[id].phase.snapshot;
    m := WritingIsSummarised(store, run[..k], id, key, snapshot);
    assert run[..k][..m] == run[..m];
    p := WaitingIsSnapped(store, run[..m], id, key, snapshot);
    assert run[..m][..p] == run[..p];
  }

  lemma CutterOf(s: State, l: Label, key: string) returns (id: nat)
    requires Drops(s, l, key)
    ensures l == Cut(id) && id in s.workers && s.workers[id].key == key && s.workers[id].phase.Writing?
  {
    if !(l.Cut? && l.id in s.workers && s.workers[l.id].phase.Writing?) {
      OnlyCutsDrop(s, l, key);
    }
    id := l.id;
  }

  /** The store change a label makes, if any. */
  function Effect(s: State, l: Label): seq<Event> {
    match l
    case Append(key, msg) => [Add(key, msg)]
    case Answer(id, window, llm) =>
      if id !in s.workers || !s.workers[id].phase.Waiting? then []
      else
        var w := s.workers[id];
        var summary := Summarise(w.phase.snapshot, w.phase.existing, window, llm).summary;
        if summary == "" then [] else [SetSummary(w.key, summary)]
    case Cut(id) =>
      if id !in s.workers || !s.workers[id].phase.Writing? then []
      else [Truncate(s.workers[id].key, KEEP_LAST)]
    case _ => []
  }

  function Effects(store: Store, run: seq<Label>): seq<Event> {
    if run == [] then []
    else
      var past := run[..|run| - 1];
      Effects(store, past) + Effect(Execute(Initial(store), past), run[|run| - 1])
  }

  /** What turns appended to one session in a run. */
  function SavedBy(key: string, run: seq<Label>): seq<Message> {
    if run == [] then []
    else
      var l := run[|run| - 1];
      SavedBy(key, run[..|run| - 1]) + (if l.Append? && l.key == key then [l.msg] else [])
  }

  lemma EffectIsChange(s: State, l: Label)
    ensures |Effect(s, l)| <= 1
    ensures Next(s, l).store == if Effect(s, l) == [] then s.store else Apply(s.store, Effect(s, l)[0])
  {
  }

  lemma EffectIsAppend(s: State, l: Label, key: string)
    ensures (if Effect(s, l) == [] then [] else AppendedBy(key, Effect(s, l)[0]))
         == if l.Append? && l.key == key then [l.msg] else []
  {
  }

  lemma RunExtends(init: Store, past: seq<Event>, e: seq<Event>, key: string)
    requires |e| <= 1
    ensures SessionStore.Run(init, past + e)
         == if e == [] then SessionStore.Run(init, past) else Apply(SessionStore.Run(init, past), e[0])
    ensures Appended(key, past + e) == Appended(key, past) + (if e == [] then [] else AppendedBy(key, e[0]))
  {
    if e == [] {
      assert past + e == past;
    } else {
      assert (past + e)[..|past|] == past;
    }
  }

  lemma {:induction false} StoreFollowsEffects(store: Store, run: seq<Label>)
    ensures Execute(Initial(store), run).store == SessionStore.Run(store, Effects(store, run))
  {
    if run != [] {
      var past, l := run[..|run| - 1], run[|run| - 1];
      var s := Execute(Initial(store), past);
      StoreFollowsEffects(store, past);
      EffectIsChange(s, l);
      RunExtends(store, Effects(store, past), Effect(s, l), "");
    }
  }

  lemma {:induction false} EffectsAppendSaved(store: Store, run: seq<Label>, key: string)
    ensures Appended(key, Effects(store, run)) == SavedBy(key, run)
  {
    if run != [] {
      var past, l := run[..|run| - 1], run[|run| - 1];
      var s := Execute(Initial(store), past);
      EffectsAppendSaved(store, past, key);
      EffectIsChange(s, l);
      EffectIsAppend(s, l, key);
      RunExtends(store, Effects(store, past), Effect(s, l), key);
    }
  }

  /** What is asked for starts exactly if the session is not being summarised. */
  lemma StartIs(s: State, id: nat, key: string)
    requires id !in s.workers
    ensures var s' := Next(s, TryStart(id, key));
            && s'.store == s.store && key in s'.flags
            && (key in s.flags ==> s' == s)
            && (key !in s.flags ==> s'.workers == s.workers[id := Worker(key, Started)])
  {
  }

  /** The snapshot is the history and the summary at that moment. */
  lemma SnapshotIs(s: State, id: nat)
    requires id in s.workers && s.workers[id].phase.Started?
    ensures var key, phase := s.workers[id].key, Next(s, TakeSnapshot(id)).workers[id].phase;
            && phase.Waiting? && phase.arrived == [] && Next(s, TakeSnapshot(id)).store == s.store
            && phase.snapshot == Messages(s.store, key) && phase.existing == Summary(s.store, key)
  {
  }

  /** A summary that is not empty becomes the summary of its session; no message goes with it, and nothing of
      another session changes.  An empty one changes nothing, and ends the summariser. */
  lemma AnswerIs(s: State, id: nat, window: nat, llm: Summarizer, other: string)
    requires id in s.workers && s.workers[id].phase.Waiting?
    ensures var w, s' := s.workers[id], Next(s, Answer(id, window, llm));
            var summary := Summarise(w.phase.snapshot, w.phase.existing, window, llm).summary;
            && Messages(s'.store, other) == Messages(s.store, other)
            && (other != w.key || summary == "" ==> Summary(s'.store, other) == Summary(s.store, other))
            && (w.key in s.store && summary != "" ==> Summary(s'.store, w.key) == summary)
            && (s'.workers[id].phase.Writing? <==> summary != "")
            && (s'.workers[id].phase.Finished? <==> summary == "")
  {
    var w := s.workers[id];
    var summary := Summarise(w.phase.snapshot, w.phase.existing, window, llm).summary;
    AppliedIs(s.store, SetSummary(w.key, summary), other);
    AppliedIs(s.store, SetSummary(w.key, summary), w.key);
  }

  /** The cut leaves the newest four messages of the session and its summary, and the other sessions alone. */
  lemma CutIs(s: State, id: nat, other: string)
    requires id in s.workers && s.workers[id].phase.Writing?
    ensures var w, s' := s.workers[id], Next(s, Cut(id));
            && KeepsLast(Messages(s'.store, w.key), Messages(s.store, w.key), 4)
            && (other != w.key ==> Messages(s'.store, other) == Messages(s.store, other))
            && Summary(s'.store, other) == Summary(s.store, other)
            && s'.workers[id].phase.Finished?
  {
    var w := s.workers[id];
    AppliedIs(s.store, Truncate(w.key, 4), other);
    AppliedIs(s.store, Truncate(w.key, 4), w.key);
  }
}
