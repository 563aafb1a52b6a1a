/** Turns, summarisers and saves of the session files, with crashes and restarts in between. */
module Restarts {
  import opened Wrappers
  import opened Transcript
  import opened SessionStore
  import opened SessionFiles
  import opened ContextBuilder
  import opened TurnEngine
  import opened TurnRuns
  import Recovery = SessionRecovery
  import SummaryRuns

  /** The process and its session files.  `said` is what was appended to each session that is in memory, also
      before restarts; `kept` is the same as of the last save of the session that took effect. */
  datatype Process = Process(
    live: SummaryRuns.State,
    saves: seq<Recovery.Event>,     // what was done to the files
    down: bool,                     // a save has crashed
    published: seq<string>,
    said: map<string, seq<Message>>,
    kept: map<string, seq<Message>>)

  datatype Step =
    | Live(act: SummaryRuns.Label)
    | Save(key: string, random: string, faults: Faults, crash: Option<Recovery.Crash>)
    | Publish(text: string)
    | Restart(names: seq<string>)   // after a crash, or at any other moment

  function Said(s: Process, key: string): seq<Message> {
    if key in s.said then s.said[key] else []
  }

  function Files(s: Process): Disk {
    Recovery.DiskAfter(s.saves)
  }

  /** What a save of the session would write now. */
  function Current(s: Process, key: string): Snapshot {
    Snapshot(key, Messages(s.live.store, key), Summary(s.live.store, key))
  }

  function EventOf(s: Process, step: Step): Recovery.Event
    requires step.Save?
  {
    Recovery.Event(Current(s, step.key), step.random, step.faults, step.crash)
  }

  ghost predicate Enabled(s: Process, step: Step) {
    match step
    case Restart(names) => Recovery.Lists(names, Files(s))
    case Save(key, _, _, _) => !s.down && (Saves(s.live.store, key) ==> Recovery.Possible(Files(s), EventOf(s, step)))
    case _ => !s.down
  }

  /** The step is a save that writes the session, and its rename reaches the disk. */
  predicate TakesEffect(s: Process, step: Step) {
    step.Save? && Saves(s.live.store, step.key) && Recovery.TookEffect(EventOf(s, step))
  }

  function AfterSave(s: Process, step: Step): Process
    requires step.Save?
  {
    if !Saves(s.live.store, step.key) then s
    else
      s.(saves := s.saves + [EventOf(s, step)], down := step.crash.Some?,
         kept := if TakesEffect(s, step) then s.kept[step.key := Said(s, step.key)] else s.kept)
  }

  function Restarted(s: Process, names: seq<string>): Process {
    var loaded := Loaded(Files(s), names);
    var kept := map key | key in s.kept && key in loaded :: s.kept[key];
    s.(live := SummaryRuns.Initial(loaded), down := false, said := kept, kept := kept)
  }

  function Next(s: Process, step: Step): Process {
    match step
    case Live(l) =>
      s.(live := SummaryRuns.Next(s.live, l),
         said := if l.Append? then s.said[l.key := Said(s, l.key) + [l.msg]] else s.said)
    case Save(_, _, _, _) => AfterSave(s, step)
    case Publish(text) => s.(published := s.published + [text])
    case Restart(names) => Restarted(s, names)
  }

  const Initial: Process := Process(SummaryRuns.Initial(map[]), [], false, [], map[], map[])

  /** The state after a run; steps that cannot be taken are skipped. */
  ghost function After(run: seq<Step>): Process {
    if run == [] then Initial
    else
      var s, step := After(run[..|run| - 1]), run[|run| - 1];
      if Enabled(s, step) then Next(s, step) else s
  }

  lemma AfterSnoc(run: seq<Step>, step: Step)
    ensures After(run + [step]) == if Enabled(After(run), step) then Next(After(run), step) else After(run)
  {
    assert (run + [step])[..|run|] == run;
  }

  // ---------------------------------------------------------------------------
  // What every step keeps
  // ---------------------------------------------------------------------------

  lemma SavesSnoc(es: seq<Recovery.Event>, e: Recovery.Event, name: string)
    ensures Recovery.PossibleRun(es + [e]) <==> Recovery.PossibleRun(es) && Recovery.Possible(Recovery.DiskAfter(es), e)
    ensures Recovery.LastOn(es + [e], name)
         == if Recovery.TookEffect(e) && FileName(e.snapshot.key) == name then Some(e.snapshot)
            else Recovery.LastOn(es, name)
  {
    assert (es + [e])[..|es|] == es;
  }

  lemma {:induction false} SavesPossible(run: seq<Step>)
    ensures Recovery.PossibleRun(After(run).saves)
  {
    if run != [] {
      var s, step := After(run[..|run| - 1]), run[|run| - 1];
      SavesPossible(run[..|run| - 1]);
      if step.Save? { SavesSnoc(s.saves, EventOf(s, step), ""); }
    }
  }

  /** The file of the session's name holds the session itself. */
  predicate Filed(s: Process, key: string) {
    var last := Recovery.LastOn(s.saves, FileName(key));
    last.Some? && last.value.key == key
  }

  /** If the last snapshot in the file is the session's own, it is a suffix of what was said by then. */
  predicate FileOk(last: Option<Snapshot>, kept: map<string, seq<Message>>, said: seq<Message>, key: string) {
    last.Some? && last.value.key == key ==>
      key in kept && kept[key] <= said && IsSuffix(last.value.messages, kept[key])
  }

  /** In memory and on disk the session is a suffix of what was said in it, on disk as of its last save. */
  predicate KeyOk(s: Process, key: string) {
    && IsSuffix(Messages(s.live.store, key), Said(s, key))
    && FileOk(Recovery.LastOn(s.saves, FileName(key)), s.kept, Said(s, key), key)
  }

  lemma FileOkGrows(last: Option<Snapshot>, kept: map<string, seq<Message>>, said: seq<Message>, more: seq<Message>,
                    key: string)
    requires FileOk(last, kept, said, key)
    ensures FileOk(last, kept, said + more, key)
  {
  }

  lemma LiveChange(s: Process, l: SummaryRuns.Label, key: string)
    ensures var s' := Next(s, Live(l));
            && s'.live == SummaryRuns.Next(s.live, l) && s'.saves == s.saves && s'.kept == s.kept
            && Said(s', key) == Said(s, key) + if l.Append? && l.key == key then [l.msg] else []
  {
    assert Said(s, key) + [] == Said(s, key);
  }

  lemma LiveKeepsSuffix(live: SummaryRuns.State, l: SummaryRuns.Label, key: string, t: seq<Message>)
    requires IsSuffix(Messages(live.store, key), t)
    ensures IsSuffix(Messages(SummaryRuns.Next(live, l).store, key),
                     t + if l.Append? && l.key == key then [l.msg] else [])
  {
    var effect := SummaryRuns.Effect(live, l);
    SummaryRuns.EffectIsChange(live, l);
    SummaryRuns.EffectIsAppend(live, l, key);
    assert t + [] == t;
    if effect != [] {
      ApplyKeepsSuffix(live.store, effect[0], key, t);
    }
  }

  lemma LiveStep(s: Process, l: SummaryRuns.Label, key: string)
    requires KeyOk(s, key)
    ensures KeyOk(Next(s, Live(l)), key)
  {
    var more := if l.Append? && l.key == key then [l.msg] else [];
    LiveChange(s, l, key);
    LiveKeepsSuffix(s.live, l, key, Said(s, key));
    FileOkGrows(Recovery.LastOn(s.saves, FileName(key)), s.kept, Said(s, key), more, key);
  }

  /** What a save changes about the file and the record of a session. */
  lemma SaveChange(s: Process, step: Step, key: string)
    requires step.Save?
    ensures var s' := AfterSave(s, step);
            && s'.live == s.live && s'.said == s.said
            && Recovery.LastOn(s'.saves, FileName(key))
               == (if TakesEffect(s, step) && FileName(step.key) == FileName(key) then Some(Current(s, step.key))
                   else Recovery.LastOn(s.saves, FileName(key)))
            && s'.kept == if TakesEffect(s, step) then s.kept[step.key := Said(s, step.key)] else s.kept
  {
    SavesSnoc(s.saves, EventOf(s, step), FileName(key));
  }

  lemma FileOkSaved(last: Option<Snapshot>, kept: map<string, seq<Message>>, said: seq<Message>, key: string,
                    saved: Snapshot, savedSaid: seq<Message>, sameFile: bool)
    requires FileOk(last, kept, said, key) && (saved.key == key ==> sameFile && savedSaid == said)
    requires IsSuffix(saved.messages, savedSaid)
    ensures FileOk(if sameFile then Some(saved) else last, kept[saved.key := savedSaid], said, key)
  {
  }

  lemma SaveStep(s: Process, step: Step, key: string)
    requires step.Save? && KeyOk(s, key) && KeyOk(s, step.key)
    ensures KeyOk(AfterSave(s, step), key)
  {
    SaveChange(s, step, key);
    if TakesEffect(s, step) {
      FileOkSaved(Recovery.LastOn(s.saves, FileName(key)), s.kept, Said(s, key), key, Current(s, step.key),
                  Said(s, step.key), FileName(step.key) == FileName(key));
    }
  }

  /** A restart brings back exactly the sessions that are in their files, with what was kept of them. */
  lemma RestartStep(s: Process, names: seq<string>, key: string)
    requires Recovery.PossibleRun(s.saves) && Enabled(s, Restart(names)) && KeyOk(s, key)
    ensures var s' := Next(s, Restart(names));
            && KeyOk(s', key) && (key in s'.live.store <==> Filed(s, key))
            && Said(s', key) == (if Filed(s, key) then s.kept[key] else [])
            && (Filed(s, key) ==> s'.live.store[key] == Recovery.LastOn(s.saves, FileName(key)).value)
  {
    Recovery.ReloadIs(s.saves, names, key);
  }

  lemma {:induction false} Reachable(run: seq<Step>, key: string)
    ensures KeyOk(After(run), key)
    decreases |run|
  {
    if run != [] {
      var past, step := run[..|run| - 1], run[|run| - 1];
      var s := After(past);
      Reachable(past, key);
      if Enabled(s, step) {
        match step {
          case Live(l) => LiveStep(s, l, key);
          case Save(other, _, _, _) => Reachable(past, other); SaveStep(s, step, key);
          case Publish(_) =>
          case Restart(names) => SavesPossible(past); RestartStep(s, names, key);
        }
      }
    }
  }

  /** In every run of turns, summarisers, saves, crashes and restarts, a session's history is a suffix of what
      was said in it, and what is said in it after a restart continues something said before. */
  lemma HistoryAcrossRestarts(run: seq<Step>, names: seq<string>, key: string)
    ensures IsSuffix(Messages(After(run).live.store, key), Said(After(run), key))
    ensures Said(After(run + [Restart(names)]), key) <= Said(After(run), key)
  {
    Reachable(run, key);
    AfterSnoc(run, Restart(names));
    if Enabled(After(run), Restart(names)) {
      SavesPossible(run);
      RestartStep(After(run), names, key);
    }
  }

  // ---------------------------------------------------------------------------
  // From a save to a restart
  // ---------------------------------------------------------------------------

  /** The session's file holds this snapshot, saved when this much had been said. */
  predicate Holds(s: Process, snapshot: Snapshot, t: seq<Message>) {
    && Recovery.LastOn(s.saves, FileName(snapshot.key)) == Some(snapshot)
    && snapshot.key in s.kept && s.kept[snapshot.key] == t
  }

  /** The step saves a session to the file of this key, and that takes effect. */
  predicate Overwrites(s: Process, step: Step, key: string) {
    TakesEffect(s, step) && FileName(step.key) == FileName(key)
  }

  /** No step of these, taken after the run, overwrites the file of this key; saves of it may fail or crash. */
  ghost predicate Spared(run: seq<Step>, more: seq<Step>, key: string) {
    forall i :: 0 <= i < |more| ==> !Overwrites(After(run + more[..i]), more[i], key)
  }

  lemma SparedPrefix(run: seq<Step>, more: seq<Step>, key: string)
    requires more != [] && Spared(run, more, key)
    ensures var n := |more| - 1;
            Spared(run, more[..n], key) && !Overwrites(After(run + more[..n]), more[n], key)
  {
    var past := more[..|more| - 1];
    forall i | 0 <= i < |past| ensures !Overwrites(After(run + past[..i]), past[i], key) {
      assert past[..i] == more[..i];
    }
  }

  lemma HoldsSaved(s: Process, step: Step)
    requires TakesEffect(s, step)
    ensures Holds(Next(s, step), Current(s, step.key), Said(s, step.key))
  {
    SaveChange(s, step, step.key);
  }

  lemma HoldsStep(run: seq<Step>, step: Step, snapshot: Snapshot, t: seq<Message>)
    requires Holds(After(run), snapshot, t) && !Overwrites(After(run), step, snapshot.key)
    ensures Holds(After(run + [step]), snapshot, t)
  {
    var s := After(run);
    AfterSnoc(run, step);
    if Enabled(s, step) {
      if step.Save? {
        SaveChange(s, step, snapshot.key);
      } else if step.Restart? {
        SavesPossible(run);
        Reachable(run, snapshot.key);
        RestartStep(s, step.names, snapshot.key);
      }
    }
  }

  lemma {:induction false} HoldsLater(run: seq<Step>, more: seq<Step>, snapshot: Snapshot, t: seq<Message>)
    requires Holds(After(run), snapshot, t) && Spared(run, more, snapshot.key)
    ensures Holds(After(run + more), snapshot, t)
    decreases |more|
  {
    if more == [] {
      assert run + more == run;
    } else {
      var n := |more| - 1;
      SparedPrefix(run, more, snapshot.key);
      HoldsLater(run, more[..n], snapshot, t);
      HoldsStep(run + more[..n], more[n], snapshot, t);
      assert run + more == run + more[..n] + [more[n]];
    }
  }

  /** A run, a save of a session that takes effect, further steps of which none overwrites its file, and a
      restart that lists the files as they then are. */
  ghost predicate SavedLast(run: seq<Step>, save: Step, more: seq<Step>, names: seq<string>) {
    && TakesEffect(After(run), save) && Enabled(After(run), save)
    && Spared(run + [save], more, save.key)
    && Enabled(After(run + [save] + more), Restart(names))
  }

  lemma RestartOfHeld(run: seq<Step>, names: seq<string>, snapshot: Snapshot, t: seq<Message>)
    requires Holds(After(run), snapshot, t) && Enabled(After(run), Restart(names))
    ensures var s' := After(run + [Restart(names)]);
            snapshot.key in s'.live.store && s'.live.store[snapshot.key] == snapshot && Said(s', snapshot.key) == t
  {
    AfterSnoc(run, Restart(names));
    SavesPossible(run);
    Reachable(run, snapshot.key);
    RestartStep(After(run), names, snapshot.key);
  }

  lemma HoldsOnceSaved(run: seq<Step>, save: Step)
    requires TakesEffect(After(run), save) && Enabled(After(run), save)
    ensures Holds(After(run + [save]), Current(After(run), save.key), Said(After(run), save.key))
  {
    AfterSnoc(run, save);
    HoldsSaved(After(run), save);
  }

  /** A restart brings a session back as its last save found it. */
  lemma RestartRestores(run: seq<Step>, save: Step, more: seq<Step>, names: seq<string>)
    requires SavedLast(run, save, more, names)
    ensures var s, s' := After(run), After(run + [save] + more + [Restart(names)]);
            && save.key in s'.live.store && s'.live.store[save.key] == Current(s, save.key)
            && Said(s', save.key) == Said(s, save.key)
  {
    var snapshot, t := Current(After(run), save.key), Said(After(run), save.key);
    HoldsOnceSaved(run, save);
    HoldsLater(run + [save], more, snapshot, t);
    RestartOfHeld(run + [save] + more, names, snapshot, t);
  }

  lemma FirstRequestIff(store: Store, opts: Options, t: seq<Message>)
    requires !ReadAll(t).Broken? && IsSuffix(Messages(store, opts.key), t)
    ensures Paired(FirstRequest(store, opts))
       <==> opts.noHistory || ReadAll(t) == Owing([]) || AllTools(Messages(store, opts.key))
  {
    if opts.noHistory {
      RequestClosedIff(SystemPrompt(opts.basePrompt, opts.channel, opts.chatId, ""), [], opts.userMessage);
      ReaderDecidesPairing(FirstRequest(store, opts));
    } else {
      var prompt := SystemPrompt(opts.basePrompt, opts.channel, opts.chatId, Summary(store, opts.key));
      SuffixRequestIff(t, Messages(store, opts.key), prompt, opts.userMessage);
    }
  }

  /** A session that is saved at any moment and read back after a crash or a restart: its next request is well
      paired if and only if the turn takes no history, or at the moment of that save the session owed no tool
      result, or nothing but tool results was stored. */
  lemma SavedRequestIff(run: seq<Step>, save: Step, more: seq<Step>, names: seq<string>, opts: Options)
    requires SavedLast(run, save, more, names) && save.key == opts.key
    requires !ReadAll(Said(After(run), opts.key)).Broken?
    ensures var s, s' := After(run), After(run + [save] + more + [Restart(names)]);
            Paired(FirstRequest(s'.live.store, opts))
            <==> opts.noHistory || ReadAll(Said(s, opts.key)) == Owing([]) || AllTools(Messages(s.live.store, opts.key))
  {
    RestartRestores(run, save, more, names);
    Reachable(run, opts.key);
    FirstRequestIff(After(run + [save] + more + [Restart(names)]).live.store, opts, Said(After(run), opts.key));
  }

  lemma PlayedUnbroken(t: seq<Message>, ps: seq<Played>, rest: seq<Message>)
    requires t + rest == Flatten(AllAppends(ps))
    ensures !ReadAll(t).Broken? && (rest == [] ==> ReadAll(t) == Owing([]))
  {
    TurnAppendsClosed(ps);
    ClosedTurnsClosed([], AllAppends(ps));
    assert [] + Flatten(AllAppends(ps)) == t + rest;
    PrefixUnbroken(t, rest);
    assert rest == [] ==> t + rest == t;
  }

  /** In particular when all that was said comes from turns that the engine played, with any models and tools,
      and the save, by a summariser say, may have come in the middle of the last. */
  lemma RequestAfterCrashIff(run: seq<Step>, save: Step, more: seq<Step>, names: seq<string>,
                             ps: seq<Played>, rest: seq<Message>, opts: Options)
    requires SavedLast(run, save, more, names) && save.key == opts.key
    requires Said(After(run), opts.key) + rest == Flatten(AllAppends(ps))
    ensures var s, s' := After(run), After(run + [save] + more + [Restart(names)]);
            Paired(FirstRequest(s'.live.store, opts))
            <==> opts.noHistory || ReadAll(Said(s, opts.key)) == Owing([]) || AllTools(Messages(s.live.store, opts.key))
  {
    PlayedUnbroken(Said(After(run), opts.key), ps, rest);
    SavedRequestIff(run, save, more, names, opts);
  }

  predicate EndsInCalls(ms: seq<Message>) {
    ms != [] && ms[|ms| - 1].role == Assistant && ms[|ms| - 1].calls != []
  }

  lemma OpenAtTheEnd(s: seq<Message>, t: seq<Message>)
    requires !ReadAll(t).Broken? && IsSuffix(s, t) && EndsInCalls(s)
    ensures ReadAll(t) != Owing([]) && !AllTools(s)
  {
    var n, m := |t| - 1, t[|t| - 1];
    assert m == s[|s| - 1];
    assert t == t[..n] + [m];
    ReadConcat(Owing([]), t[..n], [m]);
    assert ReadFrom(ReadAll(t[..n]), [m]) == Read(ReadAll(t[..n]), m);
    assert |CallIds(m.calls)| > 0;
  }

  lemma CutKeepsOpen(run: seq<Step>, id: nat, key: string)
    requires var s := After(run);
             && id in s.live.workers && s.live.workers[id].phase.Writing? && s.live.workers[id].key == key
             && !s.down && EndsInCalls(Messages(s.live.store, key))
    ensures var s' := After(run + [Live(SummaryRuns.Cut(id))]);
            EndsInCalls(Messages(s'.live.store, key)) && Said(s', key) == Said(After(run), key)
  {
    AfterSnoc(run, Live(SummaryRuns.Cut(id)));
  }

  /** A summariser that truncates and saves a session whose newest message asks for tools, as happens in the
      middle of a turn: after a crash the next request is not well paired. */
  lemma SummariserSavesOpenCalls(run: seq<Step>, id: nat, save: Step, more: seq<Step>, names: seq<string>,
                                 opts: Options)
    requires Enabled(After(run), Live(SummaryRuns.Cut(id))) && id in After(run).live.workers
    requires After(run).live.workers[id].phase.Writing? && After(run).live.workers[id].key == opts.key
    requires EndsInCalls(Messages(After(run).live.store, opts.key))
    requires !ReadAll(Said(After(run), opts.key)).Broken?
    requires SavedLast(run + [Live(SummaryRuns.Cut(id))], save, more, names)
    requires save.key == opts.key && !opts.noHistory
    ensures !Paired(FirstRequest(After(run + [Live(SummaryRuns.Cut(id))] + [save] + more + [Restart(names)]).live.store,
                                 opts))
  {
    var cut := run + [Live(SummaryRuns.Cut(id))];
    CutKeepsOpen(run, id, opts.key);
    Reachable(cut, opts.key);
    OpenAtTheEnd(Messages(After(cut).live.store, opts.key), Said(After(cut), opts.key));
    SavedRequestIff(cut, save, more, names, opts);
  }

  // ---------------------------------------------------------------------------
  // A crash in the middle of a turn
  // ---------------------------------------------------------------------------

  lemma TwoAppends(key: string, a: Message, b: Message)
    ensures var s := After([] + [Live(SummaryRuns.Append(key, a))] + [Live(SummaryRuns.Append(key, b))]);
            && !s.down && s.saves == [] && key in s.live.store
            && Messages(s.live.store, key) == [a, b] && Said(s, key) == [a, b]
  {
    AfterSnoc([], Live(SummaryRuns.Append(key, a)));
    AfterSnoc([] + [Live(SummaryRuns.Append(key, a))], Live(SummaryRuns.Append(key, b)));
    assert [] + [a] == [a] && [a] + [b] == [a, b];
  }

  const NoFaults: Faults := Faults(None, false)

  lemma FirstSave(snapshot: Snapshot, random: string)
    requires ValidName(SanitizeFilename(snapshot.key))
    ensures var e := Recovery.Event(snapshot, random, NoFaults, None);
            && Recovery.Possible(Recovery.DiskAfter([]), e)
            && Recovery.Lists([FileName(snapshot.key)], Recovery.DiskAfter([] + [e]))
  {
    var e := Recovery.Event(snapshot, random, NoFaults, None);
    assert ([] + [e])[..0] == [];
    assert Recovery.DiskAfter([] + [e]) == Recovery.After(map[], e);
    assert Recovery.After(map[], e) == Renamed(map[], TempName(random), snapshot);
  }

  lemma OpenPair(text: string, calls: seq<CallRef>)
    ensures ReadAll([Plain(User, text), Message(Assistant, "", calls, "")]) == Owing(CallIds(calls))
  {
    var a, b := [Plain(User, text)], [Message(Assistant, "", calls, "")];
    ReadConcat(Owing([]), a, b);
    assert a + b == [Plain(User, text), Message(Assistant, "", calls, "")];
    assert ReadFrom(Owing([]), a) == Owing([]) && ReadFrom(Owing([]), b) == Read(Owing([]), b[0]);
  }

  /** It happens: with any key that can be saved, store a user message and an assistant message that asks for a
      tool, save, and restart. */
  lemma CrashMidTurn(call: CallRef, random: string, opts: Options) returns (run: seq<Step>)
    requires ValidName(SanitizeFilename(opts.key)) && !opts.noHistory
    ensures Said(After(run), opts.key) == [Plain(User, opts.userMessage), Message(Assistant, "", [call], "")]
    ensures var save, names := Save(opts.key, random, NoFaults, None), [FileName(opts.key)];
            && SavedLast(run, save, [], names)
            && !Paired(FirstRequest(After(run + [save] + [] + [Restart(names)]).live.store, opts))
  {
    var a, b := Plain(User, opts.userMessage), Message(Assistant, "", [call], "");
    run := [] + [Live(SummaryRuns.Append(opts.key, a))] + [Live(SummaryRuns.Append(opts.key, b))];
    TwoAppends(opts.key, a, b);
    var save, names := Save(opts.key, random, NoFaults, None), [FileName(opts.key)];
    FirstSave(Current(After(run), opts.key), random);
    AfterSnoc(run, save);
    assert run + [save] + [] == run + [save];
    OpenPair(opts.userMessage, [call]);
    OpenAtTheEnd([a, b], [a, b]);
    SavedRequestIff(run, save, [], names, opts);
  }

  lemma {:induction false} DropConcat(a: seq<Message>, b: seq<Message>)
    requires !AllTools(a)
    ensures DropLeadingTools(a + b) == DropLeadingTools(a) + b
  {
    if a[0].role == Tool {
      assert !AllTools(a[1..]);
      DropConcat(a[1..], b);
      assert (a + b)[1..] == a[1..] + b;
    }
  }

  lemma {:induction false} TurnsBeginWithUser(ps: seq<Played>)
    ensures ps != [] ==> Flatten(AllAppends(ps)) != [] && Flatten(AllAppends(ps))[0].role == User
    ensures ps == [] ==> Flatten(AllAppends(ps)) == []
  {
    if ps != [] {
      var n := |ps| - 1;
      assert AllAppends(ps)[..n] == AllAppends(ps[..n]);
      TurnsBeginWithUser(ps[..n]);
      assert AllAppends(ps)[n] == TurnAppends(ps[n].opts, TurnOf(ps[n]));
    }
  }

  /** And it lasts.  A history that ends in an open block makes the first request of every later turn of the
      session unpaired, whatever turns the engine plays in it, until it is truncated. */
  lemma UnpairedUntilTruncated(store: Store, evs: seq<SessionStore.Event>, t: seq<Message>, ps: seq<Played>,
                               rest: seq<Message>, opts: Options)
    requires !ReadAll(t).Broken? && ReadAll(t) != Owing([]) && !opts.noHistory
    requires IsSuffix(Messages(store, opts.key), t) && !AllTools(Messages(store, opts.key))
    requires forall i :: 0 <= i < |evs| ==> !Truncates(evs[i], opts.key)
    requires Appended(opts.key, evs) + rest == Flatten(AllAppends(ps))
    ensures !Paired(FirstRequest(Run(store, evs), opts))
  {
    var h, more := Messages(store, opts.key), Appended(opts.key, evs);
    var later := Run(store, evs);
    var prompt := SystemPrompt(opts.basePrompt, opts.channel, opts.chatId, Summary(later, opts.key));
    Untruncated(store, evs, opts.key);
    TurnsBeginWithUser(ps);
    assert more != [] ==> (more + rest)[0] == more[0];
    StaysUnpaired(h, t, more, prompt, opts.userMessage);
  }

  lemma StaysUnpaired(h: seq<Message>, t: seq<Message>, more: seq<Message>, prompt: string, current: string)
    requires !ReadAll(t).Broken? && ReadAll(t) != Owing([]) && IsSuffix(h, t) && !AllTools(h)
    requires more == [] || more[0].role != Tool
    ensures !Paired(Request(prompt, h + more, current))
  {
    DropConcat(h, more);
    OpenSuffix(h, t);
    ReadConcat(Owing([]), DropLeadingTools(h), more);
    if more != [] { BrokenStays(more[1..]); }
    RequestClosedIff(prompt, DropLeadingTools(h + more), current);
    ReaderDecidesPairing(Request(prompt, h + more, current));
  }

  lemma OpenSuffix(s: seq<Message>, t: seq<Message>)
    requires !ReadAll(t).Broken? && IsSuffix(s, t) && !AllTools(s)
    ensures ReadAll(DropLeadingTools(s)) == ReadAll(t)
  {
    var head := t[..|t| - |s|];
    assert t == head + s;
    PrefixUnbroken(head, s);
    ReadConcat(Owing([]), head, s);
    DropReads(ReadAll(head).ids, s);
  }
}
