/** Turns on the running process: what they append, and what their end saves, starts and publishes. */
module TurnEnds {
  import opened Wrappers
  import opened Transcript
  import opened SessionStore
  import SessionFiles
  import opened TurnEngine
  import opened TurnRuns
  import opened Strings
  import opened Restarts
  import Recovery = SessionRecovery
  import SummaryRuns

  function AppendSteps(key: string, ms: seq<Message>): seq<Step> {
    seq(|ms|, i requires 0 <= i < |ms| => Live(SummaryRuns.Append(key, ms[i])))
  }

  /** The process is up, its files are the same as before, and this much is said and stored in the session. */
  predicate Grown(s: Process, saves: seq<Recovery.Event>, key: string, said: seq<Message>, stored: seq<Message>) {
    !s.down && s.saves == saves && Said(s, key) == said && Messages(s.live.store, key) == stored
  }

  lemma GrowsByOne(run: seq<Step>, saves: seq<Recovery.Event>, key: string, said: seq<Message>,
                   stored: seq<Message>, m: Message)
    requires Grown(After(run), saves, key, said, stored)
    ensures Grown(After(run + [Live(SummaryRuns.Append(key, m))]), saves, key, said + [m], stored + [m])
  {
    AfterSnoc(run, Live(SummaryRuns.Append(key, m)));
  }

  lemma OneMore(said: seq<Message>, ms: seq<Message>)
    requires ms != []
    ensures said + ms == said + ms[..|ms| - 1] + [ms[|ms| - 1]]
  {
  }

  lemma AppendStepsSnoc(run: seq<Step>, key: string, ms: seq<Message>)
    requires ms != []
    ensures run + AppendSteps(key, ms)
         == run + AppendSteps(key, ms[..|ms| - 1]) + [Live(SummaryRuns.Append(key, ms[|ms| - 1]))]
  {
  }

  lemma {:induction false} AppendsAreSaid(run: seq<Step>, saves: seq<Recovery.Event>, key: string,
                                          said: seq<Message>, stored: seq<Message>, ms: seq<Message>)
    requires Grown(After(run), saves, key, said, stored)
    ensures Grown(After(run + AppendSteps(key, ms)), saves, key, said + ms, stored + ms)
  {
    if ms == [] {
      assert run + AppendSteps(key, ms) == run && said + [] == said && stored + [] == stored;
    } else {
      var past, m := ms[..|ms| - 1], ms[|ms| - 1];
      AppendsAreSaid(run, saves, key, said, stored, past);
      GrowsByOne(run + AppendSteps(key, past), saves, key, said + past, stored + past, m);
      AppendStepsSnoc(run, key, ms);
      OneMore(said, ms);
      OneMore(stored, ms);
    }
  }

  lemma OneMoreTurn(ps: seq<Played>, p: Played)
    ensures Flatten(AllAppends(ps + [p])) == Flatten(AllAppends(ps)) + TurnAppends(p.opts, TurnOf(p))
  {
    var all := AllAppends(ps + [p]);
    assert all[..|ps|] == AllAppends(ps);
  }

  /** A turn that the engine plays on the sessions in memory adds just its own appends to what was said, and so
      keeps all that was said in the session a list of complete turns. */
  lemma TurnIsSaid(run: seq<Step>, world: World, opts: Options, ps: seq<Played>)
    requires !After(run).down && Said(After(run), opts.key) == Flatten(AllAppends(ps))
    ensures var p := Played(world, opts, After(run).live.store);
            var s' := After(run + AppendSteps(opts.key, TurnAppends(opts, TurnOf(p))));
            !s'.down && s'.saves == After(run).saves && Said(s', opts.key) == Flatten(AllAppends(ps + [p]))
  {
    var s := After(run);
    var p := Played(world, opts, s.live.store);
    AppendsAreSaid(run, s.saves, opts.key, Said(s, opts.key), Messages(s.live.store, opts.key),
                   TurnAppends(opts, TurnOf(p)));
    OneMoreTurn(ps, p);
  }

  // ---------------------------------------------------------------------------
  // The end of a turn
  // ---------------------------------------------------------------------------

  /** What happens beyond the program's control at the end of a turn: how its save goes, the number of the
      summariser if one is started, and whether the history is long enough to want one. */
  datatype Fate = Fate(random: string, faults: SessionFiles.Faults, crash: Option<Recovery.Crash>, worker: nat,
                       wanted: bool)

  function StepsOf(effect: Effect, f: Fate): seq<Step> {
    match effect
    case SaveSession(key) => [Save(key, f.random, f.faults, f.crash)]
    case MaybeSummarise(key) => if f.wanted then [Live(SummaryRuns.TryStart(f.worker, key))] else []
    case PublishOutbound(text) => [Publish(text)]
  }

  function AllSteps(effects: seq<Effect>, f: Fate): seq<Step> {
    if effects == [] then [] else StepsOf(effects[0], f) + AllSteps(effects[1..], f)
  }

  /** The steps behind the save of a turn's end. */
  function Rest(world: World, opts: Options, answer: string, f: Fate): seq<Step> {
    (if opts.enableSummary && f.wanted then [Live(SummaryRuns.TryStart(f.worker, opts.key))] else [])
    + (if world.send then [Publish(answer)] else [])
  }

  lemma EndStepsAre(world: World, opts: Options, answer: string, error: Option<string>, f: Fate)
    ensures AllSteps(EndEffects(world, opts, answer, error), f)
         == if error.Some? then [] else [Save(opts.key, f.random, f.faults, f.crash)] + Rest(world, opts, answer, f)
  {
    if error.None? {
      var save, publish := [SaveSession(opts.key)], if world.send then [PublishOutbound(answer)] else [];
      var summary := if opts.enableSummary then [MaybeSummarise(opts.key)] else [];
      StepsConcat(save + summary, publish, f);
      StepsConcat(save, summary, f);
      StepsOne(SaveSession(opts.key), f);
      StepsOne(MaybeSummarise(opts.key), f);
      StepsOne(PublishOutbound(answer), f);
    }
  }

  lemma StepsOne(effect: Effect, f: Fate)
    ensures AllSteps([effect], f) == StepsOf(effect, f)
  {
    assert AllSteps([effect][1..], f) == [];
  }

  lemma {:induction false} StepsConcat(a: seq<Effect>, b: seq<Effect>, f: Fate)
    ensures AllSteps(a + b, f) == AllSteps(a, f) + AllSteps(b, f)
    decreases |a|
  {
    if a == [] {
      assert a + b == b;
    } else {
      StepsConcat(a[1..], b, f);
      assert (a + b)[1..] == a[1..] + b && (a + b)[0] == a[0];
      Associative(StepsOf(a[0], f), AllSteps(a[1..], f), AllSteps(b, f));
    }
  }

  /** What follows the save: nothing if it crashed, otherwise the summariser and the publication. */
  function Ended(s: Process, world: World, opts: Options, answer: string, f: Fate): Process {
    var started := if s.down || !opts.enableSummary || !f.wanted then s
                   else Next(s, Live(SummaryRuns.TryStart(f.worker, opts.key)));
    if s.down || !world.send then started else Next(started, Publish(answer))
  }

  lemma RestOfTurn(run: seq<Step>, world: World, opts: Options, answer: string, f: Fate)
    ensures After(run + Rest(world, opts, answer, f)) == Ended(After(run), world, opts, answer, f)
  {
    var start := if opts.enableSummary && f.wanted then [Live(SummaryRuns.TryStart(f.worker, opts.key))] else [];
    var publish := if world.send then [Publish(answer)] else [];
    OneMoreStep(run, start);
    OneMoreStep(run + start, publish);
    Regroup(run, start, publish, []);
  }

  lemma OneMoreStep(run: seq<Step>, steps: seq<Step>)
    requires |steps| <= 1
    ensures var s := After(run);
            After(run + steps) == if steps != [] && Enabled(s, steps[0]) then Next(s, steps[0]) else s
  {
    if steps == [] {
      assert run + steps == run;
    } else {
      assert steps == [steps[0]];
      AfterSnoc(run, steps[0]);
    }
  }

  function EndSteps(world: World, opts: Options, answer: string, f: Fate): seq<Step> {
    AllSteps(EndEffects(world, opts, answer, None), f)
  }

  lemma EndRun(run: seq<Step>, world: World, opts: Options, answer: string, f: Fate, more: seq<Step>)
    ensures run + EndSteps(world, opts, answer, f) + more
         == run + [Save(opts.key, f.random, f.faults, f.crash)] + (Rest(world, opts, answer, f) + more)
  {
    EndStepsAre(world, opts, answer, None, f);
    Regroup(run, [Save(opts.key, f.random, f.faults, f.crash)], Rest(world, opts, answer, f), more);
  }

  lemma Regroup(run: seq<Step>, a: seq<Step>, b: seq<Step>, more: seq<Step>)
    ensures run + (a + b) + more == run + a + (b + more)
    ensures run + (a + b) == run + a + b
  {
  }

  /** The session is saved as it is.  If the process crashes in that save nothing else happens, otherwise the
      answer is published if the turn is to respond, and a summariser starts if one is enabled, wanted and not
      yet at work on the session. */
  predicate EndsWell(s: Process, s': Process, world: World, opts: Options, answer: string, f: Fate) {
    var save := Save(opts.key, f.random, f.faults, f.crash);
    && s'.live.store == s.live.store && s'.saves == AfterSave(s, save).saves
    && if SessionFiles.Saves(s.live.store, opts.key) && f.crash.Some?
       then s'.live == s.live && s'.published == s.published && s'.down
       else
         && s'.published == s.published + (if world.send then [answer] else [])
         && (f.worker in s'.live.workers <==> opts.enableSummary && f.wanted && opts.key !in s.live.flags)
  }

  lemma EndedWell(s: Process, world: World, opts: Options, answer: string, f: Fate)
    requires !s.down && f.worker !in s.live.workers
    ensures EndsWell(s, Ended(AfterSave(s, Save(opts.key, f.random, f.faults, f.crash)), world, opts, answer, f),
                     world, opts, answer, f)
  {
    assert s.published + [] == s.published;
  }

  lemma EndAfterSave(run: seq<Step>, world: World, opts: Options, answer: string, f: Fate)
    requires Enabled(After(run), Save(opts.key, f.random, f.faults, f.crash)) && f.worker !in After(run).live.workers
    ensures var save := Save(opts.key, f.random, f.faults, f.crash);
            EndsWell(After(run), After(run + [save] + Rest(world, opts, answer, f)), world, opts, answer, f)
  {
    var save := Save(opts.key, f.random, f.faults, f.crash);
    AfterSnoc(run, save);
    RestOfTurn(run + [save], world, opts, answer, f);
    EndedWell(After(run), world, opts, answer, f);
  }

  /** The end of a turn.  After a failed turn nothing is saved, no summariser starts and nothing is published.
      Otherwise the save comes first: if the process crashes in it, no summariser has been started and nothing
      published. */
  lemma TurnEnd(run: seq<Step>, world: World, opts: Options, answer: string, error: Option<string>, f: Fate)
    requires Enabled(After(run), Save(opts.key, f.random, f.faults, f.crash)) && f.worker !in After(run).live.workers
    ensures var s, s' := After(run), After(run + AllSteps(EndEffects(world, opts, answer, error), f));
            if error.Some? then s' == s else EndsWell(s, s', world, opts, answer, f)
  {
    if error.Some? {
      EndStepsAre(world, opts, answer, error, f);
      assert run + [] == run;
    } else {
      EndRun(run, world, opts, answer, f, []);
      EndAfterSave(run, world, opts, answer, f);
      var ends, rest := EndSteps(world, opts, answer, f), Rest(world, opts, answer, f);
      assert run + ends + [] == run + ends && rest + [] == rest;
    }
  }

  /** Complete turns survive.  When all that was said in a session comes from complete turns, a restart finds
      all that was in memory at its last save, and the next request is well paired. */
  lemma CompleteTurnsSurvive(run: seq<Step>, save: Step, more: seq<Step>, names: seq<string>, ps: seq<Played>,
                             next: Options)
    requires SavedLast(run, save, more, names) && save.key == next.key
    requires Said(After(run), next.key) == Flatten(AllAppends(ps))
    ensures var s, s' := After(run), After(run + [save] + more + [Restart(names)]);
            && next.key in s'.live.store && s'.live.store[next.key] == Current(s, next.key)
            && Said(s', next.key) == Said(s, next.key)
            && Paired(FirstRequest(s'.live.store, next))
  {
    var said := Said(After(run), next.key);
    assert said + [] == said;
    RestartRestores(run, save, more, names);
    PlayedUnbroken(said, ps, []);
    RequestAfterCrashIff(run, save, more, names, ps, [], next);
  }

  /** The end of a turn makes it safe, if its save takes effect: whatever happens until the session's file is
      overwritten, also a crash in the next save of the session, a restart brings back all that was in memory,
      and the next request is well paired. */
  lemma SavedTurnsSurvive(run: seq<Step>, world: World, opts: Options, answer: string, f: Fate, more: seq<Step>,
                          names: seq<string>, ps: seq<Played>, next: Options)
    requires var save := Save(opts.key, f.random, f.faults, f.crash);
             Enabled(After(run), save) && TakesEffect(After(run), save)
    requires Said(After(run), opts.key) == Flatten(AllAppends(ps)) && next.key == opts.key
    requires Spared(run + EndSteps(world, opts, answer, f), more, opts.key)
    requires Enabled(After(run + EndSteps(world, opts, answer, f) + more), Restart(names))
    ensures var s, s' := After(run), After(run + EndSteps(world, opts, answer, f) + more + [Restart(names)]);
            && opts.key in s'.live.store && s'.live.store[opts.key] == Current(s, opts.key)
            && Said(s', opts.key) == Said(s, opts.key)
            && Paired(FirstRequest(s'.live.store, next))
  {
    var save, rest := Save(opts.key, f.random, f.faults, f.crash), Rest(world, opts, answer, f);
    EndRun(run, world, opts, answer, f, more);
    RestSparesFile(run, world, opts, answer, f, more);
    CompleteTurnsSurvive(run, save, rest + more, names, ps, next);
  }

  lemma RestSparesFile(run: seq<Step>, world: World, opts: Options, answer: string, f: Fate, more: seq<Step>)
    requires Spared(run + EndSteps(world, opts, answer, f), more, opts.key)
    ensures Spared(run + [Save(opts.key, f.random, f.faults, f.crash)], Rest(world, opts, answer, f) + more, opts.key)
  {
    var saved, rest := run + [Save(opts.key, f.random, f.faults, f.crash)], Rest(world, opts, answer, f);
    var all := rest + more;
    forall i | 0 <= i < |all| ensures !Overwrites(After(saved + all[..i]), all[i], opts.key) {
      if i < |rest| {
        assert all[i] == rest[i] && !all[i].Save?;
      } else {
        var k := i - |rest|;
        assert all[i] == more[k] && all[..i] == rest + more[..k];
        EndRun(run, world, opts, answer, f, more[..k]);
      }
    }
  }
}
