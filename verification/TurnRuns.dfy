/** Whole turns, one after the other in each session, beside other sessions and summarisers. */
module TurnRuns {
  import opened Transcript
  import opened SessionStore
  import opened ContextBuilder
  import opened ChatRetry
  import opened TurnEngine
  import opened TurnGuarantees
  import SummaryRuns

  /** A turn of one session: its model and tools, its options, and the store that it found. */
  datatype Played = Played(world: World, opts: Options, store: Store)

  function TurnOf(p: Played): Turn {
    Loop(p.world, Begin(FirstRequest(p.store, p.opts)))
  }

  /** What the turns append, in order. */
  function AllAppends(ps: seq<Played>): seq<seq<Message>> {
    seq(|ps|, i requires 0 <= i < |ps| => TurnAppends(ps[i].opts, TurnOf(ps[i])))
  }

  lemma TurnAppendsClosed(ps: seq<Played>)
    ensures ClosedTurns(AllAppends(ps))
  {
    forall i | 0 <= i < |ps| ensures Closed(AllAppends(ps)[i]) {
      TurnsAreClosed(ps[i].world, ps[i].opts, FirstRequest(ps[i].store, ps[i].opts));
    }
  }

  /** At any moment, also in the middle of a turn: if what a session got so far is the beginning of what
      some turns append, then its history is a suffix of a transcript in which only the newest block can be
      open, wherever it was truncated. */
  lemma HistoryAtAnyMoment(init: Store, evs: seq<Event>, key: string, before: seq<Message>, ps: seq<Played>,
                           rest: seq<Message>)
    requires Closed(before) && IsSuffix(Messages(init, key), before)
    requires Appended(key, evs) + rest == Flatten(AllAppends(ps))
    ensures var t := before + Appended(key, evs);
            && IsSuffix(Messages(Run(init, evs), key), t)
            && !ReadAll(t).Broken?
            && Paired(t + AnswerAll(ReadAll(t).ids))
  {
    TurnAppendsClosed(ps);
    StoredHistoryAtAnyMoment(init, evs, key, before, AllAppends(ps));
  }

  /** The first request of a turn is well paired when the turns before it are complete. */
  lemma FirstRequestPaired(init: Store, evs: seq<Event>, before: seq<Message>, ps: seq<Played>, opts: Options)
    requires Closed(before) && IsSuffix(Messages(init, opts.key), before)
    requires Appended(opts.key, evs) == Flatten(AllAppends(ps))
    ensures var first := FirstRequest(Run(init, evs), opts);
            |first| >= 2 && first[0].role == System && Paired(first)
  {
    var store := Run(init, evs);
    if opts.noHistory {
      RequestClosedIff(SystemPrompt(opts.basePrompt, opts.channel, opts.chatId, ""), [], opts.userMessage);
      ReaderDecidesPairing(FirstRequest(store, opts));
    } else {
      var prompt := SystemPrompt(opts.basePrompt, opts.channel, opts.chatId, Summary(store, opts.key));
      TurnAppendsClosed(ps);
      RequestsBetweenTurnsArePaired(init, evs, opts.key, before, AllAppends(ps), prompt, opts.userMessage);
    }
  }

  /** Each request is well paired exactly when the message behind the system prompt is no tool result; and all
      are unless one of them fails with a context error. */
  ghost predicate Decided(world: World, sent: seq<ChatRequest>) {
    && PairedUnlessCut(sent)
    && ((forall j :: 0 <= j < |sent| ==> !ContextFailure(world.chat(j))) ==>
          forall i :: 0 <= i < |sent| ==> Paired(sent[i].messages))
  }

  lemma TurnDecided(world: World, first: seq<Message>)
    requires |first| >= 2 && first[0].role == System && Paired(first)
    ensures Decided(world, Loop(world, Begin(first)).sent)
  {
    var sent := Loop(world, Begin(first)).sent;
    assert PairedUnlessCut(sent) by {
      forall i | 0 <= i < |sent|
        ensures |sent[i].messages| >= 2 && (Paired(sent[i].messages) <==> sent[i].messages[1].role != Tool)
      {
        RequestPairedIff(world, first, i);
      }
    }
    if forall j :: 0 <= j < |sent| ==> !ContextFailure(world.chat(j)) {
      EveryRequestIsPaired(world, first);
    }
  }

  /** End to end.  Take any store that whole turns and truncations of their history can leave, and run
      another turn with any model: the pairing of its requests is decided as above. */
  lemma NextTurnPairedIff(world: World, opts: Options, init: Store, evs: seq<Event>, before: seq<Message>,
                          ps: seq<Played>)
    requires Closed(before) && IsSuffix(Messages(init, opts.key), before)
    requires Appended(opts.key, evs) == Flatten(AllAppends(ps))
    ensures Decided(world, TurnOf(Played(world, opts, Run(init, evs))).sent)
  {
    FirstRequestPaired(init, evs, before, ps, opts);
    TurnDecided(world, FirstRequest(Run(init, evs), opts));
  }

  /** A turn that is played on a store keeps every session in order: the history of each is still a suffix
      of a complete transcript, grown by exactly what the turn appends to it. */
  lemma TurnKeepsHistories(p: Played, key: string, before: seq<Message>)
    requires Closed(before) && IsSuffix(Messages(p.store, key), before)
    ensures var mine := if p.opts.key == key then TurnAppends(p.opts, TurnOf(p)) else [];
            var store := Run(p.store, Adds(p.opts.key, TurnAppends(p.opts, TurnOf(p))));
            Closed(before + mine) && IsSuffix(Messages(store, key), before + mine)
  {
    var appends := TurnAppends(p.opts, TurnOf(p));
    if p.opts.key == key {
      AddsAppend(key, appends);
      TurnsAreClosed(p.world, p.opts, FirstRequest(p.store, p.opts));
      ReadConcat(Owing([]), before, appends);
    } else {
      AddsElsewhere(p.opts.key, key, appends);
      assert before + [] == before;
    }
    HistoryIsSuffix(p.store, Adds(p.opts.key, appends), key, before);
  }

  lemma {:induction false} AddsElsewhere(key: string, other: string, ms: seq<Message>)
    requires key != other
    ensures Appended(other, Adds(key, ms)) == []
  {
    if ms != [] {
      var n := |ms| - 1;
      AddsElsewhere(key, other, ms[..n]);
      assert Adds(key, ms)[..n] == Adds(key, ms[..n]);
    }
  }

  /** Turns of any sessions run beside any number of summarisers, interleaved in any way.  Whenever the
      turns of a session are all complete, a further turn's requests are as in `NextTurnPairedIff`. */
  lemma TurnsBesideSummarisers(world: World, opts: Options, init: Store, run: seq<SummaryRuns.Label>,
                               before: seq<Message>, ps: seq<Played>)
    requires Closed(before) && IsSuffix(Messages(init, opts.key), before)
    requires SummaryRuns.SavedBy(opts.key, run) == Flatten(AllAppends(ps))
    ensures var store := SummaryRuns.Execute(SummaryRuns.Initial(init), run).store;
            Decided(world, TurnOf(Played(world, opts, store)).sent)
  {
    SummaryRuns.StoreFollowsEffects(init, run);
    SummaryRuns.EffectsAppendSaved(init, run, opts.key);
    NextTurnPairedIff(world, opts, init, SummaryRuns.Effects(init, run), before, ps);
  }

  /** The same for a history that is looked at in the middle of a turn. */
  lemma HistoryBesideSummarisers(init: Store, run: seq<SummaryRuns.Label>, key: string, before: seq<Message>,
                                 ps: seq<Played>, rest: seq<Message>)
    requires Closed(before) && IsSuffix(Messages(init, key), before)
    requires SummaryRuns.SavedBy(key, run) + rest == Flatten(AllAppends(ps))
    ensures var t := before + SummaryRuns.SavedBy(key, run);
            && IsSuffix(Messages(SummaryRuns.Execute(SummaryRuns.Initial(init), run).store, key), t)
            && !ReadAll(t).Broken?
            && Paired(t + AnswerAll(ReadAll(t).ids))
  {
    SummaryRuns.StoreFollowsEffects(init, run);
    SummaryRuns.EffectsAppendSaved(init, run, key);
    HistoryAtAnyMoment(init, SummaryRuns.Effects(init, run), key, before, ps, rest);
  }
}
