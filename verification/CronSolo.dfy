/** The scheduler under a single run loop: a tick starts only when the previous one is done with its
    jobs, and the service is not started again while a stopped loop still executes. */
module CronSolo {
  import opened Wrappers
  import opened Cron
  import opened CronRuns

  predicate Busy(e: Exec) {
    e != Exec([], None)
  }

  predicate Idle(s: Sys) {
    forall x :: x in s.execs ==> !Busy(s.execs[x])
  }

  predicate CanStepSolo(s: Sys, l: Label) {
    CanStep(s, l) && (l.Tick? || l.Start? ==> Idle(s))
  }

  function AfterSolo(tick: Ticker, clock: int, run: seq<Label>): Sys {
    if run == [] then Initial(clock)
    else
      var s, l := AfterSolo(tick, clock, run[..|run| - 1]), run[|run| - 1];
      if CanStepSolo(s, l) then Step(tick, s, l) else s
  }

  // ---------------------------------------------------------------------------
  // Executions do not overlap
  // ---------------------------------------------------------------------------

  ghost predicate OneBusy(s: Sys) {
    forall x, y :: x in s.execs && y in s.execs && Busy(s.execs[x]) && Busy(s.execs[y]) ==> x == y
  }

  /** Between the beginnings of two executions there is an end, or a crash of the whole process. */
  predicate Alternates(history: seq<Event>) {
    forall k :: 0 < k < |history| && history[k].Began? ==> !history[k - 1].Began?
  }

  predicate NewestBegan(s: Sys) {
    s.history != [] && s.history[|s.history| - 1].Began?
  }

  ghost predicate SomeRunning(s: Sys) {
    exists x :: x in s.execs && s.execs[x].current.Some?
  }

  lemma OneBusyStep(tick: Ticker, s: Sys, l: Label)
    requires OneBusy(s) && CanStepSolo(s, l)
    ensures OneBusy(Step(tick, s, l))
  {
  }

  lemma AlternatesStep(tick: Ticker, s: Sys, l: Label)
    requires OneBusy(s) && Alternates(s.history) && (NewestBegan(s) ==> SomeRunning(s)) && CanStepSolo(s, l)
    ensures Alternates(Step(tick, s, l).history)
    ensures NewestBegan(Step(tick, s, l)) ==> SomeRunning(Step(tick, s, l))
  {
    var s' := Step(tick, s, l);
    if l.Begin? {
      forall x | x in s.execs ensures s.execs[x].current.None? {
        if x != l.exec { assert Busy(s.execs[l.exec]); }
      }
      if s'.history != s.history {
        assert s'.execs[l.exec].current.Some?;
      }
    } else if !l.End? && !l.Restart? && SomeRunning(s) {
      var x :| x in s.execs && s.execs[x].current.Some?;
      assert x in s'.execs && (s'.execs[x].current.Some? || l.Tick?);
    }
  }

  // ---------------------------------------------------------------------------
  // Tickets in work
  // ---------------------------------------------------------------------------

  /** A tick still has to execute the ticket, or is executing it. */
  predicate Has(e: Exec, t: nat) {
    t in e.queue || (e.current.Some? && e.current.value.ticket == t)
  }

  /** A ticket in work is the newest firing of its job. */
  ghost predicate NewestOk(s: Sys) {
    forall x, t: nat, b: nat ::
      x in s.execs && Has(s.execs[x], t) && t < b < |s.fired| ==> s.fired[b].id != s.fired[t].id
  }

  /** Events are about tickets that were handed out. */
  ghost predicate TicketsKnown(s: Sys) {
    forall k :: 0 <= k < |s.history| && !s.history[k].Crashed? ==> s.history[k].ticket < |s.fired|
  }

  /** A running ticket is in no queue. */
  ghost predicate RunningUnqueued(s: Sys) {
    forall x, y :: x in s.execs && y in s.execs && s.execs[x].current.Some? ==>
      s.execs[x].current.value.ticket !in s.execs[y].queue
  }

  /** A ticket whose execution has ended is not in work. */
  ghost predicate EndedGone(s: Sys) {
    forall k, x :: 0 <= k < |s.history| && s.history[k].Ended? && x in s.execs ==>
      !Has(s.execs[x], s.history[k].ticket)
  }

  ghost predicate EventsOk(s: Sys) {
    TicketsKnown(s) && RunningUnqueued(s) && EndedGone(s)
  }

  lemma NewestTick(tick: Ticker, s: Sys, l: Label, x: nat, t: nat, b: nat)
    requires Inv(s) && l.Tick? && CanStepSolo(s, l)
    requires var s' := Step(tick, s, l);
             x in s'.execs && Has(s'.execs[x], t) && t < b < |s'.fired|
    ensures Step(tick, s, l).fired[b].id != Step(tick, s, l).fired[t].id
  {
    var s' := Step(tick, s, l);
    var due, n := DueAt(s.cron, l.now), |s.fired|;
    DueDistinct(s.cron.jobs, l.now, s.schedules);
    assert t in Tickets(n, |due|) && n <= t;
    assert s'.fired[t] == Firing(due[t - n], l.now) && s'.fired[b] == Firing(due[b - n], l.now);
  }

  lemma NewestStep(tick: Ticker, s: Sys, l: Label)
    requires Inv(s) && NewestOk(s) && CanStepSolo(s, l)
    ensures NewestOk(Step(tick, s, l))
  {
    var s' := Step(tick, s, l);
    forall x, t: nat, b: nat | x in s'.execs && Has(s'.execs[x], t) && t < b < |s'.fired|
      ensures s'.fired[b].id != s'.fired[t].id
    {
      if l.Tick? {
        NewestTick(tick, s, l, x, t, b);
      } else {
        assert s'.fired == s.fired + Firings([], s'.clock);
        WorkStays(tick, s, l, x, t);
      }
    }
  }

  /** Except by a tick, nothing comes into work. */
  lemma WorkStays(tick: Ticker, s: Sys, l: Label, x: nat, t: nat)
    requires !l.Tick? && CanStep(s, l) && x in Step(tick, s, l).execs && Has(Step(tick, s, l).execs[x], t)
    ensures x in s.execs && Has(s.execs[x], t)
  {
    if l.Begin? && x == l.exec {
      assert s.execs[x].queue == [s.execs[x].queue[0]] + s.execs[x].queue[1..];
    }
  }

  lemma RunningUnqueuedStep(tick: Ticker, s: Sys, l: Label)
    requires Inv(s) && OneBusy(s) && RunningUnqueued(s) && CanStepSolo(s, l)
    ensures RunningUnqueued(Step(tick, s, l))
  {
    match l {
      case Tick(_, _, _) => assert forall x :: x in s.execs ==> !Busy(s.execs[x]);
      case Begin(exec, _) =>
        TailOk(s.execs[exec].queue, |s.fired|);
        assert Busy(s.execs[exec]);
        assert forall x :: x in s.execs && x != exec ==> !Busy(s.execs[x]);
      case _ =>
    }
  }

  lemma EndedGoneStep(tick: Ticker, s: Sys, l: Label)
    requires Inv(s) && OneBusy(s) && EventsOk(s) && CanStepSolo(s, l)
    ensures EndedGone(Step(tick, s, l))
  {
    var s' := Step(tick, s, l);
    Prefixes(tick, s, l);
    if l.End? { assert Busy(s.execs[l.exec]); }
    forall k, x | 0 <= k < |s'.history| && s'.history[k].Ended? && x in s'.execs
      ensures !Has(s'.execs[x], s'.history[k].ticket)
    {
      var t := s'.history[k].ticket;
      if Has(s'.execs[x], t) {
        if l.Tick? {
          TicketsOk(|s.fired|, |DueAt(s.cron, l.now)|);
        } else {
          WorkStays(tick, s, l, x, t);
        }
      }
    }
  }

  lemma EventsStep(tick: Ticker, s: Sys, l: Label)
    requires Inv(s) && OneBusy(s) && EventsOk(s) && CanStepSolo(s, l)
    ensures EventsOk(Step(tick, s, l))
  {
    RunningUnqueuedStep(tick, s, l);
    EndedGoneStep(tick, s, l);
  }

  // ---------------------------------------------------------------------------
  // Distance between executions
  // ---------------------------------------------------------------------------

  ghost predicate InFlight(s: Sys, id: nat) {
    exists x, t: nat :: x in s.execs && Has(s.execs[x], t) && t < |s.fired| && s.fired[t].id == id
  }

  predicate EndOf(s: Sys, k: nat, id: nat) {
    k < |s.history| && s.history[k].Ended? && s.history[k].ticket < |s.fired| && s.fired[s.history[k].ticket].id == id
  }

  predicate BeginOf(s: Sys, k: nat, id: nat) {
    k < |s.history| && s.history[k].Began? && s.history[k].ticket < |s.fired| && s.fired[s.history[k].ticket].id == id
  }

  /** After an execution ended: unless the job is in work again, it does not become due for a period. */
  ghost predicate RestOk(s: Sys, id: nat, period: int) {
    forall k: nat :: EndOf(s, k, id) ==>
      && s.history[k].time <= s.clock
      && (!InFlight(s, id) ==> NotBefore(s.cron, id, Some(s.history[k].time + period)))
  }

  /** Later firings of the job come at least a period after the end. */
  ghost predicate RefireOk(s: Sys, id: nat, period: int) {
    forall k: nat, b: nat :: EndOf(s, k, id) && s.history[k].ticket < b < |s.fired| && s.fired[b].id == id ==>
      s.fired[b].time >= s.history[k].time + period
  }

  /** And so do later beginnings. */
  ghost predicate RestartOk(s: Sys, id: nat, period: int) {
    forall k: nat, m: nat :: EndOf(s, k, id) && BeginOf(s, m, id) && k < m ==>
      s.history[m].time >= s.history[k].time + period
  }

  lemma Prefixes(tick: Ticker, s: Sys, l: Label)
    requires CanStep(s, l)
    ensures s.fired <= Step(tick, s, l).fired && s.history <= Step(tick, s, l).history
    ensures !l.Tick? ==> Step(tick, s, l).fired == s.fired
  {
    assert s.fired + Firings([], 0) == s.fired;
  }

  /** The ends seen after a step: those seen before, and the one that the step is. */
  lemma EndsAfter(tick: Ticker, s: Sys, l: Label, id: nat, k: nat)
    requires EventsOk(s) && CanStep(s, l) && EndOf(Step(tick, s, l), k, id)
    ensures k < |s.history| ==> EndOf(s, k, id) && Step(tick, s, l).history[k] == s.history[k]
    ensures k >= |s.history| ==>
              && l.End? && k == |s.history|
              && Step(tick, s, l).history[k] == Ended(s.execs[l.exec].current.value.ticket, l.now)
              && s.fired[s.execs[l.exec].current.value.ticket].id == id
  {
    Prefixes(tick, s, l);
  }

  /** A job that was in work and is not any more has just been executed, or is not in the list, or the
      process has restarted. */
  lemma LeavesWork(tick: Ticker, s: Sys, l: Label, id: nat)
    requires Inv(s) && CanStepSolo(s, l) && InFlight(s, id) && !InFlight(Step(tick, s, l), id)
    ensures || (l.End? && s.fired[s.execs[l.exec].current.value.ticket].id == id)
            || (l.Begin? && Find(s.cron.jobs, id) == |s.cron.jobs|)
            || l.Restart?
  {
    var s' := Step(tick, s, l);
    Prefixes(tick, s, l);
    var x, t: nat :| x in s.execs && Has(s.execs[x], t) && t < |s.fired| && s.fired[t].id == id;
    if !l.Restart? && !(l.End? && l.exec == x && s.execs[x].current.value.ticket == t) {
      assert x in s'.execs && s'.fired[t] == s.fired[t];
      if l.Begin? && l.exec == x {
        var q := s.execs[x].queue;
        assert q == [q[0]] + q[1..];
        assert Has(s'.execs[x], t) || t == q[0];
      }
    }
  }

  lemma AbsentNotBefore(s: State, id: nat, bound: Option<int>)
    requires Find(s.jobs, id) == |s.jobs|
    ensures NotBefore(s, id, bound)
  {
  }

  /** The end of an execution of a repeating job sets its next run a full period ahead. */
  lemma FinishRests(tick: Ticker, s: State, id: nat, start: int, now: int, status: Status, first: Save, last: Save,
                    bound: Option<int>, schedules: seq<Schedule>)
    requires StoreOk(s, schedules) && id < |schedules| && schedules[id].kind == Every
    requires Within(ComputeNextRun(tick, schedules[id], now), bound)
    ensures NotBefore(Finished(tick, s, id, start, now, status, first, last), id, bound)
  {
  }

  lemma RestStep(tick: Ticker, s: Sys, l: Label, id: nat, period: int)
    requires Inv(s) && EventsOk(s) && RestOk(s, id, period) && CanStepSolo(s, l)
    requires Repeats(s, id, period) && NoWrap(TimeOf(s, l), period)
    ensures RestOk(Step(tick, s, l), id, period)
  {
    var s' := Step(tick, s, l);
    ComputeEvery(tick, s.schedules[id], TimeOf(s, l), period);
    forall k: nat | EndOf(s', k, id)
      ensures s'.history[k].time <= s'.clock
      ensures !InFlight(s', id) ==> NotBefore(s'.cron, id, Some(s'.history[k].time + period))
    {
      EndsAfter(tick, s, l, id, k);
      var bound := Some(s'.history[k].time + period);
      if !InFlight(s', id) {
        if l.End? && s.fired[s.execs[l.exec].current.value.ticket].id == id {
          var r := s.execs[l.exec].current.value;
          FinishRests(tick, s.cron, id, r.start, l.now, l.status, l.first, l.last, bound, s.schedules);
        } else if InFlight(s, id) {
          LeavesWork(tick, s, l, id);
          if l.Begin? { AbsentNotBefore(s.cron, id, bound); }
        } else {
          NotBeforeStep(tick, s, l, id, bound);
        }
      }
    }
  }

  lemma IdleNotInFlight(s: Sys, id: nat)
    requires Idle(s)
    ensures !InFlight(s, id)
  {
  }

  lemma RefireStep(tick: Ticker, s: Sys, l: Label, id: nat, period: int)
    requires Inv(s) && EventsOk(s) && NewestOk(s) && CanStepSolo(s, l)
    requires RestOk(s, id, period) && RefireOk(s, id, period)
    ensures RefireOk(Step(tick, s, l), id, period)
  {
    var s' := Step(tick, s, l);
    Prefixes(tick, s, l);
    if l.End? { assert Has(s.execs[l.exec], s.execs[l.exec].current.value.ticket); }
    forall k: nat, b: nat | EndOf(s', k, id) && s'.history[k].ticket < b < |s'.fired| && s'.fired[b].id == id
      ensures s'.fired[b].time >= s'.history[k].time + period
    {
      EndsAfter(tick, s, l, id, k);
      if k >= |s.history| {
        assert false;
      } else if b < |s.fired| {
        assert s'.fired[b] == s.fired[b];
      } else {
        var due := DueAt(s.cron, l.now);
        assert s'.fired[b] == Firing(due[b - |s.fired|], l.now) && id in due;
        IdleNotInFlight(s, id);
        NotDueBefore(s.cron, l.now, id, Some(s.history[k].time + period));
      }
    }
  }

  lemma RestartStep(tick: Ticker, s: Sys, l: Label, id: nat, period: int)
    requires Inv(s) && EventsOk(s) && NewestOk(s) && CanStepSolo(s, l)
    requires RefireOk(s, id, period) && RestartOk(s, id, period)
    ensures RestartOk(Step(tick, s, l), id, period)
  {
    var s' := Step(tick, s, l);
    Prefixes(tick, s, l);
    forall k: nat, m: nat | EndOf(s', k, id) && BeginOf(s', m, id) && k < m
      ensures s'.history[m].time >= s'.history[k].time + period
    {
      EndsAfter(tick, s, l, id, k);
      if m < |s.history| {
        assert s'.history[m] == s.history[m];
        assert s.history[m].ticket < |s.fired|;
        assert BeginOf(s, m, id);
      } else {
        var b, t := s.execs[l.exec].queue[0], s.history[k].ticket;
        assert s'.history[m] == Began(b, l.now);
        assert Has(s.execs[l.exec], b);
        assert t != b;
        assert s.fired[b].time <= s.clock;
      }
    }
  }

  ghost predicate SoloInv(s: Sys) {
    && Inv(s) && OneBusy(s) && NewestOk(s) && EventsOk(s)
    && Alternates(s.history) && (NewestBegan(s) ==> SomeRunning(s))
  }

  lemma {:induction false} ReachableSolo(tick: Ticker, clock: int, run: seq<Label>)
    ensures SoloInv(AfterSolo(tick, clock, run))
  {
    if run != [] {
      ReachableSolo(tick, clock, run[..|run| - 1]);
      var s, l := AfterSolo(tick, clock, run[..|run| - 1]), run[|run| - 1];
      if CanStepSolo(s, l) {
        InvStep(tick, s, l);
        OneBusyStep(tick, s, l);
        AlternatesStep(tick, s, l);
        NewestStep(tick, s, l);
        EventsStep(tick, s, l);
      }
    }
  }

  /** Under a single run loop handlers never run at the same time. */
  lemma ExecutionsNeverOverlap(tick: Ticker, clock: int, run: seq<Label>)
    ensures Alternates(AfterSolo(tick, clock, run).history)
    ensures var execs := AfterSolo(tick, clock, run).execs;
            forall x, y ::
              (x in execs && y in execs && execs[x].current.Some? && execs[y].current.Some?) ==> x == y
  {
    ReachableSolo(tick, clock, run);
    var s := AfterSolo(tick, clock, run);
    assert forall x :: x in s.execs && s.execs[x].current.Some? ==> Busy(s.execs[x]);
  }

  lemma {:induction false} RestRun(tick: Ticker, clock: int, run: seq<Label>, id: nat, period: int)
    requires var s := AfterSolo(tick, clock, run);
             && (id < |s.schedules| ==> Repeats(s, id, period)) && period > 0
             && -MAX_INT64 <= clock && s.clock + period <= MAX_INT64
    ensures clock <= AfterSolo(tick, clock, run).clock
    ensures var s := AfterSolo(tick, clock, run);
            RestOk(s, id, period) && RefireOk(s, id, period) && RestartOk(s, id, period)
  {
    if run != [] {
      var past, l := run[..|run| - 1], run[|run| - 1];
      var s := AfterSolo(tick, clock, past);
      if CanStepSolo(s, l) {
        StepGrows(tick, s, l);
        RestRun(tick, clock, past, id, period);
        ReachableSolo(tick, clock, past);
        if id < |s.schedules| {
          RestStep(tick, s, l, id, period);
          RefireStep(tick, s, l, id, period);
          RestartStep(tick, s, l, id, period);
        } else {
          NoEndsBeforeAdding(tick, s, l, id);
        }
      } else {
        RestRun(tick, clock, past, id, period);
      }
    }
  }

  lemma NoEndsBeforeAdding(tick: Ticker, s: Sys, l: Label, id: nat)
    requires SoloInv(s) && CanStepSolo(s, l) && id >= |s.schedules|
    ensures forall k: nat :: !EndOf(Step(tick, s, l), k, id)
  {
    forall k: nat ensures !EndOf(Step(tick, s, l), k, id) {
      if EndOf(Step(tick, s, l), k, id) {
        EndsAfter(tick, s, l, id, k);
      }
    }
  }

  /** Under a single run loop, the end of a repeating job's handler and the beginning of its next one are
      at least a period apart. */
  lemma ExecutionsAreSpaced(tick: Ticker, clock: int, run: seq<Label>, id: nat, k: nat, m: nat, period: int)
    requires var s := AfterSolo(tick, clock, run);
             && Repeats(s, id, period) && EndOf(s, k, id) && BeginOf(s, m, id) && k < m
             && -MAX_INT64 <= clock && s.clock + period <= MAX_INT64
    ensures var s := AfterSolo(tick, clock, run);
            s.history[m].time >= s.history[k].time + period
  {
    RestRun(tick, clock, run, id, period);
  }
}
