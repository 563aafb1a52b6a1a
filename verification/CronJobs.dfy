/** What each step of the scheduler does to one job, and what follows for switching jobs off and on. */
module CronJobs {
  import opened Wrappers
  import opened Cron
  import opened CronRuns

  /** The job with this id, if it is in the list. */
  function JobIn(jobs: seq<Job>, id: nat): Option<Job> {
    if Find(jobs, id) == |jobs| then None else Some(jobs[Find(jobs, id)])
  }

  lemma JobAt(jobs: seq<Job>, i: nat, schedules: seq<Schedule>)
    requires i < |jobs| && ListOk(jobs, schedules)
    ensures JobIn(jobs, jobs[i].id) == Some(jobs[i])
  {
  }

  /** The next time of a schedule: the given time if it is ahead; the present plus the period, in 64-bit
      arithmetic; or what the cron expression says. */
  predicate NextTime(tick: Ticker, schedule: Schedule, now: int, next: Option<int>) {
    match schedule.kind
    case At =>
      if schedule.at.Some? && now < schedule.at.value then next == schedule.at else next.None?
    case Every =>
      if schedule.every.None? || schedule.every.value < 1 then next.None?
      else
        var sum := now + schedule.every.value;
        && (-MAX_INT64 <= sum <= MAX_INT64 ==> next == Some(sum))
        && (MAX_INT64 < sum <= 2 * MAX_INT64 ==> next == Some(sum - 2 * MAX_INT64 - 2))
    case CronTab => next == if schedule.expr == "" then None else tick(schedule.expr, now)
    case OtherKind => next.None?
  }

  lemma ComputesNextTime(tick: Ticker, schedule: Schedule, now: int)
    ensures NextTime(tick, schedule, now, ComputeNextRun(tick, schedule, now))
  {
  }

  /** The same job with another next run. */
  predicate Retimed(after: Option<Job>, job: Job, next: Option<int>) {
    after == Some(Job(job.id, job.enabled, job.schedule, next, job.lastRun, job.status, job.deleteAfterRun))
  }

  ghost predicate Rescheduling(tick: Ticker, after: Option<Job>, before: Option<Job>, now: int) {
    match before
    case None => after.None?
    case Some(job) =>
      if job.enabled then exists next :: NextTime(tick, job.schedule, now, next) && Retimed(after, job, next)
      else after == before
  }

  /** A tick takes the next run off a due job. */
  predicate Collecting(after: Option<Job>, before: Option<Job>, now: int) {
    if before.Some? && before.value.enabled && before.value.nextRun.Some? && before.value.nextRun.value <= now
    then Retimed(after, before.value, None)
    else after == before
  }

  /** The end of an execution notes its start and outcome.  A one-shot job goes, or is disabled; any other is
      timed anew, and stays enabled or disabled. */
  ghost predicate Finishing(tick: Ticker, after: Option<Job>, before: Option<Job>, start: int, now: int,
                            status: Status)
  {
    match before
    case None => after.None?
    case Some(job) =>
      if job.schedule.kind != At then
        exists next :: NextTime(tick, job.schedule, now, next)
          && after == Some(Job(job.id, job.enabled, job.schedule, next, Some(start), status, job.deleteAfterRun))
      else if job.deleteAfterRun then after.None?
      else after == Some(Job(job.id, false, job.schedule, None, Some(start), status, false))
  }

  /** Switching on times the job anew, switching off takes its next run away. */
  ghost predicate Switching(tick: Ticker, after: Option<Job>, before: Option<Job>, on: bool, now: int) {
    match before
    case None => after.None?
    case Some(job) =>
      if on then
        exists next :: NextTime(tick, job.schedule, now, next)
          && after == Some(Job(job.id, true, job.schedule, next, job.lastRun, job.status, job.deleteAfterRun))
      else after == Some(Job(job.id, false, job.schedule, None, job.lastRun, job.status, job.deleteAfterRun))
  }

  ghost predicate Adding(tick: Ticker, after: Option<Job>, id: nat, schedule: Schedule, now: int) {
    exists next :: NextTime(tick, schedule, now, next)
      && after == Some(Job(id, true, schedule, next, None, NeverRun, schedule.kind == At))
  }

  /** What a step makes of the job with this id in memory. */
  ghost predicate Changes(tick: Ticker, s: Sys, l: Label, id: nat, before: Option<Job>, after: Option<Job>)
    requires CanStep(s, l)
  {
    match l
    case Tick(_, now, _) => if s.cron.running then Collecting(after, before, now) else after == before
    case End(exec, now, status, _, _) =>
      var r := s.execs[exec].current.value;
      if s.fired[r.ticket].id == id then Finishing(tick, after, before, r.start, now, status) else after == before
    case Start(now, _) =>
      if s.cron.running then after == before
      else if s.cron.disk.Unreadable? then after.None?
      else Rescheduling(tick, after, JobIn(OnDisk(s.cron.disk), id), now)
    case Enable(other, on, now, _) => if other == id then Switching(tick, after, before, on, now) else after == before
    case Remove(other, _) => after == if other == id then None else before
    case Add(schedule, now, _) =>
      if id == |s.schedules| then Adding(tick, after, id, schedule, now) else after == before
    case Restart => after == JobIn(OnDisk(s.cron.disk), id)
    case _ => after == before
  }

  lemma FindIs(jobs: seq<Job>, id: nat, i: nat)
    requires i <= |jobs| && (i < |jobs| ==> jobs[i].id == id) && forall j :: 0 <= j < i ==> jobs[j].id != id
    ensures Find(jobs, id) == i
  {
  }

  /** Jobs that keep their places and ids are found where they were. */
  lemma SamePlaces(jobs: seq<Job>, jobs': seq<Job>, id: nat)
    requires |jobs| == |jobs'| && forall i :: 0 <= i < |jobs| ==> jobs[i].id == jobs'[i].id
    ensures Find(jobs', id) == Find(jobs, id)
  {
    FindIs(jobs', id, Find(jobs, id));
  }

  predicate DueNow(job: Option<Job>, now: int) {
    job.Some? && job.value.enabled && job.value.nextRun.Some? && job.value.nextRun.value <= now
  }

  lemma DueByJob(jobs: seq<Job>, now: int, id: nat, schedules: seq<Schedule>)
    requires ListOk(jobs, schedules)
    ensures id in Due(jobs, now) <==> DueNow(JobIn(jobs, id), now)
  {
    DueIff(jobs, now, id);
    if i :| 0 <= i < |jobs| && jobs[i].id == id && IsDue(jobs[i], now) {
      JobAt(jobs, i, schedules);
    }
  }

  lemma TickChanges(s: State, now: int, save: Save, id: nat, schedules: seq<Schedule>)
    requires StoreOk(s, schedules) && s.running
    ensures Collecting(JobIn(Collected(s, now, save).jobs, id), JobIn(s.jobs, id), now)
  {
    var due := Due(s.jobs, now);
    SamePlaces(s.jobs, Cleared(s.jobs, due), id);
    DueByJob(s.jobs, now, id, schedules);
    if JobIn(s.jobs, id).Some? {
      assert Cleared(s.jobs, due)[Find(s.jobs, id)] == ClearedJob(s.jobs[Find(s.jobs, id)], due);
    }
  }

  lemma StartChanges(tick: Ticker, s: State, now: int, save: Save, id: nat)
    requires !s.running && !s.disk.Unreadable?
    ensures Rescheduling(tick, JobIn(Started(tick, s, now, save).jobs, id), JobIn(OnDisk(s.disk), id), now)
  {
    var jobs := OnDisk(s.disk);
    SamePlaces(jobs, Recomputed(tick, jobs, now), id);
    if JobIn(jobs, id).Some? {
      ComputesNextTime(tick, jobs[Find(jobs, id)].schedule, now);
    }
  }

  lemma UpdateChanges(jobs: seq<Job>, i: nat, job: Job, id: nat)
    requires i < |jobs| && job.id == jobs[i].id && Find(jobs, job.id) == i
    ensures JobIn(jobs[i := job], id) == if id == job.id then Some(job) else JobIn(jobs, id)
  {
    SamePlaces(jobs, jobs[i := job], id);
  }

  lemma {:induction false} FindWithout(jobs: seq<Job>, id: nat, other: nat)
    ensures JobIn(Without(jobs, other), id) == if id == other then None else JobIn(jobs, id)
  {
    if jobs != [] {
      var past, last := jobs[..|jobs| - 1], jobs[|jobs| - 1];
      var kept := Without(past, other);
      FindWithout(past, id, other);
      FindSnoc(past, last, id);
      assert jobs == past + [last];
      if last.id == other {
        assert Without(jobs, other) == kept;
      } else {
        assert Without(jobs, other) == kept + [last];
        FindSnoc(kept, last, id);
      }
    }
  }

  lemma FindSnoc(jobs: seq<Job>, last: Job, id: nat)
    ensures JobIn(jobs + [last], id)
         == if JobIn(jobs, id).Some? then JobIn(jobs, id) else if last.id == id then Some(last) else None
  {
    var i := Find(jobs, id);
    if i < |jobs| || last.id == id {
      FindIs(jobs + [last], id, i);
    } else {
      FindIs(jobs + [last], id, |jobs| + 1);
    }
  }

  lemma FinishChanges(tick: Ticker, s: State, of: nat, start: int, now: int, status: Status, first: Save, last: Save,
                      id: nat)
    ensures var before := JobIn(s.jobs, id);
            var after := JobIn(Finished(tick, s, of, start, now, status, first, last).jobs, id);
            if of == id then Finishing(tick, after, before, start, now, status) else after == before
  {
    FindWithout(s.jobs, id, of);
    var i := Find(s.jobs, of);
    if i < |s.jobs| {
      UpdateChanges(s.jobs, i, AfterRun(tick, s.jobs[i], start, now, status), id);
      ComputesNextTime(tick, s.jobs[i].schedule, now);
    }
  }

  lemma EnableChanges(tick: Ticker, s: State, of: nat, on: bool, now: int, save: Save, id: nat)
    ensures var before, after := JobIn(s.jobs, id), JobIn(Enabled(tick, s, of, on, now, save).jobs, id);
            if of == id then Switching(tick, after, before, on, now) else after == before
  {
    var i := Find(s.jobs, of);
    if i < |s.jobs| {
      var next := if on then ComputeNextRun(tick, s.jobs[i].schedule, now) else None;
      UpdateChanges(s.jobs, i, s.jobs[i].(enabled := on, nextRun := next), id);
      ComputesNextTime(tick, s.jobs[i].schedule, now);
    }
  }

  lemma RemoveChanges(s: State, of: nat, save: Save, id: nat)
    ensures JobIn(Removed(s, of, save).jobs, id) == if of == id then None else JobIn(s.jobs, id)
  {
    FindWithout(s.jobs, id, of);
    WithoutShorter(s.jobs, of);
  }

  lemma AddChanges(tick: Ticker, s: State, schedule: Schedule, now: int, save: Save, id: nat, schedules: seq<Schedule>)
    requires StoreOk(s, schedules)
    ensures var before, after := JobIn(s.jobs, id), JobIn(Added(tick, s, |schedules|, schedule, now, save).jobs, id);
            if id == |schedules| then Adding(tick, after, id, schedule, now) else after == before
  {
    FindSnoc(s.jobs, NewJob(tick, |schedules|, schedule, now), id);
    ComputesNextTime(tick, schedule, now);
  }

  /** The job list behaves like a table of jobs by their ids: each step changes just the jobs that it is about,
      and each in the way that is stated for it alone. */
  lemma StepChanges(tick: Ticker, clock: int, run: seq<Label>, l: Label, id: nat)
    requires CanStep(After(tick, clock, run), l)
    ensures var s := After(tick, clock, run);
            Changes(tick, s, l, id, JobIn(s.cron.jobs, id), JobIn(Step(tick, s, l).cron.jobs, id))
  {
    var s := After(tick, clock, run);
    Reachable(tick, clock, run);
    match l {
      case Tick(_, now, save) => if s.cron.running { TickChanges(s.cron, now, save, id, s.schedules); }
      case Begin(_, _) =>
      case End(exec, now, status, first, last) =>
        var r := s.execs[exec].current.value;
        FinishChanges(tick, s.cron, s.fired[r.ticket].id, r.start, now, status, first, last, id);
      case Start(now, save) =>
        if !s.cron.running && !s.cron.disk.Unreadable? { StartChanges(tick, s.cron, now, save, id); }
      case Stop =>
      case Enable(other, on, now, save) => EnableChanges(tick, s.cron, other, on, now, save, id);
      case Remove(other, save) => RemoveChanges(s.cron, other, save, id);
      case Add(schedule, now, save) => AddChanges(tick, s.cron, schedule, now, save, id, s.schedules);
      case Restart =>
    }
  }

  lemma {:induction false} DueInOrder(jobs: seq<Job>, now: int, schedules: seq<Schedule>, i: nat, j: nat)
    requires ListOk(jobs, schedules) && i < j < |Due(jobs, now)|
    ensures Find(jobs, Due(jobs, now)[i]) < Find(jobs, Due(jobs, now)[j]) < |jobs|
  {
    var past, last := jobs[..|jobs| - 1], jobs[|jobs| - 1];
    var due := Due(past, now);
    assert jobs == past + [last] && ListOk(past, schedules);
    DueIsFound(past, now, i);
    FindFirst(past, last, due[i]);
    if j < |due| {
      DueInOrder(past, now, schedules, i, j);
      FindFirst(past, last, due[j]);
    } else {
      JobAt(jobs, |past|, schedules);
    }
  }

  lemma DueIsFound(jobs: seq<Job>, now: int, i: nat)
    requires i < |Due(jobs, now)|
    ensures Find(jobs, Due(jobs, now)[i]) < |jobs|
  {
    DueIff(jobs, now, Due(jobs, now)[i]);
  }

  lemma FindFirst(jobs: seq<Job>, last: Job, id: nat)
    requires Find(jobs, id) < |jobs|
    ensures Find(jobs + [last], id) == Find(jobs, id)
  {
    FindIs(jobs + [last], id, Find(jobs, id));
  }

  lemma TickInOrder(tick: Ticker, s: Sys, l: Label, a: nat, b: nat)
    requires l.Tick? && CanStep(s, l) && ListOk(s.cron.jobs, s.schedules)
    requires |s.fired| <= a < b < |Step(tick, s, l).fired|
    ensures var fired := Step(tick, s, l).fired;
            Find(s.cron.jobs, fired[a].id) < Find(s.cron.jobs, fired[b].id) < |s.cron.jobs|
  {
    FiredAt(tick, s, l, a);
    FiredAt(tick, s, l, b);
    DueInOrder(s.cron.jobs, l.now, s.schedules, a - |s.fired|, b - |s.fired|);
  }

  /** A tick collects each due job once, and in the order of the list. */
  lemma CollectedInOrder(tick: Ticker, clock: int, run: seq<Label>, l: Label, a: nat, b: nat)
    requires l.Tick? && CanStep(After(tick, clock, run), l)
    requires var s := After(tick, clock, run);
             |s.fired| <= a < b < |Step(tick, s, l).fired|
    ensures var jobs, fired := After(tick, clock, run).cron.jobs, Step(tick, After(tick, clock, run), l).fired;
            Find(jobs, fired[a].id) < Find(jobs, fired[b].id) < |jobs|
  {
    Reachable(tick, clock, run);
    TickInOrder(tick, After(tick, clock, run), l, a, b);
  }

  lemma FiredAt(tick: Ticker, s: Sys, l: Label, a: nat)
    requires l.Tick? && CanStep(s, l) && |s.fired| <= a < |Step(tick, s, l).fired|
    ensures a - |s.fired| < |Due(s.cron.jobs, l.now)|
    ensures Step(tick, s, l).fired[a].id == Due(s.cron.jobs, l.now)[a - |s.fired|]
  {
    var due := DueAt(s.cron, l.now);
    assert Step(tick, s, l).fired == s.fired + Firings(due, l.now);
  }

  // ---------------------------------------------------------------------------
  // The file
  // ---------------------------------------------------------------------------

  /** The outcome of the step's last save, if it is one that may save. */
  function LastSave(l: Label): Option<Save> {
    match l
    case Tick(_, _, save) => Some(save)
    case End(_, _, _, _, last) => Some(last)
    case Start(_, save) => Some(save)
    case Enable(_, _, _, save) => Some(save)
    case Remove(_, save) => Some(save)
    case Add(_, _, save) => Some(save)
    case _ => None
  }

  /** The step saves: a tick of the running service, the end of an execution or a switching of a job that is
      there, a start that could load, a removal of something, and every addition. */
  predicate SavesFile(s: Sys, l: Label)
    requires CanStep(s, l)
  {
    match l
    case Tick(_, _, _) => s.cron.running
    case End(exec, _, _, _, _) => JobIn(s.cron.jobs, s.fired[s.execs[exec].current.value.ticket].id).Some?
    case Start(_, _) => !s.cron.running && !s.cron.disk.Unreadable?
    case Enable(id, _, _, _) => JobIn(s.cron.jobs, id).Some?
    case Remove(id, _) => JobIn(s.cron.jobs, id).Some?
    case Add(_, _, _) => true
    case _ => false
  }

  /** A step that saves writes the jobs as it leaves them, damages the file, or leaves it as it was, by the
      outcome of its last save; no other step touches the file. */
  lemma FileIs(tick: Ticker, s: Sys, l: Label)
    requires CanStep(s, l)
    ensures var before, s' := s.cron.disk, Step(tick, s, l);
            && s'.cron.disk in {before, Unreadable, Stored(s'.cron.jobs)}
            && (!SavesFile(s, l) ==> s'.cron.disk == before)
            && (SavesFile(s, l) && LastSave(l) == Some(Written) ==> s'.cron.disk == Stored(s'.cron.jobs))
            && (SavesFile(s, l) && LastSave(l) == Some(Damaged) ==> s'.cron.disk == Unreadable)
            && (SavesFile(s, l) && LastSave(l) == Some(Untouched) && !l.End? ==> s'.cron.disk == before)
  {
    if l.Remove? {
      RemovalShrinks(s.cron.jobs, l.id);
    }
  }

  lemma RemovalShrinks(jobs: seq<Job>, id: nat)
    ensures |Without(jobs, id)| < |jobs| <==> JobIn(jobs, id).Some?
  {
    WithoutShorter(jobs, id);
    if JobIn(jobs, id).Some? {
      WithoutShrinks(jobs, Find(jobs, id));
    } else {
      NothingRemoved(jobs, id);
    }
  }

  lemma {:induction false} NothingRemoved(jobs: seq<Job>, id: nat)
    requires forall i :: 0 <= i < |jobs| ==> jobs[i].id != id
    ensures Without(jobs, id) == jobs
  {
    if jobs != [] { NothingRemoved(jobs[..|jobs| - 1], id); }
  }

  // ---------------------------------------------------------------------------
  // Switched off
  // ---------------------------------------------------------------------------

  predicate Off(jobs: seq<Job>, id: nat) {
    JobIn(jobs, id).Some? ==> !JobIn(jobs, id).value.enabled
  }

  predicate SwitchesOn(l: Label, id: nat) {
    l.Enable? && l.id == id && l.on
  }

  /** Reads the file again. */
  predicate Reloads(l: Label) {
    l.Start? || l.Restart?
  }

  /** A job that is off is not collected. */
  lemma OffIsNotDue(s: Sys, now: int, id: nat)
    requires StoreOk(s.cron, s.schedules) && Off(s.cron.jobs, id)
    ensures id !in DueAt(s.cron, now)
  {
    DueIff(s.cron.jobs, now, id);
    if i :| 0 <= i < |s.cron.jobs| && s.cron.jobs[i].id == id && IsDue(s.cron.jobs[i], now) {
      JobAt(s.cron.jobs, i, s.schedules);
    }
  }

  lemma OffStep(tick: Ticker, clock: int, run: seq<Label>, l: Label, id: nat)
    requires CanStep(After(tick, clock, run), l) && id < |After(tick, clock, run).schedules|
    requires Off(After(tick, clock, run).cron.jobs, id) && !SwitchesOn(l, id)
    requires Reloads(l) ==> Off(OnDisk(After(tick, clock, run).cron.disk), id)
    ensures var s, s' := After(tick, clock, run), Step(tick, After(tick, clock, run), l);
            && Off(s'.cron.jobs, id) && id < |s'.schedules|
            && (Off(OnDisk(s.cron.disk), id) ==> Off(OnDisk(s'.cron.disk), id))
  {
    StepChanges(tick, clock, run, l, id);
    FileIs(tick, After(tick, clock, run), l);
  }

  lemma FiredOnlyDue(tick: Ticker, s: Sys, l: Label, id: nat)
    requires CanStep(s, l) && (l.Tick? ==> id !in DueAt(s.cron, l.now))
    ensures var fired, fired' := s.fired, Step(tick, s, l).fired;
            fired <= fired' && forall a :: |fired| <= a < |fired'| ==> fired'[a].id != id
  {
    if l.Tick? {
      var due := DueAt(s.cron, l.now);
      forall i | 0 <= i < |due| ensures due[i] in due {
      }
    }
  }

  /** The job is off in memory, stays off in the file if it was, and has not been collected in between. */
  ghost predicate Silent(s: Sys, s': Sys, id: nat) {
    && id < |s'.schedules| && Off(s'.cron.jobs, id)
    && (Off(OnDisk(s.cron.disk), id) ==> Off(OnDisk(s'.cron.disk), id))
    && s.fired <= s'.fired && forall a :: |s.fired| <= a < |s'.fired| ==> s'.fired[a].id != id
  }

  lemma SilentTransitive(a: Sys, b: Sys, c: Sys, id: nat)
    requires Silent(a, b, id) && Silent(b, c, id)
    ensures Silent(a, c, id)
  {
    forall k | |a.fired| <= k < |c.fired| ensures c.fired[k].id != id {
      if k < |b.fired| { assert c.fired[k] == b.fired[k]; }
    }
  }

  lemma {:induction false} OffStays(tick: Ticker, clock: int, run: seq<Label>, more: seq<Label>, id: nat)
    requires id < |After(tick, clock, run).schedules| && Off(After(tick, clock, run).cron.jobs, id)
    requires forall i :: 0 <= i < |more| ==> !SwitchesOn(more[i], id)
    requires Off(OnDisk(After(tick, clock, run).cron.disk), id) || forall i :: 0 <= i < |more| ==> !Reloads(more[i])
    ensures Silent(After(tick, clock, run), After(tick, clock, run + more), id)
    decreases |more|
  {
    if more == [] {
      assert run + more == run;
    } else {
      var past, l := more[..|more| - 1], more[|more| - 1];
      OffStays(tick, clock, run, past, id);
      assert run + more == run + past + [l];
      OffOnce(tick, clock, run + past, l, id);
      SilentTransitive(After(tick, clock, run), After(tick, clock, run + past), After(tick, clock, run + more), id);
    }
  }

  lemma OffOnce(tick: Ticker, clock: int, run: seq<Label>, l: Label, id: nat)
    requires id < |After(tick, clock, run).schedules| && Off(After(tick, clock, run).cron.jobs, id)
    requires !SwitchesOn(l, id) && (Reloads(l) ==> Off(OnDisk(After(tick, clock, run).cron.disk), id))
    ensures Silent(After(tick, clock, run), After(tick, clock, run + [l]), id)
  {
    var s := After(tick, clock, run);
    assert (run + [l])[..|run|] == run;
    Reachable(tick, clock, run);
    if CanStep(s, l) {
      OffStep(tick, clock, run, l, id);
      if l.Tick? { OffIsNotDue(s, l.now, id); }
      FiredOnlyDue(tick, s, l, id);
    }
  }

  /** A job that is switched off is not collected any more until it is switched on again, if that was written to
      the file; otherwise at least until a start or restart reads the older file. */
  lemma SwitchedOffStaysSilent(tick: Ticker, clock: int, run: seq<Label>, now: int, save: Save, more: seq<Label>,
                               id: nat)
    requires var s := After(tick, clock, run);
             s.clock <= now && JobIn(s.cron.jobs, id).Some?
    requires forall i :: 0 <= i < |more| ==> !SwitchesOn(more[i], id)
    requires save == Written || forall i :: 0 <= i < |more| ==> !Reloads(more[i])
    ensures var s, s' := After(tick, clock, run), After(tick, clock, run + [Enable(id, false, now, save)] + more);
            |s.fired| <= |s'.fired| && forall a :: |s.fired| <= a < |s'.fired| ==> s'.fired[a].id != id
  {
    var s, off := After(tick, clock, run), Enable(id, false, now, save);
    assert (run + [off])[..|run|] == run;
    Reachable(tick, clock, run);
    assert JobOk(s.cron.jobs[Find(s.cron.jobs, id)], s.schedules);
    StepChanges(tick, clock, run, off, id);
    FileIs(tick, s, off);
    OffStays(tick, clock, run + [off], more, id);
  }

  /** Whether the service runs: a start makes it run if it could load and save, a stop and a restart of the
      process end that, and nothing else matters. */
  lemma RunsIff(tick: Ticker, s: Sys, l: Label)
    requires CanStep(s, l)
    ensures Step(tick, s, l).cron.running <==>
              if l.Start? then s.cron.running || (!s.cron.disk.Unreadable? && l.save == Written)
              else !l.Stop? && !l.Restart? && s.cron.running
  {
  }

  lemma {:induction false} StaysStopped(tick: Ticker, clock: int, run: seq<Label>, more: seq<Label>)
    requires !After(tick, clock, run).cron.running && forall i :: 0 <= i < |more| ==> !more[i].Start?
    ensures var s, s' := After(tick, clock, run), After(tick, clock, run + more);
            !s'.cron.running && s'.fired == s.fired
    decreases |more|
  {
    if more == [] {
      assert run + more == run;
    } else {
      var past, l := more[..|more| - 1], more[|more| - 1];
      StaysStopped(tick, clock, run, past);
      var s := After(tick, clock, run + past);
      assert (run + more)[..|run + past|] == run + past && (run + more)[|run + past|] == l;
      if CanStep(s, l) {
        RunsIff(tick, s, l);
        assert Step(tick, s, l).fired == s.fired;
      }
    }
  }

  /** After a stop no job is collected until a further start. */
  lemma StoppedIsSilent(tick: Ticker, clock: int, run: seq<Label>, more: seq<Label>)
    requires forall i :: 0 <= i < |more| ==> !more[i].Start?
    ensures After(tick, clock, run + [Stop] + more).fired == After(tick, clock, run).fired
  {
    var s := After(tick, clock, run);
    assert (run + [Stop])[..|run|] == run;
    RunsIff(tick, s, Stop);
    StaysStopped(tick, clock, run + [Stop], more);
  }

  // ---------------------------------------------------------------------------
  // Switched on, and collected
  // ---------------------------------------------------------------------------

  /** A job that is switched on is enabled, with the next time of its schedule. */
  lemma SwitchedOnIsTimed(tick: Ticker, clock: int, run: seq<Label>, id: nat, now: int, save: Save)
    requires var s := After(tick, clock, run);
             s.clock <= now && JobIn(s.cron.jobs, id).Some?
    ensures var before := JobIn(After(tick, clock, run).cron.jobs, id).value;
            var after := JobIn(After(tick, clock, run + [Enable(id, true, now, save)]).cron.jobs, id);
            && after.Some? && after.value.enabled && after.value.schedule == before.schedule
            && NextTime(tick, before.schedule, now, after.value.nextRun)
  {
    var on := Enable(id, true, now, save);
    assert (run + [on])[..|run|] == run;
    StepChanges(tick, clock, run, on, id);
  }

  /** What a tick makes of the list of firings and of its executions, by the job with this id. */
  predicate Collects(s: Sys, s': Sys, id: nat, exec: nat, now: int) {
    && s.fired <= s'.fired
    && (s.cron.running && DueNow(JobIn(s.cron.jobs, id), now)
        <==> exists a :: |s.fired| <= a < |s'.fired| && s'.fired[a] == Firing(id, now))
    && exec in s'.execs && s'.execs[exec].current.None?
    && |s'.execs[exec].queue| == |s'.fired| - |s.fired|
    && forall i :: 0 <= i < |s'.fired| - |s.fired| ==> s'.execs[exec].queue[i] == |s.fired| + i
  }

  lemma TickCollects(tick: Ticker, s: Sys, l: Label, id: nat)
    requires l.Tick? && CanStep(s, l) && ListOk(s.cron.jobs, s.schedules)
    ensures Collects(s, Step(tick, s, l), id, l.exec, l.now)
  {
    var due := DueAt(s.cron, l.now);
    DueByJob(s.cron.jobs, l.now, id, s.schedules);
    if id in due {
      var i :| 0 <= i < |due| && due[i] == id;
      assert Step(tick, s, l).fired[|s.fired| + i] == Firing(id, l.now);
    }
  }

  /** A tick of the running service collects a job exactly when it is in the list, enabled and due, and hands it
      to the executions of that tick. */
  lemma CollectedIff(tick: Ticker, clock: int, run: seq<Label>, l: Label, id: nat)
    requires l.Tick? && CanStep(After(tick, clock, run), l)
    ensures Collects(After(tick, clock, run), Step(tick, After(tick, clock, run), l), id, l.exec, l.now)
  {
    Reachable(tick, clock, run);
    TickCollects(tick, After(tick, clock, run), l, id);
  }

  /** An execution that is next in line starts its handler exactly when the job is still in the list; disabling
      it in between does not stop it. */
  lemma BegunIff(tick: Ticker, s: Sys, l: Label)
    requires l.Begin? && CanStep(s, l)
    ensures var s', ticket := Step(tick, s, l), s.execs[l.exec].queue[0];
            && s'.history == s.history + (if JobIn(s.cron.jobs, s.fired[ticket].id).Some? then [Began(ticket, l.now)]
                                          else [])
            && s'.execs[l.exec].queue == s.execs[l.exec].queue[1..] && s'.cron == s.cron
  {
    assert s.history + [] == s.history;
  }

  /** The pieces together: a repeating job that is switched on while the service runs is collected by the first
      tick that comes a period later or after. */
  lemma SwitchedOnIsCollected(tick: Ticker, clock: int, run: seq<Label>, id: nat, now: int, save: Save, exec: nat,
                              later: int, save': Save, period: int)
    requires var s := After(tick, clock, run);
             && s.clock <= now && s.cron.running && JobIn(s.cron.jobs, id).Some? && exec !in s.execs
             && JobIn(s.cron.jobs, id).value.schedule.kind == Every
             && JobIn(s.cron.jobs, id).value.schedule.every == Some(period)
    requires period > 0 && -MAX_INT64 <= now && now + period <= MAX_INT64 && now <= later
    ensures var s := After(tick, clock, run + [Enable(id, true, now, save)]);
            var s' := After(tick, clock, run + [Enable(id, true, now, save)] + [Tick(exec, later, save')]);
            now + period <= later
            <==> exists a :: |s.fired| <= a < |s'.fired| && s'.fired[a] == Firing(id, later)
  {
    var on, at := Enable(id, true, now, save), Tick(exec, later, save');
    var past := run + [on];
    assert past[..|run|] == run && (past + [at])[..|past|] == past;
    SwitchedOnIsTimed(tick, clock, run, id, now, save);
    CollectedIff(tick, clock, past, at, id);
  }
}
