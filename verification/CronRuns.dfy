/** The scheduler over whole runs: ticks, handler executions, and client calls interleaved in any way,
    with a non-decreasing clock, failing saves, Stop/Start reloads and process restarts. */
module CronRuns {
  import opened Wrappers
  import opened Cron

  /** A job that a tick collected.  Its position in the list of firings is its ticket. */
  datatype Firing = Firing(id: nat, time: int)

  datatype Running = Running(ticket: nat, start: int)

  /** One tick's executions: the tickets still to run, and the handler that is running. */
  datatype Exec = Exec(queue: seq<nat>, current: Option<Running>)

  datatype Event = Began(ticket: nat, time: int) | Ended(ticket: nat, time: int) | Crashed

  datatype Sys = Sys(cron: State, clock: int, schedules: seq<Schedule>, fired: seq<Firing>,
                     execs: map<nat, Exec>, history: seq<Event>)

  datatype Label =
    | Tick(exec: nat, now: int, save: Save)
    | Begin(exec: nat, now: int)
    | End(exec: nat, now: int, status: Status, first: Save, last: Save)
    | Start(now: int, save: Save)
    | Stop
    | Enable(id: nat, on: bool, now: int, save: Save)
    | Remove(id: nat, save: Save)
    | Add(schedule: Schedule, now: int, save: Save)
    | Restart                                          // the process dies and comes back

  function TimeOf(s: Sys, l: Label): int {
    match l
    case Tick(_, now, _) => now
    case Begin(_, now) => now
    case End(_, now, _, _, _) => now
    case Start(now, _) => now
    case Enable(_, _, now, _) => now
    case Add(_, now, _) => now
    case _ => s.clock
  }

  predicate CanStep(s: Sys, l: Label) {
    && TimeOf(s, l) >= s.clock
    && match l
       case Tick(exec, _, _) => exec !in s.execs
       case Begin(exec, _) =>
         && exec in s.execs && s.execs[exec].current.None? && s.execs[exec].queue != []
         && s.execs[exec].queue[0] < |s.fired|
       case End(exec, _, _, _, _) =>
         exec in s.execs && s.execs[exec].current.Some? && s.execs[exec].current.value.ticket < |s.fired|
       case _ => true
  }

  function Firings(due: seq<nat>, now: int): seq<Firing> {
    seq(|due|, i requires 0 <= i < |due| => Firing(due[i], now))
  }

  function Tickets(from: nat, n: nat): seq<nat> {
    seq(n, i requires 0 <= i < n => from + i)
  }

  function DueAt(s: State, now: int): seq<nat> {
    if s.running then Due(s.jobs, now) else []
  }

  function Step(tick: Ticker, s: Sys, l: Label): Sys
    requires CanStep(s, l)
  {
    var t := s.(clock := TimeOf(s, l));
    match l
    case Tick(exec, now, save) =>
      var due := DueAt(s.cron, now);
      t.(cron := Collected(s.cron, now, save),
         fired := s.fired + Firings(due, now),
         execs := s.execs[exec := Exec(Tickets(|s.fired|, |due|), None)])
    case Begin(exec, now) =>
      var e := s.execs[exec];
      var ticket := e.queue[0];
      if Find(s.cron.jobs, s.fired[ticket].id) == |s.cron.jobs| then
        t.(execs := s.execs[exec := Exec(e.queue[1..], None)])
      else
        t.(execs := s.execs[exec := Exec(e.queue[1..], Some(Running(ticket, now)))],
           history := s.history + [Began(ticket, now)])
    case End(exec, now, status, first, last) =>
      var e := s.execs[exec];
      var r := e.current.value;
      t.(cron := Finished(tick, s.cron, s.fired[r.ticket].id, r.start, now, status, first, last),
         execs := s.execs[exec := Exec(e.queue, None)],
         history := s.history + [Ended(r.ticket, now)])
    case Start(now, save) => t.(cron := Started(tick, s.cron, now, save))
    case Stop => t.(cron := s.cron.(running := false))
    case Enable(id, on, now, save) => t.(cron := Enabled(tick, s.cron, id, on, now, save))
    case Remove(id, save) => t.(cron := Removed(s.cron, id, save))
    case Add(schedule, now, save) =>
      t.(cron := Added(tick, s.cron, |s.schedules|, schedule, now, save), schedules := s.schedules + [schedule])
    case Restart =>
      t.(cron := Loaded(s.cron.(running := false)), execs := map[], history := s.history + [Crashed])
  }

  function Initial(clock: int): Sys {
    Sys(State([], false, Missing), clock, [], [], map[], [])
  }

  /** The system after a run; labels whose step cannot be taken are skipped. */
  function After(tick: Ticker, clock: int, run: seq<Label>): Sys {
    if run == [] then Initial(clock)
    else
      var s, l := After(tick, clock, run[..|run| - 1]), run[|run| - 1];
      if CanStep(s, l) then Step(tick, s, l) else s
  }

  // ---------------------------------------------------------------------------
  // The job lists, in memory and on disk
  // ---------------------------------------------------------------------------

  /** A job keeps the schedule it was added with; a one-shot job's next run is its own time and is set
      only while the job is enabled. */
  predicate JobOk(job: Job, schedules: seq<Schedule>) {
    && job.id < |schedules| && job.schedule == schedules[job.id]
    && (job.schedule.kind == At && job.nextRun.Some? ==> job.enabled && job.nextRun == job.schedule.at)
  }

  predicate ListOk(jobs: seq<Job>, schedules: seq<Schedule>) {
    && (forall i :: 0 <= i < |jobs| ==> JobOk(jobs[i], schedules))
    && (forall i, j :: 0 <= i < j < |jobs| ==> jobs[i].id != jobs[j].id)
  }

  predicate StoreOk(s: State, schedules: seq<Schedule>) {
    ListOk(s.jobs, schedules) && ListOk(OnDisk(s.disk), schedules)
  }

  lemma {:induction false} WithoutOk(jobs: seq<Job>, id: nat, schedules: seq<Schedule>)
    requires ListOk(jobs, schedules)
    ensures ListOk(Without(jobs, id), schedules)
  {
    if jobs != [] {
      var past, last := jobs[..|jobs| - 1], jobs[|jobs| - 1];
      WithoutOk(past, id, schedules);
      forall i | 0 <= i < |Without(past, id)| ensures Without(past, id)[i].id != last.id {
        WithoutKeeps(past, id, Without(past, id)[i]);
      }
    }
  }

  lemma UpdateOk(jobs: seq<Job>, i: nat, job: Job, schedules: seq<Schedule>)
    requires ListOk(jobs, schedules) && i < |jobs| && job.id == jobs[i].id && JobOk(job, schedules)
    ensures ListOk(jobs[i := job], schedules)
  {
  }

  lemma CollectOk(s: State, now: int, save: Save, schedules: seq<Schedule>)
    requires StoreOk(s, schedules)
    ensures StoreOk(Collected(s, now, save), schedules)
  {
  }

  lemma StartOk(tick: Ticker, s: State, now: int, save: Save, schedules: seq<Schedule>)
    requires StoreOk(s, schedules)
    ensures StoreOk(Started(tick, s, now, save), schedules)
  {
  }

  lemma FinishOk(tick: Ticker, s: State, id: nat, start: int, now: int, status: Status, first: Save, last: Save,
                 schedules: seq<Schedule>)
    requires StoreOk(s, schedules)
    ensures StoreOk(Finished(tick, s, id, start, now, status, first, last), schedules)
  {
    WithoutOk(s.jobs, id, schedules);
    var i := Find(s.jobs, id);
    if i < |s.jobs| {
      UpdateOk(s.jobs, i, AfterRun(tick, s.jobs[i], start, now, status), schedules);
    }
  }

  lemma EnableOk(tick: Ticker, s: State, id: nat, on: bool, now: int, save: Save, schedules: seq<Schedule>)
    requires StoreOk(s, schedules)
    ensures StoreOk(Enabled(tick, s, id, on, now, save), schedules)
  {
    var i := Find(s.jobs, id);
    if i < |s.jobs| {
      var next := if on then ComputeNextRun(tick, s.jobs[i].schedule, now) else None;
      UpdateOk(s.jobs, i, s.jobs[i].(enabled := on, nextRun := next), schedules);
    }
  }

  lemma AddOk(tick: Ticker, s: State, schedule: Schedule, now: int, save: Save, schedules: seq<Schedule>)
    requires StoreOk(s, schedules)
    ensures StoreOk(Added(tick, s, |schedules|, schedule, now, save), schedules + [schedule])
  {
  }

  lemma StoreStep(tick: Ticker, s: Sys, l: Label)
    requires StoreOk(s.cron, s.schedules) && CanStep(s, l)
    ensures StoreOk(Step(tick, s, l).cron, Step(tick, s, l).schedules)
  {
    match l {
      case Tick(_, now, save) => CollectOk(s.cron, now, save, s.schedules);
      case Begin(_, _) =>
      case End(exec, now, status, first, last) =>
        var r := s.execs[exec].current.value;
        FinishOk(tick, s.cron, s.fired[r.ticket].id, r.start, now, status, first, last, s.schedules);
      case Start(now, save) => StartOk(tick, s.cron, now, save, s.schedules);
      case Stop =>
      case Enable(id, on, now, save) => EnableOk(tick, s.cron, id, on, now, save, s.schedules);
      case Remove(id, _) => WithoutOk(s.cron.jobs, id, s.schedules);
      case Add(schedule, now, save) => AddOk(tick, s.cron, schedule, now, save, s.schedules);
      case Restart =>
    }
  }

  // ---------------------------------------------------------------------------
  // Bounds on the next run of a job
  // ---------------------------------------------------------------------------

  /** A next run is unset or, if there is a bound, not before it; without a bound it has to be unset. */
  predicate Within(next: Option<int>, bound: Option<int>) {
    next.Some? ==> bound.Some? && bound.value <= next.value
  }

  /** While the service runs, the job does not become due before the bound. */
  predicate NotBefore(s: State, id: nat, bound: Option<int>) {
    s.running ==> ListNotBefore(s.jobs, id, bound)
  }

  predicate ListNotBefore(jobs: seq<Job>, id: nat, bound: Option<int>) {
    forall i :: 0 <= i < |jobs| && jobs[i].id == id && jobs[i].enabled ==> Within(jobs[i].nextRun, bound)
  }

  lemma {:induction false} WithoutNotBefore(jobs: seq<Job>, id: nat, job: nat, bound: Option<int>)
    requires ListNotBefore(jobs, job, bound)
    ensures ListNotBefore(Without(jobs, id), job, bound)
  {
    if jobs != [] { WithoutNotBefore(jobs[..|jobs| - 1], id, job, bound); }
  }

  lemma NotDueBefore(s: State, now: int, id: nat, bound: Option<int>)
    requires NotBefore(s, id, bound)
    ensures id in DueAt(s, now) ==> bound.Some? && bound.value <= now
  {
    DueIff(s.jobs, now, id);
  }

  lemma FinishNotBefore(tick: Ticker, s: State, id: nat, start: int, now: int, status: Status, first: Save,
                        last: Save, job: nat, bound: Option<int>, schedules: seq<Schedule>)
    requires StoreOk(s, schedules) && job < |schedules| && NotBefore(s, job, bound)
    requires Within(ComputeNextRun(tick, schedules[job], now), bound)
    ensures NotBefore(Finished(tick, s, id, start, now, status, first, last), job, bound)
  {
    if s.running { WithoutNotBefore(s.jobs, id, job, bound); }
  }

  lemma RemoveNotBefore(s: State, id: nat, save: Save, job: nat, bound: Option<int>)
    requires NotBefore(s, job, bound)
    ensures NotBefore(Removed(s, id, save), job, bound)
  {
    if s.running { WithoutNotBefore(s.jobs, id, job, bound); }
  }

  lemma EnableNotBefore(tick: Ticker, s: State, id: nat, on: bool, now: int, save: Save, job: nat,
                        bound: Option<int>, schedules: seq<Schedule>)
    requires StoreOk(s, schedules) && job < |schedules| && NotBefore(s, job, bound)
    requires Within(ComputeNextRun(tick, schedules[job], now), bound)
    ensures NotBefore(Enabled(tick, s, id, on, now, save), job, bound)
  {
  }

  lemma StartNotBefore(tick: Ticker, s: State, now: int, save: Save, job: nat, bound: Option<int>,
                       schedules: seq<Schedule>)
    requires StoreOk(s, schedules) && job < |schedules| && NotBefore(s, job, bound)
    requires Within(ComputeNextRun(tick, schedules[job], now), bound)
    ensures NotBefore(Started(tick, s, now, save), job, bound)
  {
  }

  /** A bound that a newly computed next run of the job would respect is kept by every step. */
  lemma NotBeforeStep(tick: Ticker, s: Sys, l: Label, job: nat, bound: Option<int>)
    requires StoreOk(s.cron, s.schedules) && CanStep(s, l) && job < |s.schedules|
    requires NotBefore(s.cron, job, bound)
    requires Within(ComputeNextRun(tick, s.schedules[job], TimeOf(s, l)), bound)
    ensures NotBefore(Step(tick, s, l).cron, job, bound)
  {
    match l {
      case Tick(_, _, _) =>
      case Begin(_, _) =>
      case End(exec, now, status, first, last) =>
        var r := s.execs[exec].current.value;
        FinishNotBefore(tick, s.cron, s.fired[r.ticket].id, r.start, now, status, first, last, job, bound, s.schedules);
      case Start(now, save) => StartNotBefore(tick, s.cron, now, save, job, bound, s.schedules);
      case Stop =>
      case Enable(id, on, now, save) => EnableNotBefore(tick, s.cron, id, on, now, save, job, bound, s.schedules);
      case Remove(id, save) => RemoveNotBefore(s.cron, id, save, job, bound);
      case Add(_, _, _) =>
      case Restart =>
    }
  }

  // ---------------------------------------------------------------------------
  // One-shot jobs
  // ---------------------------------------------------------------------------

  predicate OneShot(s: Sys, id: nat) {
    id < |s.schedules| && s.schedules[id].kind == At
  }

  /** The time of a one-shot job has come and its next run is not set: it will not fire any more. */
  predicate Spent(s: Sys, id: nat) {
    && OneShot(s, id) && s.schedules[id].at.Some? && s.schedules[id].at.value <= s.clock
    && NotBefore(s.cron, id, None)
  }

  lemma SpentStep(tick: Ticker, s: Sys, l: Label, id: nat)
    requires StoreOk(s.cron, s.schedules) && CanStep(s, l) && Spent(s, id)
    ensures Spent(Step(tick, s, l), id)
    ensures l.Tick? ==> id !in DueAt(s.cron, l.now)
  {
    NotBeforeStep(tick, s, l, id, None);
    if l.Tick? { NotDueBefore(s.cron, l.now, id, None); }
  }

  /** A one-shot job that a tick collects is due, and is spent by that tick. */
  lemma CollectionSpends(tick: Ticker, s: Sys, l: Label, id: nat)
    requires StoreOk(s.cron, s.schedules) && CanStep(s, l) && l.Tick?
    requires id in DueAt(s.cron, l.now) && OneShot(s, id)
    ensures Spent(Step(tick, s, l), id)
  {
    DueIff(s.cron.jobs, l.now, id);
  }

  lemma {:induction false} DueDistinct(jobs: seq<Job>, now: int, schedules: seq<Schedule>)
    requires ListOk(jobs, schedules)
    ensures forall i, j :: 0 <= i < j < |Due(jobs, now)| ==> Due(jobs, now)[i] != Due(jobs, now)[j]
    ensures forall i :: 0 <= i < |Due(jobs, now)| ==> Due(jobs, now)[i] < |schedules|
  {
    if jobs != [] {
      var past, last := jobs[..|jobs| - 1], jobs[|jobs| - 1];
      DueDistinct(past, now, schedules);
      DueIff(past, now, last.id);
    }
  }

  /** Every firing is of a known job and not in the future; a one-shot job that fired is spent and has
      fired once, at or after its time. */
  ghost predicate FiredOk(s: Sys) {
    forall a :: 0 <= a < |s.fired| ==>
      && s.fired[a].id < |s.schedules| && s.fired[a].time <= s.clock
      && (OneShot(s, s.fired[a].id) ==>
            && Spent(s, s.fired[a].id) && s.schedules[s.fired[a].id].at.value <= s.fired[a].time
            && forall b :: 0 <= b < |s.fired| && b != a ==> s.fired[b].id != s.fired[a].id)
  }

  lemma DueOnTime(s: Sys, now: int, id: nat)
    requires StoreOk(s.cron, s.schedules) && id in DueAt(s.cron, now) && OneShot(s, id)
    ensures s.schedules[id].at.Some? && s.schedules[id].at.value <= now
  {
    DueIff(s.cron.jobs, now, id);
  }

  lemma FiredStep(tick: Ticker, s: Sys, l: Label)
    requires StoreOk(s.cron, s.schedules) && FiredOk(s) && CanStep(s, l)
    ensures FiredOk(Step(tick, s, l))
  {
    var s' := Step(tick, s, l);
    var n := |s.fired|;
    var due := if l.Tick? then DueAt(s.cron, l.now) else [];
    assert s'.fired == s.fired + Firings(due, s'.clock);
    DueDistinct(s.cron.jobs, s'.clock, s.schedules);
    forall a | 0 <= a < |s'.fired|
      ensures s'.fired[a].id < |s'.schedules| && s'.fired[a].time <= s'.clock
      ensures OneShot(s', s'.fired[a].id) ==>
        && Spent(s', s'.fired[a].id) && s'.schedules[s'.fired[a].id].at.value <= s'.fired[a].time
        && forall b :: 0 <= b < |s'.fired| && b != a ==> s'.fired[b].id != s'.fired[a].id
    {
      var id := s'.fired[a].id;
      assert a < n ==> s'.fired[a] == s.fired[a];
      assert a >= n ==> s'.fired[a] == Firing(due[a - n], s'.clock) && id in due;
      if OneShot(s', id) {
        if a < n {
          SpentStep(tick, s, l, id);
        } else {
          CollectionSpends(tick, s, l, id);
          DueOnTime(s, l.now, id);
        }
        forall b | 0 <= b < |s'.fired| && b != a ensures s'.fired[b].id != id {
          assert b < n ==> s'.fired[b] == s.fired[b];
          assert b >= n ==> s'.fired[b] == Firing(due[b - n], s'.clock) && due[b - n] in due;
          if b < n && a >= n && s.fired[b].id == id {
            SpentStep(tick, s, l, id);
          }
        }
      }
    }
  }

  // ---------------------------------------------------------------------------
  // Tickets: each firing is executed at most once
  // ---------------------------------------------------------------------------

  predicate QueueOk(queue: seq<nat>, limit: nat) {
    && (forall i :: 0 <= i < |queue| ==> queue[i] < limit)
    && (forall i, j :: 0 <= i < j < |queue| ==> queue[i] != queue[j])
  }

  ghost predicate QueuesOk(s: Sys) {
    && (forall x :: x in s.execs ==> QueueOk(s.execs[x].queue, |s.fired|))
    && (forall x, y, t :: x in s.execs && y in s.execs && x != y && t in s.execs[x].queue ==> t !in s.execs[y].queue)
    && (forall x :: x in s.execs && s.execs[x].current.Some? ==> s.execs[x].current.value.ticket < |s.fired|)
  }

  lemma TailOk(queue: seq<nat>, limit: nat)
    requires QueueOk(queue, limit) && queue != []
    ensures QueueOk(queue[1..], limit) && queue[0] in queue && queue[0] !in queue[1..]
    ensures forall t :: t in queue[1..] ==> t in queue
  {
  }

  lemma TicketsOk(from: nat, n: nat)
    ensures QueueOk(Tickets(from, n), from + n)
    ensures forall t :: t in Tickets(from, n) ==> from <= t
  {
  }

  /** Handlers run for collected jobs only, not before their collection, once per ticket, and a ticket
      that was begun is in no queue any more. */
  ghost predicate HistoryOk(s: Sys) {
    forall k :: 0 <= k < |s.history| && s.history[k].Began? ==>
      && s.history[k].ticket < |s.fired|
      && s.fired[s.history[k].ticket].time <= s.history[k].time <= s.clock
      && (forall x :: x in s.execs ==> s.history[k].ticket !in s.execs[x].queue)
      && (forall m :: 0 <= m < |s.history| && m != k && s.history[m].Began? ==>
            s.history[m].ticket != s.history[k].ticket)
  }

  lemma QueuesStep(tick: Ticker, s: Sys, l: Label)
    requires QueuesOk(s) && CanStep(s, l)
    ensures QueuesOk(Step(tick, s, l))
  {
    match l {
      case Tick(_, now, _) =>
        TicketsOk(|s.fired|, |DueAt(s.cron, now)|);
        forall x, t | x in s.execs && t in s.execs[x].queue ensures t < |s.fired| {
          assert QueueOk(s.execs[x].queue, |s.fired|);
        }
      case Begin(exec, _) => TailOk(s.execs[exec].queue, |s.fired|);
      case _ =>
    }
  }

  lemma HistoryStep(tick: Ticker, s: Sys, l: Label)
    requires QueuesOk(s) && FiredOk(s) && HistoryOk(s) && CanStep(s, l)
    ensures HistoryOk(Step(tick, s, l))
  {
    var s' := Step(tick, s, l);
    if l.Begin? {
      TailOk(s.execs[l.exec].queue, |s.fired|);
    } else if l.Tick? {
      TicketsOk(|s.fired|, |DueAt(s.cron, l.now)|);
    }
  }

  ghost predicate Inv(s: Sys) {
    StoreOk(s.cron, s.schedules) && FiredOk(s) && QueuesOk(s) && HistoryOk(s)
  }

  lemma InvStep(tick: Ticker, s: Sys, l: Label)
    requires Inv(s) && CanStep(s, l)
    ensures Inv(Step(tick, s, l))
  {
    StoreStep(tick, s, l);
    FiredStep(tick, s, l);
    QueuesStep(tick, s, l);
    HistoryStep(tick, s, l);
  }

  lemma {:induction false} Reachable(tick: Ticker, clock: int, run: seq<Label>)
    ensures Inv(After(tick, clock, run))
  {
    if run != [] {
      Reachable(tick, clock, run[..|run| - 1]);
      var s, l := After(tick, clock, run[..|run| - 1]), run[|run| - 1];
      if CanStep(s, l) { InvStep(tick, s, l); }
    }
  }

  /** In every run the handler of a one-shot job starts at most once, and not before the job's time. */
  lemma OneShotStartsOnce(tick: Ticker, clock: int, run: seq<Label>, k: nat)
    requires var s := After(tick, clock, run);
             k < |s.history| && s.history[k].Began? && s.history[k].ticket < |s.fired|
             && OneShot(s, s.fired[s.history[k].ticket].id)
    ensures var s := After(tick, clock, run);
            var id := s.fired[s.history[k].ticket].id;
            && s.schedules[id].at.Some? && s.schedules[id].at.value <= s.history[k].time
            && forall m ::
                 (0 <= m < |s.history| && s.history[m].Began? && s.history[m].ticket < |s.fired|
                  && s.fired[s.history[m].ticket].id == id) ==> m == k
  {
    Reachable(tick, clock, run);
  }

  /** No step but a restart sets the next run of a job for which none can be computed, be the service
      running or not. */
  lemma UnsetStep(tick: Ticker, s: Sys, l: Label, job: nat)
    requires StoreOk(s.cron, s.schedules) && CanStep(s, l) && !l.Restart? && job < |s.schedules|
    requires ListNotBefore(s.cron.jobs, job, None)
    requires ComputeNextRun(tick, s.schedules[job], TimeOf(s, l)).None?
    ensures ListNotBefore(Step(tick, s, l).cron.jobs, job, None)
  {
    match l {
      case End(exec, now, status, first, last) =>
        WithoutNotBefore(s.cron.jobs, s.fired[s.execs[exec].current.value.ticket].id, job, None);
      case Remove(id, _) => WithoutNotBefore(s.cron.jobs, id, job, None);
      case _ =>
    }
  }

  /** Unless the process restarts, the next run of a one-shot job that has none, or is not in the list,
      becomes set only strictly before its time, also while the service is stopped. */
  lemma OneShotSetBefore(tick: Ticker, clock: int, run: seq<Label>, l: Label, id: nat, i: nat)
    requires CanStep(After(tick, clock, run), l) && !l.Restart?
    requires OneShot(After(tick, clock, run), id) && ListNotBefore(After(tick, clock, run).cron.jobs, id, None)
    requires var s' := Step(tick, After(tick, clock, run), l);
             i < |s'.cron.jobs| && s'.cron.jobs[i].id == id && s'.cron.jobs[i].nextRun.Some?
    ensures var s' := Step(tick, After(tick, clock, run), l);
            s'.cron.jobs[i].nextRun == s'.schedules[id].at && s'.clock < s'.schedules[id].at.value
  {
    var s := After(tick, clock, run);
    Reachable(tick, clock, run);
    InvStep(tick, s, l);
    if !(ComputeNextRun(tick, s.schedules[id], TimeOf(s, l)).Some?) {
      UnsetStep(tick, s, l, id);
    }
  }

  /** A one-shot job whose time passes while its next run is not set, for instance while the service is
      stopped, never fires, whatever happens later. */
  lemma {:induction false} MissedOneShotNeverFires(tick: Ticker, clock: int, run: seq<Label>, more: seq<Label>, id: nat)
    requires Spent(After(tick, clock, run), id)
    ensures Spent(After(tick, clock, run + more), id)
    ensures var n := |After(tick, clock, run).fired|;
            var fired := After(tick, clock, run + more).fired;
            n <= |fired| && forall a :: n <= a < |fired| ==> fired[a].id != id
    decreases |more|
  {
    if more == [] {
      assert run + more == run;
    } else {
      var past, l := more[..|more| - 1], more[|more| - 1];
      MissedOneShotNeverFires(tick, clock, run, past, id);
      assert run + more == run + past + [l];
      SpentOnce(tick, clock, run + past, l, id);
    }
  }

  lemma SpentOnce(tick: Ticker, clock: int, run: seq<Label>, l: Label, id: nat)
    requires Spent(After(tick, clock, run), id)
    ensures Spent(After(tick, clock, run + [l]), id)
    ensures var fired, fired' := After(tick, clock, run).fired, After(tick, clock, run + [l]).fired;
            fired <= fired' && forall a :: |fired| <= a < |fired'| ==> fired'[a].id != id
  {
    var s := After(tick, clock, run);
    assert (run + [l])[..|run|] == run;
    Reachable(tick, clock, run);
    if CanStep(s, l) {
      SpentStep(tick, s, l, id);
    }
  }

  // ---------------------------------------------------------------------------
  // Repeating jobs
  // ---------------------------------------------------------------------------

  predicate Repeats(s: Sys, id: nat, period: int) {
    id < |s.schedules| && s.schedules[id].kind == Every && s.schedules[id].every == Some(period) && period > 0
  }

  /** The 64-bit sum of a clock reading and the period does not wrap around. */
  predicate NoWrap(clock: int, period: int) {
    -MAX_INT64 <= clock && clock + period <= MAX_INT64
  }

  lemma ComputeEvery(tick: Ticker, schedule: Schedule, now: int, period: int)
    requires schedule.kind == Every && schedule.every == Some(period) && period > 0
    ensures NoWrap(now, period) ==> ComputeNextRun(tick, schedule, now) == Some(now + period)
    ensures now <= MAX_INT64 < now + period <= 2 * MAX_INT64 ==>
              ComputeNextRun(tick, schedule, now).Some? && ComputeNextRun(tick, schedule, now).value < 0
  {
  }

  /** After each firing the job does not become due again for a whole period. */
  ghost predicate SpacedOk(s: Sys, id: nat, period: int) {
    forall a :: 0 <= a < |s.fired| && s.fired[a].id == id ==>
      && NotBefore(s.cron, id, Some(s.fired[a].time + period))
      && forall b :: a < b < |s.fired| && s.fired[b].id == id ==> s.fired[b].time >= s.fired[a].time + period
  }

  lemma CollectSpaces(s: State, now: int, save: Save, id: nat, bound: Option<int>)
    requires id in DueAt(s, now)
    ensures NotBefore(Collected(s, now, save), id, bound)
  {
  }

  lemma SpacedStep(tick: Ticker, s: Sys, l: Label, id: nat, period: int)
    requires Inv(s) && CanStep(s, l)
    requires id < |s.schedules| ==> Repeats(s, id, period)
    requires SpacedOk(s, id, period)
    requires NoWrap(TimeOf(s, l), period) && period > 0
    ensures SpacedOk(Step(tick, s, l), id, period)
  {
    var s' := Step(tick, s, l);
    var n := |s.fired|;
    var due := if l.Tick? then DueAt(s.cron, l.now) else [];
    assert s'.fired == s.fired + Firings(due, s'.clock);
    DueDistinct(s.cron.jobs, s'.clock, s.schedules);
    forall a | 0 <= a < |s'.fired| && s'.fired[a].id == id
      ensures NotBefore(s'.cron, id, Some(s'.fired[a].time + period))
      ensures forall b :: a < b < |s'.fired| && s'.fired[b].id == id ==> s'.fired[b].time >= s'.fired[a].time + period
    {
      assert a < n ==> s'.fired[a] == s.fired[a];
      assert a >= n ==> s'.fired[a] == Firing(due[a - n], s'.clock) && id in due;
      var bound := Some(s'.fired[a].time + period);
      if a < n {
        ComputeEvery(tick, s.schedules[id], TimeOf(s, l), period);
        NotBeforeStep(tick, s, l, id, bound);
      } else {
        CollectSpaces(s.cron, l.now, l.save, id, bound);
      }
      forall b | a < b < |s'.fired| && s'.fired[b].id == id
        ensures s'.fired[b].time >= s'.fired[a].time + period
      {
        assert b < n ==> s'.fired[b] == s.fired[b];
        assert b >= n ==> s'.fired[b] == Firing(due[b - n], s'.clock) && due[b - n] in due;
        if a < n <= b {
          NotDueBefore(s.cron, l.now, id, bound);
        }
      }
    }
  }

  /** The clock of a run never goes back, and schedules are never changed. */
  lemma StepGrows(tick: Ticker, s: Sys, l: Label)
    requires CanStep(s, l)
    ensures s.clock <= Step(tick, s, l).clock && s.schedules <= Step(tick, s, l).schedules
  {
  }

  lemma {:induction false} SpacedRun(tick: Ticker, clock: int, run: seq<Label>, id: nat, period: int)
    requires var s := After(tick, clock, run);
             && (id < |s.schedules| ==> Repeats(s, id, period)) && period > 0
             && -MAX_INT64 <= clock && s.clock + period <= MAX_INT64
    ensures clock <= After(tick, clock, run).clock
    ensures SpacedOk(After(tick, clock, run), id, period)
  {
    if run != [] {
      var past, l := run[..|run| - 1], run[|run| - 1];
      var s := After(tick, clock, past);
      if CanStep(s, l) {
        StepGrows(tick, s, l);
      }
      SpacedRun(tick, clock, past, id, period);
      if CanStep(s, l) {
        Reachable(tick, clock, past);
        SpacedStep(tick, s, l, id, period);
      }
    }
  }

  /** In every run whose clock leaves room for one more period, any two collections of a repeating job
      are at least a period apart: whatever is enabled, disabled, stopped, reloaded or restarted between. */
  lemma CollectionsAreSpaced(tick: Ticker, clock: int, run: seq<Label>, a: nat, b: nat, period: int)
    requires var s := After(tick, clock, run);
             && a < b < |s.fired| && s.fired[a].id == s.fired[b].id && Repeats(s, s.fired[a].id, period)
             && -MAX_INT64 <= clock && s.clock + period <= MAX_INT64
    ensures var s := After(tick, clock, run);
            s.fired[b].time >= s.fired[a].time + period
  {
    SpacedRun(tick, clock, run, After(tick, clock, run).fired[a].id, period);
  }

  /** Without that room the sum wraps around: the job is due again at the very next tick. */
  lemma WrappedPeriodIsDueAtOnce(tick: Ticker, job: Job, now: int, period: int)
    requires job.enabled && job.schedule.kind == Every && job.schedule.every == Some(period) && period > 0
    requires 0 <= now <= MAX_INT64 && period <= MAX_INT64
    ensures IsDue(Rescheduled(tick, job, now), now) <==> now + period > MAX_INT64
  {
    ComputeEvery(tick, job.schedule, now, period);
  }
}
