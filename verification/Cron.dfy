/** The cron scheduler's critical sections, over an in-memory job list and its copy on disk. */
module Cron {
  import opened Wrappers

  const MAX_INT64: int := 0x7fff_ffff_ffff_ffff

  /** Two's complement wrap-around of a 64-bit sum. */
  function Wrap64(x: int): int {
    (x + MAX_INT64 + 1) % (2 * (MAX_INT64 + 1)) - (MAX_INT64 + 1)
  }

  datatype Kind = At | Every | CronTab | OtherKind

  datatype Schedule = Schedule(kind: Kind, at: Option<int>, every: Option<int>, expr: string)

  datatype Status = NeverRun | Succeeded | Errored(message: string)

  datatype Job = Job(id: nat, enabled: bool, schedule: Schedule, nextRun: Option<int>, lastRun: Option<int>,
                     status: Status, deleteAfterRun: bool)

  /** The evaluation of cron expressions. */
  type Ticker = (string, int) -> Option<int>

  function ComputeNextRun(tick: Ticker, schedule: Schedule, now: int): Option<int> {
    match schedule.kind
    case At => if schedule.at.Some? && schedule.at.value > now then schedule.at else None
    case Every =>
      if schedule.every.None? || schedule.every.value <= 0 then None
      else Some(Wrap64(now + schedule.every.value))
    case CronTab => if schedule.expr == "" then None else tick(schedule.expr, now)
    case OtherKind => None
  }

  /** The store file: absent, unreadable, or a snapshot of the jobs. */
  datatype Disk = Missing | Unreadable | Stored(jobs: seq<Job>)

  /** What a save does: it succeeds, fails without touching the file, or fails leaving it damaged. */
  datatype Save = Written | Untouched | Damaged

  function Saved(disk: Disk, jobs: seq<Job>, save: Save): Disk {
    match save
    case Written => Stored(jobs)
    case Untouched => disk
    case Damaged => Unreadable
  }

  datatype State = State(jobs: seq<Job>, running: bool, disk: Disk)

  function OnDisk(disk: Disk): seq<Job> {
    if disk.Stored? then disk.jobs else []
  }

  function Loaded(s: State): State {
    s.(jobs := OnDisk(s.disk))
  }

  function Rescheduled(tick: Ticker, job: Job, now: int): Job {
    if job.enabled then job.(nextRun := ComputeNextRun(tick, job.schedule, now)) else job
  }

  function Recomputed(tick: Ticker, jobs: seq<Job>, now: int): seq<Job> {
    seq(|jobs|, i requires 0 <= i < |jobs| => Rescheduled(tick, jobs[i], now))
  }

  function Started(tick: Ticker, s: State, now: int, save: Save): State {
    if s.running then s
    else if s.disk.Unreadable? then s.(jobs := [])
    else
      var jobs := Recomputed(tick, OnDisk(s.disk), now);
      State(jobs, save.Written?, Saved(s.disk, jobs, save))
  }

  predicate IsDue(job: Job, now: int) {
    job.enabled && job.nextRun.Some? && job.nextRun.value <= now
  }

  /** The ids of the due jobs, in the order of the job list. */
  function Due(jobs: seq<Job>, now: int): seq<nat> {
    if jobs == [] then []
    else
      var last := jobs[|jobs| - 1];
      Due(jobs[..|jobs| - 1], now) + (if IsDue(last, now) then [last.id] else [])
  }

  function ClearedJob(job: Job, due: seq<nat>): Job {
    if job.id in due then job.(nextRun := None) else job
  }

  function Cleared(jobs: seq<Job>, due: seq<nat>): seq<Job> {
    seq(|jobs|, i requires 0 <= i < |jobs| => ClearedJob(jobs[i], due))
  }

  function Collected(s: State, now: int, save: Save): State {
    if !s.running then s
    else
      var jobs := Cleared(s.jobs, Due(s.jobs, now));
      s.(jobs := jobs, disk := Saved(s.disk, jobs, save))
  }

  /** The position of the first job with an id, or the number of jobs. */
  function Find(jobs: seq<Job>, id: nat): (i: nat)
    ensures i <= |jobs|
    ensures i < |jobs| ==> jobs[i].id == id
    ensures forall j :: 0 <= j < i ==> jobs[j].id != id
  {
    if jobs == [] || jobs[0].id == id then 0 else 1 + Find(jobs[1..], id)
  }

  function Without(jobs: seq<Job>, id: nat): seq<Job> {
    if jobs == [] then []
    else Without(jobs[..|jobs| - 1], id) + (if jobs[|jobs| - 1].id == id then [] else [jobs[|jobs| - 1]])
  }

  function AfterRun(tick: Ticker, job: Job, start: int, now: int, status: Status): Job {
    var job' := job.(lastRun := Some(start), status := status);
    if job.schedule.kind == At then job'.(enabled := false, nextRun := None)
    else job'.(nextRun := ComputeNextRun(tick, job.schedule, now))
  }

  /** The end of an execution.  A one-shot job that deletes itself is saved twice. */
  function Finished(tick: Ticker, s: State, id: nat, start: int, now: int, status: Status, first: Save, last: Save)
    : State
  {
    var i := Find(s.jobs, id);
    if i == |s.jobs| then s
    else if s.jobs[i].schedule.kind == At && s.jobs[i].deleteAfterRun then
      var jobs := Without(s.jobs, id);
      s.(jobs := jobs, disk := Saved(Saved(s.disk, jobs, first), jobs, last))
    else
      var jobs := s.jobs[i := AfterRun(tick, s.jobs[i], start, now, status)];
      s.(jobs := jobs, disk := Saved(s.disk, jobs, last))
  }

  function Enabled(tick: Ticker, s: State, id: nat, on: bool, now: int, save: Save): State {
    var i := Find(s.jobs, id);
    if i == |s.jobs| then s
    else
      var next := if on then ComputeNextRun(tick, s.jobs[i].schedule, now) else None;
      var jobs := s.jobs[i := s.jobs[i].(enabled := on, nextRun := next)];
      s.(jobs := jobs, disk := Saved(s.disk, jobs, save))
  }

  function Removed(s: State, id: nat, save: Save): State {
    var jobs := Without(s.jobs, id);
    if |jobs| < |s.jobs| then s.(jobs := jobs, disk := Saved(s.disk, jobs, save)) else s
  }

  function NewJob(tick: Ticker, id: nat, schedule: Schedule, now: int): Job {
    Job(id, true, schedule, ComputeNextRun(tick, schedule, now), None, NeverRun, schedule.kind == At)
  }

  function Added(tick: Ticker, s: State, id: nat, schedule: Schedule, now: int, save: Save): State {
    var jobs := s.jobs + [NewJob(tick, id, schedule, now)];
    s.(jobs := jobs, disk := Saved(s.disk, jobs, save))
  }

  /** The service.  Each method is one critical section of the program; clock readings, the outcome of
      saves and the id generator's results are parameters. */
  class CronService {
    var jobs: seq<Job>
    var running: bool
    var disk: Disk
    const tick: Ticker

    ghost function View(): State
      reads this
    {
      State(jobs, running, disk)
    }

    constructor (disk: Disk, tick: Ticker)
      ensures View() == Loaded(State([], false, disk)) && this.tick == tick
    {
      this.jobs, this.running, this.disk, this.tick := OnDisk(disk), false, disk, tick;
    }

    method LoadStore() returns (ok: bool)
      modifies `jobs
      ensures View() == Loaded(old(View()))
      ensures ok == !disk.Unreadable?
    {
      jobs := [];
      match disk {
        case Missing => ok := true;
        case Unreadable => ok := false;
        case Stored(stored) => jobs, ok := stored, true;
      }
    }

    method SaveStore(save: Save) returns (ok: bool)
      modifies `disk
      ensures disk == Saved(old(disk), jobs, save) && ok == save.Written?
    {
      match save {
        case Written => disk := Stored(jobs);
        case Untouched =>
        case Damaged => disk := Unreadable;
      }
      ok := save.Written?;
    }

    method RecomputeNextRuns(now: int)
      modifies `jobs
      ensures jobs == Recomputed(tick, old(jobs), now)
    {
      var i := 0;
      while i < |jobs|
        invariant 0 <= i <= |jobs| == |old(jobs)|
        invariant forall k :: 0 <= k < i ==> jobs[k] == Rescheduled(tick, old(jobs)[k], now)
        invariant forall k :: i <= k < |jobs| ==> jobs[k] == old(jobs)[k]
      {
        if jobs[i].enabled {
          jobs := jobs[i := jobs[i].(nextRun := ComputeNextRun(tick, jobs[i].schedule, now))];
        }
        i := i + 1;
      }
    }

    method Start(now: int, save: Save) returns (ok: bool)
      modifies this
      ensures View() == Started(tick, old(View()), now, save)
      ensures ok == (old(running) || (!old(disk).Unreadable? && save.Written?))
    {
      if running {
        return true;
      }
      ok := LoadStore();
      if !ok {
        return;
      }
      RecomputeNextRuns(now);
      ok := SaveStore(save);
      if !ok {
        return;
      }
      running := true;
    }

    method Stop()
      modifies `running
      ensures View() == old(View()).(running := false)
    {
      running := false;
    }

    method ClearDue(due: seq<nat>)
      modifies `jobs
      ensures jobs == Cleared(old(jobs), due)
    {
      var i := 0;
      while i < |jobs|
        invariant 0 <= i <= |jobs| == |old(jobs)|
        invariant forall k :: 0 <= k < i ==> jobs[k] == ClearedJob(old(jobs)[k], due)
        invariant forall k :: i <= k < |jobs| ==> jobs[k] == old(jobs)[k]
      {
        if jobs[i].id in due {
          jobs := jobs[i := jobs[i].(nextRun := None)];
        }
        i := i + 1;
      }
    }

    /** The first half of a tick: collects the due jobs and clears their next run under the lock. */
    method CollectDue(now: int, save: Save) returns (due: seq<nat>)
      modifies `jobs, `disk
      ensures View() == Collected(old(View()), now, save)
      ensures due == if old(running) then Due(old(jobs), now) else []
    {
      due := [];
      if !running {
        return;
      }
      var i := 0;
      while i < |jobs|
        invariant 0 <= i <= |jobs|
        invariant due == Due(jobs[..i], now)
      {
        assert jobs[..i + 1][..i] == jobs[..i];
        if jobs[i].enabled && jobs[i].nextRun.Some? && jobs[i].nextRun.value <= now {
          due := due + [jobs[i].id];
        }
        i := i + 1;
      }
      assert jobs[..i] == jobs;
      ClearDue(due);
      var _ := SaveStore(save);
    }

    method FindJob(id: nat) returns (i: nat)
      ensures i == Find(jobs, id)
    {
      i := 0;
      while i < |jobs| && jobs[i].id != id
        invariant 0 <= i <= |jobs|
        invariant Find(jobs, id) == i + Find(jobs[i..], id)
      {
        i := i + 1;
      }
    }

    method RemoveJobUnsafe(id: nat, save: Save) returns (removed: bool)
      modifies `jobs, `disk
      ensures View() == Removed(old(View()), id, save)
      ensures removed == (|Without(old(jobs), id)| < |old(jobs)|)
    {
      var kept := [];
      var i := 0;
      while i < |jobs|
        invariant 0 <= i <= |jobs|
        invariant kept == Without(jobs[..i], id)
      {
        assert jobs[..i + 1][..i] == jobs[..i];
        if jobs[i].id != id {
          kept := kept + [jobs[i]];
        }
        i := i + 1;
      }
      assert jobs[..i] == jobs;
      WithoutShorter(jobs, id);
      removed := |kept| < |jobs|;
      if !removed {
        return;
      }
      jobs := kept;
      var _ := SaveStore(save);
    }

    /** The second half of an execution, after the handler has returned. */
    method FinishJob(id: nat, start: int, now: int, status: Status, first: Save, last: Save)
      modifies `jobs, `disk
      ensures View() == Finished(tick, old(View()), id, start, now, status, first, last)
    {
      var i := FindJob(id);
      if i == |jobs| {
        return;
      }
      var job := jobs[i].(lastRun := Some(start), status := status);
      if job.schedule.kind == At {
        if job.deleteAfterRun {
          WithoutShrinks(jobs, i);
          var _ := RemoveJobUnsafe(id, first);
        } else {
          jobs := jobs[i := job.(enabled := false, nextRun := None)];
        }
      } else {
        jobs := jobs[i := job.(nextRun := ComputeNextRun(tick, job.schedule, now))];
      }
      var _ := SaveStore(last);
    }

    /** Even when the save fails, and the caller is told so, the job stays scheduled in memory. */
    method AddJob(id: nat, schedule: Schedule, now: int, save: Save) returns (ok: bool)
      modifies `jobs, `disk
      ensures View() == Added(tick, old(View()), id, schedule, now, save)
      ensures ok == save.Written?
    {
      jobs := jobs + [NewJob(tick, id, schedule, now)];
      ok := SaveStore(save);
    }

    method EnableJob(id: nat, on: bool, now: int, save: Save) returns (found: bool)
      modifies `jobs, `disk
      ensures View() == Enabled(tick, old(View()), id, on, now, save)
      ensures found == (Find(old(jobs), id) < |old(jobs)|)
    {
      var i := FindJob(id);
      if i == |jobs| {
        return false;
      }
      var next := None;
      if on {
        next := ComputeNextRun(tick, jobs[i].schedule, now);
      }
      jobs := jobs[i := jobs[i].(enabled := on, nextRun := next)];
      var _ := SaveStore(save);
      found := true;
    }
  }

  lemma {:induction false} WithoutShorter(jobs: seq<Job>, id: nat)
    ensures |Without(jobs, id)| <= |jobs|
    ensures |Without(jobs, id)| == |jobs| ==> Without(jobs, id) == jobs
  {
    if jobs != [] { WithoutShorter(jobs[..|jobs| - 1], id); }
  }

  /** Removal keeps the jobs with other ids and only those. */
  lemma {:induction false} WithoutKeeps(jobs: seq<Job>, id: nat, job: Job)
    ensures job in Without(jobs, id) <==> job in jobs && job.id != id
  {
    if jobs != [] {
      var past, last := jobs[..|jobs| - 1], jobs[|jobs| - 1];
      WithoutKeeps(past, id, job);
      assert jobs == past + [last];
    }
  }

  lemma WithoutShrinks(jobs: seq<Job>, i: nat)
    requires i < |jobs|
    ensures |Without(jobs, jobs[i].id)| < |jobs|
  {
    WithoutShorter(jobs, jobs[i].id);
    WithoutKeeps(jobs, jobs[i].id, jobs[i]);
  }

  /** Reloading the store without recomputing repeats a due job exactly when the save that should have
      recorded its collection left the file as it was. */
  lemma ReloadRepeatsIff(s: State, now: int, save: Save, id: nat)
    requires s.running && s.disk == Stored(s.jobs) && id in Due(s.jobs, now)
    ensures id in Due(Loaded(Collected(s, now, save)).jobs, now) <==> save == Untouched
  {
    var s' := Collected(s, now, save);
    if save == Written {
      DueIff(s'.jobs, now, id);
    }
  }

  lemma {:induction false} DueIff(jobs: seq<Job>, now: int, id: nat)
    ensures id in Due(jobs, now) <==> exists i :: 0 <= i < |jobs| && jobs[i].id == id && IsDue(jobs[i], now)
  {
    if jobs != [] {
      var past := jobs[..|jobs| - 1];
      DueIff(past, now, id);
      if id in Due(past, now) {
        var i :| 0 <= i < |past| && past[i].id == id && IsDue(past[i], now);
        assert jobs[i] == past[i];
      }
      if i :| 0 <= i < |jobs| && jobs[i].id == id && IsDue(jobs[i], now) {
        assert i < |past| ==> past[i] == jobs[i];
      }
    }
  }
}
