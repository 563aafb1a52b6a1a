/** What a migration amounts to: the files that arrive, the directories made for them, and the counters of the
    result. */
module MigrationAccounts {
  import opened Wrappers
  import opened Migration
  import opened MigrationSafety
  import opened MigrationPlans

  // ---------------------------------------------------------------------------
  // Files
  // ---------------------------------------------------------------------------

  /** The relative path of a file to carry over: one of the five listed, or a file met by a walk of one of the two
      listed directories. */
  predicate ToMigrate(fs: Fs, src: string, walks: map<string, Walk>, rel: string) {
    || rel in ["AGENTS.md", "SOUL.md", "USER.md", "TOOLS.md", "HEARTBEAT.md"]
    || Walked(fs, src, walks, "memory", rel, false)
    || Walked(fs, src, walks, "skills", rel, false)
  }

  predicate Walked(fs: Fs, src: string, walks: map<string, Walk>, dir: string, rel: string, isDir: bool) {
    && Exists(fs, src + "/" + dir) && src + "/" + dir in walks
    && Lists(dir, walks[src + "/" + dir].entries, rel, isDir)
  }

  predicate Lists(dir: string, es: seq<Entry>, rel: string, isDir: bool) {
    exists e :: e in es && e.isDir == isDir && rel == if e.rel == "." then dir else dir + "/" + e.rel
  }

  lemma ListedIsTarget(fs: Fs, src: string, walks: map<string, Walk>, rel: string) returns (k: nat)
    requires rel in MIGRATEABLE_FILES
    ensures k < |WorkspaceTargets(fs, src, walks)| && WorkspaceTargets(fs, src, walks)[k] == File(rel)
  {
    FilesAre(MIGRATEABLE_FILES);
    k :| 0 <= k < |MIGRATEABLE_FILES| && MIGRATEABLE_FILES[k] == rel;
  }

  lemma EntryOf(dir: string, es: seq<Entry>, rel: string, isDir: bool) returns (i: nat)
    requires Lists(dir, es, rel, isDir)
    ensures i < |EntryTargets(dir, es)| && EntryTargets(dir, es)[i] == if isDir then Dir(rel) else File(rel)
  {
    var e :| e in es && e.isDir == isDir && rel == if e.rel == "." then dir else dir + "/" + e.rel;
    i :| 0 <= i < |es| && es[i] == e;
    EntriesAre(dir, es);
  }

  lemma WalkedIsTarget(fs: Fs, src: string, names: seq<string>, dirs: seq<string>, walks: map<string, Walk>, d: nat,
                       rel: string, isDir: bool) returns (k: nat)
    requires d < |dirs| && IsName(dirs[d]) && Walked(fs, src, walks, dirs[d], rel, isDir)
    ensures k < |Targets(fs, src, names, dirs, walks)|
    ensures Targets(fs, src, names, dirs, walks)[k] == if isDir then Dir(rel) else File(rel)
  {
    var i := EntryOf(dirs[d], walks[src + "/" + dirs[d]].entries, rel, isDir);
    assert Join(src, dirs[d]) == src + "/" + dirs[d];
    var at := DirTargetsAt(fs, src, dirs, walks, d, i);
    k := |FileTargets(names)| + at;
  }

  /** The k-th target is that of a walked entry. */
  lemma TargetOfWalk(fs: Fs, src: string, walks: map<string, Walk>, rel: string, isDir: bool) returns (k: nat)
    requires Walked(fs, src, walks, "memory", rel, isDir) || Walked(fs, src, walks, "skills", rel, isDir)
    ensures k < |WorkspaceTargets(fs, src, walks)|
    ensures WorkspaceTargets(fs, src, walks)[k] == if isDir then Dir(rel) else File(rel)
  {
    ListedDirsAreNames();
    var d := if Walked(fs, src, walks, "memory", rel, isDir) then 0 else 1;
    k := WalkedIsTarget(fs, src, MIGRATEABLE_FILES, MIGRATEABLE_DIRS, walks, d, rel, isDir);
  }

  lemma {:induction false} DirTargetsAt(fs: Fs, src: string, dirs: seq<string>, walks: map<string, Walk>, d: nat,
                                        i: nat) returns (at: nat)
    requires d < |dirs| && Exists(fs, Join(src, dirs[d]))
    requires i < |EntryTargets(dirs[d], WalkOf(walks, Join(src, dirs[d])).entries)|
    ensures at < |DirTargets(fs, src, dirs, walks)|
    ensures DirTargets(fs, src, dirs, walks)[at] == EntryTargets(dirs[d], WalkOf(walks, Join(src, dirs[d])).entries)[i]
  {
    var past := dirs[..|dirs| - 1];
    if d == |dirs| - 1 {
      at := |DirTargets(fs, src, past, walks)| + i;
    } else {
      at := DirTargetsAt(fs, src, past, walks, d, i);
    }
  }

  /** Without errors each of these files that the source has arrives at the same place under the destination, and
      what it replaces is in the backup beside it unless the migration is forced. */
  lemma WorkspaceArrives(fs: Fs, src: string, dst: string, walks: map<string, Walk>, force: bool,
                         outcomes: seq<Outcome>, rel: string)
    requires Migrates(fs, src, dst, walks, force)
    requires ExecuteAll(fs, WorkspacePlan(fs, src, dst, walks, force).value, outcomes).result.errors == 0
    requires ToMigrate(fs, src, walks, rel) && Exists(fs, src + "/" + rel)
    ensures var from, to := src + "/" + rel, dst + "/" + rel;
            var files := ExecuteAll(fs, WorkspacePlan(fs, src, dst, walks, force).value, outcomes).fs.files;
            && from in fs.files && Holds(files, to, fs.files[from])
            && (!force && to in fs.files ==> Holds(files, to + ".bak", fs.files[to]))
  {
    var k: nat;
    if rel in MIGRATEABLE_FILES {
      k := ListedIsTarget(fs, src, walks, rel);
    } else {
      k := TargetOfWalk(fs, src, walks, rel, false);
    }
    MigrationDelivers(fs, src, dst, walks, force, outcomes, k);
  }

  predicate WalkFails(fs: Fs, src: string, walks: map<string, Walk>, dir: string) {
    Exists(fs, src + "/" + dir) && (src + "/" + dir in walks ==> walks[src + "/" + dir].failed)
  }

  /** There is no plan exactly if the walk of a listed directory that exists fails. */
  lemma PlanFailsIff(fs: Fs, src: string, dst: string, walks: map<string, Walk>, force: bool)
    ensures WorkspacePlan(fs, src, dst, walks, force).None?
       <==> WalkFails(fs, src, walks, "memory") || WalkFails(fs, src, walks, "skills")
  {
    var dirs := MIGRATEABLE_DIRS;
    ListedDirsAreNames();
    assert dirs[..1] == [dirs[0]] && [dirs[0]][..0] == [];
    assert PlanDirs(fs, src, dst, [], walks, force) == Some([]);
    assert PlanDirs(fs, src, dst, [dirs[0]], walks, force) == PlanDir(fs, src, dst, dirs[0], walks, force, []);
    assert Join(src, dirs[0]) == src + "/" + "memory" && Join(src, dirs[1]) == src + "/" + "skills";
  }

  /** A forced migration writes the destinations of its planned files and nothing else, so no backup either,
      whatever fails. */
  lemma ForcedKeepsTheRest(fs: Fs, src: string, dst: string, walks: map<string, Walk>, outcomes: seq<Outcome>,
                           path: string)
    requires Migrates(fs, src, dst, walks, true)
    requires forall k :: 0 <= k < |WorkspaceTargets(fs, src, walks)| && WorkspaceTargets(fs, src, walks)[k].File? ==>
               path != dst + "/" + WorkspaceTargets(fs, src, walks)[k].rel
    ensures var after := ExecuteAll(fs, WorkspacePlan(fs, src, dst, walks, true).value, outcomes);
            SameAt(after.fs.files, fs.files, path) && after.result.backupsCreated == 0
  {
    var plan, ts := WorkspacePlan(fs, src, dst, walks, true).value, WorkspaceTargets(fs, src, walks);
    ListedNamesAreApart();
    PlanCovers(fs, src, dst, MIGRATEABLE_FILES, MIGRATEABLE_DIRS, walks, true);
    forall k | 0 <= k < |plan| ensures !plan[k].Backup? && !Writes(plan[k], path) {
      assert PlannedFor(fs, src, dst, plan[k], ts[k], true);
    }
    OthersUnchanged(fs, plan, outcomes, path);
    NoneBackedUp(fs, plan, outcomes);
  }

  lemma {:induction false} NoneBackedUp(fs: Fs, actions: seq<Action>, outcomes: seq<Outcome>)
    requires forall k :: 0 <= k < |actions| ==> !actions[k].Backup?
    ensures ExecuteAll(fs, actions, outcomes).result.backupsCreated == 0
  {
    if actions != [] { NoneBackedUp(fs, actions[..|actions| - 1], outcomes); }
  }

  /** Without errors a configuration that was to be converted is what the conversion made of it. */
  lemma ConfigArrives(fs: Fs, actions: seq<Action>, outcomes: seq<Outcome>, k: nat)
    requires Independent(actions) && k < |actions| && actions[k].ConvertConfig?
    requires ExecuteAll(fs, actions, outcomes).result.errors == 0
    ensures var outcome := OutcomeAt(outcomes, k);
            && outcome.Converts? && actions[k].source in fs.files
            && Holds(ExecuteAll(fs, actions, outcomes).fs.files, actions[k].destination, outcome.config)
  {
    ErrorsGrow(fs, actions, outcomes, k);
    ErrorsGrow(fs, actions, outcomes, k + 1);
    assert actions[..k + 1][..k] == actions[..k];
    FreshAt(fs, actions, outcomes, k, actions[k].source);
    SettledAt(fs, actions, outcomes, k, actions[k].destination);
  }

  // ---------------------------------------------------------------------------
  // Directories
  // ---------------------------------------------------------------------------

  /** Made are the directory itself and those it lies in. */
  lemma MadeDirsIs(path: string, dir: string)
    ensures dir in MadeDirs(path) <==> dir != "" && (dir == path || dir + "/" <= path)
  {
    if dir in MadeDirs(path) {
      var i :| 0 < i <= |path| && (i == |path| || path[i] == '/') && dir == path[..i];
      assert i < |path| ==> path[..i] + "/" == path[..i + 1];
      assert i == |path| ==> path[..i] == path;
    }
    if dir != "" && dir + "/" <= path {
      assert dir == path[..|dir|] && path[|dir|] == (dir + "/")[|dir|];
    }
    if dir != "" && dir == path {
      assert path[..|path|] == path;
    }
  }

  /** The directory of a path is what stands before its last component. */
  lemma {:induction false} DirOfIs(dir: string, name: string)
    requires dir != "" && name != "" && '/' !in name
    ensures DirOf(dir + "/" + name) == dir
    decreases |name|
  {
    var path := dir + "/" + name;
    var n := |name| - 1;
    assert path[|path| - 1] == name[n];
    assert path[..|path| - 1] == dir + "/" + name[..n];
    if n == 0 {
      assert dir + "/" + name[..n] == dir + "/" && (dir + "/")[..|dir|] == dir;
    } else {
      DirOfIs(dir, name[..n]);
    }
  }

  lemma {:induction false} DirsGrow(fs: Fs, actions: seq<Action>, outcomes: seq<Outcome>, k: nat)
    requires k <= |actions|
    ensures ExecuteAll(fs, actions[..k], outcomes).fs.dirs <= ExecuteAll(fs, actions, outcomes).fs.dirs
    decreases |actions|
  {
    if k == |actions| {
      assert actions[..k] == actions;
    } else {
      var n := |actions| - 1;
      assert actions[..n][..k] == actions[..k];
      DirsGrow(fs, actions[..n], outcomes, k);
    }
  }

  lemma OneMakesDirs(s: State, a: Action, outcome: Outcome)
    requires ExecuteOne(s, a, outcome).result.errors == s.result.errors
    ensures a.CreateDir? ==> MadeDirs(a.destination) <= ExecuteOne(s, a, outcome).fs.dirs
    ensures FileAction(a) ==> MadeDirs(DirOf(a.destination)) <= ExecuteOne(s, a, outcome).fs.dirs
  {
  }

  lemma StepMakesDirs(fs: Fs, actions: seq<Action>, outcomes: seq<Outcome>, k: nat)
    requires k < |actions| && ExecuteAll(fs, actions, outcomes).result.errors == 0
    ensures var dirs := ExecuteAll(fs, actions, outcomes).fs.dirs;
            && (actions[k].CreateDir? ==> MadeDirs(actions[k].destination) <= dirs)
            && (FileAction(actions[k]) ==> MadeDirs(DirOf(actions[k].destination)) <= dirs)
  {
    ErrorsGrow(fs, actions, outcomes, k);
    ErrorsGrow(fs, actions, outcomes, k + 1);
    assert actions[..k + 1][..k] == actions[..k];
    OneMakesDirs(ExecuteAll(fs, actions[..k], outcomes), actions[k], OutcomeAt(outcomes, k));
    DirsGrow(fs, actions, outcomes, k + 1);
  }

  /** Without errors the directories of the walks are there, and whatever lies on the way to them. */
  lemma DirectoriesArrive(fs: Fs, src: string, dst: string, walks: map<string, Walk>, force: bool,
                          outcomes: seq<Outcome>, rel: string, dir: string)
    requires WorkspacePlan(fs, src, dst, walks, force).Some?
    requires ExecuteAll(fs, WorkspacePlan(fs, src, dst, walks, force).value, outcomes).result.errors == 0
    requires Walked(fs, src, walks, "memory", rel, true) || Walked(fs, src, walks, "skills", rel, true)
    requires dir == dst + "/" + rel || (dir != "" && dir + "/" <= dst + "/" + rel)
    ensures dir in ExecuteAll(fs, WorkspacePlan(fs, src, dst, walks, force).value, outcomes).fs.dirs
  {
    var plan := WorkspacePlan(fs, src, dst, walks, force).value;
    var k := TargetOfWalk(fs, src, walks, rel, true);
    ListedNamesAreApart();
    PlanCovers(fs, src, dst, MIGRATEABLE_FILES, MIGRATEABLE_DIRS, walks, force);
    assert PlannedFor(fs, src, dst, plan[k], WorkspaceTargets(fs, src, walks)[k], force);
    MadeDirsIs(dst + "/" + rel, dir);
    StepMakesDirs(fs, plan, outcomes, k);
  }

  // ---------------------------------------------------------------------------
  // Counters
  // ---------------------------------------------------------------------------

  function Count(actions: seq<Action>, kind: Action -> bool): nat {
    if actions == [] then 0
    else Count(actions[..|actions| - 1], kind) + (if kind(actions[|actions| - 1]) then 1 else 0)
  }

  function Accounted(r: Result): nat {
    r.filesCopied + r.filesSkipped + r.dirsCreated + r.errors
  }

  /** Each action but those for the configuration is counted once, as a copy, a skip, a directory or an error;
      backups beside that. */
  lemma {:induction false} EachCountedOnce(fs: Fs, actions: seq<Action>, outcomes: seq<Outcome>)
    requires forall k :: 0 <= k < |actions| ==> !actions[k].ConvertConfig?
    ensures var r := ExecuteAll(fs, actions, outcomes).result;
            && Accounted(r) == |actions| && !r.configMigrated
            && r.backupsCreated <= r.filesCopied + r.errors
  {
    if actions != [] { EachCountedOnce(fs, actions[..|actions| - 1], outcomes); }
  }

  lemma OneCounted(s: State, a: Action, outcome: Outcome)
    requires ExecuteOne(s, a, outcome).result.errors == s.result.errors
    ensures var r, r' := s.result, ExecuteOne(s, a, outcome).result;
            && r'.filesCopied == r.filesCopied + (if a.Copy? || a.Backup? then 1 else 0)
            && r'.filesSkipped == r.filesSkipped + (if a.Skip? then 1 else 0)
            && r'.backupsCreated == r.backupsCreated + (if a.Backup? then 1 else 0)
            && r'.dirsCreated == r.dirsCreated + (if a.CreateDir? then 1 else 0)
            && r'.configMigrated == (r.configMigrated || a.ConvertConfig?)
  {
  }

  /** Without errors the result counts the actions of each kind. */
  lemma {:induction false} ErrorFreeCounts(fs: Fs, actions: seq<Action>, outcomes: seq<Outcome>)
    requires ExecuteAll(fs, actions, outcomes).result.errors == 0
    ensures var r := ExecuteAll(fs, actions, outcomes).result;
            && r.filesCopied == Count(actions, (a: Action) => a.Copy? || a.Backup?)
            && r.filesSkipped == Count(actions, (a: Action) => a.Skip?)
            && r.backupsCreated == Count(actions, (a: Action) => a.Backup?)
            && r.dirsCreated == Count(actions, (a: Action) => a.CreateDir?)
            && (r.configMigrated <==> exists k :: 0 <= k < |actions| && actions[k].ConvertConfig?)
  {
    if actions != [] {
      var n := |actions| - 1;
      var before := ExecuteAll(fs, actions[..n], outcomes);
      ErrorsGrow(fs, actions, outcomes, n);
      ErrorFreeCounts(fs, actions[..n], outcomes);
      OneCounted(before, actions[n], OutcomeAt(outcomes, n));
      assert forall k :: 0 <= k < n ==> actions[..n][k] == actions[k];
    }
  }
}
