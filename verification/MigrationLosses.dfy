/** What workspace migrations do lose: the backups of earlier ones, and planned files with the name of a
    backup. */
module MigrationLosses {
  import opened Wrappers
  import opened Migration
  import opened MigrationSafety
  import opened MigrationPlans

  /** The workspace after a migration. */
  function Migrated(fs: Fs, src: string, dst: string, walks: map<string, Walk>, outcomes: seq<Outcome>): State
    requires WorkspacePlan(fs, src, dst, walks, false).Some?
  {
    ExecuteAll(fs, WorkspacePlan(fs, src, dst, walks, false).value, outcomes)
  }

  predicate HasTarget(fs: Fs, src: string, walks: map<string, Walk>, k: nat, rel: string) {
    k < |WorkspaceTargets(fs, src, walks)| && WorkspaceTargets(fs, src, walks)[k] == File(rel)
  }

  /** A planned file of the source is not touched. */
  lemma SourceStays(fs: Fs, src: string, dst: string, walks: map<string, Walk>, outcomes: seq<Outcome>, rel: string)
    requires Migrates(fs, src, dst, walks, false)
    ensures SameAt(Migrated(fs, src, dst, walks, outcomes).fs.files, fs.files, src + "/" + rel)
  {
    var plan, ts := WorkspacePlan(fs, src, dst, walks, false).value, WorkspaceTargets(fs, src, walks);
    ListedNamesAreApart();
    PlanCovers(fs, src, dst, MIGRATEABLE_FILES, MIGRATEABLE_DIRS, walks, false);
    forall i | 0 <= i < |plan| ensures !Writes(plan[i], src + "/" + rel) {
      assert PlannedFor(fs, src, dst, plan[i], ts[i], false);
      if ts[i].File? {
        SourceNotWritten(src, dst, plan[i], ts[i].rel, rel);
      }
    }
    OthersUnchanged(fs, plan, outcomes, src + "/" + rel);
  }

  lemma SourceNotWritten(src: string, dst: string, a: Action, rel: string, other: string)
    requires RootsApart(src, dst) && a.destination == dst + "/" + rel
    ensures !Writes(a, src + "/" + other)
  {
    NoCommonPath(src, dst, other, rel);
    NoCommonPath(src, dst, other, BakOf(rel));
    BakBelow(dst, rel);
  }

  // ---------------------------------------------------------------------------
  // Migrating twice
  // ---------------------------------------------------------------------------

  predicate Under(root: string, path: string) {
    root + "/" <= path
  }

  ghost predicate AllUnder(root: string, actions: seq<Action>) {
    forall i :: 0 <= i < |actions| ==> Under(root, actions[i].destination)
  }

  lemma {:induction false} FilesUnder(fs: Fs, src: string, dst: string, names: seq<string>, force: bool)
    requires forall i :: 0 <= i < |names| ==> IsName(names[i])
    ensures AllUnder(dst, PlanFiles(fs, src, dst, names, force))
  {
    if names != [] {
      FilesUnder(fs, src, dst, names[..|names| - 1], force);
      assert IsName(names[|names| - 1]);
    }
  }

  lemma {:induction false} EntriesUnder(fs: Fs, srcDir: string, dst: string, dir: string, es: seq<Entry>, force: bool)
    requires IsName(dir)
    ensures AllUnder(dst, PlanEntries(fs, srcDir, Join(dst, dir), es, force))
  {
    if es != [] {
      EntriesUnder(fs, srcDir, dst, dir, es[..|es| - 1], force);
      JoinJoin(dst, dir, es[|es| - 1].rel);
    }
  }

  lemma {:induction false} DirsUnder(fs: Fs, src: string, dst: string, dirs: seq<string>, walks: map<string, Walk>,
                                     force: bool)
    requires forall i :: 0 <= i < |dirs| ==> IsName(dirs[i])
    requires PlanDirs(fs, src, dst, dirs, walks, force).Some?
    ensures AllUnder(dst, PlanDirs(fs, src, dst, dirs, walks, force).value)
  {
    if dirs != [] {
      var dir := dirs[|dirs| - 1];
      DirsUnder(fs, src, dst, dirs[..|dirs| - 1], walks, force);
      assert IsName(dir);
      EntriesUnder(fs, Join(src, dir), dst, dir, WalkOf(walks, Join(src, dir)).entries, force);
    }
  }

  lemma {:induction false} DirOfPrefix(path: string)
    ensures DirOf(path) == "." || DirOf(path) <= path
  {
    if path != "" && path[|path| - 1] != '/' {
      DirOfPrefix(path[..|path| - 1]);
    }
  }

  /** Making directories for a path on one side makes none on the other. */
  lemma NotMade(src: string, dst: string, path: string, rel: string)
    requires RootsApart(src, dst) && Under(dst, path)
    ensures src + "/" + rel !in MadeDirs(path) && src + "/" + rel !in MadeDirs(DirOf(path))
  {
    var other := src + "/" + rel;
    DirOfPrefix(path);
    assert other[|src|] == '/';
    assert src + "/" <= other;
  }

  lemma {:induction false} DirsStay(fs: Fs, actions: seq<Action>, outcomes: seq<Outcome>, path: string)
    requires forall i :: 0 <= i < |actions| ==>
               path !in MadeDirs(actions[i].destination) && path !in MadeDirs(DirOf(actions[i].destination))
    ensures path in ExecuteAll(fs, actions, outcomes).fs.dirs <==> path in fs.dirs
  {
    if actions != [] {
      DirsStay(fs, actions[..|actions| - 1], outcomes, path);
    }
  }

  /** A migration leaves the source side as it was. */
  lemma SourceExists(fs: Fs, src: string, dst: string, walks: map<string, Walk>, outcomes: seq<Outcome>, rel: string)
    requires Migrates(fs, src, dst, walks, false)
    ensures Exists(Migrated(fs, src, dst, walks, outcomes).fs, src + "/" + rel) <==> Exists(fs, src + "/" + rel)
  {
    var plan := WorkspacePlan(fs, src, dst, walks, false).value;
    SourceStays(fs, src, dst, walks, outcomes, rel);
    ListedNamesAreApart();
    FilesUnder(fs, src, dst, MIGRATEABLE_FILES, false);
    DirsUnder(fs, src, dst, MIGRATEABLE_DIRS, walks, false);
    forall i | 0 <= i < |plan|
      ensures src + "/" + rel !in MadeDirs(plan[i].destination)
      ensures src + "/" + rel !in MadeDirs(DirOf(plan[i].destination))
    {
      NotMade(src, dst, plan[i].destination, rel);
    }
    DirsStay(fs, plan, outcomes, src + "/" + rel);
  }

  lemma {:induction false} SameTargets(fs: Fs, fs': Fs, src: string, dst: string, dirs: seq<string>,
                                       walks: map<string, Walk>)
    requires forall i :: 0 <= i < |dirs| ==> (Exists(fs, Join(src, dirs[i])) <==> Exists(fs', Join(src, dirs[i])))
    ensures DirTargets(fs, src, dirs, walks) == DirTargets(fs', src, dirs, walks)
    ensures PlanDirs(fs, src, dst, dirs, walks, false).Some? <==> PlanDirs(fs', src, dst, dirs, walks, false).Some?
  {
    if dirs != [] {
      SameTargets(fs, fs', src, dst, dirs[..|dirs| - 1], walks);
    }
  }

  /** So the same migration can be made again, of the same files. */
  lemma MigratesAgain(fs: Fs, src: string, dst: string, walks: map<string, Walk>, outcomes: seq<Outcome>)
    requires Migrates(fs, src, dst, walks, false)
    ensures var once := Migrated(fs, src, dst, walks, outcomes).fs;
            && Migrates(once, src, dst, walks, false)
            && WorkspaceTargets(once, src, walks) == WorkspaceTargets(fs, src, walks)
  {
    var once := Migrated(fs, src, dst, walks, outcomes).fs;
    ListedNamesAreApart();
    forall i | 0 <= i < |MIGRATEABLE_DIRS|
      ensures Exists(fs, Join(src, MIGRATEABLE_DIRS[i])) <==> Exists(once, Join(src, MIGRATEABLE_DIRS[i]))
    {
      assert IsName(MIGRATEABLE_DIRS[i]);
      SourceExists(fs, src, dst, walks, outcomes, MIGRATEABLE_DIRS[i]);
    }
    SameTargets(fs, once, src, dst, MIGRATEABLE_DIRS, walks);
  }

  /** A second migration replaces the backups of the first.  Let both be without error, and take a planned
      file that both sides had before.  The first keeps the user's file as the backup; after the second the
      backup holds what the first delivered, and the file holds it too: the user's own content is in
      neither. */
  lemma SecondMigrationReplacesBackup(fs: Fs, src: string, dst: string, walks: map<string, Walk>,
                                      outcomes: seq<Outcome>, outcomes': seq<Outcome>, k: nat, rel: string)
    requires Migrates(fs, src, dst, walks, false) && HasTarget(fs, src, walks, k, rel)
    requires Exists(fs, src + "/" + rel) && dst + "/" + rel in fs.files
    requires Migrated(fs, src, dst, walks, outcomes).result.errors == 0
    requires var once := Migrated(fs, src, dst, walks, outcomes).fs;
             WorkspacePlan(once, src, dst, walks, false).Some?
             ==> Migrated(once, src, dst, walks, outcomes').result.errors == 0
    ensures var once := Migrated(fs, src, dst, walks, outcomes).fs;
            WorkspacePlan(once, src, dst, walks, false).Some?
            && var twice := Migrated(once, src, dst, walks, outcomes').fs;
               var from, to := src + "/" + rel, dst + "/" + rel;
               && from in fs.files && Holds(once.files, BakOf(to), fs.files[to])
               && Holds(twice.files, BakOf(to), fs.files[from]) && Holds(twice.files, to, fs.files[from])
  {
    var once := Migrated(fs, src, dst, walks, outcomes).fs;
    MigratesAgain(fs, src, dst, walks, outcomes);
    MigrationDelivers(fs, src, dst, walks, false, outcomes, k);
    SourceStays(fs, src, dst, walks, outcomes, rel);
    MigrationDelivers(once, src, dst, walks, false, outcomes', k);
  }

  // ---------------------------------------------------------------------------
  // A planned file with the name of a backup
  // ---------------------------------------------------------------------------

  /** Neither a file nor its backup nor the backup of that is written by the action. */
  predicate Spares(a: Action, path: string) {
    !Writes(a, path) && !Writes(a, BakOf(path)) && !Writes(a, BakOf(BakOf(path)))
  }

  lemma OthersSpare(fs: Fs, src: string, dst: string, a: Action, r: string, rel: string)
    requires PlannedFor(fs, src, dst, a, File(r), false)
    requires r != rel && r != BakOf(rel) && r != BakOf(BakOf(rel)) && BakOf(r) != rel
    ensures Spares(a, dst + "/" + rel)
  {
    BakBelow(dst, r);
    BakBelow(dst, rel);
    BakBelow(dst, BakOf(rel));
    SameRel(dst, r, rel);
    SameRel(dst, r, BakOf(rel));
    SameRel(dst, r, BakOf(BakOf(rel)));
    SameRel(dst, BakOf(r), rel);
    SameRel(dst, BakOf(r), BakOf(rel));
    SameRel(dst, BakOf(r), BakOf(BakOf(rel)));
    BakInjective(r, rel);
    BakInjective(r, BakOf(rel));
  }

  /** Two backups in one list of actions, the second of the first one's backup; no other action touches
      the files. */
  ghost predicate TwoBackups(actions: seq<Action>, i: nat, j: nat, src: string, src': string, dst: string) {
    && i < j < |actions| && actions[i] == Backup(src, dst) && actions[j] == Backup(src', BakOf(dst))
    && src !in {dst, BakOf(dst)} && src' !in {BakOf(dst), BakOf(BakOf(dst))}
    && (forall k :: 0 <= k < |actions| ==> !Writes(actions[k], src) && !Writes(actions[k], src'))
    && forall k :: 0 <= k < |actions| && k != i && k != j ==> Spares(actions[k], dst)
  }

  /** Before the second, the first backup holds what the file was. */
  lemma BeforeSecond(fs: Fs, actions: seq<Action>, outcomes: seq<Outcome>, i: nat, j: nat, src: string, src': string,
                     dst: string)
    requires TwoBackups(actions, i, j, src, src', dst)
    requires ExecuteAll(fs, actions, outcomes).result.errors == 0
    ensures var files := ExecuteAll(fs, actions[..j], outcomes).fs.files;
            && src in fs.files && dst in fs.files && Holds(files, dst, fs.files[src])
            && Holds(files, BakOf(dst), fs.files[dst]) && SameAt(files, fs.files, src')
  {
    FirstBackup(fs, actions, outcomes, i, src, dst);
    var middle := actions[..j];
    assert middle[..i + 1] == actions[..i + 1];
    assert forall k :: i < k < j ==> middle[k] == actions[k] && Spares(actions[k], dst);
    KeptAfter(fs, middle, outcomes, i, dst);
    KeptAfter(fs, middle, outcomes, i, BakOf(dst));
    assert forall k :: 0 <= k < j ==> middle[k] == actions[k] && !Writes(actions[k], src');
    OthersUnchanged(fs, middle, outcomes, src');
  }

  lemma BakTwiceDiffers(dst: string)
    ensures dst != BakOf(dst) && BakOf(dst) != BakOf(BakOf(dst)) && dst != BakOf(BakOf(dst))
  {
    BakDiffers(dst);
    BakDiffers(BakOf(dst));
    assert |BakOf(BakOf(dst))| == |dst| + 8;
  }

  lemma SecondDelivers(fs: Fs, actions: seq<Action>, outcomes: seq<Outcome>, i: nat, j: nat, src: string, src': string,
                       dst: string)
    requires TwoBackups(actions, i, j, src, src', dst)
    requires ExecuteAll(fs, actions, outcomes).result.errors == 0
    ensures var files := ExecuteAll(fs, actions[..j + 1], outcomes).fs.files;
            && {src', dst} <= fs.files.Keys
            && Holds(files, BakOf(dst), fs.files[src']) && Holds(files, BakOf(BakOf(dst)), fs.files[dst])
  {
    BeforeSecond(fs, actions, outcomes, i, j, src, src', dst);
    BakTwiceDiffers(dst);
    StepDelivers(fs, actions, outcomes, j);
  }

  lemma AfterSecond(fs: Fs, actions: seq<Action>, outcomes: seq<Outcome>, i: nat, j: nat, src: string, src': string,
                    dst: string)
    requires TwoBackups(actions, i, j, src, src', dst)
    requires ExecuteAll(fs, actions, outcomes).result.errors == 0
    ensures var files := ExecuteAll(fs, actions[..j + 1], outcomes).fs.files;
            && {src, src', dst} <= fs.files.Keys
            && Holds(files, dst, fs.files[src]) && Holds(files, BakOf(dst), fs.files[src'])
            && Holds(files, BakOf(BakOf(dst)), fs.files[dst])
  {
    SecondDelivers(fs, actions, outcomes, i, j, src, src', dst);
    BeforeSecond(fs, actions, outcomes, i, j, src, src', dst);
    assert actions[..j + 1][..j] == actions[..j];
    BakTwiceDiffers(dst);
    OneLeavesOthers(ExecuteAll(fs, actions[..j], outcomes), actions[j], OutcomeAt(outcomes, j), dst);
  }

  lemma BackupOfBackup(fs: Fs, actions: seq<Action>, outcomes: seq<Outcome>, i: nat, j: nat, src: string, src': string,
                       dst: string)
    requires TwoBackups(actions, i, j, src, src', dst)
    requires ExecuteAll(fs, actions, outcomes).result.errors == 0
    ensures var files := ExecuteAll(fs, actions, outcomes).fs.files;
            && {src, src', dst} <= fs.files.Keys
            && Holds(files, dst, fs.files[src]) && Holds(files, BakOf(dst), fs.files[src'])
            && Holds(files, BakOf(BakOf(dst)), fs.files[dst])
  {
    AfterSecond(fs, actions, outcomes, i, j, src, src', dst);
    assert forall k :: j < k < |actions| ==> Spares(actions[k], dst);
    KeptAfter(fs, actions, outcomes, j, dst);
    KeptAfter(fs, actions, outcomes, j, BakOf(dst));
    KeptAfter(fs, actions, outcomes, j, BakOf(BakOf(dst)));
  }

  lemma StepDelivers(fs: Fs, actions: seq<Action>, outcomes: seq<Outcome>, k: nat)
    requires k < |actions| && actions[k].Backup? && Plain(actions[k])
    requires ExecuteAll(fs, actions, outcomes).result.errors == 0
    ensures var a, before := actions[k], ExecuteAll(fs, actions[..k], outcomes).fs.files;
            var after := ExecuteAll(fs, actions[..k + 1], outcomes).fs.files;
            && a.source in before && a.destination in before
            && Holds(after, a.destination, before[a.source])
            && Holds(after, BakOf(a.destination), before[a.destination])
  {
    ErrorsGrow(fs, actions, outcomes, k);
    ErrorsGrow(fs, actions, outcomes, k + 1);
    assert actions[..k + 1][..k] == actions[..k];
    OneDelivers(ExecuteAll(fs, actions[..k], outcomes), actions[k], OutcomeAt(outcomes, k));
  }

  lemma FirstBackup(fs: Fs, actions: seq<Action>, outcomes: seq<Outcome>, i: nat, src: string, dst: string)
    requires i < |actions| && actions[i] == Backup(src, dst) && Plain(actions[i])
    requires forall k :: 0 <= k < i ==> !Writes(actions[k], src) && !Writes(actions[k], dst)
    requires ExecuteAll(fs, actions, outcomes).result.errors == 0
    ensures src in fs.files && dst in fs.files
    ensures var after := ExecuteAll(fs, actions[..i + 1], outcomes).fs.files;
            Holds(after, dst, fs.files[src]) && Holds(after, BakOf(dst), fs.files[dst])
  {
    assert forall k :: 0 <= k < i ==> actions[..i][k] == actions[k];
    OthersUnchanged(fs, actions[..i], outcomes, src);
    OthersUnchanged(fs, actions[..i], outcomes, dst);
    StepDelivers(fs, actions, outcomes, i);
  }

  /** A plan with a file and, behind it, the file with the name of its backup, both on both sides: without
      error, the old content of the latter is in none of the places written. */
  lemma PlannedBackupIsLost(fs: Fs, src: string, dst: string, walks: map<string, Walk>, outcomes: seq<Outcome>,
                            i: nat, j: nat, rel: string)
    requires RootsApart(src, dst) && WorkspacePlan(fs, src, dst, walks, false).Some?
    requires forall path :: path in walks ==> WalksOnce(walks[path].entries)
    requires i < j && HasTarget(fs, src, walks, i, rel) && HasTarget(fs, src, walks, j, BakOf(rel))
    requires Exists(fs, src + "/" + rel) && Exists(fs, dst + "/" + rel)
    requires Exists(fs, src + "/" + BakOf(rel)) && Exists(fs, dst + "/" + BakOf(rel))
    requires forall k, r: string :: HasTarget(fs, src, walks, k, r) ==> BakOf(r) != rel && r != BakOf(BakOf(rel))
    requires Migrated(fs, src, dst, walks, outcomes).result.errors == 0
    ensures var files := Migrated(fs, src, dst, walks, outcomes).fs.files;
            var from, from', to := src + "/" + rel, src + "/" + BakOf(rel), dst + "/" + rel;
            && {from, from', to} <= fs.files.Keys
            && Holds(files, to, fs.files[from]) && Holds(files, BakOf(to), fs.files[from'])
            && Holds(files, BakOf(BakOf(to)), fs.files[to])
  {
    var plan, ts := WorkspacePlan(fs, src, dst, walks, false).value, WorkspaceTargets(fs, src, walks);
    var from, from', to := src + "/" + rel, src + "/" + BakOf(rel), dst + "/" + rel;
    ListedNamesAreApart();
    PlanCovers(fs, src, dst, MIGRATEABLE_FILES, MIGRATEABLE_DIRS, walks, false);
    TargetsOnce(fs, src, MIGRATEABLE_FILES, MIGRATEABLE_DIRS, walks);
    BakBelow(dst, rel);
    BakBelow(dst, BakOf(rel));
    assert PlannedFor(fs, src, dst, plan[i], ts[i], false) && PlannedFor(fs, src, dst, plan[j], ts[j], false);
    forall k | 0 <= k < |plan| ensures !Writes(plan[k], from) && !Writes(plan[k], from') {
      assert PlannedFor(fs, src, dst, plan[k], ts[k], false);
      if ts[k].File? {
        SourceNotWritten(src, dst, plan[k], ts[k].rel, rel);
        SourceNotWritten(src, dst, plan[k], ts[k].rel, BakOf(rel));
      }
    }
    forall k | 0 <= k < |plan| && k != i && k != j ensures Spares(plan[k], to) {
      assert PlannedFor(fs, src, dst, plan[k], ts[k], false);
      if ts[k].File? {
        assert HasTarget(fs, src, walks, k, ts[k].rel);
        assert ts[k] != ts[i] && ts[k] != ts[j];
        OthersSpare(fs, src, dst, plan[k], ts[k].rel, rel);
      }
    }
    NoCommonPath(src, dst, rel, rel);
    NoCommonPath(src, dst, rel, BakOf(rel));
    NoCommonPath(src, dst, BakOf(rel), BakOf(rel));
    NoCommonPath(src, dst, BakOf(rel), BakOf(BakOf(rel)));
    BackupOfBackup(fs, plan, outcomes, i, j, from, from', to);
  }
}
