/** Plans of a workspace migration are safe to execute. */
module MigrationPlans {
  import opened Wrappers
  import opened Migration
  import opened MigrationSafety

  /** What a planned action is for, by its relative path. */
  datatype Target = File(rel: string) | Dir(rel: string)

  function FileTargets(names: seq<string>): seq<Target> {
    if names == [] then [] else FileTargets(names[..|names| - 1]) + [File(names[|names| - 1])]
  }

  function EntryTargets(dir: string, es: seq<Entry>): seq<Target> {
    if es == [] then []
    else
      var e := es[|es| - 1];
      EntryTargets(dir, es[..|es| - 1]) + [if e.isDir then Dir(Join(dir, e.rel)) else File(Join(dir, e.rel))]
  }

  function DirTargets(fs: Fs, src: string, dirs: seq<string>, walks: map<string, Walk>): seq<Target> {
    if dirs == [] then []
    else
      var dir := dirs[|dirs| - 1];
      DirTargets(fs, src, dirs[..|dirs| - 1], walks)
      + (if Exists(fs, Join(src, dir)) then EntryTargets(dir, WalkOf(walks, Join(src, dir)).entries) else [])
  }

  function Targets(fs: Fs, src: string, names: seq<string>, dirs: seq<string>, walks: map<string, Walk>)
    : seq<Target>
  {
    FileTargets(names) + DirTargets(fs, src, dirs, walks)
  }

  predicate PlannedFor(fs: Fs, src: string, dst: string, a: Action, target: Target, force: bool) {
    match target
    case Dir(rel) => a == CreateDir(dst + "/" + rel)
    case File(rel) =>
      var from, to := src + "/" + rel, dst + "/" + rel;
      a == if !Exists(fs, from) then Skip(from, to)
           else if force || !Exists(fs, to) then Copy(from, to)
           else Backup(from, to)
  }

  ghost predicate AllPlanned(fs: Fs, src: string, dst: string, plan: seq<Action>, ts: seq<Target>,
                             force: bool)
  {
    && |plan| == |ts|
    && forall i :: 0 <= i < |ts| ==> PlannedFor(fs, src, dst, plan[i], ts[i], force)
  }

  /** One path component. */
  predicate IsName(name: string) {
    name != "" && name != "." && '/' !in name
  }

  ghost predicate ListsApart(names: seq<string>, dirs: seq<string>) {
    && (forall i :: 0 <= i < |names| ==> IsName(names[i]))
    && (forall i :: 0 <= i < |dirs| ==> IsName(dirs[i]))
    && (forall i, j :: 0 <= i < j < |names| ==> names[i] != names[j])
    && (forall i, j :: 0 <= i < j < |dirs| ==> dirs[i] != dirs[j])
    && forall i, j :: 0 <= i < |names| && 0 <= j < |dirs| ==> names[i] != dirs[j]
  }

  lemma JoinJoin(root: string, dir: string, rel: string)
    requires IsName(dir)
    ensures Join(Join(root, dir), rel) == root + "/" + Join(dir, rel)
  {
    assert root + "/" + dir + "/" + rel == root + "/" + (dir + "/" + rel);
  }

  lemma {:induction false} FilesPlanned(fs: Fs, src: string, dst: string, names: seq<string>, force: bool)
    requires forall i :: 0 <= i < |names| ==> IsName(names[i])
    ensures AllPlanned(fs, src, dst, PlanFiles(fs, src, dst, names, force), FileTargets(names), force)
  {
    if names != [] {
      FilesPlanned(fs, src, dst, names[..|names| - 1], force);
      assert IsName(names[|names| - 1]);
    }
  }

  lemma {:induction false} EntriesPlanned(fs: Fs, src: string, dst: string, dir: string, es: seq<Entry>, force: bool)
    requires IsName(dir)
    ensures AllPlanned(fs, src, dst, PlanEntries(fs, Join(src, dir), Join(dst, dir), es, force),
                       EntryTargets(dir, es), force)
  {
    if es != [] {
      EntriesPlanned(fs, src, dst, dir, es[..|es| - 1], force);
      JoinJoin(src, dir, es[|es| - 1].rel);
      JoinJoin(dst, dir, es[|es| - 1].rel);
    }
  }

  lemma PlannedConcat(fs: Fs, src: string, dst: string, a: seq<Action>, b: seq<Action>, s: seq<Target>,
                      t: seq<Target>, force: bool)
    requires AllPlanned(fs, src, dst, a, s, force) && AllPlanned(fs, src, dst, b, t, force)
    ensures AllPlanned(fs, src, dst, a + b, s + t, force)
  {
  }

  lemma {:induction false} DirsPlanned(fs: Fs, src: string, dst: string, dirs: seq<string>, walks: map<string, Walk>,
                                       force: bool)
    requires forall i :: 0 <= i < |dirs| ==> IsName(dirs[i])
    requires PlanDirs(fs, src, dst, dirs, walks, force).Some?
    ensures AllPlanned(fs, src, dst, PlanDirs(fs, src, dst, dirs, walks, force).value,
                       DirTargets(fs, src, dirs, walks), force)
  {
    if dirs != [] {
      var past, dir := dirs[..|dirs| - 1], dirs[|dirs| - 1];
      DirsPlanned(fs, src, dst, past, walks, force);
      assert IsName(dir);
      if Exists(fs, Join(src, dir)) {
        var es := WalkOf(walks, Join(src, dir)).entries;
        EntriesPlanned(fs, src, dst, dir, es, force);
        PlannedConcat(fs, src, dst, PlanDirs(fs, src, dst, past, walks, force).value,
                      PlanEntries(fs, Join(src, dir), Join(dst, dir), es, force),
                      DirTargets(fs, src, past, walks), EntryTargets(dir, es), force);
      }
    }
  }

  /** A plan has one action for each listed file and each walked entry, from its place under the source to
      the same place under the destination: a backup exactly when that is taken and force is off. */
  lemma PlanCovers(fs: Fs, src: string, dst: string, names: seq<string>, dirs: seq<string>, walks: map<string, Walk>,
                   force: bool)
    requires ListsApart(names, dirs) && Plan(fs, src, dst, names, dirs, walks, force).Some?
    ensures AllPlanned(fs, src, dst, Plan(fs, src, dst, names, dirs, walks, force).value,
                       Targets(fs, src, names, dirs, walks), force)
  {
    FilesPlanned(fs, src, dst, names, force);
    DirsPlanned(fs, src, dst, dirs, walks, force);
    PlannedConcat(fs, src, dst, PlanFiles(fs, src, dst, names, force), PlanDirs(fs, src, dst, dirs, walks, force).value,
                  FileTargets(names), DirTargets(fs, src, dirs, walks), force);
  }

  // ---------------------------------------------------------------------------
  // No target twice
  // ---------------------------------------------------------------------------

  ghost predicate NoneTwice(ts: seq<Target>) {
    forall i, j :: 0 <= i < j < |ts| && ts[i].File? ==> ts[i] != ts[j]
  }

  /** The first component of a relative path. */
  function Head(rel: string): string {
    if rel == "" || rel[0] == '/' then "" else [rel[0]] + Head(rel[1..])
  }

  lemma {:induction false} HeadOf(name: string, rest: string)
    requires '/' !in name && (rest == "" || rest[0] == '/')
    ensures Head(name + rest) == name
  {
    if name == "" {
      assert name + rest == rest;
    } else {
      assert (name + rest)[1..] == name[1..] + rest;
      HeadOf(name[1..], rest);
    }
  }

  lemma HeadOfJoin(dir: string, rel: string)
    requires IsName(dir)
    ensures Head(Join(dir, rel)) == dir
  {
    if rel == "." {
      HeadOf(dir, "");
      assert dir + "" == dir;
    } else {
      HeadOf(dir, "/" + rel);
      assert dir + "/" + rel == dir + ("/" + rel);
    }
  }

  ghost predicate HeadsIn(ts: seq<Target>, heads: seq<string>) {
    forall i :: 0 <= i < |ts| && ts[i].File? ==> Head(ts[i].rel) in heads
  }

  lemma TwiceConcat(a: seq<Target>, b: seq<Target>, heads: seq<string>, others: seq<string>)
    requires NoneTwice(a) && NoneTwice(b) && HeadsIn(a, heads) && HeadsIn(b, others)
    requires forall h :: h in heads ==> h !in others
    ensures NoneTwice(a + b)
  {
    forall i, j | 0 <= i < j < |a + b| && (a + b)[i].File? ensures (a + b)[i] != (a + b)[j] {
      if i < |a| <= j {
        assert Head(a[i].rel) in heads;
        assert b[j - |a|].File? ==> Head(b[j - |a|].rel) in others;
      }
    }
  }

  ghost predicate WalksOnce(es: seq<Entry>) {
    forall i, j :: 0 <= i < j < |es| ==> es[i].rel != es[j].rel
  }

  lemma JoinInjective(dir: string, a: string, b: string)
    ensures Join(dir, a) == Join(dir, b) ==> a == b
  {
    if Join(dir, a) == Join(dir, b) && a != "." && b != "." {
      assert a == Join(dir, a)[|dir| + 1..] && b == Join(dir, b)[|dir| + 1..];
    }
  }

  lemma {:induction false} EntriesAre(dir: string, es: seq<Entry>)
    ensures |EntryTargets(dir, es)| == |es|
    ensures forall i :: 0 <= i < |es| ==>
              EntryTargets(dir, es)[i] == if es[i].isDir then Dir(Join(dir, es[i].rel)) else File(Join(dir, es[i].rel))
  {
    if es != [] { EntriesAre(dir, es[..|es| - 1]); }
  }

  lemma EntriesOnce(dir: string, es: seq<Entry>)
    requires IsName(dir) && WalksOnce(es)
    ensures HeadsIn(EntryTargets(dir, es), [dir]) && NoneTwice(EntryTargets(dir, es))
  {
    var ts := EntryTargets(dir, es);
    EntriesAre(dir, es);
    forall i | 0 <= i < |ts| && ts[i].File? ensures Head(ts[i].rel) in [dir] {
      HeadOfJoin(dir, es[i].rel);
    }
    forall i, j | 0 <= i < j < |ts| && ts[i].File? ensures ts[i] != ts[j] {
      JoinInjective(dir, es[i].rel, es[j].rel);
    }
  }

  lemma {:induction false} FilesAre(names: seq<string>)
    ensures |FileTargets(names)| == |names|
    ensures forall i :: 0 <= i < |names| ==> FileTargets(names)[i] == File(names[i])
  {
    if names != [] { FilesAre(names[..|names| - 1]); }
  }

  lemma FilesOnce(names: seq<string>)
    requires forall i :: 0 <= i < |names| ==> IsName(names[i])
    requires forall i, j :: 0 <= i < j < |names| ==> names[i] != names[j]
    ensures HeadsIn(FileTargets(names), names) && NoneTwice(FileTargets(names))
  {
    FilesAre(names);
    forall i | 0 <= i < |names| ensures Head(names[i]) in names {
      HeadOf(names[i], "");
      assert names[i] + "" == names[i];
    }
  }

  lemma {:induction false} DirsOnce(fs: Fs, src: string, dirs: seq<string>, walks: map<string, Walk>)
    requires forall i :: 0 <= i < |dirs| ==> IsName(dirs[i])
    requires forall i, j :: 0 <= i < j < |dirs| ==> dirs[i] != dirs[j]
    requires forall path :: path in walks ==> WalksOnce(walks[path].entries)
    ensures HeadsIn(DirTargets(fs, src, dirs, walks), dirs) && NoneTwice(DirTargets(fs, src, dirs, walks))
  {
    if dirs != [] {
      var past, dir := dirs[..|dirs| - 1], dirs[|dirs| - 1];
      DirsOnce(fs, src, past, walks);
      assert IsName(dir);
      assert dirs == past + [dir];
      if Exists(fs, Join(src, dir)) {
        EntriesOnce(dir, WalkOf(walks, Join(src, dir)).entries);
        TwiceConcat(DirTargets(fs, src, past, walks), EntryTargets(dir, WalkOf(walks, Join(src, dir)).entries),
                    past, [dir]);
      }
    }
  }

  lemma TargetsOnce(fs: Fs, src: string, names: seq<string>, dirs: seq<string>, walks: map<string, Walk>)
    requires ListsApart(names, dirs) && forall path :: path in walks ==> WalksOnce(walks[path].entries)
    ensures NoneTwice(Targets(fs, src, names, dirs, walks))
  {
    FilesOnce(names);
    DirsOnce(fs, src, dirs, walks);
    TwiceConcat(FileTargets(names), DirTargets(fs, src, dirs, walks), names, dirs);
  }

  // ---------------------------------------------------------------------------
  // Independence
  // ---------------------------------------------------------------------------

  /** Neither directory lies in the other, nor are they the same. */
  predicate RootsApart(src: string, dst: string) {
    !(src + "/" <= dst + "/") && !(dst + "/" <= src + "/")
  }

  lemma NoCommonPath(src: string, dst: string, a: string, b: string)
    requires RootsApart(src, dst)
    ensures src + "/" + a != dst + "/" + b
  {
    if src + "/" + a == dst + "/" + b {
      OneExtendsOther(src + "/", dst + "/", a, b);
    }
  }

  lemma OneExtendsOther(s: string, d: string, a: string, b: string)
    requires s + a == d + b
    ensures s <= d || d <= s
  {
    assert |s| <= |d| ==> s == (s + a)[..|s|] == d[..|s|];
    assert |d| <= |s| ==> d == (d + b)[..|d|] == s[..|d|];
  }

  lemma SameRel(root: string, a: string, b: string)
    ensures root + "/" + a == root + "/" + b ==> a == b
  {
    if root + "/" + a == root + "/" + b {
      assert a == (root + "/" + a)[|root| + 1..] && b == (root + "/" + b)[|root| + 1..];
    }
  }

  lemma BakBelow(root: string, rel: string)
    ensures BakOf(root + "/" + rel) == root + "/" + BakOf(rel)
  {
    assert root + "/" + rel + ".bak" == root + "/" + (rel + ".bak");
  }

  /** No planned destination is another's backup. */
  ghost predicate NoBakPlanned(ts: seq<Target>) {
    forall i, j :: 0 <= i < |ts| && 0 <= j < |ts| && ts[i].File? && ts[j].File? ==> BakOf(ts[i].rel) != ts[j].rel
  }

  lemma PlannedApart(fs: Fs, src: string, dst: string, a: Action, b: Action, rel: string, rel': string, force: bool)
    requires RootsApart(src, dst) && rel != rel' && BakOf(rel) != rel' && BakOf(rel') != rel
    requires PlannedFor(fs, src, dst, a, File(rel), force) && PlannedFor(fs, src, dst, b, File(rel'), force)
    ensures Apart(a, b)
  {
    SameRel(dst, rel, rel');
    BakBelow(dst, rel);
    BakBelow(dst, rel');
    SameRel(dst, BakOf(rel), rel');
    SameRel(dst, rel, BakOf(rel'));
    NoCommonPath(src, dst, rel, rel');
    NoCommonPath(src, dst, rel, BakOf(rel'));
    NoCommonPath(src, dst, rel', rel);
    NoCommonPath(src, dst, rel', BakOf(rel));
  }

  lemma PlannedPlain(fs: Fs, src: string, dst: string, a: Action, rel: string, force: bool)
    requires RootsApart(src, dst) && PlannedFor(fs, src, dst, a, File(rel), force)
    ensures Plain(a)
  {
    BakBelow(dst, rel);
    NoCommonPath(src, dst, rel, rel);
    NoCommonPath(src, dst, rel, BakOf(rel));
  }

  /** Between separate directories, and with no file planned whose place is the backup of another, no
      action of a plan disturbs another. */
  lemma PlansAreIndependent(fs: Fs, src: string, dst: string, names: seq<string>, dirs: seq<string>,
                            walks: map<string, Walk>, force: bool)
    requires ListsApart(names, dirs) && forall path :: path in walks ==> WalksOnce(walks[path].entries)
    requires RootsApart(src, dst) && NoBakPlanned(Targets(fs, src, names, dirs, walks))
    requires Plan(fs, src, dst, names, dirs, walks, force).Some?
    ensures Independent(Plan(fs, src, dst, names, dirs, walks, force).value)
  {
    var plan, ts := Plan(fs, src, dst, names, dirs, walks, force).value, Targets(fs, src, names, dirs, walks);
    PlanCovers(fs, src, dst, names, dirs, walks, force);
    TargetsOnce(fs, src, names, dirs, walks);
    forall i | 0 <= i < |plan| ensures Plain(plan[i]) {
      assert PlannedFor(fs, src, dst, plan[i], ts[i], force);
      if ts[i].File? {
        PlannedPlain(fs, src, dst, plan[i], ts[i].rel, force);
      }
    }
    forall i, j | 0 <= i < j < |plan| ensures Apart(plan[i], plan[j]) {
      assert PlannedFor(fs, src, dst, plan[i], ts[i], force) && PlannedFor(fs, src, dst, plan[j], ts[j], force);
      if ts[i].File? && ts[j].File? {
        PlannedApart(fs, src, dst, plan[i], plan[j], ts[i].rel, ts[j].rel, force);
      }
    }
  }

  // ---------------------------------------------------------------------------
  // The workspace migration
  // ---------------------------------------------------------------------------

  lemma ListedFilesAreNames()
    ensures |MIGRATEABLE_FILES| == 5
    ensures forall i :: 0 <= i < 5 ==> IsName(MIGRATEABLE_FILES[i]) && 'A' <= MIGRATEABLE_FILES[i][0] <= 'Z'
    ensures forall i, j :: 0 <= i < j < 5 ==> MIGRATEABLE_FILES[i] != MIGRATEABLE_FILES[j]
  {
    var names := MIGRATEABLE_FILES;
    assert names[0][0] == 'A' && names[1][0] == 'S' && names[2][0] == 'U' && names[3][0] == 'T' && names[4][0] == 'H';
  }

  lemma ListedDirsAreNames()
    ensures |MIGRATEABLE_DIRS| == 2
    ensures forall i :: 0 <= i < 2 ==> IsName(MIGRATEABLE_DIRS[i]) && 'a' <= MIGRATEABLE_DIRS[i][0] <= 'z'
    ensures MIGRATEABLE_DIRS[0] != MIGRATEABLE_DIRS[1]
  {
    var dirs := MIGRATEABLE_DIRS;
    assert dirs[0][0] == 'm' && dirs[1][0] == 's';
  }

  lemma ListedNamesAreApart()
    ensures ListsApart(MIGRATEABLE_FILES, MIGRATEABLE_DIRS)
  {
    ListedFilesAreNames();
    ListedDirsAreNames();
  }

  function WorkspacePlan(fs: Fs, src: string, dst: string, walks: map<string, Walk>, force: bool)
    : Option<seq<Action>>
  {
    Plan(fs, src, dst, MIGRATEABLE_FILES, MIGRATEABLE_DIRS, walks, force)
  }

  function WorkspaceTargets(fs: Fs, src: string, walks: map<string, Walk>): seq<Target> {
    Targets(fs, src, MIGRATEABLE_FILES, MIGRATEABLE_DIRS, walks)
  }

  /** The directories are separate, walks name no entry twice, no planned place is another's backup, and
      the plan was made. */
  ghost predicate Migrates(fs: Fs, src: string, dst: string, walks: map<string, Walk>, force: bool) {
    && RootsApart(src, dst)
    && (forall path :: path in walks ==> WalksOnce(walks[path].entries))
    && NoBakPlanned(WorkspaceTargets(fs, src, walks))
    && WorkspacePlan(fs, src, dst, walks, force).Some?
  }

  /** A migration without errors delivers every planned file that the source has, and without force has what it
      replaces in the backup. */
  lemma MigrationDelivers(fs: Fs, src: string, dst: string, walks: map<string, Walk>, force: bool,
                          outcomes: seq<Outcome>, k: nat)
    requires Migrates(fs, src, dst, walks, force)
    requires ExecuteAll(fs, WorkspacePlan(fs, src, dst, walks, force).value, outcomes).result.errors == 0
    requires var ts := WorkspaceTargets(fs, src, walks);
             k < |ts| && ts[k].File? && Exists(fs, src + "/" + ts[k].rel)
    ensures var rel := WorkspaceTargets(fs, src, walks)[k].rel;
            var from, to := src + "/" + rel, dst + "/" + rel;
            var files := ExecuteAll(fs, WorkspacePlan(fs, src, dst, walks, force).value, outcomes).fs.files;
            && from in fs.files && Holds(files, to, fs.files[from])
            && (!force && to in fs.files ==> Holds(files, BakOf(to), fs.files[to]))
  {
    var plan := WorkspacePlan(fs, src, dst, walks, force).value;
    ListedNamesAreApart();
    PlanCovers(fs, src, dst, MIGRATEABLE_FILES, MIGRATEABLE_DIRS, walks, force);
    PlansAreIndependent(fs, src, dst, MIGRATEABLE_FILES, MIGRATEABLE_DIRS, walks, force);
    assert PlannedFor(fs, src, dst, plan[k], WorkspaceTargets(fs, src, walks)[k], force);
    ErrorFreeDelivers(fs, plan, outcomes, k);
  }

  /** The path is the backup of a planned file that both sides have. */
  predicate IsBackupOf(fs: Fs, src: string, dst: string, target: Target, path: string) {
    && target.File? && path == BakOf(dst + "/" + target.rel)
    && Exists(fs, src + "/" + target.rel) && Exists(fs, dst + "/" + target.rel)
  }

  predicate BackedUpOver(fs: Fs, src: string, dst: string, ts: seq<Target>, path: string) {
    exists i :: 0 <= i < |ts| && IsBackupOf(fs, src, dst, ts[i], path)
  }

  /** Whatever fails, a file that was there before is unchanged or has its content in its backup, unless it
      is itself the backup of a planned file that both sides have. */
  lemma MigrationLosesNothing(fs: Fs, src: string, dst: string, walks: map<string, Walk>, outcomes: seq<Outcome>,
                              path: string)
    requires Migrates(fs, src, dst, walks, false) && path in fs.files
    requires !BackedUpOver(fs, src, dst, WorkspaceTargets(fs, src, walks), path)
    ensures var files := ExecuteAll(fs, WorkspacePlan(fs, src, dst, walks, false).value, outcomes).fs.files;
            Holds(files, path, fs.files[path]) || Holds(files, BakOf(path), fs.files[path])
  {
    var plan, ts := WorkspacePlan(fs, src, dst, walks, false).value, WorkspaceTargets(fs, src, walks);
    ListedNamesAreApart();
    PlanCovers(fs, src, dst, MIGRATEABLE_FILES, MIGRATEABLE_DIRS, walks, false);
    PlansAreIndependent(fs, src, dst, MIGRATEABLE_FILES, MIGRATEABLE_DIRS, walks, false);
    if k :| 0 <= k < |plan| && Writes(plan[k], path) {
      assert PlannedFor(fs, src, dst, plan[k], ts[k], false);
      assert !IsBackupOf(fs, src, dst, ts[k], path);
      NothingIsLost(fs, plan, outcomes, k);
    } else {
      OthersUnchanged(fs, plan, outcomes, path);
    }
  }

  /** In that case, if nothing fails, the file is overwritten with what the planned file was. */
  lemma BackupsAreOverwritten(fs: Fs, src: string, dst: string, walks: map<string, Walk>, outcomes: seq<Outcome>,
                              path: string, k: nat)
    requires Migrates(fs, src, dst, walks, false)
    requires ExecuteAll(fs, WorkspacePlan(fs, src, dst, walks, false).value, outcomes).result.errors == 0
    requires k < |WorkspaceTargets(fs, src, walks)|
    requires IsBackupOf(fs, src, dst, WorkspaceTargets(fs, src, walks)[k], path)
    ensures var to := dst + "/" + WorkspaceTargets(fs, src, walks)[k].rel;
            var files := ExecuteAll(fs, WorkspacePlan(fs, src, dst, walks, false).value, outcomes).fs.files;
            to in fs.files && Holds(files, path, fs.files[to])
  {
    var plan := WorkspacePlan(fs, src, dst, walks, false).value;
    ListedNamesAreApart();
    PlanCovers(fs, src, dst, MIGRATEABLE_FILES, MIGRATEABLE_DIRS, walks, false);
    PlansAreIndependent(fs, src, dst, MIGRATEABLE_FILES, MIGRATEABLE_DIRS, walks, false);
    assert PlannedFor(fs, src, dst, plan[k], WorkspaceTargets(fs, src, walks)[k], false);
    ErrorFreeDelivers(fs, plan, outcomes, k);
  }
}
