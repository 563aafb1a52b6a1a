/** Carrying a workspace over from another installation: planning, and executing with backups. */
module Migration {
  import opened Wrappers

  datatype Action =
    | Copy(source: string, destination: string)
    | Skip(source: string, destination: string)
    | Backup(source: string, destination: string)
    | CreateDir(destination: string)
    | ConvertConfig(source: string, destination: string)

  datatype Fs = Fs(files: map<string, string>, dirs: set<string>)

  /** An entry of a directory walk, by its path relative to the directory; "." is the directory itself. */
  datatype Entry = Entry(rel: string, isDir: bool)

  /** Walking a directory; a walk may break off. */
  datatype Walk = Walk(entries: seq<Entry>, failed: bool)

  predicate Exists(fs: Fs, path: string) {
    path in fs.files || path in fs.dirs
  }

  function Join(dir: string, rel: string): string {
    if rel == "." then dir else dir + "/" + rel
  }

  function PlanFileCopy(fs: Fs, src: string, dst: string, force: bool): Action {
    if !Exists(fs, src) then Skip(src, dst)
    else if Exists(fs, dst) && !force then Backup(src, dst)
    else Copy(src, dst)
  }

  function PlanEntry(fs: Fs, srcDir: string, dstDir: string, e: Entry, force: bool): Action {
    if e.isDir then CreateDir(Join(dstDir, e.rel))
    else PlanFileCopy(fs, Join(srcDir, e.rel), Join(dstDir, e.rel), force)
  }

  function PlanEntries(fs: Fs, srcDir: string, dstDir: string, es: seq<Entry>, force: bool): seq<Action> {
    if es == [] then []
    else PlanEntries(fs, srcDir, dstDir, es[..|es| - 1], force) + [PlanEntry(fs, srcDir, dstDir, es[|es| - 1], force)]
  }

  function PlanFiles(fs: Fs, src: string, dst: string, names: seq<string>, force: bool): seq<Action> {
    if names == [] then []
    else
      var name := names[|names| - 1];
      PlanFiles(fs, src, dst, names[..|names| - 1], force) + [PlanFileCopy(fs, Join(src, name), Join(dst, name), force)]
  }

  function WalkOf(walks: map<string, Walk>, dir: string): Walk {
    if dir in walks then walks[dir] else Walk([], true)
  }

  function PlanDir(fs: Fs, src: string, dst: string, dir: string, walks: map<string, Walk>, force: bool,
                   planned: seq<Action>): Option<seq<Action>>
  {
    var walk := WalkOf(walks, Join(src, dir));
    if !Exists(fs, Join(src, dir)) then Some(planned)
    else if walk.failed then None
    else Some(planned + PlanEntries(fs, Join(src, dir), Join(dst, dir), walk.entries, force))
  }

  function PlanDirs(fs: Fs, src: string, dst: string, dirs: seq<string>, walks: map<string, Walk>, force: bool)
    : Option<seq<Action>>
  {
    if dirs == [] then Some([])
    else match PlanDirs(fs, src, dst, dirs[..|dirs| - 1], walks, force)
      case None => None
      case Some(planned) => PlanDir(fs, src, dst, dirs[|dirs| - 1], walks, force, planned)
  }

  /** The plan, or None when a walk fails. */
  function Plan(fs: Fs, src: string, dst: string, names: seq<string>, dirs: seq<string>, walks: map<string, Walk>,
                force: bool): Option<seq<Action>>
  {
    match PlanDirs(fs, src, dst, dirs, walks, force)
    case None => None
    case Some(planned) => Some(PlanFiles(fs, src, dst, names, force) + planned)
  }

  const MIGRATEABLE_FILES: seq<string> := ["AGENTS.md", "SOUL.md", "USER.md", "TOOLS.md", "HEARTBEAT.md"]
  const MIGRATEABLE_DIRS: seq<string> := ["memory", "skills"]

  method PlanDirCopy(fs: Fs, srcDir: string, dstDir: string, walk: Walk, force: bool)
    returns (actions: seq<Action>, ok: bool)
    ensures actions == PlanEntries(fs, srcDir, dstDir, walk.entries, force) && ok == !walk.failed
  {
    actions := [];
    var i := 0;
    while i < |walk.entries|
      invariant 0 <= i <= |walk.entries|
      invariant actions == PlanEntries(fs, srcDir, dstDir, walk.entries[..i], force)
    {
      assert walk.entries[..i + 1][..i] == walk.entries[..i];
      var e := walk.entries[i];
      var target := Join(dstDir, e.rel);
      if e.isDir {
        actions := actions + [CreateDir(target)];
      } else {
        actions := actions + [PlanFileCopy(fs, Join(srcDir, e.rel), target, force)];
      }
      i := i + 1;
    }
    assert walk.entries[..i] == walk.entries;
    ok := !walk.failed;
  }

  method PlanNames(fs: Fs, src: string, dst: string, names: seq<string>, force: bool) returns (actions: seq<Action>)
    ensures actions == PlanFiles(fs, src, dst, names, force)
  {
    actions := [];
    var i := 0;
    while i < |names|
      invariant 0 <= i <= |names|
      invariant actions == PlanFiles(fs, src, dst, names[..i], force)
    {
      assert names[..i + 1][..i] == names[..i];
      actions := actions + [PlanFileCopy(fs, Join(src, names[i]), Join(dst, names[i]), force)];
      i := i + 1;
    }
    assert names[..i] == names;
  }

  method PlanDirectory(fs: Fs, src: string, dst: string, dir: string, walks: map<string, Walk>, force: bool,
                       actions: seq<Action>) returns (plan: Option<seq<Action>>)
    ensures plan == PlanDir(fs, src, dst, dir, walks, force, actions)
  {
    var srcDir := Join(src, dir);
    if !Exists(fs, srcDir) {
      return Some(actions);
    }
    var more, ok := PlanDirCopy(fs, srcDir, Join(dst, dir), WalkOf(walks, srcDir), force);
    plan := if ok then Some(actions + more) else None;
  }

  method PlanDirectories(fs: Fs, src: string, dst: string, dirs: seq<string>, walks: map<string, Walk>, force: bool)
    returns (plan: Option<seq<Action>>)
    ensures plan == PlanDirs(fs, src, dst, dirs, walks, force)
  {
    var actions := [];
    var k := 0;
    while k < |dirs|
      invariant 0 <= k <= |dirs|
      invariant PlanDirs(fs, src, dst, dirs[..k], walks, force) == Some(actions)
    {
      PlanDirsNext(fs, src, dst, dirs, walks, force, k);
      plan := PlanDirectory(fs, src, dst, dirs[k], walks, force, actions);
      if plan.None? {
        PlanFailed(fs, src, dst, dirs, walks, force, k + 1);
        return;
      }
      actions := plan.value;
      k := k + 1;
    }
    assert dirs[..k] == dirs;
    plan := Some(actions);
  }

  lemma PlanDirsNext(fs: Fs, src: string, dst: string, dirs: seq<string>, walks: map<string, Walk>, force: bool, k: nat)
    requires k < |dirs| && PlanDirs(fs, src, dst, dirs[..k], walks, force).Some?
    ensures PlanDirs(fs, src, dst, dirs[..k + 1], walks, force)
         == PlanDir(fs, src, dst, dirs[k], walks, force, PlanDirs(fs, src, dst, dirs[..k], walks, force).value)
  {
    assert dirs[..k + 1][..k] == dirs[..k];
  }

  method PlanWorkspaceMigration(fs: Fs, src: string, dst: string, walks: map<string, Walk>, force: bool)
    returns (plan: Option<seq<Action>>)
    ensures plan == Plan(fs, src, dst, MIGRATEABLE_FILES, MIGRATEABLE_DIRS, walks, force)
  {
    var actions := PlanNames(fs, src, dst, MIGRATEABLE_FILES, force);
    var more := PlanDirectories(fs, src, dst, MIGRATEABLE_DIRS, walks, force);
    if more.None? {
      return None;
    }
    plan := Some(actions + more.value);
  }

  lemma {:induction false} PlanFailed(fs: Fs, src: string, dst: string, dirs: seq<string>, walks: map<string, Walk>,
                                      force: bool, k: nat)
    requires k <= |dirs| && PlanDirs(fs, src, dst, dirs[..k], walks, force).None?
    ensures PlanDirs(fs, src, dst, dirs, walks, force).None?
    decreases |dirs|
  {
    if k == |dirs| {
      assert dirs[..k] == dirs;
    } else {
      assert dirs[..|dirs| - 1][..k] == dirs[..k];
      PlanFailed(fs, src, dst, dirs[..|dirs| - 1], walks, force, k);
    }
  }

  // ---------------------------------------------------------------------------
  // Execution
  // ---------------------------------------------------------------------------

  datatype Result = Result(filesCopied: nat, filesSkipped: nat, backupsCreated: nat, dirsCreated: nat,
                           configMigrated: bool, errors: nat)

  /** What happens in one action: all goes well; making a directory, the backup copy or the copy fails, the
      copies after `wrote` bytes or before the target is opened; or the configuration is converted to some
      text, or not, in which case it may be left partly written. */
  datatype Outcome =
    | Fine
    | MkdirFails
    | BackupFails(wrote: Option<nat>)
    | CopyFails(wrote: Option<nat>)
    | Converts(config: string)
    | ConversionFails(left: Option<string>)

  datatype State = State(fs: Fs, result: Result)

  function Take(s: string, n: nat): string {
    if n < |s| then s[..n] else s
  }

  /** A copy needs a file to read, and a target that is no directory. */
  predicate Copyable(fs: Fs, src: string, dst: string) {
    src in fs.files && dst !in fs.dirs
  }

  /** The target is emptied when it is opened, also when it is the source. */
  function Copied(files: map<string, string>, src: string, dst: string): map<string, string>
    requires src in files
  {
    files[dst := if src == dst then "" else files[src]]
  }

  /** The files after a copy that fails.  A directory can be opened as the source, but not read. */
  function PartlyCopied(fs: Fs, src: string, dst: string, wrote: Option<nat>): map<string, string> {
    if wrote.None? || !Exists(fs, src) || dst in fs.dirs then fs.files
    else fs.files[dst := if src in fs.files && src != dst then Take(fs.files[src], wrote.value) else ""]
  }

  /** The directory and its parents. */
  function MadeDirs(path: string): set<string> {
    set i | 0 < i <= |path| && (i == |path| || path[i] == '/') :: path[..i]
  }

  /** The directory part of a clean path. */
  function DirOf(path: string): string {
    if path == "" then "."
    else if path[|path| - 1] == '/' then (if |path| == 1 then path else path[..|path| - 1])
    else DirOf(path[..|path| - 1])
  }

  function BakOf(path: string): string {
    path + ".bak"
  }

  function Failed(s: State, files: map<string, string>): State {
    State(Fs(files, s.fs.dirs), s.result.(errors := s.result.errors + 1))
  }

  /** The directory and the copy, which Copy and Backup share. */
  function CopyOver(s: State, a: Action, outcome: Outcome): State
    requires a.Copy? || a.Backup?
  {
    if outcome.MkdirFails? then Failed(s, s.fs.files)
    else
      var made := s.(fs := Fs(s.fs.files, s.fs.dirs + MadeDirs(DirOf(a.destination))));
      if outcome.CopyFails? || !Copyable(made.fs, a.source, a.destination) then
        Failed(made, PartlyCopied(made.fs, a.source, a.destination,
                                  if outcome.CopyFails? then outcome.wrote else Some(0)))
      else
        State(Fs(Copied(s.fs.files, a.source, a.destination), made.fs.dirs),
              s.result.(filesCopied := s.result.filesCopied + 1))
  }

  function BackUp(s: State, a: Action, outcome: Outcome): State
    requires a.Backup?
  {
    var dst := a.destination;
    if outcome.BackupFails? || !Copyable(s.fs, dst, BakOf(dst)) then
      Failed(s, PartlyCopied(s.fs, dst, BakOf(dst), if outcome.BackupFails? then outcome.wrote else Some(0)))
    else
      CopyOver(State(Fs(Copied(s.fs.files, dst, BakOf(dst)), s.fs.dirs),
                     s.result.(backupsCreated := s.result.backupsCreated + 1)), a, outcome)
  }

  /** Converting, merging with what is there and saving; how the text comes about is left open. */
  function Convert(s: State, a: Action, outcome: Outcome): State
    requires a.ConvertConfig?
  {
    if outcome.Converts? && a.source in s.fs.files then
      State(Fs(s.fs.files[a.destination := outcome.config], s.fs.dirs + MadeDirs(DirOf(a.destination))),
            s.result.(configMigrated := true))
    else
      Failed(s, if outcome.ConversionFails? && outcome.left.Some? then s.fs.files[a.destination := outcome.left.value]
                else s.fs.files)
  }

  function ExecuteOne(s: State, a: Action, outcome: Outcome): State {
    match a
    case ConvertConfig(_, _) => Convert(s, a, outcome)
    case CreateDir(dir) =>
      if outcome.MkdirFails? then Failed(s, s.fs.files)
      else State(Fs(s.fs.files, s.fs.dirs + MadeDirs(dir)), s.result.(dirsCreated := s.result.dirsCreated + 1))
    case Backup(_, _) => BackUp(s, a, outcome)
    case Copy(_, _) => CopyOver(s, a, outcome)
    case Skip(_, _) => s.(result := s.result.(filesSkipped := s.result.filesSkipped + 1))
  }

  function OutcomeAt(outcomes: seq<Outcome>, i: nat): Outcome {
    if i < |outcomes| then outcomes[i] else Fine
  }

  function ExecuteAll(fs: Fs, actions: seq<Action>, outcomes: seq<Outcome>): State {
    if actions == [] then State(fs, Result(0, 0, 0, 0, false, 0))
    else
      var n := |actions| - 1;
      ExecuteOne(ExecuteAll(fs, actions[..n], outcomes), actions[n], OutcomeAt(outcomes, n))
  }

  class FileSystem {
    var fs: Fs

    constructor (fs: Fs)
      ensures this.fs == fs
    {
      this.fs := fs;
    }

    method MkdirAll(dir: string, fails: bool) returns (ok: bool)
      modifies this
      ensures ok == !fails
      ensures fs == if fails then old(fs) else Fs(old(fs).files, old(fs).dirs + MadeDirs(dir))
    {
      if fails {
        return false;
      }
      fs := Fs(fs.files, fs.dirs + MadeDirs(dir));
      return true;
    }

    method ConvertConfig(source: string, destination: string, outcome: Outcome) returns (ok: bool)
      modifies this
      ensures ok == (outcome.Converts? && source in old(fs).files)
      ensures fs == if ok then Fs(old(fs).files[destination := outcome.config],
                                  old(fs).dirs + MadeDirs(DirOf(destination)))
                    else if outcome.ConversionFails? && outcome.left.Some?
                    then Fs(old(fs).files[destination := outcome.left.value], old(fs).dirs)
                    else old(fs)
    {
      ok := outcome.Converts? && source in fs.files;
      if ok {
        fs := Fs(fs.files[destination := outcome.config], fs.dirs + MadeDirs(DirOf(destination)));
      } else if outcome.ConversionFails? && outcome.left.Some? {
        fs := Fs(fs.files[destination := outcome.left.value], fs.dirs);
      }
    }

    method CopyFile(src: string, dst: string, fails: bool, wrote: Option<nat>) returns (ok: bool)
      modifies this
      ensures ok == (!fails && Copyable(old(fs), src, dst))
      ensures fs.dirs == old(fs).dirs
      ensures fs.files == if ok then Copied(old(fs).files, src, dst)
                          else PartlyCopied(old(fs), src, dst, if fails then wrote else Some(0))
    {
      if src !in fs.files && src !in fs.dirs {
        return false;
      }
      if dst in fs.dirs || (fails && wrote.None?) {
        return false;
      }
      var isFile := src in fs.files;
      var content := if isFile then fs.files[src] else "";
      fs := Fs(fs.files[dst := ""], fs.dirs);
      if !isFile {
        return false;
      }
      if src != dst {
        fs := Fs(fs.files[dst := if fails then Take(content, wrote.value) else content], fs.dirs);
      }
      return !fails;
    }
  }

  method Execute(disk: FileSystem, actions: seq<Action>, outcomes: seq<Outcome>) returns (result: Result)
    modifies disk
    ensures State(disk.fs, result) == ExecuteAll(old(disk.fs), actions, outcomes)
  {
    result := Result(0, 0, 0, 0, false, 0);
    var i := 0;
    while i < |actions|
      invariant 0 <= i <= |actions|
      invariant State(disk.fs, result) == ExecuteAll(old(disk.fs), actions[..i], outcomes)
    {
      assert actions[..i + 1][..i] == actions[..i];
      var outcome := OutcomeAt(outcomes, i);
      result := ExecuteAction(disk, actions[i], outcome, result);
      i := i + 1;
    }
    assert actions[..i] == actions;
  }

  method ExecuteAction(disk: FileSystem, action: Action, outcome: Outcome, result: Result) returns (result': Result)
    modifies disk
    ensures State(disk.fs, result') == ExecuteOne(State(old(disk.fs), result), action, outcome)
  {
    result' := result;
    match action {
      case ConvertConfig(source, destination) =>
        var ok := disk.ConvertConfig(source, destination, outcome);
        if !ok {
          result' := result'.(errors := result'.errors + 1);
        } else {
          result' := result'.(configMigrated := true);
        }
      case CreateDir(dir) =>
        var ok := disk.MkdirAll(dir, outcome.MkdirFails?);
        if !ok {
          result' := result'.(errors := result'.errors + 1);
        } else {
          result' := result'.(dirsCreated := result'.dirsCreated + 1);
        }
      case Backup(source, destination) =>
        var saved := disk.CopyFile(destination, destination + ".bak", outcome.BackupFails?,
                                   if outcome.BackupFails? then outcome.wrote else None);
        if !saved {
          result' := result'.(errors := result'.errors + 1);
          return;
        }
        result' := result'.(backupsCreated := result'.backupsCreated + 1);
        result' := CopyInto(disk, action, outcome, result');
      case Copy(source, destination) =>
        result' := CopyInto(disk, action, outcome, result');
      case Skip(_, _) =>
        result' := result'.(filesSkipped := result'.filesSkipped + 1);
    }
  }

  method CopyInto(disk: FileSystem, action: Action, outcome: Outcome, result: Result) returns (result': Result)
    requires action.Copy? || action.Backup?
    modifies disk
    ensures State(disk.fs, result') == CopyOver(State(old(disk.fs), result), action, outcome)
  {
    var made := disk.MkdirAll(DirOf(action.destination), outcome.MkdirFails?);
    if !made {
      return result.(errors := result.errors + 1);
    }
    var ok := disk.CopyFile(action.source, action.destination, outcome.CopyFails?,
                            if outcome.CopyFails? then outcome.wrote else None);
    if !ok {
      return result.(errors := result.errors + 1);
    }
    result' := result.(filesCopied := result.filesCopied + 1);
  }
}
