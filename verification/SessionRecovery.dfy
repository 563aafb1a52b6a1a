/** What a restart finds: every run of saves, of which any may fail at any step or be cut off by a crash. */
module SessionRecovery {
  import opened Wrappers
  import opened SessionStore
  import opened SessionFiles

  /** A crash when `at` of the save's steps have reached the disk, and the directory it leaves.  As the program
      never syncs the directory, a rename that was made may not have reached it. */
  datatype Crash = Crash(at: nat, left: Disk)

  lemma {:induction false} SanitizedIs(key: string)
    ensures var name := SanitizeFilename(key);
            |name| == |key| && forall i :: 0 <= i < |key| ==> name[i] == if key[i] == ':' then '_' else key[i]
  {
    if key != "" { SanitizedIs(key[..|key| - 1]); }
  }

  /** The file of a key: its characters with underscores for colons, and the suffix. */
  lemma FileNameIs(key: string)
    ensures var name := FileName(key);
            && |name| == |key| + 5 && name[|key|..] == ".json"
            && forall i :: 0 <= i < |key| ==> name[i] == if key[i] == ':' then '_' else key[i]
  {
    SanitizedIs(key);
  }

  lemma KeptCharacter(key: string, c: char)
    requires c != ':' && c != '_'
    ensures c in SanitizeFilename(key) <==> c in key
  {
    var name := SanitizeFilename(key);
    SanitizedIs(key);
    if i :| 0 <= i < |key| && key[i] == c { assert name[i] == c; }
    if i :| 0 <= i < |name| && name[i] == c { assert key[i] == c; }
  }

  lemma KeptDots(key: string, n: nat)
    ensures SanitizeFilename(key) == seq(n, _ => '.') <==> key == seq(n, _ => '.')
  {
    SanitizedIs(key);
  }

  /** A key has a session file exactly if it is not empty, no name of a directory, and without separators. */
  lemma SavableIff(key: string)
    ensures ValidName(SanitizeFilename(key)) <==>
            key != "" && key != "." && key != ".." && '/' !in key && '\\' !in key
  {
    KeptCharacter(key, '/');
    KeptCharacter(key, '\\');
    KeptDots(key, 0);
    KeptDots(key, 1);
    KeptDots(key, 2);
    assert seq(0, _ => '.') == "" && seq(1, _ => '.') == "." && seq(2, _ => '.') == "..";
  }

  /** While it is filled the temporary file can be damaged by a crash; only the third step, the sync, makes it
      safe, and with the whole snapshot in it. */
  lemma SyncedLast(disk: Disk, temp: string, s: Snapshot, at: Option<Step>, i: nat)
    requires i < |Filling(disk, temp, s, at)|
    ensures i <= 2 && temp in Filling(disk, temp, s, at)[i]
    ensures var file := Filling(disk, temp, s, at)[i][temp];
            && (file.synced <==> i == 2) && (file.content == Json(s) <==> i > 0)
    ensures at in {Some(Create), Some(Write), Some(Chmod), Some(Sync)} <==> |Filling(disk, temp, s, at)| < 3
  {
  }

  /** Of two files with the same key inside, the one listed later is what is loaded; a file that is no JSON file
      or does not decode changes nothing. */
  lemma LaterFileWins(disk: Disk, names: seq<string>, name: string, key: string)
    ensures var before, after := Loaded(disk, names), Loaded(disk, names + [name]);
            if |name| >= 5 && name[|name| - 5..] == ".json" && name in disk && disk[name].content.Json?
               && disk[name].content.snapshot.key == key
            then key in after && after[key] == disk[name].content.snapshot
            else (key in after <==> key in before) && (key in before ==> after[key] == before[key])
  {
    assert (names + [name])[..|names|] == names;
  }

  /** A save that fails leaves the directory as it was, unless its temporary file could not be removed; one that
      succeeds leaves one file more or replaced, the session's own. */
  lemma SaveLeaves(disk: Disk, temp: string, s: Snapshot, f: Faults)
    requires temp !in disk && temp != FileName(s.key)
    ensures var after := LastOf(disk, SaveStates(disk, temp, s, f));
            && (f.at.Some? && (f.at.value == Create || !f.keepsTemp) ==> after == disk)
            && (f.at.Some? && f.keepsTemp ==> after - {temp} == disk)
            && (f.at.None? ==> after == disk[FileName(s.key) := File(Json(s), true)])
  {
    assert disk - {temp} == disk;
  }

  /** A save.  One whose rename is undone by a later crash counts as a save that failed at its rename. */
  datatype Event = Event(snapshot: Snapshot, random: string, faults: Faults, crash: Option<Crash>)

  function StatesOf(disk: Disk, e: Event): seq<Disk> {
    [disk] + SaveStates(disk, TempName(e.random), e.snapshot, e.faults)
  }

  /** Files are all there, and synced ones unharmed. */
  ghost predicate Survives(before: Disk, after: Disk) {
    && before.Keys == after.Keys
    && forall name :: name in before && before[name].synced ==> after[name] == before[name]
  }

  /** The key can be saved, the temporary name is unused, and a crash leaves something that could be left. */
  ghost predicate Possible(disk: Disk, e: Event) {
    && ValidName(SanitizeFilename(e.snapshot.key)) && TempName(e.random) !in disk
    && (e.crash.Some? ==>
          && e.crash.value.at < |StatesOf(disk, e)|
          && Survives(StatesOf(disk, e)[e.crash.value.at], e.crash.value.left))
  }

  function After(disk: Disk, e: Event): Disk {
    match e.crash
    case None => LastOf(disk, StatesOf(disk, e))
    case Some(crash) => crash.left
  }

  function DiskAfter(es: seq<Event>): Disk {
    if es == [] then map[] else After(DiskAfter(es[..|es| - 1]), es[|es| - 1])
  }

  ghost predicate PossibleRun(es: seq<Event>) {
    es == [] || (PossibleRun(es[..|es| - 1]) && Possible(DiskAfter(es[..|es| - 1]), es[|es| - 1]))
  }

  /** The rename was made and, if there was a crash, had reached the disk. */
  predicate TookEffect(e: Event) {
    e.faults.at.None? && (e.crash.Some? ==> e.crash.value.at == 4)
  }

  /** The snapshot of the last save that took effect on a file name. */
  function LastOn(es: seq<Event>, name: string): Option<Snapshot> {
    if es == [] then None
    else
      var e := es[|es| - 1];
      if TookEffect(e) && FileName(e.snapshot.key) == name then Some(e.snapshot) else LastOn(es[..|es| - 1], name)
  }

  lemma TempIsNoJson(random: string)
    ensures !IsJson(TempName(random))
  {
    var name := TempName(random);
    assert name[|name| - 5..][4] == 'p';
  }

  lemma FileIsJson(key: string)
    ensures IsJson(FileName(key))
  {
  }

  /** What a save does to a file that is not its temporary file: nothing, until the rename puts the whole
      snapshot in place. */
  lemma StateAt(disk: Disk, temp: string, s: Snapshot, f: Faults, i: nat, name: string)
    requires i <= |SaveStates(disk, temp, s, f)| && name != temp
    ensures var state := ([disk] + SaveStates(disk, temp, s, f))[i];
            if i == 4 && f.at.None? && name == FileName(s.key)
            then name in state && state[name] == File(Json(s), true)
            else (name in state <==> name in disk) && (name in disk ==> state[name] == disk[name])
  {
  }

  lemma CompleteHasFour(disk: Disk, temp: string, s: Snapshot, f: Faults)
    ensures |SaveStates(disk, temp, s, f)| <= 4
    ensures f.at.None? ==> |SaveStates(disk, temp, s, f)| == 4
  {
  }

  /** Crash safety: wherever a save stops, each session file is what it was before or holds the complete
      new snapshot, the latter exactly when the rename was made and reached the disk. */
  lemma OldOrNew(disk: Disk, e: Event, name: string)
    requires Possible(disk, e) && IsJson(name) && (name in disk ==> disk[name].synced)
    ensures if TookEffect(e) && name == FileName(e.snapshot.key)
            then name in After(disk, e) && After(disk, e)[name] == File(Json(e.snapshot), true)
            else (name in After(disk, e) <==> name in disk) && (name in disk ==> After(disk, e)[name] == disk[name])
  {
    var temp := TempName(e.random);
    TempIsNoJson(e.random);
    CompleteHasFour(disk, temp, e.snapshot, e.faults);
    var i := if e.crash.Some? then e.crash.value.at else |SaveStates(disk, temp, e.snapshot, e.faults)|;
    StateAt(disk, temp, e.snapshot, e.faults, i, name);
  }

  /** After every run the file of a name holds the last snapshot saved under that name. */
  lemma {:induction false} FilesHoldTheLast(es: seq<Event>, name: string)
    requires PossibleRun(es) && IsJson(name)
    ensures name in DiskAfter(es) <==> LastOn(es, name).Some?
    ensures name in DiskAfter(es) ==> DiskAfter(es)[name] == File(Json(LastOn(es, name).value), true)
  {
    if es != [] {
      FilesHoldTheLast(es[..|es| - 1], name);
      OldOrNew(DiskAfter(es[..|es| - 1]), es[|es| - 1], name);
    }
  }

  lemma {:induction false} LastOnItsName(es: seq<Event>, name: string)
    ensures LastOn(es, name).Some? ==> FileName(LastOn(es, name).value.key) == name
  {
    if es != [] { LastOnItsName(es[..|es| - 1], name); }
  }

  ghost predicate Lists(names: seq<string>, disk: Disk) {
    forall name :: name in names <==> name in disk
  }

  /** The file is no session file, or holds a snapshot of a key with that file name. */
  predicate FiledRight(disk: Disk, name: string) {
    IsJson(name) && name in disk ==>
      disk[name].content.Json? && FileName(disk[name].content.snapshot.key) == name
  }

  predicate HoldsKey(disk: Disk, key: string) {
    && FileName(key) in disk
    && disk[FileName(key)].content.Json? && disk[FileName(key)].content.snapshot.key == key
  }

  lemma {:induction false} LoadedAt(disk: Disk, names: seq<string>, key: string)
    requires forall name :: name in names ==> FiledRight(disk, name)
    ensures key in Loaded(disk, names) <==> FileName(key) in names && HoldsKey(disk, key)
    ensures key in Loaded(disk, names) ==> Loaded(disk, names)[key] == disk[FileName(key)].content.snapshot
  {
    if names != [] {
      var past, name := names[..|names| - 1], names[|names| - 1];
      LoadedAt(disk, past, key);
      assert FiledRight(disk, name);
      FileIsJson(key);
      LastNamed(names, FileName(key));
    }
  }

  lemma LastNamed(names: seq<string>, name: string)
    requires names != []
    ensures name in names <==> name in names[..|names| - 1] || name == names[|names| - 1]
  {
    assert names == names[..|names| - 1] + [names[|names| - 1]];
  }

  /** Recovery.  After every run of saves, failures and crashes, a reload has a session exactly when the
      last save that took effect on its file name was its own, and then with that save's snapshot.
      Temporary files left behind are ignored. */
  lemma ReloadIs(es: seq<Event>, names: seq<string>, key: string)
    requires PossibleRun(es) && Lists(names, DiskAfter(es))
    ensures var sessions := Loaded(DiskAfter(es), names);
            var last := LastOn(es, FileName(key));
            (key in sessions <==> last.Some? && last.value.key == key)
            && (key in sessions ==> sessions[key] == last.value)
  {
    var disk := DiskAfter(es);
    forall name | name in names ensures FiledRight(disk, name) {
      if IsJson(name) {
        FilesHoldTheLast(es, name);
        LastOnItsName(es, name);
      }
    }
    LoadedAt(disk, names, key);
    FileIsJson(key);
    FilesHoldTheLast(es, FileName(key));
  }

  /** The last snapshot of a key whose save took effect. */
  function LastSaved(es: seq<Event>, key: string): Option<Snapshot> {
    if es == [] then None
    else
      var e := es[|es| - 1];
      if TookEffect(e) && e.snapshot.key == key then Some(e.snapshot) else LastSaved(es[..|es| - 1], key)
  }

  /** Another key with the same file name was saved after the key's last save. */
  predicate Overwritten(es: seq<Event>, key: string) {
    if es == [] then false
    else
      var e := es[|es| - 1];
      if TookEffect(e) && FileName(e.snapshot.key) == FileName(key) then e.snapshot.key != key
      else Overwritten(es[..|es| - 1], key)
  }

  /** Round trip: a reload gives a saved key its last saved snapshot if and only if no other key with the
      same file name was saved since. */
  lemma RoundTripIff(es: seq<Event>, names: seq<string>, key: string)
    requires PossibleRun(es) && Lists(names, DiskAfter(es)) && LastSaved(es, key).Some?
    ensures var sessions := Loaded(DiskAfter(es), names);
            (key in sessions && sessions[key] == LastSaved(es, key).value) <==> !Overwritten(es, key)
  {
    ReloadIs(es, names, key);
    LastOnOrOverwritten(es, key);
    LastSavedIsOwn(es, key);
  }

  lemma {:induction false} LastSavedIsOwn(es: seq<Event>, key: string)
    ensures LastSaved(es, key).Some? ==> LastSaved(es, key).value.key == key
  {
    if es != [] { LastSavedIsOwn(es[..|es| - 1], key); }
  }

  lemma {:induction false} LastOnOrOverwritten(es: seq<Event>, key: string)
    requires LastSaved(es, key).Some?
    ensures var last := LastOn(es, FileName(key));
            last.Some? && if Overwritten(es, key) then last.value.key != key else last == LastSaved(es, key)
  {
    var e := es[|es| - 1];
    if !(TookEffect(e) && FileName(e.snapshot.key) == FileName(key)) {
      LastOnOrOverwritten(es[..|es| - 1], key);
    }
  }

  /** In particular when no two of the saved keys share a file name. */
  lemma {:induction false} DistinctNamesAreSafe(es: seq<Event>, key: string)
    requires forall i :: 0 <= i < |es| && FileName(es[i].snapshot.key) == FileName(key) ==> es[i].snapshot.key == key
    ensures !Overwritten(es, key)
  {
    if es != [] {
      var past := es[..|es| - 1];
      assert forall i :: 0 <= i < |past| ==> past[i] == es[i];
      DistinctNamesAreSafe(past, key);
    }
  }

  /** Two keys share a file exactly when they differ only in colons against underscores. */
  lemma ShareAFileIff(a: string, b: string)
    ensures FileName(a) == FileName(b)
       <==> |a| == |b| && forall i :: 0 <= i < |a| ==> Alike(a[i], b[i])
  {
    var name, name' := FileName(a), FileName(b);
    FileNameIs(a);
    FileNameIs(b);
    if name == name' {
      forall i | 0 <= i < |a| ensures Alike(a[i], b[i]) {
        assert name[i] == name'[i];
      }
    }
  }

  predicate Alike(c: char, d: char) {
    c == d || (c in {':', '_'} && d in {':', '_'})
  }
}
