/** Session files: saving by temporary file and rename, loading, and what a crash can leave behind. */
module SessionFiles {
  import opened Wrappers
  import opened SessionStore

  /** A file holds the JSON text of a snapshot, or bytes that do not decode.  Bytes that were not synced
      may be anything after a crash. */
  datatype Content = Json(snapshot: Snapshot) | Torn

  datatype File = File(content: Content, synced: bool)

  type Disk = map<string, File>

  function SanitizeFilename(key: string): string {
    if key == "" then ""
    else SanitizeFilename(key[..|key| - 1]) + [if key[|key| - 1] == ':' then '_' else key[|key| - 1]]
  }

  /** Not empty, not a directory name and without separators. */
  predicate ValidName(name: string) {
    name != "" && name != "." && name != ".." && '/' !in name && '\\' !in name
  }

  predicate HasSuffix(s: string, suffix: string) {
    |suffix| <= |s| && s[|s| - |suffix|..] == suffix
  }

  predicate IsJson(name: string) {
    HasSuffix(name, ".json")
  }

  function FileName(key: string): string {
    SanitizeFilename(key) + ".json"
  }

  function TempName(random: string): string {
    "session-" + random + ".tmp"
  }

  /** The step of a save that fails, if any, and whether removing the temporary file fails as well. */
  datatype Step = Create | Write | Chmod | Sync | CloseFile | Rename

  datatype Faults = Faults(at: Option<Step>, keepsTemp: bool)

  function Cleaned(disk: Disk, temp: string, f: Faults): Disk {
    if f.keepsTemp then disk else disk - {temp}
  }

  function With(disk: Disk, name: string, content: Content, synced: bool): Disk {
    disk[name := File(content, synced)]
  }

  function Renamed(disk: Disk, temp: string, s: Snapshot): Disk {
    With(disk - {temp}, FileName(s.key), Json(s), true)
  }

  /** The states up to the failing step. */
  function Filling(disk: Disk, temp: string, s: Snapshot, at: Option<Step>): seq<Disk> {
    var created := With(disk, temp, Torn, false);
    var written := With(disk, temp, Json(s), false);
    var synced := With(disk, temp, Json(s), true);
    match at
    case Some(Create) => []
    case Some(Write) => [created]
    case Some(Chmod) => [created, written]
    case Some(Sync) => [created, written]
    case _ => [created, written, synced]
  }

  /** The states that a save takes the directory through. */
  function SaveStates(disk: Disk, temp: string, s: Snapshot, f: Faults): seq<Disk> {
    var filling := Filling(disk, temp, s, f.at);
    if filling == [] then []
    else if f.at.Some? then filling + [Cleaned(LastOf(disk, filling), temp, f)]
    else filling + [Renamed(disk, temp, s)]
  }

  function LastOf(disk: Disk, states: seq<Disk>): Disk {
    if states == [] then disk else states[|states| - 1]
  }

  /** The storage directory. */
  class Directory {
    var files: Disk
    ghost var history: seq<Disk> // every state since the directory was created

    constructor ()
      ensures files == map[] && history == []
    {
      files, history := map[], [];
    }

    method Put(name: string, content: Content, synced: bool)
      modifies this
      ensures files == With(old(files), name, content, synced) && history == old(history) + [files]
    {
      files := files[name := File(content, synced)];
      history := history + [files];
    }

    method MoveTo(from: string, to: string)
      requires from in files
      modifies this
      ensures files == (old(files) - {from})[to := old(files)[from]] && history == old(history) + [files]
    {
      files := (files - {from})[to := files[from]];
      history := history + [files];
    }

    /** Removing is only tried: its own failure is ignored. */
    method Remove(name: string, fails: bool)
      modifies this
      ensures files == (if fails then old(files) else old(files) - {name}) && history == old(history) + [files]
    {
      if !fails {
        files := files - {name};
      }
      history := history + [files];
    }
  }

  predicate Saves(store: Store, key: string) {
    ValidName(SanitizeFilename(key)) && key in store
  }

  lemma WithTwice(disk: Disk, name: string, c: Content, c': Content, synced: bool, synced': bool)
    ensures With(With(disk, name, c, synced), name, c', synced') == With(disk, name, c', synced')
    ensures With(disk, name, c, synced) - {name} == disk - {name}
  {
  }

  /** Creates, fills and syncs the temporary file; `states` are the states this goes through. */
  method FillTemp(storage: Directory, snapshot: Snapshot, temp: string, at: Option<Step>)
    returns (ok: bool, ghost states: seq<Disk>)
    modifies storage
    ensures ok == (at.None? || at.value == Rename)
    ensures states == Filling(old(storage.files), temp, snapshot, at)
    ensures storage.history == old(storage.history) + states && storage.files == LastOf(old(storage.files), states)
  {
    ghost var disk, history := storage.files, storage.history;
    states := [];
    if at == Some(Create) {
      return false, states;
    }
    storage.Put(temp, Torn, false);
    states := [storage.files];
    if at == Some(Write) {
      return false, states;
    }
    storage.Put(temp, Json(snapshot), false);
    WithTwice(disk, temp, Torn, Json(snapshot), false, false);
    states := states + [storage.files];
    assert storage.history == history + states;
    if at == Some(Chmod) || at == Some(Sync) {
      return false, states;
    }
    storage.Put(temp, Json(snapshot), true);
    WithTwice(disk, temp, Json(snapshot), Json(snapshot), false, true);
    states := states + [storage.files];
    assert storage.history == history + states;
    ok := at != Some(CloseFile);
  }

  method WriteSnapshot(storage: Directory, snapshot: Snapshot, temp: string, faults: Faults) returns (ok: bool)
    modifies storage
    ensures ok == faults.at.None?
    ensures var states := SaveStates(old(storage.files), temp, snapshot, faults);
            storage.history == old(storage.history) + states && storage.files == LastOf(old(storage.files), states)
  {
    ghost var history := storage.history;
    ghost var states;
    ok, states := FillTemp(storage, snapshot, temp, faults.at);
    if faults.at == Some(Create) {
      return;
    }
    WithTwice(old(storage.files), temp, Json(snapshot), Json(snapshot), true, true);
    if ok && faults.at != Some(Rename) {
      storage.MoveTo(temp, FileName(snapshot.key));
    } else {
      ok := false;
      storage.Remove(temp, faults.keepsTemp);
    }
    assert storage.history == history + (states + [storage.files]);
  }

  method Save(sm: SessionManager, storage: Directory?, key: string, random: string, faults: Faults) returns (ok: bool)
    requires sm.Valid()
    requires storage != null ==> TempName(random) !in storage.files
    modifies storage
    ensures storage != null && Saves(sm.View(), key) ==>
              ok == faults.at.None?
              && var states := SaveStates(old(storage.files), TempName(random), sm.View()[key], faults);
                 storage.history == old(storage.history) + states
                 && storage.files == LastOf(old(storage.files), states)
    ensures storage != null && !Saves(sm.View(), key) ==>
              storage.files == old(storage.files) && storage.history == old(storage.history)
              && ok == ValidName(SanitizeFilename(key))
    ensures storage == null ==> ok
  {
    if storage == null {
      return true;
    }
    if !ValidName(SanitizeFilename(key)) {
      return false;
    }
    if key !in sm.sessions {
      return true;
    }
    var stored := sm.sessions[key];
    var snapshot := Snapshot(stored.key, stored.messages, stored.summary);
    ok := WriteSnapshot(storage, snapshot, TempName(random), faults);
  }

  // ---------------------------------------------------------------------------
  // Loading
  // ---------------------------------------------------------------------------

  function LoadOne(disk: Disk, name: string, sessions: Store): Store {
    if IsJson(name) && name in disk && disk[name].content.Json?
    then sessions[disk[name].content.snapshot.key := disk[name].content.snapshot]
    else sessions
  }

  /** The files taken in the order in which the directory lists them. */
  function Loaded(disk: Disk, names: seq<string>): Store {
    if names == [] then map[]
    else LoadOne(disk, names[|names| - 1], Loaded(disk, names[..|names| - 1]))
  }

  method LoadFile(sm: SessionManager, storage: Directory, name: string)
    requires sm.Valid()
    modifies sm
    ensures sm.Valid() && sm.View() == LoadOne(storage.files, name, old(sm.View()))
    ensures fresh(sm.sessions.Values - old(sm.sessions.Values))
  {
    if !IsJson(name) || name !in storage.files {
      return;
    }
    var content := storage.files[name].content;
    if content.Torn? {
      return;
    }
    var session := new Session(content.snapshot.key);
    session.messages := content.snapshot.messages;
    session.summary := content.snapshot.summary;
    sm.sessions := sm.sessions[session.key := session];
  }

  method LoadSessions(storage: Directory, names: seq<string>) returns (sm: SessionManager)
    ensures sm.Valid() && sm.View() == Loaded(storage.files, names) && fresh(sm)
  {
    sm := new SessionManager();
    var i := 0;
    while i < |names|
      invariant 0 <= i <= |names|
      invariant sm.Valid() && sm.View() == Loaded(storage.files, names[..i])
    {
      assert names[..i + 1][..i] == names[..i];
      LoadFile(sm, storage, names[i]);
      i := i + 1;
    }
    assert names[..i] == names;
  }
}
