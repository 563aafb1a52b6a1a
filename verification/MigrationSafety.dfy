/** A migration loses no data: what an execution leaves in the destinations, the backups and elsewhere. */
module MigrationSafety {
  import opened Migration

  /** An action that writes a file. */
  predicate FileAction(a: Action) {
    a.Copy? || a.Backup? || a.ConvertConfig?
  }

  /** The files that an action writes. */
  predicate Writes(a: Action, path: string) {
    FileAction(a) && (path == a.destination || (a.Backup? && path == BakOf(a.destination)))
  }

  /** Neither action writes what the other reads or writes. */
  predicate Apart(a: Action, b: Action) {
    FileAction(a) && FileAction(b) ==>
      && a.destination != b.destination
      && BakOf(a.destination) != b.destination && a.destination != BakOf(b.destination)
      && a.source != b.destination && a.source != BakOf(b.destination)
      && b.source != a.destination && b.source != BakOf(a.destination)
  }

  /** The action does not write its own source. */
  predicate Plain(a: Action) {
    FileAction(a) ==> a.source != a.destination && a.source != BakOf(a.destination)
  }

  ghost predicate Independent(actions: seq<Action>) {
    && (forall i :: 0 <= i < |actions| ==> Plain(actions[i]))
    && forall i, j :: 0 <= i < j < |actions| ==> Apart(actions[i], actions[j])
  }

  predicate SameAt(files: map<string, string>, others: map<string, string>, path: string) {
    (path in files <==> path in others) && (path in files ==> files[path] == others[path])
  }

  predicate Holds(files: map<string, string>, path: string, content: string) {
    path in files && files[path] == content
  }

  lemma OneLeavesOthers(s: State, a: Action, outcome: Outcome, path: string)
    requires !Writes(a, path)
    ensures SameAt(ExecuteOne(s, a, outcome).fs.files, s.fs.files, path)
  {
  }

  lemma BakDiffers(path: string)
    ensures BakOf(path) != path
  {
    assert |BakOf(path)| == |path| + 4;
  }

  /** An action without error puts the source's content in the destination, and before that the
      destination's into the backup. */
  lemma OneDelivers(s: State, a: Action, outcome: Outcome)
    requires (a.Copy? || a.Backup?) && Plain(a) && ExecuteOne(s, a, outcome).result.errors == s.result.errors
    ensures a.source in s.fs.files && Holds(ExecuteOne(s, a, outcome).fs.files, a.destination, s.fs.files[a.source])
    ensures a.Backup? ==>
              && a.destination in s.fs.files
              && Holds(ExecuteOne(s, a, outcome).fs.files, BakOf(a.destination), s.fs.files[a.destination])
  {
    BakDiffers(a.destination);
  }

  /** With or without errors: the destination's content survives there or in the backup. */
  lemma OneLosesNothing(s: State, a: Action, outcome: Outcome)
    requires a.Backup? && a.destination in s.fs.files
    ensures var files := ExecuteOne(s, a, outcome).fs.files;
            Holds(files, a.destination, s.fs.files[a.destination])
            || Holds(files, BakOf(a.destination), s.fs.files[a.destination])
  {
    BakDiffers(a.destination);
  }

  /** Files that no action writes stay as they are. */
  lemma {:induction false} OthersUnchanged(fs: Fs, actions: seq<Action>, outcomes: seq<Outcome>, path: string)
    requires forall i :: 0 <= i < |actions| ==> !Writes(actions[i], path)
    ensures SameAt(ExecuteAll(fs, actions, outcomes).fs.files, fs.files, path)
  {
    if actions != [] {
      var n := |actions| - 1;
      OthersUnchanged(fs, actions[..n], outcomes, path);
      OneLeavesOthers(ExecuteAll(fs, actions[..n], outcomes), actions[n], OutcomeAt(outcomes, n), path);
    }
  }

  /** A file that only action k reads or writes, at the time of k and after it. */
  lemma {:induction false} KeptAfter(fs: Fs, actions: seq<Action>, outcomes: seq<Outcome>, k: nat, path: string)
    requires k < |actions| && forall i :: k < i < |actions| ==> !Writes(actions[i], path)
    ensures SameAt(ExecuteAll(fs, actions, outcomes).fs.files, ExecuteAll(fs, actions[..k + 1], outcomes).fs.files,
                   path)
    decreases |actions|
  {
    var n := |actions| - 1;
    if k == n {
      assert actions[..k + 1] == actions;
    } else {
      assert actions[..n][..k + 1] == actions[..k + 1];
      KeptAfter(fs, actions[..n], outcomes, k, path);
      OneLeavesOthers(ExecuteAll(fs, actions[..n], outcomes), actions[n], OutcomeAt(outcomes, n), path);
    }
  }

  lemma {:induction false} ErrorsGrow(fs: Fs, actions: seq<Action>, outcomes: seq<Outcome>, k: nat)
    requires k <= |actions|
    ensures ExecuteAll(fs, actions[..k], outcomes).result.errors <= ExecuteAll(fs, actions, outcomes).result.errors
    decreases |actions|
  {
    if k == |actions| {
      assert actions[..k] == actions;
    } else {
      var n := |actions| - 1;
      assert actions[..n][..k] == actions[..k];
      ErrorsGrow(fs, actions[..n], outcomes, k);
      ErrorsGrowByOne(ExecuteAll(fs, actions[..n], outcomes), actions[n], OutcomeAt(outcomes, n));
    }
  }

  lemma ErrorsGrowByOne(s: State, a: Action, outcome: Outcome)
    ensures ExecuteOne(s, a, outcome).result.errors >= s.result.errors
  {
  }

  /** Before its turn, an action's source, destination and backup are as they were at the start. */
  lemma FreshAt(fs: Fs, actions: seq<Action>, outcomes: seq<Outcome>, k: nat, path: string)
    requires Independent(actions) && k < |actions| && FileAction(actions[k])
    requires path == actions[k].source || path == actions[k].destination
    ensures SameAt(ExecuteAll(fs, actions[..k], outcomes).fs.files, fs.files, path)
  {
    forall i | 0 <= i < k ensures !Writes(actions[..k][i], path) {
      assert Apart(actions[i], actions[k]);
    }
    OthersUnchanged(fs, actions[..k], outcomes, path);
  }

  /** After its turn, an action's source, destination and backup stay as it left them. */
  lemma SettledAt(fs: Fs, actions: seq<Action>, outcomes: seq<Outcome>, k: nat, path: string)
    requires Independent(actions) && k < |actions| && FileAction(actions[k])
    requires path == actions[k].destination || path == BakOf(actions[k].destination)
    ensures var step := ExecuteOne(ExecuteAll(fs, actions[..k], outcomes), actions[k], OutcomeAt(outcomes, k));
            SameAt(ExecuteAll(fs, actions, outcomes).fs.files, step.fs.files, path)
  {
    forall i | k < i < |actions| ensures !Writes(actions[i], path) {
      assert Apart(actions[k], actions[i]);
      BakInjective(actions[k].destination, actions[i].destination);
    }
    KeptAfter(fs, actions, outcomes, k, path);
    assert actions[..k + 1][..k] == actions[..k];
  }

  lemma BakInjective(a: string, b: string)
    ensures BakOf(a) == BakOf(b) ==> a == b
  {
    if BakOf(a) == BakOf(b) {
      assert a == BakOf(a)[..|a|] && b == BakOf(b)[..|b|];
    }
  }

  /** After an error-free execution every destination holds its source's old content, and every backup its
      destination's. */
  lemma ErrorFreeDelivers(fs: Fs, actions: seq<Action>, outcomes: seq<Outcome>, k: nat)
    requires Independent(actions) && k < |actions| && (actions[k].Copy? || actions[k].Backup?)
    requires ExecuteAll(fs, actions, outcomes).result.errors == 0
    ensures var a := actions[k];
            var files := ExecuteAll(fs, actions, outcomes).fs.files;
            && a.source in fs.files && Holds(files, a.destination, fs.files[a.source])
            && (a.Backup? ==>
                  a.destination in fs.files && Holds(files, BakOf(a.destination), fs.files[a.destination]))
  {
    var a, before := actions[k], ExecuteAll(fs, actions[..k], outcomes);
    ErrorsGrow(fs, actions, outcomes, k);
    ErrorsGrow(fs, actions, outcomes, k + 1);
    assert actions[..k + 1][..k] == actions[..k];
    OneDelivers(before, a, OutcomeAt(outcomes, k));
    FreshAt(fs, actions, outcomes, k, a.source);
    FreshAt(fs, actions, outcomes, k, a.destination);
    SettledAt(fs, actions, outcomes, k, a.destination);
    SettledAt(fs, actions, outcomes, k, BakOf(a.destination));
  }

  /** Whatever goes wrong, a destination that is to be overwritten keeps its content or has it in its backup. */
  lemma NothingIsLost(fs: Fs, actions: seq<Action>, outcomes: seq<Outcome>, k: nat)
    requires Independent(actions) && k < |actions| && actions[k].Backup? && actions[k].destination in fs.files
    ensures var dst := actions[k].destination;
            var files := ExecuteAll(fs, actions, outcomes).fs.files;
            Holds(files, dst, fs.files[dst]) || Holds(files, BakOf(dst), fs.files[dst])
  {
    var a := actions[k];
    FreshAt(fs, actions, outcomes, k, a.destination);
    OneLosesNothing(ExecuteAll(fs, actions[..k], outcomes), a, OutcomeAt(outcomes, k));
    SettledAt(fs, actions, outcomes, k, a.destination);
    SettledAt(fs, actions, outcomes, k, BakOf(a.destination));
  }
}
