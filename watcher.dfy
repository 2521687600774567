/**
 * The configuration watcher (src/config_watcher.py): a start/stop state
 * machine around one background watch task, and the loop that turns
 * batches of file-system changes into reload callbacks.
 *
 * The change batches the file-watching library yields are an input here;
 * the callback is a function from the call's number to how it ended.
 */
module ConfigWatch {
  import opened Values

  /** The file-watching library's change kinds, an int enum: added = 1, modified = 2, deleted = 3. */
  datatype Change = Added | Modified | Deleted

  /** `change.value`. */
  function ChangeValue(c: Change): int {
    match c
    case Added => 1
    case Modified => 2
    case Deleted => 3
  }

  datatype FileChange = FileChange(kind: Change, path: string)

  /** The changes of all batches, in batch order. */
  function Flatten(batches: seq<seq<FileChange>>): (r: seq<FileChange>)
    ensures batches == [] ==> r == []
    decreases |batches|
  {
    if batches == [] then [] else Flatten(batches[..|batches| - 1]) + batches[|batches| - 1]
  }

  /** The filter as written: `path == config_path and change.value == "modified"`, an int compared with a string. */
  predicate FiresAsWritten(ch: FileChange, configPath: string) {
    ch.path == configPath && Int(ChangeValue(ch.kind)) == Str("modified")
  }

  /** The filter as intended: a modification of the configuration file. */
  predicate Fires(ch: FileChange, configPath: string) {
    ch.path == configPath && ch.kind == Modified
  }

  /** The changes the loop as written reacts to, in order. */
  function SelectedAsWritten(changes: seq<FileChange>, configPath: string): seq<FileChange>
    decreases |changes|
  {
    if changes == [] then []
    else
      var init := SelectedAsWritten(changes[..|changes| - 1], configPath);
      if FiresAsWritten(changes[|changes| - 1], configPath) then init + [changes[|changes| - 1]] else init
  }

  /** The changes that trigger a reload, in order. */
  function Selected(changes: seq<FileChange>, configPath: string): (r: seq<FileChange>)
    ensures |r| <= |changes|
    ensures forall i :: 0 <= i < |r| ==> Fires(r[i], configPath)
    decreases |changes|
  {
    if changes == [] then []
    else
      var init := Selected(changes[..|changes| - 1], configPath);
      if Fires(changes[|changes| - 1], configPath) then init + [changes[|changes| - 1]] else init
  }

  /** The reloads a run of the watch loop performs. */
  function Reloads(batches: seq<seq<FileChange>>, configPath: string): seq<FileChange> {
    Selected(Flatten(batches), configPath)
  }

  /** As written, no change at all, not even a modification of the file itself, triggers a reload. */
  lemma {:induction false} AsWrittenNeverReloads(changes: seq<FileChange>, configPath: string)
    ensures SelectedAsWritten(changes, configPath) == []
    decreases |changes|
  {
    if changes != [] {
      AsWrittenNeverReloads(changes[..|changes| - 1], configPath);
    }
  }

  /** An edit of the configuration file: ignored as written, one reload as intended. */
  lemma EditIgnoredAsWritten(configPath: string)
    ensures SelectedAsWritten([FileChange(Modified, configPath)], configPath) == []
    ensures Reloads([[FileChange(Modified, configPath)]], configPath) == [FileChange(Modified, configPath)]
  {
    AsWrittenNeverReloads([FileChange(Modified, configPath)], configPath);
    assert Flatten([[FileChange(Modified, configPath)]]) == [FileChange(Modified, configPath)] by {
      assert [[FileChange(Modified, configPath)]][..0] == [];
    }
    assert [FileChange(Modified, configPath)][..0] == [];
  }

  /** A change is reloaded exactly when it modifies the configuration file. */
  lemma {:induction false} SelectedMembers(changes: seq<FileChange>, configPath: string)
    ensures forall ch :: ch in Selected(changes, configPath) <==> ch in changes && Fires(ch, configPath)
    decreases |changes|
  {
    if changes != [] {
      var init := changes[..|changes| - 1];
      var last := changes[|changes| - 1];
      SelectedMembers(init, configPath);
      assert changes == init + [last];
      assert Selected(changes, configPath) == Selected(init, configPath) + (if Fires(last, configPath) then [last] else []);
    }
  }

  /** When every change is a modification of the file, each one is reloaded, in order. */
  lemma {:induction false} SelectedAll(changes: seq<FileChange>, configPath: string)
    requires forall i :: 0 <= i < |changes| ==> Fires(changes[i], configPath)
    ensures Selected(changes, configPath) == changes
    decreases |changes|
  {
    if changes != [] {
      var init := changes[..|changes| - 1];
      SelectedAll(init, configPath);
      assert changes == init + [changes[|changes| - 1]];
    }
  }

  /**
   * A change triggers a reload exactly when it modifies the configuration
   * file, and the reloads follow the changes' order.
   */
  lemma SelectedExactly(changes: seq<FileChange>, configPath: string)
    ensures forall ch :: ch in Selected(changes, configPath) <==> ch in changes && Fires(ch, configPath)
    ensures (forall i :: 0 <= i < |changes| ==> Fires(changes[i], configPath)) ==> Selected(changes, configPath) == changes
  {
    SelectedMembers(changes, configPath);
    if forall i :: 0 <= i < |changes| ==> Fires(changes[i], configPath) {
      SelectedAll(changes, configPath);
    }
  }

  /** One more change of a batch: it is selected or not on its own. */
  lemma SelectedExtend(seen: seq<FileChange>, changes: seq<FileChange>, j: nat, configPath: string)
    requires j < |changes|
    ensures Selected(seen + changes[..j + 1], configPath)
            == Selected(seen + changes[..j], configPath) + (if Fires(changes[j], configPath) then [changes[j]] else [])
  {
    var next := seen + changes[..j + 1];
    assert next[..|next| - 1] == seen + changes[..j];
  }

  /** One more batch: its changes follow those of the batches before it. */
  lemma FlattenExtend(batches: seq<seq<FileChange>>, b: nat)
    requires b < |batches|
    ensures Flatten(batches[..b + 1]) == Flatten(batches[..b]) + batches[b][..|batches[b]|]
  {
    assert batches[..b + 1][..b] == batches[..b];
    assert batches[b][..|batches[b]|] == batches[b];
  }

  class ConfigWatcher {
    const configPath: string
    var running: bool
    /** The current watch task, by the order in which tasks were created. */
    var task: Option<nat>
    var tasksCreated: nat
    var cancelled: set<nat>

    /** While running, the current task exists and has not been cancelled. */
    ghost predicate Valid()
      reads this
    {
      (running ==> task.Some? && task.value !in cancelled)
      && (task.Some? ==> task.value < tasksCreated)
      && (forall t :: t in cancelled ==> t < tasksCreated)
    }

    constructor (configPath: string)
      ensures this.configPath == configPath
      ensures !running && task == None && tasksCreated == 0 && cancelled == {}
      ensures Valid()
    {
      this.configPath := configPath;
      running := false;
      task := None;
      tasksCreated := 0;
      cancelled := {};
    }

    /** `start`; `fileExists` is whether the configuration file exists now. */
    method Start(fileExists: bool)
      requires Valid()
      modifies this
      ensures Valid()
      ensures old(running) || !fileExists ==> running == old(running) && task == old(task)
                                              && tasksCreated == old(tasksCreated) && cancelled == old(cancelled)
      ensures !old(running) && fileExists ==> running && task == Some(old(tasksCreated))
                                               && tasksCreated == old(tasksCreated) + 1 && cancelled == old(cancelled)
    {
      if running {
        return;
      }
      if !fileExists {
        return;
      }
      running := true;
      task := Some(tasksCreated);
      tasksCreated := tasksCreated + 1;
    }

    /** `stop`: the running task is cancelled and awaited. */
    method Stop()
      requires Valid()
      modifies this
      ensures Valid() && !running
      ensures !old(running) ==> task == old(task) && tasksCreated == old(tasksCreated) && cancelled == old(cancelled)
      ensures old(running) ==> task == old(task) && tasksCreated == old(tasksCreated) && cancelled == old(cancelled) + {old(task).value}
    {
      if !running {
        return;
      }
      running := false;
      if task.Some? {
        cancelled := cancelled + {task.value};
      }
    }

    /**
     * `_watch_loop` over the given batches, with the filter as intended: one
     * callback per selected change in order, every callback's exception
     * caught so that watching goes on.
     */
    method WatchLoop(batches: seq<seq<FileChange>>, callback: nat -> Outcome)
      returns (reloaded: seq<FileChange>, outcomes: seq<Outcome>)
      ensures reloaded == Reloads(batches, configPath)
      ensures |outcomes| == |reloaded| && forall i :: 0 <= i < |outcomes| ==> outcomes[i] == callback(i)
    {
      reloaded := [];
      outcomes := [];
      var b := 0;
      while b < |batches|
        invariant 0 <= b <= |batches|
        invariant reloaded == Selected(Flatten(batches[..b]), configPath)
        invariant |outcomes| == |reloaded| && forall i :: 0 <= i < |outcomes| ==> outcomes[i] == callback(i)
      {
        var changes := batches[b];
        var j := 0;
        assert Flatten(batches[..b]) + changes[..0] == Flatten(batches[..b]);
        while j < |changes|
          invariant 0 <= j <= |changes|
          invariant reloaded == Selected(Flatten(batches[..b]) + changes[..j], configPath)
          invariant |outcomes| == |reloaded| && forall i :: 0 <= i < |outcomes| ==> outcomes[i] == callback(i)
        {
          var change := changes[j];
          SelectedExtend(Flatten(batches[..b]), changes, j, configPath);
          if change.path == configPath && change.kind == Modified {
            var outcome := callback(|outcomes|);
            outcomes := outcomes + [outcome];
            reloaded := reloaded + [change];
          }
          j := j + 1;
        }
        FlattenExtend(batches, b);
        b := b + 1;
      }
      assert batches[..b] == batches;
    }
  }
}
