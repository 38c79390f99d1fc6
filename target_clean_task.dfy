/** `BazelTargetCleanTask`: the module's `clean` task, which deletes every
  * output file of the tasks registered with it. */
module TargetCleanTask {
  import opened Common
  import opened Files

  const NoTargetMessage := "addTargetTask was not called for this clean task"

  /** Every output file of the given tasks; `outputs` lists the output files
    * each task declares, by task name. */
  function OutputsOf(tasks: set<string>, outputs: map<string, seq<string>>): (r: set<string>)
    ensures forall t, p :: t in tasks && t in outputs && p in outputs[t] ==> p in r
    ensures forall p :: p in r ==> exists t :: t in tasks && t in outputs && p in outputs[t]
  {
    set t, p | t in tasks && t in outputs && p in outputs[t] :: p
  }

  /** The output files of one more task. */
  lemma OutputsOfStep(tasks: set<string>, t: string, outputs: map<string, seq<string>>, files: seq<string>)
    requires files == if t in outputs then outputs[t] else []
    ensures OutputsOf(tasks + {t}, outputs) == OutputsOf(tasks, outputs) + set p | p in files
  {
  }

  /** A path that exists but that `delete()` does not remove: a locked file or
    * a directory. */
  predicate Undeletable(files: map<string, Content>, dirs: set<string>, locked: set<string>, p: string) {
    (p in files || p in dirs) && !(p in files && p !in locked)
  }

  /** Once some deletable paths are gone, the others are as deletable as before. */
  lemma UndeletableAfter(before: map<string, Content>, gone: set<string>, dirs: set<string>, locked: set<string>, p: string)
    requires before.Keys !! dirs
    requires forall q :: q in gone ==> !Undeletable(before, dirs, locked, q)
    ensures Undeletable(before - gone, dirs, locked, p) <==> Undeletable(before, dirs, locked, p)
  {
  }

  /** The inner loop of `deleteOutputs` over one task's output files: deletes
    * each existing one in order, and stops at the first that exists and
    * cannot be deleted, which it returns. */
  method DeleteFiles(fs: FileSystem, files: seq<string>) returns (failed: Option<string>)
    requires fs.files.Keys !! fs.dirs
    modifies fs
    ensures fs.dirs == old(fs.dirs) && fs.files.Keys !! fs.dirs
    ensures failed.None? ==> fs.files == old(fs.files) - (set p | p in files)
    ensures failed.None? <==> forall p :: p in files ==> !Undeletable(old(fs.files), fs.dirs, fs.locked, p)
    ensures failed.Some? ==> failed.value in files && Undeletable(old(fs.files), fs.dirs, fs.locked, failed.value)
    ensures failed.Some? ==> fs.files.Keys <= old(fs.files.Keys) && old(fs.files.Keys) - fs.files.Keys <= set p | p in files
  {
    var j := 0;
    while j < |files|
      invariant 0 <= j <= |files|
      invariant fs.dirs == old(fs.dirs)
      invariant fs.files == old(fs.files) - (set p | p in files[..j])
      invariant forall p :: p in files[..j] ==> !Undeletable(old(fs.files), fs.dirs, fs.locked, p)
    {
      var p := files[j];
      UndeletableAfter(old(fs.files), (set q | q in files[..j]), fs.dirs, fs.locked, p);
      if fs.Exists(p) {
        var deleted := fs.Delete(p);
        if !deleted {
          return Some(p);
        }
      }
      assert files[..j + 1] == files[..j] + [p];
      j := j + 1;
    }
    assert files[..j] == files;
    return None;
  }

  /** The outer loop of `deleteOutputs`: the tasks one by one, in an order
    * the model leaves open as the source iterates a HashSet. */
  method DeleteAll(fs: FileSystem, tasks: set<string>, outputs: map<string, seq<string>>) returns (failed: Option<string>)
    requires fs.files.Keys !! fs.dirs
    modifies fs
    ensures fs.dirs == old(fs.dirs)
    ensures failed.None? ==> fs.files == old(fs.files) - OutputsOf(tasks, outputs)
    ensures failed.None? <==> forall p :: p in OutputsOf(tasks, outputs) ==> !Undeletable(old(fs.files), fs.dirs, fs.locked, p)
    ensures failed.Some? ==>
      failed.value in OutputsOf(tasks, outputs) && Undeletable(old(fs.files), fs.dirs, fs.locked, failed.value)
    ensures failed.Some? ==>
      fs.files.Keys <= old(fs.files.Keys) && old(fs.files.Keys) - fs.files.Keys <= OutputsOf(tasks, outputs)
  {
    var done: set<string> := {};
    while done != tasks
      invariant done <= tasks
      invariant fs.dirs == old(fs.dirs) && fs.files.Keys !! fs.dirs
      invariant fs.files == old(fs.files) - OutputsOf(done, outputs)
      invariant forall p :: p in OutputsOf(done, outputs) ==> !Undeletable(old(fs.files), fs.dirs, fs.locked, p)
      decreases |tasks - done|
    {
      var t :| t in tasks - done;
      ghost var before := fs.files;
      var files := if t in outputs then outputs[t] else [];
      failed := DeleteFiles(fs, files);
      OutputsOfStep(done, t, outputs, files);
      TaskDeleted(old(fs.files), OutputsOf(done, outputs), before, fs.dirs, fs.locked, files);
      if failed.Some? {
        OutputsOfMonotone(done + {t}, tasks, outputs);
        assert before.Keys == old(fs.files).Keys - OutputsOf(done, outputs);
        return;
      }
      RemovedTwice(old(fs.files), OutputsOf(done, outputs), set p | p in files);
      done := done + {t};
    }
    return None;
  }

  lemma OutputsOfMonotone(some: set<string>, tasks: set<string>, outputs: map<string, seq<string>>)
    requires some <= tasks
    ensures OutputsOf(some, outputs) <= OutputsOf(tasks, outputs)
  {
  }

  lemma RemovedTwice(m: map<string, Content>, a: set<string>, b: set<string>)
    ensures (m - a) - b == m - (a + b)
  {
  }

  /** What deleting one more task's files adds to the files deleted so far. */
  lemma TaskDeleted(start: map<string, Content>, gone: set<string>, before: map<string, Content>,
                    dirs: set<string>, locked: set<string>, files: seq<string>)
    requires start.Keys !! dirs && before == start - gone
    requires forall q :: q in gone ==> !Undeletable(start, dirs, locked, q)
    ensures forall p :: p in files ==>
      (Undeletable(before, dirs, locked, p) <==> Undeletable(start, dirs, locked, p))
  {
    forall p | p in files
      ensures Undeletable(before, dirs, locked, p) <==> Undeletable(start, dirs, locked, p)
    {
      UndeletableAfter(start, gone, dirs, locked, p);
    }
  }

  class BazelTargetCleanTask {
    var targetTasks: set<string>

    constructor ()
      ensures targetTasks == {}
    {
      targetTasks := {};
    }

    /** `addTargetTask`: the registered tasks form a set. */
    method AddTargetTask(task: string)
      modifies this
      ensures targetTasks == old(targetTasks) + {task}
    {
      targetTasks := targetTasks + {task};
    }

    /** `deleteOutputs`: without a registered task it fails before touching any
      * file; otherwise it deletes every existing output file, task by task in
      * the set's order, and stops with an IOException at the first one that
      * exists and cannot be deleted. Missing outputs are skipped. */
    method DeleteOutputs(fs: FileSystem, outputs: map<string, seq<string>>) returns (r: Result<()>)
      requires fs.files.Keys !! fs.dirs
      modifies fs
      ensures fs.dirs == old(fs.dirs)
      ensures targetTasks == {} ==> r == Err(Throw(IllegalArgument, NoTargetMessage)) && fs.files == old(fs.files)
      ensures var all := OutputsOf(targetTasks, outputs);
        targetTasks != {} ==>
          && (r.Ok? <==> forall p :: p in all ==> !Undeletable(old(fs.files), fs.dirs, fs.locked, p))
          && (r.Ok? ==> fs.files == old(fs.files) - all && forall p :: p in all ==> !fs.Exists(p))
          && (r.Err? ==>
                (exists p :: p in all && Undeletable(old(fs.files), fs.dirs, fs.locked, p)
                             && r.error == Throw(IOError, "Failed to delete Bazel output " + p)))
          && (r.Err? ==> fs.files.Keys <= old(fs.files.Keys) && old(fs.files.Keys) - fs.files.Keys <= all)
    {
      if targetTasks == {} {
        return Err(Throw(IllegalArgument, NoTargetMessage));
      }
      var failed := DeleteAll(fs, targetTasks, outputs);
      if failed.Some? {
        return Err(Throw(IOError, "Failed to delete Bazel output " + failed.value));
      }
      return Ok(());
    }
  }
}
