/** The Gradle tasks that run one Bazel command with the module's
  * configuration: build, test, clean, clean --expunge and info, plus the
  * legacy compile task. A task is created without a configuration and gets
  * one, with its description and group, through `setBazelConfig`. */
module BazelTasks {
  import opened Common
  import opened LeafConfig
  import opened BazelExecHelper

  /** Which subclass of `BazelExecTaskBase` a task is. */
  datatype TaskKind = Build | Test | Clean | Expunge | Info

  /** `createBazelExec` of each subclass: the console flag, the target (empty
    * for the workspace-wide commands), the command and its extra argument. */
  function CreateBazelExec(kind: TaskKind, config: Decorated): (r: BazelExec)
    ensures r.directory == config.workspaceRootFolder && |r.command| >= 6 && r.command[0] == config.bazelBin
    ensures r.outputToConsole <==> kind != Info
  {
    match kind
    case Build => CreateBazelRun(true, config, Some(config.targetName), "build", [])
    case Test => CreateBazelRun(true, config, config.testTargetName, "test", [])
    case Clean => CreateBazelRun(true, config, Some(""), "clean", [])
    case Expunge => CreateBazelRun(true, config, Some(""), "clean", ["--expunge"])
    case Info => CreateBazelRun(false, config, Some(""), "info", [])
  }

  /** The text Java's string concatenation gives a possibly-null string. */
  function NullText(s: Option<string>): string {
    s.GetOr("null")
  }

  /** The description each `setBazelConfig` sets. */
  function Description(kind: TaskKind, config: Decorated): string {
    match kind
    case Build => "Compiles Bazel target " + config.targetPath + ":" + config.targetName
    case Test => "Tests Bazel target " + config.targetPath + ":" + NullText(config.testTargetName)
    case Clean => "Cleans Bazel workspace"
    case Expunge => "Cleans and expunges Bazel workspace"
    case Info => "Prints out information about Bazel workspace"
  }

  /** The group each `setBazelConfig` sets (`BasePlugin.BUILD_GROUP` is "build"). */
  function Group(kind: TaskKind): string {
    match kind
    case Build => "build"
    case Test => "verification"
    case Clean => "build"
    case Expunge => "build"
    case Info => "others"
  }

  /** The message `bazelExec` wraps a failed run in, whatever the command. */
  const ExecFailure := "Failed to clean using Bazel"

  /** `bazelExec` on the outcome of starting the exec: IOException and
    * InterruptedException are wrapped, anything else passes unchanged. */
  function ExecOutcome(started: Result<RunResult>): (r: Result<RunResult>)
    ensures started.Ok? ==> r == started
    ensures started.Err? && started.error.kind in {IOError, Interrupted} ==> r == Err(Wrap(ExecFailure, started.error))
    ensures started.Err? && started.error.kind !in {IOError, Interrupted} ==> r == started
  {
    if started.Err? && started.error.kind in {IOError, Interrupted} then Err(Wrap(ExecFailure, started.error))
    else started
  }

  class BazelExecTask {
    const kind: TaskKind
    var config: Option<Decorated>
    var description: Option<string>
    var group: Option<string>

    /** A new task has no configuration, description or group. */
    constructor (kind: TaskKind)
      ensures this.kind == kind && config.None? && description.None? && group.None?
    {
      this.kind := kind;
      config, description, group := None, None, None;
    }

    /** `setBazelConfig`: stores the configuration (the last call wins) and
      * sets the description and group of the task's kind. */
    method SetBazelConfig(c: Decorated)
      modifies this
      ensures config == Some(c)
      ensures description == Some(Description(kind, c)) && group == Some(Group(kind))
    {
      config := Some(c);
      description := Some(Description(kind, c));
      group := Some(Group(kind));
    }

    /** The task action `bazelExec`: builds one exec from the stored
      * configuration and starts it once. Without a configuration, building
      * the exec dereferences null. The task changes nothing of its own. */
    method BazelExec(run: ProcessRun) returns (r: Result<RunResult>, exec: Option<BazelExec>)
      ensures config.None? ==> r.Err? && r.error.kind == NullPointer && exec.None?
      ensures config.Some? ==>
        (exec == Some(CreateBazelExec(kind, config.value)) && r == ExecOutcome(Start(exec.value, run).result))
    {
      if config.None? {
        return Err(Throw(NullPointer, "")), None;
      }
      var e := CreateBazelExec(kind, config.value);
      var started := Start(e, run).result;
      return ExecOutcome(started), Some(e);
    }
  }

  /** The argv each kind runs: the `createBazelRun` shape filled in. */
  lemma ExecCommands(config: Decorated)
    ensures config.targetName != "" ==>
      (CreateBazelExec(Build, config).command
        == [config.bazelBin, "build"] + BasicExecArgs + ["--symlink_prefix=" + config.buildOutputDir, Label(config, config.targetName)])
    ensures CreateBazelExec(Clean, config).command
      == [config.bazelBin, "clean"] + BasicExecArgs + ["--symlink_prefix=" + config.buildOutputDir]
    ensures CreateBazelExec(Expunge, config).command
      == [config.bazelBin, "clean"] + BasicExecArgs + ["--symlink_prefix=" + config.buildOutputDir, "--expunge"]
    ensures CreateBazelExec(Info, config).command
      == [config.bazelBin, "info"] + BasicExecArgs + ["--symlink_prefix=" + config.buildOutputDir]
  {
    var prefix := "--symlink_prefix=" + config.buildOutputDir;
    if config.targetName != "" {
      assert ConfigArgs(config, Some(config.targetName), []) == [prefix, Label(config, config.targetName)];
    }
    assert ConfigArgs(config, Some(""), []) == [prefix];
    assert ConfigArgs(config, Some(""), ["--expunge"]) == [prefix, "--expunge"];
  }

  /** The test task names the test target when there is one, and no target when
    * the test target is null or empty. */
  lemma TestExecTarget(config: Decorated)
    ensures var args := CreateBazelExec(Test, config).command[6..];
      && (config.testTargetName.Some? && config.testTargetName.value != "" ==>
            args == ["--symlink_prefix=" + config.buildOutputDir, Label(config, config.testTargetName.value)])
      && (config.testTargetName.None? || config.testTargetName.value == "" ==>
            args == ["--symlink_prefix=" + config.buildOutputDir])
  {
  }

  /** Only a failed start is a failure of the task, and the wrapped failures
    * keep the original exception as their cause. */
  lemma ExecOutcomeKeepsCause(started: Result<RunResult>)
    ensures ExecOutcome(started).Ok? <==> started.Ok?
    ensures ExecOutcome(started).Err? ==>
      ExecOutcome(started).error == started.error || ExecOutcome(started).error.cause == Some(started.error)
  {
  }

  /** A process that exits with an error code fails the task with the wrapped
    * IOException, a zero exit succeeds with the split output. */
  lemma ExecOfExitCode(exec: BazelExec, code: int, output: string, errorOutput: string)
    ensures var r := ExecOutcome(Start(exec, Ran(code, output, errorOutput)).result);
      && (code == 0 ==> r == Ok(RunResult(0, SplitLines(output))))
      && (code != 0 ==>
            (r.Err? && r.error.kind == Runtime && r.error.message == ExecFailure
             && r.error.cause.Some? && r.error.cause.value.kind == IOError))
  {
  }

  // ---------------------------------------------------------------------------
  // The legacy `BazelCompileTask`

  /** A legacy compile task: its configuration, description, group and the
    * `didWork` flag of the Gradle task. */
  class BazelCompileTask {
    var config: Option<Decorated>
    var description: Option<string>
    var group: Option<string>
    var didWork: bool

    constructor ()
      ensures config.None? && description.None? && group.None? && !didWork
    {
      config, description, group, didWork := None, None, None, false;
    }

    /** `setBazelConfig`: stores the configuration and describes the build. */
    method SetBazelConfig(c: Decorated)
      modifies this
      ensures config == Some(c) && didWork == old(didWork)
      ensures description == Some("Compiles Bazel target " + c.targetPath + ":" + c.targetName)
      ensures group == Some("build")
    {
      config := Some(c);
      description := Some("Compiles Bazel target " + c.targetPath + ":" + c.targetName);
      group := Some("build");
    }

    /** `compile`: builds the main target; success marks the task as having
      * done work, an IOException or InterruptedException becomes a
      * RuntimeException without cause and leaves the flag alone. The message
      * prints the configuration object itself, whose text `configText` is
      * given, as Object.toString is not part of this model. */
    method Compile(run: ProcessRun, configText: string) returns (r: Result<RunResult>)
      modifies this
      ensures config == old(config) && description == old(description) && group == old(group)
      ensures config.None? ==> r.Err? && r.error.kind == NullPointer && didWork == old(didWork)
      ensures config.Some? ==>
        var started := Start(CompileExec(config.value), run).result;
        && (started.Ok? ==> r == started && didWork)
        && (started.Err? && started.error.kind in {IOError, Interrupted} ==>
              r == Err(Throw(Runtime, "Failed to build Bazel target " + configText + ":" + config.value.targetName))
              && didWork == old(didWork))
        && (started.Err? && started.error.kind !in {IOError, Interrupted} ==> r == started && didWork == old(didWork))
    {
      if config.None? {
        return Err(Throw(NullPointer, ""));
      }
      var started := Start(CompileExec(config.value), run).result;
      if started.Ok? {
        didWork := true;
        return started;
      }
      if started.error.kind in {IOError, Interrupted} {
        return Err(Throw(Runtime, "Failed to build Bazel target " + configText + ":" + config.value.targetName));
      }
      return started;
    }
  }

  /** The exec of the static three-argument `createBazelRun(config, target,
    * command)` the legacy task calls: the configuration overload for the main
    * target, without console echo. */
  function CompileExec(config: Decorated): (r: BazelExec)
    ensures |r.command| >= 6 && r.command[1] == "build" && r.directory == config.workspaceRootFolder
  {
    CreateBazelRun(false, config, Some(config.targetName), "build", [])
  }
}
