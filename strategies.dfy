/** The build strategies: by the Bazel rule kind of the module's target, the
  * Gradle task that runs the Bazel build or test and the artifacts the
  * module publishes from its outputs. */
module Strategies {
  import opened Common
  import opened Strings
  import opened Paths
  import opened Files
  import opened LeafConfig
  import opened BazelExecHelper
  import opened AspectRunner
  import opened Artifacts
  import opened BazelTasks

  /** The strategy classes `Factory` chooses from. */
  datatype StrategyKind = JavaLibrary | AndroidLibrary | JavaTest | PlainBazelBuild

  datatype Strategy = Strategy(kind: StrategyKind, config: Decorated)

  /** The rule kind each specific strategy stands for. */
  function RuleKind(kind: StrategyKind): Option<string> {
    match kind
    case JavaLibrary => Some("java_library")
    case AndroidLibrary => Some("android_library")
    case JavaTest => Some("java_test")
    case PlainBazelBuild => None
  }

  /** `Factory.buildStrategy`: the strategy of the rule kind, and the plain
    * Bazel build for any other kind. */
  function BuildStrategy(ruleKind: string, config: Decorated): (r: Strategy)
    ensures r.config == config
  {
    var kind :=
      if ruleKind == "java_library" then JavaLibrary
      else if ruleKind == "android_library" then AndroidLibrary
      else if ruleKind == "java_test" then JavaTest
      else PlainBazelBuild;
    Strategy(kind, config)
  }

  /** The line `buildStrategy` prints when it falls back to the plain build. */
  function UnsupportedKindWarning(ruleKind: string, config: Decorated): Option<string> {
    if BuildStrategy(ruleKind, config).kind == PlainBazelBuild then
      Some("Unsupported target kind " + ruleKind + ". Currently, supporting java_library and android_library. Fix "
           + config.targetPath + ":" + config.targetName)
    else None
  }

  /** The factory inverts `RuleKind`: a rule kind gives the strategy standing
    * for it, every other kind the plain build with a warning. */
  lemma {:induction false} BuildStrategyOfRuleKind(ruleKind: string, config: Decorated)
    ensures forall k :: RuleKind(k) == Some(ruleKind) ==> BuildStrategy(ruleKind, config).kind == k
    ensures (forall k :: RuleKind(k) != Some(ruleKind)) <==> BuildStrategy(ruleKind, config).kind == PlainBazelBuild
    ensures UnsupportedKindWarning(ruleKind, config).Some? <==> BuildStrategy(ruleKind, config).kind == PlainBazelBuild
    ensures RuleKind(BuildStrategy(ruleKind, config).kind) == Some(ruleKind) || BuildStrategy(ruleKind, config).kind == PlainBazelBuild
  {
    var k := BuildStrategy(ruleKind, config).kind;
    if k == PlainBazelBuild {
      assert RuleKind(JavaLibrary) != Some(ruleKind) && RuleKind(AndroidLibrary) != Some(ruleKind);
      assert RuleKind(JavaTest) != Some(ruleKind) && RuleKind(PlainBazelBuild) != Some(ruleKind);
    } else {
      assert RuleKind(k) == Some(ruleKind);
    }
  }

  // ---------------------------------------------------------------------------
  // `createBazelExecTask`

  /** The settings of a created Gradle `Exec` task. */
  datatype ExecTask = ExecTask(name: string, workingDir: string, commandLine: seq<string>,
                               description: string, group: string)

  /** The task name each strategy gives its task; the test strategy names it
    * after the test target, printing a missing one as "null". */
  function TaskName(s: Strategy): string {
    match s.kind
    case JavaLibrary => "bazelJavaLibBuild_" + s.config.targetName
    case AndroidLibrary => "bazelAarBuild_" + s.config.targetName
    case PlainBazelBuild => "bazelBuild_" + s.config.targetName
    case JavaTest => "testBazelJavaLibTest_" + NullText(s.config.testTargetName)
  }

  /** The label the task's command builds or tests. */
  function TaskLabel(s: Strategy): string {
    if s.kind == JavaTest then s.config.targetPath + ":" + NullText(s.config.testTargetName)
    else s.config.targetPath + ":" + s.config.targetName
  }

  /** `createBazelExecTask`: `bazel build` of the main target in the base
    * strategy, `bazel test` of the test target in the test strategy, run in
    * the workspace root with the symlink prefix. */
  function CreateBazelExecTask(s: Strategy): (r: ExecTask)
    ensures |r.commandLine| == 4 && r.commandLine[0] == s.config.bazelBin && r.commandLine[3] == TaskLabel(s)
    ensures r.workingDir == s.config.workspaceRootFolder && r.name == TaskName(s)
    ensures EndsWith(r.description, TaskLabel(s))
  {
    var c := s.config;
    var target := TaskLabel(s);
    if s.kind == JavaTest then
      ExecTask(TaskName(s), c.workspaceRootFolder, [c.bazelBin, "test", "--symlink_prefix=" + c.buildOutputDir, target],
               "Test this project using Bazel target " + target, "test")
    else
      ExecTask(TaskName(s), c.workspaceRootFolder, [c.bazelBin, "build", "--symlink_prefix=" + c.buildOutputDir, target],
               "Assembles this project using Bazel target " + target, "build")
  }

  /** Everything `createBazelExecTask` sets: `bazel build` with the symlink
    * prefix of the build output folder in the base strategies, described and
    * grouped as a build; `bazel test` of the test target in the test
    * strategy, described and grouped as a test. */
  lemma ExecTaskSettings(s: Strategy)
    ensures var c := s.config;
      var test := s.kind == JavaTest;
      CreateBazelExecTask(s) == ExecTask(
        TaskName(s), c.workspaceRootFolder,
        [c.bazelBin, if test then "test" else "build", "--symlink_prefix=" + c.buildOutputDir, TaskLabel(s)],
        (if test then "Test this project using Bazel target " else "Assembles this project using Bazel target ") + TaskLabel(s),
        if test then "test" else "build")
  {
  }

  /** The `Exec` task runs the command the matching Bazel task would run,
    * without the flags that keep Bazel's output plain. */
  lemma ExecTaskRunsBazelTaskCommand(s: Strategy)
    requires s.kind != JavaTest ==> s.config.targetName != ""
    requires s.kind == JavaTest ==> s.config.testTargetName.Some? && s.config.testTargetName.value != ""
    ensures var c := CreateBazelExec(if s.kind == JavaTest then Test else Build, s.config).command;
      CreateBazelExecTask(s).commandLine == c[..2] + c[6..]
  {
    if s.kind == JavaTest {
      TestExecTarget(s.config);
    } else {
      ExecCommands(s.config);
    }
  }

  /** Tasks of different strategies never share a name, and the build
    * strategies name their tasks after distinct targets distinctly. */
  lemma TaskNamesDistinct(s: Strategy, t: Strategy)
    requires TaskName(s) == TaskName(t)
    ensures s.kind == t.kind
    ensures s.kind != JavaTest ==> s.config.targetName == t.config.targetName
  {
    var n := TaskName(s);
    assert n[0] == (if s.kind == JavaTest then 't' else 'b');
    assert n[0] == (if t.kind == JavaTest then 't' else 'b');
    if s.kind != JavaTest {
      assert n[5] == (match s.kind case JavaLibrary => 'J' case AndroidLibrary => 'A' case _ => 'B');
      assert n[5] == (match t.kind case JavaLibrary => 'J' case AndroidLibrary => 'A' case _ => 'B');
      var p := |n| - |s.config.targetName|;
      assert s.config.targetName == n[p..];
      assert t.config.targetName == n[p..];
    }
  }

  // ---------------------------------------------------------------------------
  // `getBazelArtifacts`

  /** `generateFileForOutput` on every output, each published by the task:
    * one artifact per output, in the aspect's order. */
  function OutputArtifacts(config: Decorated, taskName: string, outs: seq<string>): (r: seq<PublishArtifact>)
    ensures |r| == |outs|
    ensures forall i :: 0 <= i < |r| ==> r[i].task == taskName && EndsWith(r[i].file, outs[i])
    ensures forall i :: 0 <= i < |r| ==> r[i].file == Child(config.workspaceRootFolder, outs[i])
  {
    seq(|outs|, i requires 0 <= i < |outs| => PublishArtifact(taskName, Child(config.workspaceRootFolder, outs[i])))
  }

  /** An output below a folder of the workspace is published from that folder. */
  lemma {:induction false} OutputFolder(workspace: string, dir: string, name: string)
    requires |workspace| > 1 && workspace[|workspace| - 1] != '/'
    requires dir != "" && dir[|dir| - 1] != '/'
    requires name != "" && '/' !in name
    ensures Parent(Child(workspace, dir + "/" + name)) == Some(Child(workspace, dir))
    ensures FileName(Child(workspace, dir + "/" + name)) == name
  {
    var folder := Child(workspace, dir);
    assert folder == workspace + "/" + dir;
    assert Child(workspace, dir + "/" + name) == Child(folder, name);
    ChildParts(folder, name);
  }

  /** `new File(folder, name)` where the folder may be null, in which case
    * the name alone is the path. */
  function Under(folder: Option<string>, name: string): string {
    match folder
    case None => name
    case Some(f) => Child(f, name)
  }

  /** The settings of the `Jar` task that packages an AAR from the Bazel
    * outputs in `folder`. */
  datatype AarPackage = AarPackage(
    name: string,
    dependsOn: string,
    renameFrom: string,          // moved to `renameTo` before the task runs
    renameTo: string,
    entryCompression: string,
    metadataCharset: string,
    baseName: string,
    extension: string,
    destinationDir: Option<string>,
    description: Option<string>,
    group: Option<string>,
    resourceZip: string,         // unpacked into `unzipDir`
    unzipDir: string,
    files: seq<string>)

  /** The `Jar` task the AAR strategy creates: it runs after the Bazel build,
    * renames the library jar to `classes.jar` first, and packages, uncompressed,
    * the unzipped resources, that jar, the manifest and the symbols into
    * `<target>.aar` in `folder`. */
  function AarPackageTask(config: Decorated, execTaskName: string, folder: Option<string>,
                          description: Option<string>, group: Option<string>): (r: AarPackage)
    ensures r.name == execTaskName + "_AarPackage" && r.dependsOn == execTaskName
    ensures r.renameFrom == Under(folder, "lib" + config.targetName + ".jar") && r.renameTo == Under(folder, "classes.jar")
    ensures r.entryCompression == "STORED" && r.metadataCharset == "UTF-8"
    ensures r.destinationDir == folder && r.baseName == config.targetName && r.extension == "aar"
    ensures r.description == description && r.group == group
    ensures r.resourceZip == Under(folder, config.targetName + "_files/resource_files.zip") && r.unzipDir == Under(folder, "unzip")
    ensures r.files == [r.renameTo, Under(folder, config.targetName + "_processed_manifest/AndroidManifest.xml"),
                        Under(folder, config.targetName + "_symbols/R.txt")]
  {
    var n := config.targetName;
    AarPackage(
      execTaskName + "_AarPackage", execTaskName,
      Under(folder, "lib" + n + ".jar"), Under(folder, "classes.jar"),
      "STORED", "UTF-8", n, "aar", folder, description, group,
      Under(folder, n + "_files/resource_files.zip"), Under(folder, "unzip"),
      [Under(folder, "classes.jar"), Under(folder, n + "_processed_manifest/AndroidManifest.xml"),
       Under(folder, n + "_symbols/R.txt")])
  }

  /** The AAR strategy's artifacts: the parent of the first published output
    * is the folder the AAR is packaged in and from; no output at all is an
    * index failure. The single artifact is the AAR, published by the
    * packaging task. */
  function AarArtifacts(config: Decorated, execTaskName: string, outs: seq<string>,
                        description: Option<string>, group: Option<string>): (r: Result<Published>)
    ensures r.Err? <==> outs == []
    ensures r.Err? ==> r.error.kind == IndexOutOfBounds
    ensures r.Ok? ==> |r.value.artifacts| == 1 && r.value.aar.Some? && r.value.artifacts[0].task == r.value.aar.value.name
  {
    if outs == [] then Err(Throw(IndexOutOfBounds, "Index 0 out of bounds for length 0"))
    else
      var folder := Parent(Child(config.workspaceRootFolder, outs[0]));
      var task := AarPackageTask(config, execTaskName, folder, description, group);
      Ok(Published([PublishArtifact(task.name, Under(folder, config.targetName + ".aar"))], Some(task)))
  }

  /** What a strategy publishes: its artifacts and, for an AAR, the
    * packaging task it created. */
  datatype Published = Published(artifacts: seq<PublishArtifact>, aar: Option<AarPackage>)

  /** The AAR the packaging task writes (its destination, base name and
    * extension) is the file published, named `<target>.aar`. */
  lemma {:induction false} AarPackageWritesPublishedFile(config: Decorated, execTaskName: string, outs: seq<string>,
                                                         description: Option<string>, group: Option<string>)
    requires outs != []
    requires var folder := Parent(Child(config.workspaceRootFolder, outs[0]));
      folder.Some? && |folder.value| > 1 && folder.value[|folder.value| - 1] != '/'
    requires '/' !in config.targetName
    ensures var p := AarArtifacts(config, execTaskName, outs, description, group).value;
      var task := p.aar.value;
      && Child(task.destinationDir.value, task.baseName + "." + task.extension) == p.artifacts[0].file
      && p.artifacts[0].Name() == config.targetName + ".aar" && p.artifacts[0].Extension() == "aar"
  {
    var folder := Parent(Child(config.workspaceRootFolder, outs[0])).value;
    var file := Child(folder, config.targetName + ".aar");
    AarPublished(config, execTaskName, outs, description, group, folder, file);
    PublishArtifactNaming(execTaskName + "_AarPackage", folder, config.targetName, "aar");
  }

  lemma AarPublished(config: Decorated, execTaskName: string, outs: seq<string>,
                     description: Option<string>, group: Option<string>, folder: string, file: string)
    requires outs != [] && Parent(Child(config.workspaceRootFolder, outs[0])) == Some(folder)
    requires file == Child(folder, config.targetName + ".aar")
    ensures var p := AarArtifacts(config, execTaskName, outs, description, group).value;
      && p.aar.value.destinationDir == Some(folder)
      && p.aar.value.baseName + "." + p.aar.value.extension == config.targetName + ".aar"
      && p.artifacts[0] == PublishArtifact(execTaskName + "_AarPackage", file)
  {
  }

  /** The packaging task runs after the Bazel build, and the jar it renames
    * before packaging is among the files it packages. */
  lemma AarTaskLinks(config: Decorated, execTaskName: string, folder: Option<string>,
                     description: Option<string>, group: Option<string>)
    ensures var task := AarPackageTask(config, execTaskName, folder, description, group);
      && task.dependsOn == execTaskName && task.name == execTaskName + "_AarPackage"
      && task.renameTo in task.files && task.renameFrom == Under(folder, "lib" + config.targetName + ".jar")
  {
  }

  /** `getBazelArtifacts` once the aspect has listed the outputs: none for
    * the test strategy, one per output for the base strategies, and the
    * AAR for the Android library. */
  function ArtifactsOf(s: Strategy, outs: seq<string>): (r: Result<Published>)
    ensures s.kind != AndroidLibrary ==> r.Ok? && r.value.aar.None?
    ensures s.kind == JavaTest ==> r.value.artifacts == []
    ensures s.kind in {JavaLibrary, PlainBazelBuild} ==> |r.value.artifacts| == |outs|
    ensures s.kind in {JavaLibrary, PlainBazelBuild} ==> forall i :: 0 <= i < |outs| ==>
      r.value.artifacts[i] == PublishArtifact(TaskName(s), Child(s.config.workspaceRootFolder, outs[i]))
  {
    match s.kind
    case JavaTest => Ok(Published([], None))
    case AndroidLibrary => AarArtifacts(s.config, TaskName(s), outs, Some("Package an AAR from Bazel outputs."), Some("build"))
    case _ => Ok(Published(OutputArtifacts(s.config, TaskName(s), outs), None))
  }

  const RuleOutsAspect := "get_rule_outs.bzl"

  /** What `getBazelArtifacts` reports for strategy `s`, where `writable`
    * says whether the outputs aspect's rule file can be written and `run` is
    * what its build does. */
  function ArtifactsReport(writable: bool, s: Strategy, runner: Runner, run: ProcessRun): Result<Published> {
    if s.kind == JavaTest then Ok(Published([], None))
    else
      var outs := AspectResult(writable, runner, RuleOutsAspect, s.config.targetName, run);
      if outs.Err? then Err(outs.error) else ArtifactsOf(s, outs.value)
  }

  /** The artifacts of a strategy: the test strategy runs nothing; the
    * others run the outputs aspect on the main target (which rewrites its
    * rule file) and fail with its failure. */
  method GetBazelArtifacts(fs: FileSystem, s: Strategy, runner: Runner, run: ProcessRun) returns (r: Result<Published>)
    modifies fs
    ensures fs.dirs == old(fs.dirs)
    ensures var ruleFile := Child(runner.aspectsFolder, RuleOutsAspect);
      r == ArtifactsReport(ruleFile !in fs.readOnly && ruleFile !in old(fs.dirs), s, runner, run)
    ensures s.kind == JavaTest ==> r == Ok(Published([], None)) && fs.files == old(fs.files)
    ensures s.kind != JavaTest ==>
      var ruleFile := Child(runner.aspectsFolder, RuleOutsAspect);
      var writable := ruleFile !in fs.readOnly && ruleFile !in old(fs.dirs);
      var outs := AspectResult(writable, runner, RuleOutsAspect, s.config.targetName, run);
      && fs.files == (if writable then old(fs.files)[ruleFile := Resource("aspects/" + RuleOutsAspect)] else old(fs.files))
      && (outs.Err? ==> r == Err(outs.error))
      && (outs.Ok? ==> r == ArtifactsOf(s, outs.value))
  {
    if s.kind == JavaTest {
      return Ok(Published([], None));
    }
    var outs := GetAspectResult(fs, runner, RuleOutsAspect, s.config.targetName, run);
    if outs.Err? {
      return Err(outs.error);
    }
    return ArtifactsOf(s, outs.value);
  }

  // ---------------------------------------------------------------------------
  // `PlainBuildStrategy`, which `Factory` does not use

  /** `createBazelExecTask` of the plain build strategy: a `BazelBuildTask`
    * named "compile" set up with the configuration. */
  method CreatePlainBuildTask(config: Decorated) returns (name: string, task: BazelExecTask)
    ensures fresh(task) && name == "compile"
    ensures task.kind == Build && task.config == Some(config)
    ensures task.description == Some("Compiles Bazel target " + config.targetPath + ":" + config.targetName)
    ensures task.group == Some("build")
  {
    task := new BazelExecTask(Build);
    task.SetBazelConfig(config);
    name := "compile";
  }
}
