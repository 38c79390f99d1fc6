/** The older `Strategy` class: only Java and Android libraries are
  * supported, any other rule kind is an error, and the build task carries a
  * fixed description. */
module LegacyStrategy {
  import opened Common
  import opened Paths
  import opened Files
  import opened LeafConfig
  import opened BazelExecHelper
  import opened AspectRunner
  import opened Artifacts
  import opened Strategies

  datatype LegacyKind = LegacyJavaLibrary | LegacyAndroidLibrary

  datatype LegacyStrategy = LegacyStrategy(kind: LegacyKind, config: Decorated)

  function UnsupportedKindMessage(ruleKind: string, config: Decorated): string {
    "Unsupported target kind " + ruleKind + ". Currently, supporting java_library and android_library. Fix "
    + config.targetPath + ":" + config.targetName
  }

  /** The older `buildStrategy`: an IllegalArgumentException for any kind
    * but the two libraries. */
  function LegacyBuildStrategy(ruleKind: string, config: Decorated): (r: Result<LegacyStrategy>)
    ensures r.Ok? ==> r.value.config == config
    ensures r.Err? ==> r.error == Throw(IllegalArgument, UnsupportedKindMessage(ruleKind, config))
  {
    if ruleKind == "java_library" then Ok(LegacyStrategy(LegacyJavaLibrary, config))
    else if ruleKind == "android_library" then Ok(LegacyStrategy(LegacyAndroidLibrary, config))
    else Err(Throw(IllegalArgument, UnsupportedKindMessage(ruleKind, config)))
  }

  /** The strategy of the newer factory for the same library kind. */
  function Current(s: LegacyStrategy): Strategy {
    Strategy(if s.kind == LegacyJavaLibrary then JavaLibrary else AndroidLibrary, s.config)
  }

  /** The older factory accepts exactly the library kinds, and picks the
    * strategy the newer one picks; where the newer factory falls back to the
    * plain build, the older one fails with the same message it prints. */
  lemma LegacyFactoryAgrees(ruleKind: string, config: Decorated)
    ensures LegacyBuildStrategy(ruleKind, config).Ok? <==> ruleKind in {"java_library", "android_library"}
    ensures LegacyBuildStrategy(ruleKind, config).Ok? ==>
      Current(LegacyBuildStrategy(ruleKind, config).value) == BuildStrategy(ruleKind, config)
    ensures ruleKind != "java_test" && LegacyBuildStrategy(ruleKind, config).Err? ==>
      UnsupportedKindWarning(ruleKind, config) == Some(LegacyBuildStrategy(ruleKind, config).error.message)
  {
  }

  /** `createBazelBuildTaskInternal`, with the task name each library
    * strategy passes. */
  function CreateBazelBuildTask(s: LegacyStrategy): (r: ExecTask)
    ensures |r.commandLine| == 4 && r.commandLine[3] == s.config.targetPath + ":" + s.config.targetName
    ensures r.commandLine[..3] == [s.config.bazelBin, "build", "--symlink_prefix=" + s.config.buildOutputDir]
    ensures r.name == (if s.kind == LegacyJavaLibrary then "bazelJavaLibBuild_" else "bazelAarBuild_") + s.config.targetName
    ensures r.workingDir == s.config.workspaceRootFolder
    ensures r.description == "Assembles this project using Bazel." && r.group == "build"
  {
    var c := s.config;
    var name := if s.kind == LegacyJavaLibrary then "bazelJavaLibBuild_" + c.targetName else "bazelAarBuild_" + c.targetName;
    ExecTask(name, c.workspaceRootFolder,
             [c.bazelBin, "build", "--symlink_prefix=" + c.buildOutputDir, c.targetPath + ":" + c.targetName],
             "Assembles this project using Bazel.", "build")
  }

  /** The older build task is the newer one with the fixed description. */
  lemma LegacyTaskIsCurrentTask(s: LegacyStrategy)
    ensures CreateBazelBuildTask(s) == CreateBazelExecTask(Current(s)).(description := "Assembles this project using Bazel.")
  {
  }

  /** The older `getBazelArtifacts` once the outputs are listed: the Java
    * library publishes every output, the Android library the AAR of a
    * packaging task that has no description or group. */
  function LegacyArtifactsOf(s: LegacyStrategy, outs: seq<string>): (r: Result<Published>)
    ensures s.kind == LegacyJavaLibrary ==> r.Ok? && |r.value.artifacts| == |outs| && r.value.aar.None?
    ensures s.kind == LegacyJavaLibrary ==> forall i :: 0 <= i < |outs| ==>
      r.value.artifacts[i] == PublishArtifact("bazelJavaLibBuild_" + s.config.targetName, Child(s.config.workspaceRootFolder, outs[i]))
  {
    var taskName := CreateBazelBuildTask(s).name;
    if s.kind == LegacyJavaLibrary then Ok(Published(OutputArtifacts(s.config, taskName, outs), None))
    else AarArtifacts(s.config, taskName, outs, None, None)
  }

  /** Both generations publish the same files; only the AAR packaging task
    * lost its description and group. */
  lemma {:induction false} LegacyArtifactsAgree(s: LegacyStrategy, outs: seq<string>)
    ensures var older := LegacyArtifactsOf(s, outs);
      var newer := ArtifactsOf(Current(s), outs);
      && (older.Ok? <==> newer.Ok?)
      && (older.Ok? ==> older.value.artifacts == newer.value.artifacts)
      && (older.Ok? && s.kind == LegacyAndroidLibrary ==>
            older.value.aar.value == newer.value.aar.value.(description := None, group := None))
  {
    assert CreateBazelBuildTask(s).name == TaskName(Current(s));
  }

  /** The older `getBazelArtifacts`: runs the outputs aspect on the main
    * target and publishes from its lines. */
  method LegacyGetBazelArtifacts(fs: FileSystem, s: LegacyStrategy, runner: Runner, run: ProcessRun) returns (r: Result<Published>)
    modifies fs
    ensures fs.dirs == old(fs.dirs)
    ensures var ruleFile := Child(runner.aspectsFolder, RuleOutsAspect);
      var writable := ruleFile !in fs.readOnly && ruleFile !in old(fs.dirs);
      var outs := AspectResult(writable, runner, RuleOutsAspect, s.config.targetName, run);
      && fs.files == (if writable then old(fs.files)[ruleFile := Resource("aspects/" + RuleOutsAspect)] else old(fs.files))
      && (outs.Err? ==> r == Err(outs.error))
      && (outs.Ok? ==> r == LegacyArtifactsOf(s, outs.value))
  {
    var outs := GetAspectResult(fs, runner, RuleOutsAspect, s.config.targetName, run);
    if outs.Err? {
      return Err(outs.error);
    }
    return LegacyArtifactsOf(s, outs.value);
  }
}
