/** The `bazel { target = ...; testTarget = ... }` extension and the resolved,
  * immutable configuration (`Decorated`) every other part reads. */
module LeafConfig {
  import opened Common
  import opened Strings
  import opened SystemEnvironment

  /** The facts of a Gradle project the plugin reads. */
  datatype Project = Project(
    path: string,          // Gradle path, ":lib2" or ":android:lib3"
    name: string,
    projectDir: string,    // absolute
    rootDir: string,       // absolute directory of the root project, the Bazel workspace
    rootName: string,
    rootBuildDir: string)  // absolute build directory of the root project

  datatype Decorated = Decorated(
    bazelBin: string,
    targetPath: string,
    targetName: string,
    testTargetName: Option<string>,
    workspaceRootFolder: string,
    buildOutputDir: string)

  /** The root project's `local.properties`. */
  datatype PropertiesFile = Absent | Unreadable | Loaded(props: map<string, string>)

  const BinPathProperty := "bazel.bin.path"

  /** `/` followed by the Gradle path with every ':' turned into '/'
    * (":android:lib3" gives "//android/lib3"). The source replaces twice; the
    * second replacement finds nothing left to replace. */
  function TargetPath(projectPath: string): (r: string)
    ensures r == "/" + ReplaceChar(projectPath, ':', '/')
    ensures ':' !in r && |r| == |projectPath| + 1
  {
    var outputPath := ReplaceChar(projectPath, ':', '/');
    ReplaceCharTwice(projectPath, ':', '/');
    "/" + ReplaceChar(outputPath, ':', '/')
  }

  /** `"%s/.bazel-leaf/%s/bazel%s"` filled with the user's home (or "/usr/bin"),
    * the root project's name and ".exe" on Windows. */
  function DefaultBazelBinPath(userHome: Option<string>, rootName: string, os: OsType): (r: string)
    ensures StartsWith(r, userHome.GetOr("/usr/bin") + "/.bazel-leaf/" + rootName + "/bazel")
    ensures EndsWith(r, ".exe") <==> os == Windows
  {
    var prefix := userHome.GetOr("/usr/bin") + "/.bazel-leaf/" + rootName + "/bazel";
    var r := prefix + (if os == Windows then ".exe" else "");
    assert r[..|prefix|] == prefix;
    assert os != Windows ==> r[|r| - 1] == 'l';
    r
  }

  /** `getBazelBinPath`: the `bazel.bin.path` entry of `local.properties` when
    * there is one, the default path otherwise; a file that exists but cannot be
    * read is a RuntimeException. */
  function GetBazelBinPath(local: PropertiesFile, userHome: Option<string>, rootName: string, os: OsType): (r: Result<string>)
    ensures r.Err? <==> local.Unreadable?
    ensures r.Err? ==> r.error.kind == Runtime
    ensures local.Loaded? && BinPathProperty in local.props ==> r == Ok(local.props[BinPathProperty])
    ensures local.Absent? || (local.Loaded? && BinPathProperty !in local.props) ==>
      r == Ok(DefaultBazelBinPath(userHome, rootName, os))
  {
    match local
    case Unreadable => Err(Wrap("java.io.IOException", Throw(IOError, "cannot read local.properties")))
    case Absent => Ok(DefaultBazelBinPath(userHome, rootName, os))
    case Loaded(props) =>
      Ok(if BinPathProperty in props then props[BinPathProperty] else DefaultBazelBinPath(userHome, rootName, os))
  }

  const NotConfiguredMessage := "Specify the target to build using Bazel, by adding \"bazel {target = 'target-name'}\" to the module's build.gradle file."

  class BazelLeafConfig {
    var target: Option<string>
    var testTarget: Option<string>

    constructor ()
      ensures target == None && testTarget == None
    {
      target, testTarget := None, None;
    }

    method SetTarget(t: Option<string>)
      modifies this
      ensures target == t && testTarget == old(testTarget)
    {
      target := t;
    }

    method SetTestTarget(t: Option<string>)
      modifies this
      ensures testTarget == t && target == old(target)
    {
      testTarget := t;
    }

    predicate IsConfigured()
      reads this
    {
      target.Some? && target.value != ""
    }

    /** `decorate`: fails with IllegalArgumentException when no target was set
      * (null or empty); otherwise resolves the target path from the project's
      * Gradle path and the output directory below the root build directory. */
    function Decorate(project: Project, bazelBinPath: string): (r: Result<Decorated>)
      reads this
      ensures r.Ok? <==> IsConfigured()
      ensures r.Err? ==> r.error == Throw(IllegalArgument, NotConfiguredMessage)
      ensures r.Ok? ==> r.value.targetName == target.value && r.value.testTargetName == testTarget
      ensures r.Ok? ==> r.value.targetPath == TargetPath(project.path) && r.value.bazelBin == bazelBinPath
      ensures r.Ok? ==> r.value.workspaceRootFolder == project.rootDir
      ensures r.Ok? ==> r.value.buildOutputDir == project.rootBuildDir + "/bazel-build/"
    {
      if !IsConfigured() then Err(Throw(IllegalArgument, NotConfiguredMessage))
      else Ok(Decorated(bazelBinPath, TargetPath(project.path), target.value, testTarget,
                        project.rootDir, project.rootBuildDir + "/bazel-build/"))
    }
  }
}
