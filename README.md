# bazel-leaf, modelled in Dafny

bazel-leaf is a Gradle plugin. A Gradle module applies it to have its code
built by Bazel: the module names a Bazel target (and optionally a test
target) in its `bazel { }` extension. The plugin then asks Bazel about that
target and turns the answers into Gradle and IntelliJ facts:

- It resolves the extension into an immutable configuration (`Decorated`):
  the Bazel path `//a/b` of the Gradle path `:a:b`, the workspace root, the
  Bazel binary and the output directory.
- It runs Bazel aspects on the target. These report the rule kind, the
  dependency labels, the source files and the outputs on Bazel's error
  channel, and the plugin filters that output down to the lines its aspects
  printed.
- It splits the dependencies into local Bazel targets, which become Gradle
  project dependencies, and external jars, which become Maven coordinates or
  files. It derives source roots by stripping each file's declared Java
  package.
- It picks a build strategy by rule kind. The strategy supplies the Gradle
  task that runs `bazel build` or `bazel test` and the artifacts the module
  publishes, including the AAR layout of an Android library.
- It fills a set-based IDE model and rewrites the module's `.iml` file from
  it. It also writes one `.idea/libraries/<name>.xml` descriptor per external
  jar, and never overwrites an existing one.
- It creates the root project's tasks once per build: download the Bazel
  binary, clean, clean with `--expunge`, and info.
- It registers a `clean` task that deletes the outputs of the Bazel tasks.

Processes, the network and file contents are not run or read. A child
process is a `ProcessRun` value: its exit code and its two output streams,
or the exception starting it threw. The file system is a `FileSystem` object,
which holds the files, the directories, the paths that cannot be written and
the files that cannot be deleted. Java's `null` becomes `Option`, and a thrown
exception becomes the `Err` side of `Result`. The error value records the
exception's kind, its message and its cause. Each regular expression of the
source is a hand-written predicate. Where a group is greedy, the predicate
chooses the last possible position.

Each core source file has its own module:
- BazelLeafConfig is LeafConfig.
- BazelExecHelper is BazelExecHelper.
- AspectRunner is AspectRunner.
- BazelAspectService is BazelAspectService.
- BazelLeafPlugin is spread over four modules:
  - the conversions are BazelLeafPlugin;
  - `apply` is PluginApply;
  - `addBazelTasksToRootProject` is RootProject;
  - `configurePlugin` is PluginConfigure, with its steps in ConfigureSteps
    and ConfigureStreams.
- The strategies are Strategies, and the older `Strategy` class is LegacyStrategy.
- The task classes are BazelTasks, TargetCleanTask and DownloadTask.
- SystemEnvironment is SystemEnvironment.
- BazelArtifact and BazelPublishArtifact are Artifacts.
- HatchejModel is HatchejModel.
- Both IML actions are HatchejImlAction and LegacyImlAction.

Common, Strings, Paths, Files and Xml model the Java, commons-lang,
java.io.File and groovy.util.Node behaviour the core depends on.

Where the source files disagree with each other, each file is modelled as
written; the one departure is the self filter of BazelLeafPlugin.java:175
(see Findings). Where the tests disagree with the code, the code is followed:
- FactoryTest against Factory;
- BazelBuildTaskTest's expected failure message ("Failed to execute task using Bazel") against the "Failed to clean using Bazel" that BazelExecTaskBase throws;
- DownloadBazelTaskTest against `injectTask`;
- AndroidLibraryStrategyTest against AndroidLibraryStrategy.

## Model

| member | source | states |
|---|---|---|
| LeafConfig.TargetPath | buildSrc/bazelleaf/src/main/java/com/spotify/gradle/bazel/BazelLeafConfig.java:73-78 | the target path is "/" followed by the Gradle path with every ':' made '/', so it holds no ':' and is one character longer than the path |
| LeafConfig.DefaultBazelBinPath | buildSrc/bazelleaf/src/main/java/com/spotify/gradle/bazel/BazelLeafConfig.java:38-45 | the default binary lives under the user's home (or /usr/bin) in .bazel-leaf/<root name>/bazel, and ends in ".exe" exactly on Windows |
| LeafConfig.GetBazelBinPath | buildSrc/bazelleaf/src/main/java/com/spotify/gradle/bazel/BazelLeafConfig.java:24-36 | an unreadable local.properties is a RuntimeException and the only failure; a bazel.bin.path entry wins; otherwise the default path |
| LeafConfig.BazelLeafConfig.constructor | buildSrc/bazelleaf/src/main/java/com/spotify/gradle/bazel/BazelLeafConfig.java:21-22 | a new extension has neither target nor test target |
| LeafConfig.BazelLeafConfig.SetTarget | buildSrc/bazelleaf/src/main/java/com/spotify/gradle/bazel/BazelLeafConfig.java:51-53 | sets the target and leaves the test target |
| LeafConfig.BazelLeafConfig.SetTestTarget | buildSrc/bazelleaf/src/main/java/com/spotify/gradle/bazel/BazelLeafConfig.java:59-61 | sets the test target and leaves the target |
| LeafConfig.BazelLeafConfig.Decorate | buildSrc/bazelleaf/src/main/java/com/spotify/gradle/bazel/BazelLeafConfig.java:63-83 | succeeds exactly when a non-empty target is set, else the IllegalArgumentException with the configuration hint; the decorated configuration carries both targets, the target path of the Gradle path, the binary, the workspace root and the output directory below the root build directory |
| BazelExecHelper.CreateBazelRunRaw | buildSrc/bazelleaf/src/main/java/com/spotify/gradle/bazel/utils/BazelExecHelper.java:101-118 | the argv is binary, command, the four plain-output flags, then the arguments, run in the workspace root |
| BazelExecHelper.ConfigArgs | buildSrc/bazelleaf/src/main/java/com/spotify/gradle/bazel/utils/BazelExecHelper.java:91-96 | the symlink prefix comes first, then the label only for a non-empty target, then the caller's arguments |
| BazelExecHelper.CreateBazelRunShape | buildSrc/bazelleaf/src/main/java/com/spotify/gradle/bazel/utils/BazelExecHelper.java:85-99 | the configuration overload's argv can be read back: binary, command, flags, symlink prefix, the label when there is a target, then the arguments |
| BazelExecHelper.SplitLines | buildSrc/bazelleaf/src/main/java/com/spotify/gradle/bazel/utils/BazelExecHelper.java:50 | no piece holds a line feed, text without a line feed is one piece, and trailing empty pieces are dropped |
| BazelExecHelper.SplitLinesJoin | buildSrc/bazelleaf/src/main/java/com/spotify/gradle/bazel/utils/BazelExecHelper.java:50 | lines free of line feeds, none but the last ending in a carriage return and the last non-empty, joined by line feeds, split back into the same lines |
| BazelExecHelper.Start | buildSrc/bazelleaf/src/main/java/com/spotify/gradle/bazel/utils/BazelExecHelper.java:35-59 | succeeds exactly on a zero exit, with the split output; a non-zero exit is an IOException and the output is echoed or logged in full; an exception while starting propagates unchanged |
| BazelExecHelper.PropertyLine | buildSrc/bazelleaf/src/main/java/com/spotify/gradle/bazel/utils/BazelExecHelper.java:132-133 | a `key=value` or `key: value` line of `bazel info` defines exactly that entry |
| BazelExecHelper.ParsedKeysComeFromLines | buildSrc/bazelleaf/src/main/java/com/spotify/gradle/bazel/utils/BazelExecHelper.java:132-133 | every key of the loaded properties is defined by some output line |
| BazelExecHelper.EmptyInfoIsEmpty | buildSrc/bazelleaf/src/main/java/com/spotify/gradle/bazel/utils/BazelExecHelper.java:132-133 | empty output gives no properties |
| BazelExecHelper.TwoLinesGiveTwoEntries | buildSrc/bazelleaf/src/main/java/com/spotify/gradle/bazel/utils/BazelExecHelper.java:132-133 | two assignment lines give exactly their two entries, the later one winning on a shared key |
| BazelExecHelper.OneLine | buildSrc/bazelleaf/src/main/java/com/spotify/gradle/bazel/utils/BazelExecHelper.java:132-133 | one assignment line gives exactly its entry |
| BazelExecHelper.InfoExec | buildSrc/bazelleaf/src/main/java/com/spotify/gradle/bazel/utils/BazelExecHelper.java:121-125 | `bazel info` with the plain-output flags and the symlink prefix, without console echo and without a target |
| BazelExecHelper.GetInfo | buildSrc/bazelleaf/src/main/java/com/spotify/gradle/bazel/utils/BazelExecHelper.java:120-139 | a successful run gives the properties of its output lines; an IOException or InterruptedException is logged once more and gives null; any other exception propagates |
| BazelTasks.CreateBazelExec | buildSrc/bazelleaf/src/main/java/com/spotify/gradle/bazel/tasks/BazelBuildTask.java:25-28 | every task runs the configured binary in the workspace root, and only the info task runs without console echo |
| BazelTasks.ExecCommands | buildSrc/bazelleaf/src/main/java/com/spotify/gradle/bazel/tasks/BazelExpungeTask.java:26-29 | build builds the main target's label (when there is one); clean, clean --expunge and info run on the whole workspace, each with the symlink prefix |
| BazelTasks.TestExecTarget | buildSrc/bazelleaf/src/main/java/com/spotify/gradle/bazel/tasks/BazelTestTask.java:20-23 | the test task tests the test target's label when one is set and non-empty, and names no target otherwise |
| BazelTasks.ExecOutcome | buildSrc/bazelleaf/src/main/java/com/spotify/gradle/bazel/tasks/BazelExecTaskBase.java:16-25 | an IOException or InterruptedException of the run becomes "Failed to clean using Bazel" with the original as cause; success and other exceptions pass |
| BazelTasks.ExecOutcomeKeepsCause | buildSrc/bazelleaf/src/main/java/com/spotify/gradle/bazel/tasks/BazelExecTaskBase.java:19-24 | the task fails exactly when the run fails, and a wrapped failure keeps the original exception as its cause |
| BazelTasks.ExecOfExitCode | buildSrc/bazelleaf/src/main/java/com/spotify/gradle/bazel/tasks/BazelExecTaskBase.java:16-25 | a zero exit succeeds with the split output; a non-zero exit fails the task with a RuntimeException caused by an IOException |
| BazelTasks.BazelExecTask.constructor | buildSrc/bazelleaf/src/main/java/com/spotify/gradle/bazel/tasks/BazelExecTaskBase.java:14 | a new task has no configuration, description or group |
| BazelTasks.BazelExecTask.SetBazelConfig | buildSrc/bazelleaf/src/main/java/com/spotify/gradle/bazel/tasks/BazelInfoTask.java:38-43 | stores the configuration and sets the description and group of the task's kind |
| BazelTasks.BazelExecTask.BazelExec | buildSrc/bazelleaf/src/main/java/com/spotify/gradle/bazel/tasks/BazelExecTaskBase.java:16-25 | without a configuration the action dereferences null; otherwise it starts exactly the exec of its kind once and reports that run's outcome |
| BazelTasks.BazelCompileTask.constructor | buildSrc/bazelleaf/src/main/java/com/spotify/gradle/bazel/tasks/BazelCompileTask.java:15 | a new compile task has no configuration, description or group and has done no work |
| BazelTasks.BazelCompileTask.SetBazelConfig | buildSrc/bazelleaf/src/main/java/com/spotify/gradle/bazel/tasks/BazelCompileTask.java:31-35 | stores the configuration, describes the build of the main target and joins the build group |
| BazelTasks.BazelCompileTask.Compile | buildSrc/bazelleaf/src/main/java/com/spotify/gradle/bazel/tasks/BazelCompileTask.java:17-29 | without a configuration it dereferences null; a successful build marks the task as having done work; an IOException or InterruptedException becomes a RuntimeException without cause naming the target; the configuration is unchanged |
| BazelTasks.CompileExec | buildSrc/bazelleaf/src/main/java/com/spotify/gradle/bazel/tasks/BazelCompileTask.java:20 | the compile task builds in the workspace root |
| DownloadTask.OsUrlProperty | buildSrc/bazelleaf/src/main/java/com/spotify/gradle/bazel/tasks/DownloadBazelTask.java:83-92 | every operating system has a property under "bazel.bin.url." |
| DownloadTask.UrlPropertyFollowsOsType | buildSrc/bazelleaf/src/main/java/com/spotify/gradle/bazel/tasks/DownloadBazelTask.java:83-92 | the property read is the one of the operating system SystemEnvironment detects from the same os.name |
| DownloadTask.OsUrlPropertyInjective | buildSrc/bazelleaf/src/main/java/com/spotify/gradle/bazel/tasks/DownloadBazelTask.java:86-91 | different operating systems read different properties |
| DownloadTask.DownloadBazelTask.constructor | buildSrc/bazelleaf/src/main/java/com/spotify/gradle/bazel/tasks/DownloadBazelTask.java:26-27 | a new task has neither target file nor URL |
| DownloadTask.DownloadBazelTask.SetTargetFile | buildSrc/bazelleaf/src/main/java/com/spotify/gradle/bazel/tasks/DownloadBazelTask.java:34-36 | sets the target file and leaves the URL |
| DownloadTask.DownloadBazelTask.SetDownloadUrl | buildSrc/bazelleaf/src/main/java/com/spotify/gradle/bazel/tasks/DownloadBazelTask.java:43-45 | sets the URL and leaves the target file |
| DownloadTask.DownloadBazelTask.Download | buildSrc/bazelleaf/src/main/java/com/spotify/gradle/bazel/tasks/DownloadBazelTask.java:47-71 | a missing target file, then a missing URL, is a NullPointerException with nothing touched; an uncreatable parent folder is an IOException; otherwise the parent exists afterwards and the binary is written exactly when the transfer and the write succeed, every other failure is a RuntimeException with its cause and leaves the files alone |
| RootProject.RootExecNamesHaveKinds | buildSrc/bazelleaf/src/main/java/com/spotify/gradle/bazel/BazelLeafPlugin.java:205-224 | exactly the three workspace-wide names carry a task kind, each a different one |
| RootProject.RootProject.InjectTask | buildSrc/bazelleaf/src/main/java/com/spotify/gradle/bazel/tasks/DownloadBazelTask.java:97-117 | a non-empty String URL creates downloadBazel with the URL and binary path, or returns the existing task unchanged (a task of another class fails the cast); any other value creates nothing and gives null |
| RootProject.RootProject.InjectDownloadTask | buildSrc/bazelleaf/src/main/java/com/spotify/gradle/bazel/tasks/DownloadBazelTask.java:78-95 | reads the URL property of the running operating system and injects the task as InjectTask does |
| RootProject.RootProject.AddExecTask | buildSrc/bazelleaf/src/main/java/com/spotify/gradle/bazel/BazelLeafPlugin.java:205-208 | a missing task is created with the kind's configuration, description and group; a name already taken leaves all tasks as they were |
| RootProject.RootProject.AddBazelTasksToRootProject | buildSrc/bazelleaf/src/main/java/com/spotify/gradle/bazel/BazelLeafPlugin.java:199-225 | the root project ends with the three workspace-wide tasks; existing tasks stay as they were, the missing ones are configured with this module's configuration, and a second call changes nothing |
| PluginApply.IsBazelExecutable | buildSrc/bazelleaf/src/main/java/com/spotify/gradle/bazel/BazelLeafPlugin.java:245-256 | true exactly on a zero exit of `bazel version`; false on another exit or an IOException/InterruptedException; other exceptions propagate |
| PluginApply.VersionExec | buildSrc/bazelleaf/src/main/java/com/spotify/gradle/bazel/BazelLeafPlugin.java:249 | `bazel version` with the plain-output flags, echoed, in the workspace root |
| PluginApply.CheckIsBazelBinaryValid | buildSrc/bazelleaf/src/main/java/com/spotify/gradle/bazel/BazelLeafPlugin.java:227-243 | a binary that runs (or an exception) decides without a download; otherwise one download, after which an IOException means invalid, another failure propagates, and success re-checks the binary; for a task with both settings and a usable parent folder, the download succeeds exactly when the transfer succeeds and the binary path is writable, and then writes the binary |
| PluginApply.ApplyOutcome | buildSrc/bazelleaf/src/main/java/com/spotify/gradle/bazel/BazelLeafPlugin.java:96-101 | apply continues exactly when the binary is valid; an invalid one is the IllegalStateException naming the binary |
| PluginApply.Apply | buildSrc/bazelleaf/src/main/java/com/spotify/gradle/bazel/BazelLeafPlugin.java:94-101 | the check runs only when a URL is configured for the operating system; a first injection adds exactly the download task with that URL and the binary path, and an existing task is reused without change; the verdict decides the outcome; a binary that runs leaves the files untouched; otherwise the binary is checked again after a successful download, an IOException of the download means invalid and another failure propagates; the injected task's download succeeds exactly when the transfer succeeds and the binary path is writable, and then writes the binary |
| PluginApply.RunningBinaryIsValid | buildSrc/bazelleaf/src/main/java/com/spotify/gradle/bazel/BazelLeafPlugin.java:245-256 | a binary whose `bazel version` exits with 0 passes apply's check |
| PluginApply.BrokenBinaryFails | buildSrc/bazelleaf/src/main/java/com/spotify/gradle/bazel/BazelLeafPlugin.java:96-101 | a binary that exits with an error and is not replaced stops apply with the IllegalStateException |
| AspectRunner.AspectsFolder | buildSrc/bazelleaf/src/main/java/com/spotify/gradle/bazel/AspectRunner.java:28 | the scratch folder is the aspects root followed by the target path with '/' and ':' made '_', so it has no separator after the root |
| AspectRunner.AspectsFolderCollision | buildSrc/bazelleaf/src/main/java/com/spotify/gradle/bazel/AspectRunner.java:28 | two targets share a scratch folder exactly when their paths agree after that mapping, so `//a:b` and `//a/b` collide |
| AspectRunner.Create | buildSrc/bazelleaf/src/main/java/com/spotify/gradle/bazel/AspectRunner.java:26-38 | a missing scratch folder is created, or the IllegalStateException naming it; an unwritable BUILD file is a RuntimeException; otherwise the empty BUILD file is written and the runner keeps the folder |
| AspectRunner.AspectExec | buildSrc/bazelleaf/src/main/java/com/spotify/gradle/bazel/AspectRunner.java:48-49 | the aspect run builds the target with the no-op output group and the aspect rule file of the scratch folder |
| AspectRunner.AspectResult | buildSrc/bazelleaf/src/main/java/com/spotify/gradle/bazel/AspectRunner.java:40-57 | the result exists exactly when the rule file was writable and the build succeeded; an unwritable rule file, or an IOException or InterruptedException of the build, is a RuntimeException with that cause; any other exception of the build passes through unchanged |
| AspectRunner.GetAspectResult | buildSrc/bazelleaf/src/main/java/com/spotify/gradle/bazel/AspectRunner.java:40-57 | overwrites the rule file from the plugin's resources when it can, then gives AspectResult of the run |
| AspectRunner.CleanUp | buildSrc/bazelleaf/src/main/java/com/spotify/gradle/bazel/AspectRunner.java:59-73 | the result has at most one line per input line |
| AspectRunner.CleanUpKeepsPayloads | buildSrc/bazelleaf/src/main/java/com/spotify/gradle/bazel/AspectRunner.java:67-72 | every kept line is the payload of a matching output line |
| AspectRunner.CleanUpAppend | buildSrc/bazelleaf/src/main/java/com/spotify/gradle/bazel/AspectRunner.java:67-72 | cleaning two batches is cleaning them joined, order kept |
| AspectRunner.NonDebugLineDropped | buildSrc/bazelleaf/src/main/java/com/spotify/gradle/bazel/AspectRunner.java:60 | a line not starting with DEBUG gives nothing |
| AspectRunner.DebugLineGivesPayload | buildSrc/bazelleaf/src/main/java/com/spotify/gradle/bazel/AspectRunner.java:60 | `DEBUG: <path>/<file>:<line>:<col>: <payload>` yields its payload |
| AspectRunner.GreedyPicks | buildSrc/bazelleaf/src/main/java/com/spotify/gradle/bazel/AspectRunner.java:60 | the greedy `.*` picks the last place a locator matches |
| AspectRunner.LastLocator | buildSrc/bazelleaf/src/main/java/com/spotify/gradle/bazel/AspectRunner.java:60 | the place found is a locator and no later one is |
| AspectRunner.LocatorEnd | buildSrc/bazelleaf/src/main/java/com/spotify/gradle/bazel/AspectRunner.java:60 | a locator found starts with the aspect file name and ends just after a ':' |
| AspectRunner.Group | buildSrc/bazelleaf/src/main/java/com/spotify/gradle/bazel/AspectRunner.java:60 | the captured payload is a suffix of the text after the locator and starts with a non-space, unless it is one character |
| AspectRunner.Payload | buildSrc/bazelleaf/src/main/java/com/spotify/gradle/bazel/AspectRunner.java:60 | the payload of a matching line is a non-empty suffix of it |
| BazelAspectService.RemoteMatchWhen | buildSrc/bazelleaf/src/main/java/com/spotify/gradle/bazel/BazelAspectService.java:57 | the remote pattern matches exactly the lines `//third_party:N<FILES:>[I]` without line terminators |
| BazelAspectService.RemoteMatchShape | buildSrc/bazelleaf/src/main/java/com/spotify/gradle/bazel/BazelAspectService.java:57 | a remote match splits the line at its last `<FILES:>[` |
| BazelAspectService.LocalMatchWhen | buildSrc/bazelleaf/src/main/java/com/spotify/gradle/bazel/BazelAspectService.java:55 | the local pattern matches exactly the lines starting with "//" that hold `<FILES:>` after the label |
| BazelAspectService.LocalMatchShape | buildSrc/bazelleaf/src/main/java/com/spotify/gradle/bazel/BazelAspectService.java:55 | a local match cuts the line at its last `<FILES:>` |
| BazelAspectService.FileGroupAtSpec | buildSrc/bazelleaf/src/main/java/com/spotify/gradle/bazel/BazelAspectService.java:59 | the file group found is the one of the only way the pattern can cover the text |
| BazelAspectService.GeneratedFileSpec | buildSrc/bazelleaf/src/main/java/com/spotify/gradle/bazel/BazelAspectService.java:59 | the pattern matches `<...>` from the last place its rest matches, with that place's group |
| BazelAspectService.GeneratedFileOf | buildSrc/bazelleaf/src/main/java/com/spotify/gradle/bazel/BazelAspectService.java:59 | `<source file P>` names P when P is non-empty and has no whitespace |
| BazelAspectService.Classify | buildSrc/bazelleaf/src/main/java/com/spotify/gradle/bazel/BazelAspectService.java:62-78 | the remote form is tried first; a remote line whose list is not a file, and a line of neither form, is an IllegalStateException |
| BazelAspectService.ClassifiedLocal | buildSrc/bazelleaf/src/main/java/com/spotify/gradle/bazel/BazelAspectService.java:72-74 | a local target is the text before the last `<FILES:>` of a line the remote pattern rejects |
| BazelAspectService.ClassifiedRemote | buildSrc/bazelleaf/src/main/java/com/spotify/gradle/bazel/BazelAspectService.java:64-68 | an external jar is named by the rule after //third_party: and its path closes the bracketed list |
| BazelAspectService.ClassifyLocalLine | buildSrc/bazelleaf/src/main/java/com/spotify/gradle/bazel/BazelAspectService.java:72-74 | `P<FILES:>R` is the local target P when no later marker follows and the line does not end in ']' |
| BazelAspectService.ClassifyRemoteLine | buildSrc/bazelleaf/src/main/java/com/spotify/gradle/bazel/BazelAspectService.java:64-68 | `//third_party:N<FILES:>[<K file P>]` is the external jar P of rule N |
| BazelAspectService.RemoteAlsoLocal | buildSrc/bazelleaf/src/main/java/com/spotify/gradle/bazel/BazelAspectService.java:62-72 | every remote line fits the local pattern too, so the order of the tests decides |
| BazelAspectService.ThirdPartyWithoutListIsLocal | buildSrc/bazelleaf/src/main/java/com/spotify/gradle/bazel/BazelAspectService.java:62-74 | a //third_party: line without a bracketed list becomes a local target |
| BazelAspectService.EmptyListFails | buildSrc/bazelleaf/src/main/java/com/spotify/gradle/bazel/BazelAspectService.java:64-71 | a remote line with an empty file list is an IllegalStateException |
| BazelAspectService.ClassifyAllOfLines | buildSrc/bazelleaf/src/main/java/com/spotify/gradle/bazel/BazelAspectService.java:60-78 | collecting the lines one by one gives the annotations of all of them, or the error of the first line that fails |
| BazelAspectService.ClassifyAllFailsFrom | buildSrc/bazelleaf/src/main/java/com/spotify/gradle/bazel/BazelAspectService.java:60-78 | once a prefix of the lines fails, the whole collection fails the same way |
| BazelAspectService.Classified | buildSrc/bazelleaf/src/main/java/com/spotify/gradle/bazel/BazelAspectService.java:60-78 | one classification per line, in order |
| BazelAspectService.LocalsRemotesPartition | buildSrc/bazelleaf/src/main/java/com/spotify/gradle/bazel/BazelAspectService.java:105-108 | every annotation lands in exactly one of the two lists |
| BazelAspectService.LocalsRemotesAppend | buildSrc/bazelleaf/src/main/java/com/spotify/gradle/bazel/BazelAspectService.java:79-82 | the combiner of two partial collections gives the lists of the joined annotations |
| BazelAspectService.Deps.constructor | buildSrc/bazelleaf/src/main/java/com/spotify/gradle/bazel/BazelAspectService.java:105-108 | both lists start empty |
| BazelAspectService.Deps.Add | buildSrc/bazelleaf/src/main/java/com/spotify/gradle/bazel/BazelAspectService.java:61-78 | the annotation goes at the end of its own list and the other list is unchanged |
| BazelAspectService.Deps.Combine | buildSrc/bazelleaf/src/main/java/com/spotify/gradle/bazel/BazelAspectService.java:79-82 | the other collection's lists are appended to these |
| BazelAspectService.CollectDeps | buildSrc/bazelleaf/src/main/java/com/spotify/gradle/bazel/BazelAspectService.java:60-82 | the collection succeeds exactly when every line classifies, holding the annotations in order; otherwise the first error |
| BazelAspectService.GetAllDeps | buildSrc/bazelleaf/src/main/java/com/spotify/gradle/bazel/BazelAspectService.java:53-83 | runs the deps aspect on the target and collects its lines; the aspect's failure is the result |
| BazelAspectService.PackageOfShape | buildSrc/bazelleaf/src/main/java/com/spotify/gradle/bazel/BazelAspectService.java:28 | a package found is one the pattern can cover the line with |
| BazelAspectService.PackageOfUnique | buildSrc/bazelleaf/src/main/java/com/spotify/gradle/bazel/BazelAspectService.java:28 | every way the pattern covers the line yields the package found |
| BazelAspectService.PackageLine | buildSrc/bazelleaf/src/main/java/com/spotify/gradle/bazel/BazelAspectService.java:28 | a declaration line `package a.b;` yields its name |
| BazelAspectService.DeclaredPackage | buildSrc/bazelleaf/src/main/java/com/spotify/gradle/bazel/BazelAspectService.java:41-46 | the package of the first declaring line, or none when no line declares one |
| BazelAspectService.PackageIn | buildSrc/bazelleaf/src/main/java/com/spotify/gradle/bazel/BazelAspectService.java:38-51 | an unreadable file is the RuntimeException naming it with the reader's IOException; otherwise the first declared package |
| BazelAspectService.ParseDeclaredPackage | buildSrc/bazelleaf/src/main/java/com/spotify/gradle/bazel/BazelAspectService.java:38-51 | reads the file line by line and gives PackageIn |
| BazelAspectService.RootOfFolder | buildSrc/bazelleaf/src/main/java/com/spotify/gradle/bazel/BazelAspectService.java:96-99 | a package longer than the folder is an index failure; otherwise the root is a prefix of the folder without the last package-length characters, and exactly the folder up to the '/' before them when that '/' is a single separator |
| BazelAspectService.RootOfPackageFolder | buildSrc/bazelleaf/src/main/java/com/spotify/gradle/bazel/BazelAspectService.java:96-99 | a file of package a.b.c in folder R/a/b/c has source root R |
| BazelAspectService.Locate | buildSrc/bazelleaf/src/main/java/com/spotify/gradle/bazel/BazelAspectService.java:88-91 | every listed file resolves against the workspace root and sits in its parent folder, one per line |
| BazelAspectService.VisitCache | buildSrc/bazelleaf/src/main/java/com/spotify/gradle/bazel/BazelAspectService.java:92-95 | a folder already cached keeps the cache and uses its package; a new folder caches the package its first file declares |
| BazelAspectService.SourceRootsByFirstFiles | buildSrc/bazelleaf/src/main/java/com/spotify/gradle/bazel/BazelAspectService.java:88-102 | the cache is invisible: every file's root is the one the first listed file of its folder determines |
| BazelAspectService.SameFolderSameRoot | buildSrc/bazelleaf/src/main/java/com/spotify/gradle/bazel/BazelAspectService.java:92-95 | files in one folder share a source root, whatever later files declare |
| BazelAspectService.VisitFile | buildSrc/bazelleaf/src/main/java/com/spotify/gradle/bazel/BazelAspectService.java:92-100 | the mapping step on one listed file |
| BazelAspectService.SourceFolders | buildSrc/bazelleaf/src/main/java/com/spotify/gradle/bazel/BazelAspectService.java:88-102 | the set of source roots equals the one RootsFrom defines over the resolved files, kept in the folder cache |
| BazelAspectService.GetSourceFolders | buildSrc/bazelleaf/src/main/java/com/spotify/gradle/bazel/BazelAspectService.java:85-103 | runs the sources aspect and maps every listed file to its root; the aspect's failure is the result |
| BazelLeafPlugin.ConvertLocalBazelDepToGradle | buildSrc/bazelleaf/src/main/java/com/spotify/gradle/bazel/BazelLeafPlugin.java:264-271 | a target that does not convert is the IllegalArgumentException naming it |
| BazelLeafPlugin.ConvertLocalWhen | buildSrc/bazelleaf/src/main/java/com/spotify/gradle/bazel/BazelLeafPlugin.java:264-271 | conversion succeeds exactly when the path fits `^/(/.+):.+$`; the greedy group ends at the last ':' that fits, and '/' becomes ':' |
| BazelLeafPlugin.RootPackageNotConvertible | buildSrc/bazelleaf/src/main/java/com/spotify/gradle/bazel/BazelLeafPlugin.java:264-271 | a target of the workspace root package does not convert |
| BazelLeafPlugin.ConvertTargetPathRoundTrip | buildSrc/bazelleaf/src/main/java/com/spotify/gradle/bazel/BazelLeafPlugin.java:264-271 | the label of a module's own target converts back to the module's Gradle path |
| BazelLeafPlugin.Lib4Converts | buildSrc/bazelleaf/src/main/java/com/spotify/gradle/bazel/BazelLeafPlugin.java:264-271 | `//lib4:jar` is the project `:lib4` |
| BazelLeafPlugin.CreateMavenDependency | buildSrc/bazelleaf/src/main/java/com/spotify/gradle/bazel/BazelLeafPlugin.java:277-289 | a rule name that does not fit the pattern is the IllegalArgumentException naming it |
| BazelLeafPlugin.CreateMavenOk | buildSrc/bazelleaf/src/main/java/com/spotify/gradle/bazel/BazelLeafPlugin.java:277-289 | a coordinate found comes from splitting the rule name at the last two possible `__` separators |
| BazelLeafPlugin.CreateMavenWhen | buildSrc/bazelleaf/src/main/java/com/spotify/gradle/bazel/BazelLeafPlugin.java:277-289 | the conversion succeeds exactly when the greedy pattern matches |
| BazelLeafPlugin.MavenOfParts | buildSrc/bazelleaf/src/main/java/com/spotify/gradle/bazel/BazelLeafPlugin.java:277-289 | `g__a__v` with parts free of `__` gives the coordinate (g, a, v) |
| BazelLeafPlugin.HamcrestLibrary | buildSrc/bazelleaf/src/main/java/com/spotify/gradle/bazel/BazelLeafPlugin.java:277-289 | the hamcrest rule of the sample workspace gives its Maven coordinate |
| BazelLeafPlugin.NoSeparatorNotMaven | buildSrc/bazelleaf/src/main/java/com/spotify/gradle/bazel/BazelLeafPlugin.java:277-289 | a rule name without `__` is not a Maven dependency |
| BazelLeafPlugin.ExternalJarPath | buildSrc/bazelleaf/src/main/java/com/spotify/gradle/bazel/BazelLeafPlugin.java:258-262 | an external jar lives under the `output_base` of `bazel info` |
| BazelLeafPlugin.ExternalJarPathInjective | buildSrc/bazelleaf/src/main/java/com/spotify/gradle/bazel/BazelLeafPlugin.java:258-262 | different jars get different local paths |
| BazelLeafPlugin.BuildDir | buildSrc/bazelleaf/src/main/java/com/spotify/gradle/bazel/BazelLeafPlugin.java:115 | an absent `bazel info` is a NullPointerException; a target path shorter than two characters is an index failure; otherwise the build dir ends with the target path after its "//" |
| BazelLeafPlugin.BuildDirOfProject | buildSrc/bazelleaf/src/main/java/com/spotify/gradle/bazel/BazelLeafPlugin.java:115 | for a module at `:a:b` the build dir is `<bazel-bin>/a/b` |
| Strategies.BuildStrategy | buildSrc/bazelleaf/src/main/java/com/spotify/gradle/bazel/strategies/Factory.java:9-21 | the strategy keeps the configuration it was given |
| Strategies.BuildStrategyOfRuleKind | buildSrc/bazelleaf/src/main/java/com/spotify/gradle/bazel/strategies/Factory.java:9-21 | the factory inverts RuleKind: a known kind gives its strategy, every other kind the plain build with a warning |
| Strategies.CreateBazelExecTask | buildSrc/bazelleaf/src/main/java/com/spotify/gradle/bazel/strategies/StrategyBase.java:26-35 | the command line has four words, the binary first and the strategy's label (the test target for tests) last; the task runs in the workspace root under the strategy's task name, and its description ends with the label |
| Strategies.ExecTaskSettings | buildSrc/bazelleaf/src/main/java/com/spotify/gradle/bazel/strategies/StrategyBase.java:26-35 | the whole task: binary, `build`, `--symlink_prefix=` with the build output dir and the label, in the workspace root, described as "Assembles this project using Bazel target <label>" in group build; for tests (JavaTestStrategy.java:23-28) `test` of the test target, "Test this project using Bazel target <label>" in group test |
| Strategies.ExecTaskRunsBazelTaskCommand | buildSrc/bazelleaf/src/main/java/com/spotify/gradle/bazel/strategies/StrategyBase.java:31 | the Exec task's command line is the matching Bazel task's argv without the four plain-output flags |
| Strategies.TaskNamesDistinct | buildSrc/bazelleaf/src/main/java/com/spotify/gradle/bazel/strategies/JavaTestStrategy.java:23 | equal task names mean the same strategy kind, and for the building strategies the same target |
| Strategies.OutputArtifacts | buildSrc/bazelleaf/src/main/java/com/spotify/gradle/bazel/strategies/StrategyBase.java:41-47 | one artifact per output, in order, each published by the build task at `new File(workspaceRoot, output)` |
| Paths.ChildJoins | buildSrc/bazelleaf/src/main/java/com/spotify/gradle/bazel/strategies/StrategyBase.java:37-39 | a joined path is the parent, one '/' and the child: the parent's own trailing '/' serves, otherwise one is inserted |
| Strategies.OutputFolder | buildSrc/bazelleaf/src/main/java/com/spotify/gradle/bazel/strategies/StrategyBase.java:37-39 | an output in a folder of the workspace is published from that folder under its name |
| Strategies.AarPackageTask | buildSrc/bazelleaf/src/main/java/com/spotify/gradle/bazel/strategies/AndroidLibraryStrategy.java:38-53 | the packaging task is named after and depends on the build task, first renames lib<target>.jar to classes.jar, stores entries uncompressed with UTF-8 metadata, writes <target>.aar into the folder with the given description and group, and packages the resource zip unpacked into unzip, classes.jar, the manifest and R.txt |
| Strategies.AarArtifacts | buildSrc/bazelleaf/src/main/java/com/spotify/gradle/bazel/strategies/AndroidLibraryStrategy.java:32-56 | no output is an index failure; otherwise one artifact, the AAR, published by the packaging task |
| Strategies.AarPackageWritesPublishedFile | buildSrc/bazelleaf/src/main/java/com/spotify/gradle/bazel/strategies/AndroidLibraryStrategy.java:37-47 | the AAR the packaging task writes is the file published, named `<target>.aar` |
| Strategies.AarPublished | buildSrc/bazelleaf/src/main/java/com/spotify/gradle/bazel/strategies/AndroidLibraryStrategy.java:36-55 | the AAR is packaged into the parent folder of the first output |
| Strategies.AarTaskLinks | buildSrc/bazelleaf/src/main/java/com/spotify/gradle/bazel/strategies/AndroidLibraryStrategy.java:38-53 | the packaging task depends on the build task, is named after it, and packages the file it renames the library jar to |
| Strategies.ArtifactsOf | buildSrc/bazelleaf/src/main/java/com/spotify/gradle/bazel/strategies/JavaTestStrategy.java:32-36 | the test strategy publishes nothing; the base strategies publish output i at `new File(workspaceRoot, output i)` under their build task, one per output; only the AAR strategy creates a packaging task |
| Strategies.GetBazelArtifacts | buildSrc/bazelleaf/src/main/java/com/spotify/gradle/bazel/strategies/StrategyBase.java:41-47 | the test strategy runs nothing; the others run the outputs aspect on the main target and fail with its failure |
| Strategies.CreatePlainBuildTask | buildSrc/bazelleaf/src/main/java/com/spotify/gradle/bazel/strategies/PlainBuildStrategy.java:23-28 | the plain build creates a BazelBuildTask named "compile" with the configuration, its description and group |
| LegacyStrategy.LegacyBuildStrategy | buildSrc/bazelleaf/src/main/java/com/spotify/gradle/bazel/Strategy.java:26-35 | only java_library and android_library have a strategy; any other kind is the IllegalArgumentException naming it |
| LegacyStrategy.LegacyFactoryAgrees | buildSrc/bazelleaf/src/main/java/com/spotify/gradle/bazel/Strategy.java:26-35 | the older factory accepts exactly the two libraries and picks what the newer one picks; where the newer falls back it fails with the same text |
| LegacyStrategy.CreateBazelBuildTask | buildSrc/bazelleaf/src/main/java/com/spotify/gradle/bazel/Strategy.java:39-46 | `bazel build` with the symlink prefix of the target label, run in the workspace root, named per library kind, with the fixed description and group build |
| LegacyStrategy.LegacyTaskIsCurrentTask | buildSrc/bazelleaf/src/main/java/com/spotify/gradle/bazel/Strategy.java:39-46 | the older task is the newer one with the fixed description |
| LegacyStrategy.LegacyArtifactsOf | buildSrc/bazelleaf/src/main/java/com/spotify/gradle/bazel/Strategy.java:52-57 | the Java library publishes output i at `new File(workspaceRoot, output i)` under `bazelJavaLibBuild_<target>`, one per output, and creates no packaging task |
| LegacyStrategy.LegacyArtifactsAgree | buildSrc/bazelleaf/src/main/java/com/spotify/gradle/bazel/Strategy.java:71-92 | both generations publish the same files; only the packaging task lost its description and group |
| LegacyStrategy.LegacyGetBazelArtifacts | buildSrc/bazelleaf/src/main/java/com/spotify/gradle/bazel/Strategy.java:52-57 | runs the outputs aspect on the main target and publishes from its lines |
| Artifacts.PublishArtifact.Name | buildSrc/bazelleaf/src/main/java/com/spotify/gradle/bazel/BazelPublishArtifact.java:19-22 | the name has no directory in it |
| Artifacts.PublishArtifact.Extension | buildSrc/bazelleaf/src/main/java/com/spotify/gradle/bazel/BazelPublishArtifact.java:24-27 | the extension is what follows the last '.' of the name, and empty without one |
| Artifacts.PublishArtifactNaming | buildSrc/bazelleaf/src/main/java/com/spotify/gradle/bazel/BazelPublishArtifact.java:19-38 | `dir/base.ext` is published as `base.ext` with extension and type `ext` and no classifier |
| SystemEnvironment.GetOsType | buildSrc/bazelleaf/src/main/java/com/spotify/gradle/bazel/utils/SystemEnvironment.java:15-25 | macOS exactly when the lower-cased name contains "mac" or "darwin" (so "darwin" is macOS although it contains "win"); otherwise Windows exactly when it contains "win"; otherwise Linux |
| SystemEnvironment.GetOsTypeIgnoresCase | buildSrc/bazelleaf/src/main/java/com/spotify/gradle/bazel/utils/SystemEnvironment.java:16 | the detection does not depend on the case of os.name |
| SystemEnvironment.MacOsXIsMacOs | buildSrc/bazelleaf/src/main/java/com/spotify/gradle/bazel/utils/SystemEnvironment.java:18-19 | "Mac OS X" is macOS |
| SystemEnvironment.DarwinIsMacOs | buildSrc/bazelleaf/src/main/java/com/spotify/gradle/bazel/utils/SystemEnvironment.java:18-19 | "Darwin" is macOS |
| SystemEnvironment.Windows10IsWindows | buildSrc/bazelleaf/src/main/java/com/spotify/gradle/bazel/utils/SystemEnvironment.java:20-21 | "Windows 10" is Windows |
| SystemEnvironment.LinuxIsLinux | buildSrc/bazelleaf/src/main/java/com/spotify/gradle/bazel/utils/SystemEnvironment.java:22-23 | "Linux" is Linux |
| SystemEnvironment.MissingPropertyIsLinux | buildSrc/bazelleaf/src/main/java/com/spotify/gradle/bazel/utils/SystemEnvironment.java:16 | without the property the name is "none", which is Linux |
| TargetCleanTask.OutputsOf | buildSrc/bazelleaf/src/main/java/com/spotify/gradle/bazel/tasks/BazelTargetCleanTask.java:25-26 | a path is an output exactly when some registered task declares it |
| TargetCleanTask.OutputsOfStep | buildSrc/bazelleaf/src/main/java/com/spotify/gradle/bazel/tasks/BazelTargetCleanTask.java:25-26 | registering one more task adds exactly its declared outputs |
| TargetCleanTask.DeleteFiles | buildSrc/bazelleaf/src/main/java/com/spotify/gradle/bazel/tasks/BazelTargetCleanTask.java:26-30 | deletes each existing file in order and stops at the first that exists and cannot be deleted |
| TargetCleanTask.DeleteAll | buildSrc/bazelleaf/src/main/java/com/spotify/gradle/bazel/tasks/BazelTargetCleanTask.java:25-31 | without a failure every output is gone and nothing else; a failure names an undeletable output, and only outputs were deleted |
| TargetCleanTask.BazelTargetCleanTask.constructor | buildSrc/bazelleaf/src/main/java/com/spotify/gradle/bazel/tasks/BazelTargetCleanTask.java:17 | a new clean task has no target task |
| TargetCleanTask.BazelTargetCleanTask.AddTargetTask | buildSrc/bazelleaf/src/main/java/com/spotify/gradle/bazel/tasks/BazelTargetCleanTask.java:34-36 | adds the task to the registered set |
| TargetCleanTask.BazelTargetCleanTask.DeleteOutputs | buildSrc/bazelleaf/src/main/java/com/spotify/gradle/bazel/tasks/BazelTargetCleanTask.java:19-32 | without a task it fails before touching a file; it succeeds exactly when every existing output can be deleted, and then all are gone; otherwise the IOException names one that could not be deleted and only outputs were removed |
| HatchejModel.Snapshot.Added | buildSrc/bazelleaf/src/main/java/com/spotify/gradle/hatchej/HatchejModel.java:14-32 | adding to a collection grows only that collection |
| HatchejModel.Snapshot.Grown | buildSrc/bazelleaf/src/main/java/com/spotify/gradle/hatchej/HatchejModel.java:14-32 | adding a set to a collection grows that collection by the set and leaves the others |
| HatchejModel.AddedPresent | buildSrc/bazelleaf/src/main/java/com/spotify/gradle/hatchej/HatchejModel.java:8-12 | collections are sets: adding an element already there changes nothing |
| HatchejModel.AddedTwice | buildSrc/bazelleaf/src/main/java/com/spotify/gradle/hatchej/HatchejModel.java:8-12 | adding the same element twice is adding it once |
| HatchejModel.AddedCommutes | buildSrc/bazelleaf/src/main/java/com/spotify/gradle/hatchej/HatchejModel.java:8-12 | the order of additions does not matter |
| HatchejModel.HatchejModel.constructor | buildSrc/bazelleaf/src/main/java/com/spotify/gradle/hatchej/HatchejModel.java:8-12 | every collection starts empty |
| HatchejModel.HatchejModel.Add | buildSrc/bazelleaf/src/main/java/com/spotify/gradle/hatchej/HatchejModel.java:14-32 | adding through a getter grows that collection and no other |
| HatchejModel.HatchejModel.AddAll | buildSrc/bazelleaf/src/main/java/com/spotify/gradle/hatchej/HatchejModel.java:14-32 | adding a set grows only that collection, by that set |
| HatchejImlAction.GetJarUrl | buildSrc/bazelleaf/src/main/java/com/spotify/gradle/hatchej/HatchejImlAction.java:90-101 | a dependency that looks like a jar URL at either end is kept; anything else is wrapped, so the result is a jar URL |
| HatchejImlAction.GetJarUrlIdempotent | buildSrc/bazelleaf/src/main/java/com/spotify/gradle/hatchej/HatchejImlAction.java:90-101 | wrapping twice is wrapping once |
| HatchejImlAction.FilenameWithoutExtension | buildSrc/bazelleaf/src/main/java/com/spotify/gradle/hatchej/HatchejImlAction.java:86-88 | the file name up to its last '.', the whole name without one |
| HatchejImlAction.NormalizePath | buildSrc/bazelleaf/src/main/java/com/spotify/gradle/hatchej/HatchejImlAction.java:187-189 | '/', '-' and '.' become '_', other characters stay, the length is kept |
| HatchejImlAction.LibraryFile | buildSrc/bazelleaf/src/main/java/com/spotify/gradle/hatchej/HatchejImlAction.java:53-57 | a library's file sits directly in the libraries folder: a name without '/' or '.', followed by `.xml` |
| HatchejImlAction.LibraryModuleNode | buildSrc/bazelleaf/src/main/java/com/spotify/gradle/hatchej/HatchejImlAction.java:202-212 | a library orderEntry named by the file name without extension, at project level, in TEST scope exactly for test libraries |
| HatchejImlAction.JarLibraryNames | buildSrc/bazelleaf/src/main/java/com/spotify/gradle/hatchej/HatchejImlAction.java:51-61 | for a jar `dir/base.ext` the library file, the library it declares and the entry that refers to it all use `base` |
| HatchejImlAction.PlainDependencyNames | buildSrc/bazelleaf/src/main/java/com/spotify/gradle/hatchej/HatchejImlAction.java:51-61 | for a bare name the library file and library carry the URL's '!' while the entry does not, so they do not match |
| HatchejImlAction.ModuleName | buildSrc/bazelleaf/src/main/java/com/spotify/gradle/hatchej/HatchejImlAction.java:191-200 | module names hold no ':' |
| HatchejImlAction.ModuleNameOfGradlePath | buildSrc/bazelleaf/src/main/java/com/spotify/gradle/hatchej/HatchejImlAction.java:191-200 | `:android:lib3` refers to module `android.lib3` |
| HatchejImlAction.ModuleNameWithoutColon | buildSrc/bazelleaf/src/main/java/com/spotify/gradle/hatchej/HatchejImlAction.java:194 | a path without ':' is its own module name |
| HatchejImlAction.ProjectModuleNode | buildSrc/bazelleaf/src/main/java/com/spotify/gradle/hatchej/HatchejImlAction.java:191-200 | a module orderEntry with the module name of the path, in TEST scope exactly for test dependencies |
| HatchejImlAction.OutputNode | buildSrc/bazelleaf/src/main/java/com/spotify/gradle/hatchej/HatchejImlAction.java:214-217 | an output (or output-test) element with the file URL of the path |
| HatchejImlAction.FolderUrl | buildSrc/bazelleaf/src/main/java/com/spotify/gradle/hatchej/HatchejImlAction.java:221 | the folder's URL exists exactly when it is at least as long as the project directory, else an index failure |
| HatchejImlAction.FolderUrlOfChild | buildSrc/bazelleaf/src/main/java/com/spotify/gradle/hatchej/HatchejImlAction.java:224-233 | a folder inside the project directory gets the URL of its relative path |
| HatchejImlAction.SourceFolderNode | buildSrc/bazelleaf/src/main/java/com/spotify/gradle/hatchej/HatchejImlAction.java:224-233 | a sourceFolder element exactly when the folder fits the project directory, otherwise the IndexOutOfBounds failure; it has no children and exactly two attributes, `url` (the folder's `$MODULE_DIR$` URL) and `isTestSource` ("true" for a test folder, else "false") |
| HatchejImlAction.ExcludeFolderNode | buildSrc/bazelleaf/src/main/java/com/spotify/gradle/hatchej/HatchejImlAction.java:219-222 | an excludeFolder element exactly when the folder fits the project directory, otherwise the IndexOutOfBounds failure; it has no children and only the `url` attribute, the folder's `$MODULE_DIR$` URL |
| HatchejImlAction.SourceNodes | buildSrc/bazelleaf/src/main/java/com/spotify/gradle/hatchej/HatchejImlAction.java:144-145 | one source-folder node per folder, all built exactly when all folders fit |
| HatchejImlAction.ExcludeNodes | buildSrc/bazelleaf/src/main/java/com/spotify/gradle/hatchej/HatchejImlAction.java:147-148 | one exclude-folder node per folder, all built exactly when all folders fit |
| HatchejImlAction.ModuleNodes | buildSrc/bazelleaf/src/main/java/com/spotify/gradle/hatchej/HatchejImlAction.java:150-165 | one module entry per project dependency, every one built |
| HatchejImlAction.FolderNodesFit | buildSrc/bazelleaf/src/main/java/com/spotify/gradle/hatchej/HatchejImlAction.java:142-148 | the folder nodes all build exactly when the model's folders fit, and one that does not fails with an index error |
| HatchejImlAction.RewriteContent | buildSrc/bazelleaf/src/main/java/com/spotify/gradle/hatchej/HatchejImlAction.java:142-148 | the content element keeps everything but its folders; one source folder per model folder, then per test folder, then one exclude folder each; an unfitting folder is an index failure |
| HatchejImlAction.RewriteComponent | buildSrc/bazelleaf/src/main/java/com/spotify/gradle/hatchej/HatchejImlAction.java:150-165 | the component keeps everything but module, library and output entries, which are replaced by one per model element |
| HatchejImlAction.ImlPathFile | buildSrc/bazelleaf/src/main/java/com/spotify/gradle/hatchej/HatchejImlAction.java:122-123 | the IML file named after the Gradle path; an empty path fails the substring with an index error |
| HatchejImlAction.ImlPathFileIsModuleName | buildSrc/bazelleaf/src/main/java/com/spotify/gradle/hatchej/HatchejImlAction.java:122-123 | the path-named file carries the module name other modules' entries use |
| HatchejImlAction.ParseIml | buildSrc/bazelleaf/src/main/java/com/spotify/gradle/hatchej/HatchejImlAction.java:137 | parsing succeeds exactly for a file holding an XML document |
| HatchejImlAction.CreateLibraryFileIfNotExists | buildSrc/bazelleaf/src/main/java/com/spotify/gradle/hatchej/HatchejImlAction.java:51-81 | an existing file is left and gives false; otherwise the library document is written and gives true, a failed write is a RuntimeException |
| HatchejImlAction.CreateLibraryFiles | buildSrc/bazelleaf/src/main/java/com/spotify/gradle/hatchej/HatchejImlAction.java:45-47 | it fails exactly when some dependency's file does not exist and cannot be written; otherwise every dependency's file exists afterwards; existing files are kept and new files are only library files |
| HatchejImlAction.AddLibraryFiles | buildSrc/bazelleaf/src/main/java/com/spotify/gradle/hatchej/HatchejImlAction.java:38-49 | outside an IntelliJ workspace nothing happens; otherwise it succeeds exactly when no missing library file is unwritable, and then every library dependency has its file |
| HatchejImlAction.FindIml | buildSrc/bazelleaf/src/main/java/com/spotify/gradle/hatchej/HatchejImlAction.java:122-136 | the path-named file when present, else the project-named one, else none |
| HatchejImlAction.RewriteIml | buildSrc/bazelleaf/src/main/java/com/spotify/gradle/hatchej/HatchejImlAction.java:139-165 | succeeds exactly when the component and content exist and the folders fit; a missing element is an IllegalArgumentException and an unfitting folder an index failure |
| HatchejImlAction.WriteIml | buildSrc/bazelleaf/src/main/java/com/spotify/gradle/hatchej/HatchejImlAction.java:119-170 | without an IML file nothing changes; otherwise the file chosen is rewritten in place and nothing else |
| HatchejImlAction.EnsureLibraryFiles | buildSrc/bazelleaf/src/main/java/com/spotify/gradle/hatchej/HatchejImlAction.java:173-178 | it succeeds exactly when the libraries folder exists or can be created and no missing library or test-library file is unwritable; then the folder and every library file exist; existing files are kept |
| HatchejImlAction.ModifyImlFile | buildSrc/bazelleaf/src/main/java/com/spotify/gradle/hatchej/HatchejImlAction.java:118-179 | the IML file found is rewritten from the model, then the libraries folder and every library and test library file exist; every other file keeps its content and only those files may appear; without an IML file nothing changes; each failure is the one the step that fails throws: the IndexOutOfBoundsException of the file lookup, the parse error, the IllegalArgumentException of a missing component, the IndexOutOfBoundsException of a folder outside the module, an IOException on an unwritable IML file or libraries folder; once the IML file is written and the folder is available, it succeeds exactly when no missing library or test-library file is unwritable |
| Xml.FirstChild | buildSrc/bazelleaf/src/main/java/com/spotify/gradle/hatchej/HatchejImlAction.java:236-249 | the index of the first child the finder selects; none at all is the IllegalArgumentException |
| LegacyImlAction.LegacyModuleName | buildSrc/hatchej/src/main/java/com/spotify/gradle/hatchej/HatchejImlAction.java:56 | the text after the last ':', the whole path without one |
| LegacyImlAction.LegacyModuleNameOfPath | buildSrc/hatchej/src/main/java/com/spotify/gradle/hatchej/HatchejImlAction.java:56 | `:a:b` is entry `b` |
| LegacyImlAction.NestedPathNamesDiffer | buildSrc/hatchej/src/main/java/com/spotify/gradle/hatchej/HatchejImlAction.java:56 | for a nested project the older rewrite names the entry by the last segment, the newer one by the whole path |
| LegacyImlAction.LegacyModuleNode | buildSrc/hatchej/src/main/java/com/spotify/gradle/hatchej/HatchejImlAction.java:52-59 | a module entry named by the last path segment, exported, without a scope |
| LegacyImlAction.LegacyModuleNodes | buildSrc/hatchej/src/main/java/com/spotify/gradle/hatchej/HatchejImlAction.java:42 | one entry per project dependency, every one built |
| LegacyImlAction.LegacyRewriteComponent | buildSrc/hatchej/src/main/java/com/spotify/gradle/hatchej/HatchejImlAction.java:39-42 | only the module entries change, one per project dependency |
| LegacyImlAction.LegacyKeepsLibrariesAndOutputs | buildSrc/hatchej/src/main/java/com/spotify/gradle/hatchej/HatchejImlAction.java:39-42 | library entries and outputs come through unchanged |
| LegacyImlAction.LegacyRewriteIml | buildSrc/hatchej/src/main/java/com/spotify/gradle/hatchej/HatchejImlAction.java:28-42 | succeeds exactly when the content element exists and the folders fit; a missing element is an IllegalArgumentException and an unfitting folder an index failure |
| LegacyImlAction.LegacyModifyImlFile | buildSrc/hatchej/src/main/java/com/spotify/gradle/hatchej/HatchejImlAction.java:21-50 | a missing `<name>.iml` gives false; a parse failure is the result; a null model is the IllegalStateException naming the project; with a model the rewrite succeeds exactly when the component and content elements exist, every folder fits the module and the file is writable; only a successful rewrite changes files, and then only that one |
| LegacyImlAction.LegacyWriteBack | buildSrc/hatchej/src/main/java/com/spotify/gradle/hatchej/HatchejImlAction.java:28-46 | the write succeeds exactly when the content exists, the folders fit and the file is writable; then only that file changes |
| ConfigureSteps.AsWrittenSelfFilter | buildSrc/bazelleaf/src/main/java/com/spotify/gradle/bazel/BazelLeafPlugin.java:175 | as written the filter returns the dependencies unchanged |
| ConfigureSteps.AsWrittenKeepsSelf | buildSrc/bazelleaf/src/main/java/com/spotify/gradle/bazel/BazelLeafPlugin.java:174-179 | a test target that depends on the main target keeps that dependency, which converts to the module's own path |
| ConfigureSteps.CorrectedSelfFilter | buildSrc/bazelleaf/src/main/java/com/spotify/gradle/bazel/BazelLeafPlugin.java:175 | drops exactly the dependencies labelled like the main target |
| ConfigureSteps.CorrectedSelfFilterAppend | buildSrc/bazelleaf/src/main/java/com/spotify/gradle/bazel/BazelLeafPlugin.java:174-175 | filtering two lists joined is filtering each, so order is kept |
| ConfigureSteps.CorrectedSelfFilterNoSelf | buildSrc/bazelleaf/src/main/java/com/spotify/gradle/bazel/BazelLeafPlugin.java:174-175 | without the main target's label nothing is dropped |
| ConfigureSteps.CorrectedDropsSelf | buildSrc/bazelleaf/src/main/java/com/spotify/gradle/bazel/BazelLeafPlugin.java:175 | the corrected filter removes the self dependency the written one keeps |
| ConfigureSteps.SelfFiltered | buildSrc/bazelleaf/src/main/java/com/spotify/gradle/bazel/BazelLeafPlugin.java:174-175 | the main target keeps all its local dependencies; the test target keeps exactly those not labelled like the main target (the corrected filter of the Findings table, not the comparison as written) |
| ConfigureSteps.FirstOr | buildSrc/bazelleaf/src/main/java/com/spotify/gradle/bazel/BazelLeafPlugin.java:123-124 | the first line, or the fallback when there is none |
| ConfigureSteps.CreateStrategyTask | buildSrc/bazelleaf/src/main/java/com/spotify/gradle/bazel/BazelLeafPlugin.java:122-128 | the first rule kind picks the strategy and its task joins the module's tasks; a taken name fails |
| ConfigureSteps.PublishMain | buildSrc/bazelleaf/src/main/java/com/spotify/gradle/bazel/BazelLeafPlugin.java:128-135 | an AAR packaging task, when the strategy has one, joins the tasks and depends on the build task, a taken name failing with nothing changed; then the artifacts are appended to the configuration in order, and their files join the project outputs and the build task's outputs |
| ConfigureSteps.AddRemoteDependencies | buildSrc/bazelleaf/src/main/java/com/spotify/gradle/bazel/BazelLeafPlugin.java:148-153 | every jar's local path joins the libraries, then the Maven coordinates the configuration |
| ConfigureSteps.AddDependencies | buildSrc/bazelleaf/src/main/java/com/spotify/gradle/bazel/BazelLeafPlugin.java:141-153 | the module-dependency stream over the (filtered) local targets fills the module collection and the configuration with what its fold defines; the workspace jars then fill the library collection and the Maven coordinates the configuration, only when the first stream got to its end |
| ConfigureSteps.TargetDependencyListOf | buildSrc/bazelleaf/src/main/java/com/spotify/gradle/bazel/BazelLeafPlugin.java:141-153 | once both streams got to their end, the configuration gains one project per local target in order, each that target's Gradle path and a project of the build, then one Maven module per workspace jar in order, with that jar's coordinate |
| ConfigureSteps.ProjectsOfTargets | buildSrc/bazelleaf/src/main/java/com/spotify/gradle/bazel/BazelLeafPlugin.java:142-146 | a module-dependency stream that got to its end yields one project per local target, in order, at the target's Gradle path |
| ConfigureSteps.ModulesOfTargets | buildSrc/bazelleaf/src/main/java/com/spotify/gradle/bazel/BazelLeafPlugin.java:151-153 | a Maven stream that got to its end yields one module per workspace jar, in order, with the jar's coordinate |
| ConfigureSteps.ModulePathsOf | buildSrc/bazelleaf/src/main/java/com/spotify/gradle/bazel/BazelLeafPlugin.java:142-144 | a module-dependency stream that got to its end adds to the model exactly the Gradle paths of the local targets |
| ConfigureStreams.DefaultConfiguration.constructor | buildSrc/bazelleaf/src/main/java/com/spotify/gradle/bazel/BazelLeafPlugin.java:79-83 | the default configuration starts without dependencies and artifacts |
| ConfigureStreams.DefaultConfiguration.AddDependencies | buildSrc/bazelleaf/src/main/java/com/spotify/gradle/bazel/BazelLeafPlugin.java:146 | appends the dependencies in order and leaves the artifacts |
| ConfigureStreams.DefaultConfiguration.AddArtifacts | buildSrc/bazelleaf/src/main/java/com/spotify/gradle/bazel/BazelLeafPlugin.java:132 | appends the artifacts in order and leaves the dependencies |
| ConfigureStreams.ModuleDepsFoldSpec | buildSrc/bazelleaf/src/main/java/com/spotify/gradle/bazel/BazelLeafPlugin.java:142-146 | the stream converts a prefix of the targets and resolves a prefix of those to known projects; it succeeds exactly when all convert to known projects, and otherwise names the failure that stopped it |
| ConfigureStreams.ModuleDependencyStream | buildSrc/bazelleaf/src/main/java/com/spotify/gradle/bazel/BazelLeafPlugin.java:142-146 | the loop hands the model and the configuration what the fold defines |
| ConfigureStreams.AddModuleDependencies | buildSrc/bazelleaf/src/main/java/com/spotify/gradle/bazel/BazelLeafPlugin.java:142-146 | the fold's paths go into the model collection and its projects into the configuration; nothing else changes |
| ConfigureStreams.MavenDepsFoldSpec | buildSrc/bazelleaf/src/main/java/com/spotify/gradle/bazel/BazelLeafPlugin.java:151-153 | the coordinates of a prefix of the remote dependencies, all of them when each has one, else the first failure |
| ConfigureStreams.MavenDependencyStream | buildSrc/bazelleaf/src/main/java/com/spotify/gradle/bazel/BazelLeafPlugin.java:151-153 | the loop hands the configuration what the fold defines |
| ConfigureStreams.AddMavenDependencies | buildSrc/bazelleaf/src/main/java/com/spotify/gradle/bazel/BazelLeafPlugin.java:151-153 | the fold's coordinates are added to the configuration |
| ConfigureStreams.LibraryPaths | buildSrc/bazelleaf/src/main/java/com/spotify/gradle/bazel/BazelLeafPlugin.java:148-150 | exactly the local paths of the remote dependencies' jars |
| ConfigureStreams.TaskGraph.constructor | buildSrc/bazelleaf/src/main/java/com/spotify/gradle/bazel/BazelLeafPlugin.java:87-89 | the module starts with assemble and check, check depending on assemble, neither with outputs or inputs |
| ConfigureStreams.TaskGraph.Create | buildSrc/bazelleaf/src/main/java/com/spotify/gradle/bazel/BazelLeafPlugin.java:158 | a taken name fails and changes nothing; otherwise the task joins with no outputs or inputs |
| ConfigureStreams.TaskGraph.DependOn | buildSrc/bazelleaf/src/main/java/com/spotify/gradle/bazel/BazelLeafPlugin.java:129 | adds the dependency edge and nothing else |
| ConfigureStreams.TaskGraph.AddOutputFiles | buildSrc/bazelleaf/src/main/java/com/spotify/gradle/bazel/BazelLeafPlugin.java:135 | appends the files to the task's outputs and nothing else |
| ConfigureStreams.TaskGraph.AddInputDirs | buildSrc/bazelleaf/src/main/java/com/spotify/gradle/bazel/BazelLeafPlugin.java:139 | adds the folders to the task's inputs and nothing else |
| ConfigureStreams.ArtifactFiles | buildSrc/bazelleaf/src/main/java/com/spotify/gradle/bazel/BazelLeafPlugin.java:133 | the artifacts' files, in order |
| ConfigureStreams.PublishArtifacts | buildSrc/bazelleaf/src/main/java/com/spotify/gradle/bazel/BazelLeafPlugin.java:131-135 | every artifact is published, its file becomes a project output and an output of the build task |
| PluginConfigure.TargetTask | buildSrc/bazelleaf/src/main/java/com/spotify/gradle/bazel/BazelLeafPlugin.java:122-128 | the rule-kind aspect's first line (or the fallback) picks the strategy; when its task name is free the call succeeds and exactly that task joins the tasks, when taken it fails as a duplicate leaving the tasks as they were; the aspect's failure is the result |
| PluginConfigure.MainTask | buildSrc/bazelleaf/src/main/java/com/spotify/gradle/bazel/BazelLeafPlugin.java:122-129 | the main target's strategy (java_library by default) and its task, which assemble depends on; with the rule kind known and the name free it succeeds exactly when the module has an assemble task, a taken name fails as a duplicate |
| PluginConfigure.MainArtifacts | buildSrc/bazelleaf/src/main/java/com/spotify/gradle/bazel/BazelLeafPlugin.java:131-135 | the outputs aspect's report is published: each artifact joins the configuration's artifacts in order, its file the project outputs and the build task's outputs; a failed report, or an AAR task whose name is taken, changes none of them |
| PluginConfigure.TargetSources | buildSrc/bazelleaf/src/main/java/com/spotify/gradle/bazel/BazelLeafPlugin.java:137-139 | the folders the sources aspect reports join the given model collection and the task's input folders; a failure changes neither |
| PluginConfigure.TargetDependencies | buildSrc/bazelleaf/src/main/java/com/spotify/gradle/bazel/BazelLeafPlugin.java:141-153 | a failed getAllDeps changes nothing; otherwise the local targets' Gradle paths join the module collection and their projects the configuration, then, when that stream got to its end, the jars' paths join the library collection and their Maven modules the configuration |
| PluginConfigure.AddCleanTask | buildSrc/bazelleaf/src/main/java/com/spotify/gradle/bazel/BazelLeafPlugin.java:158-159 | the clean task is created for the build task's outputs; a taken name fails |
| PluginConfigure.MainDependencies | buildSrc/bazelleaf/src/main/java/com/spotify/gradle/bazel/BazelLeafPlugin.java:141-159 | on success the dependencies aspect's report went through both streams, its Gradle paths and jars grow the project and library dependencies, the configuration gains its dependency list, and the new clean task covers exactly the build task |
| PluginConfigure.MainInputs | buildSrc/bazelleaf/src/main/java/com/spotify/gradle/bazel/BazelLeafPlugin.java:137-159 | the main target's sources and dependencies: the reports are what the aspects give, the model grows by exactly them (TargetGrown) and the configuration gains the dependency list; clean covers the build task |
| PluginConfigure.MainOutputs | buildSrc/bazelleaf/src/main/java/com/spotify/gradle/bazel/BazelLeafPlugin.java:131-159 | the artifacts the outputs aspect reports, then the main target's sources and dependencies: the model grows by exactly these, the configuration gains the artifacts and the dependency list, and clean covers exactly the build task |
| PluginConfigure.TestTask | buildSrc/bazelleaf/src/main/java/com/spotify/gradle/bazel/BazelLeafPlugin.java:165-166 | the test target's strategy (java_test by default) and its task, which joins the tasks under a new name; with the rule kind known it succeeds exactly when that name is free, otherwise fails as a duplicate |
| PluginConfigure.TestInputs | buildSrc/bazelleaf/src/main/java/com/spotify/gradle/bazel/BazelLeafPlugin.java:168-186 | the test sources join the test task's inputs, the test task runs after the main one, and the test reports grow only the three test collections, the dependencies read without the main target; the artifacts stay and the dependencies gain the test target's list |
| PluginConfigure.RewriteIml | buildSrc/bazelleaf/src/main/java/com/spotify/gradle/bazel/BazelLeafPlugin.java:189-194 | a failure is a RuntimeException with that failure as its cause; a missing IML file changes nothing; the IML file found is rewritten from the model and every library file exists |
| PluginConfigure.ConfigureMain | buildSrc/bazelleaf/src/main/java/com/spotify/gradle/bazel/BazelLeafPlugin.java:122-159 | the main build task, which assemble depends on, and a clean task for exactly it; the strategy, the artifacts and the reports are what the aspects give (MainConfigured); the model grows by exactly them and the configuration gains the artifacts and the main dependency list |
| PluginConfigure.ConfigureTest | buildSrc/bazelleaf/src/main/java/com/spotify/gradle/bazel/BazelLeafPlugin.java:164-186 | the test build task, a new task that runs after the main one; its strategy and reports are what the aspects give (TestConfigured), and the model and configuration gain exactly what TestAdded says |
| PluginConfigure.ConfigureTestIfSet | buildSrc/bazelleaf/src/main/java/com/spotify/gradle/bazel/BazelLeafPlugin.java:164-187 | a test strategy exactly when a non-empty test target is set, and clean then also covers its task; without one the model and the configuration stay as they were |
| PluginConfigure.ConfigureTargets | buildSrc/bazelleaf/src/main/java/com/spotify/gradle/bazel/BazelLeafPlugin.java:117-187 | only the aspects folder is written; both targets' tasks are wired (TargetTasksWired), the reports are what the aspects give (TargetsReported), the new model equals ModelBuilt of them and the configuration gains TargetsAdded |
| PluginConfigure.ConfigureBoth | buildSrc/bazelleaf/src/main/java/com/spotify/gradle/bazel/BazelLeafPlugin.java:122-187 | into an empty model: the tasks are wired, the reports are what the aspects give, the model ends equal to ModelBuilt of the reports and the configuration gains the artifacts, then the main and the test dependency lists |
| PluginConfigure.ModelGrownBuilt | buildSrc/bazelleaf/src/main/java/com/spotify/gradle/bazel/BazelLeafPlugin.java:117-186 | the model grown step by step from an empty one is ModelBuilt: the main collections hold the main reports, the test collections the test reports (empty without a test target), the project outputs the artifact files, and nothing is excluded |
| PluginConfigure.ImlUntouched | buildSrc/bazelleaf/src/main/java/com/spotify/gradle/bazel/BazelLeafPlugin.java:119-191 | configuring the targets, which writes only in the aspects folder, changes neither which IML file a module with an absolute directory has nor what is in it |
| PluginConfigure.FinishConfiguration | buildSrc/bazelleaf/src/main/java/com/spotify/gradle/bazel/BazelLeafPlugin.java:189-196 | with only the aspects folder written since, the IML file that was there is rewritten from the model, and the root project then has its three tasks |
| PluginConfigure.ConfigureProject | buildSrc/bazelleaf/src/main/java/com/spotify/gradle/bazel/BazelLeafPlugin.java:117-196 | the targets are configured into the given empty model as ConfigureTargets says, the IML file is rewritten from that model, and the root project has its three tasks |
| PluginConfigure.ConfigurePlugin | buildSrc/bazelleaf/src/main/java/com/spotify/gradle/bazel/BazelLeafPlugin.java:106-197 | an unconfigured module fails before anything changes; a failed `bazel info` is the NullPointerException of the null properties (or the start's own exception); on success the build dir comes from bazel-bin, both targets' tasks are wired, the model is exactly ModelBuilt of the aspects' reports, the configuration gains the artifacts and the main then test dependency lists, the IML file is rewritten from the model, and the root project has its three tasks |

## Left out

- Process execution and stream reading are not run. `ProcessBuilder`, the loop reading a stream byte by byte and the console echo become a given `ProcessRun`: an exit code with the output and error lines, or the exception starting the process threw.
- File contents are values, not bytes. The `local.properties` file is a parsed value, and the FileSystem holds the lines of each Java source file, the parsed IML tree and, for an aspect rule file, the name of the classpath resource copied into it.
- The system properties `os.name` and `user.home` are parameters.
- The network download, `DownloadProgressLogger` and the `chmod` of the downloaded binary are not modelled. `download` is modelled up to its preconditions and the outcome of the transfer, which is given.
- Gradle's task and configuration machinery is modelled only through the descriptors, strings and append-only lists it receives. This covers `project.task`, `afterEvaluate`, `getInputs`/`getOutputs`, outgoing artifacts and lazy evaluation. Task actions run when the model's methods are called.
- AAR zipping, the `Jar`/`ZipFileTree` packaging, the file hashers and the `doFirst` rename are not modelled. Only the paths they are given are.
- XML parsing and printing (`XmlParser`, `XmlNodePrinter`, byte-level formatting) are not modelled. The IML file is a tree value, and a file that does not parse is the parser's exception. The unclosed writer of the legacy action is not modelled.
- Java's `HashSet` and `HashMap` iteration order is not modelled. The IDE model holds Dafny sets, and no contract states the order of children the action builds from a set.
- `java.io.File` normalisation is not modelled, nor the Java regex engine. Paths are '/'-separated strings, and each pattern is a predicate over the forms the code and its tests show.
- Only part of the `java.util.Properties` syntax is modelled. A property line is a key followed by `=` or `:`. Escapes and line continuations are not modelled.
- Strings.ToLower: lower-cases the ASCII letters one character at a time. `toLowerCase(Locale.US)` also maps non-ASCII letters; the OS names the model compares with are ASCII.
- AspectRunner.Create, DownloadTask.DownloadBazelTask.Download, TargetCleanTask.BazelTargetCleanTask.DeleteOutputs and HatchejImlAction.EnsureLibraryFiles: the failure messages use the path as given, not `getAbsolutePath()`, because paths are not resolved against a working directory.
- TargetCleanTask.BazelTargetCleanTask.DeleteOutputs: an output that is a directory counts as one that cannot be deleted, although `File.delete` removes an empty directory. The FileSystem does not record whether a directory is empty.
- Xml.FirstChild: the exception message ends after the requested path. The source appends " There are " and the `toString()` of the children, which is not modelled.
- ConfigureSteps.SelfFiltered: BazelLeafPlugin.java:175 compares a LocalBazelTarget with a String, so as written it drops nothing. The configure model uses the corrected filter (see Findings), so a test target's dependency on its own main target is not added.
- PluginConfigure.ConfigureTestIfSet: the test task joins the clean task's targets after the test inputs are read, not right after the task is created (BazelLeafPlugin.java:167). The two orders differ only in the clean task after a failure, and a failure ends the configuration.
- Console output through LoggerWithFlush is modelled only where the source's behaviour depends on it: the lines a failed `start` prints. Other log calls are not modelled, among them BazelInfoTask's logging of each `bazel info` output line (BazelInfoTask.java:32-36), and neither is `printStackTrace`.
- Timestamps (`getDate`, `lastModified`) of the artifact classes are not modelled.
- BazelLeafPlugin.NotConvertible: its message is left empty, because the source builds it from `toString()` of a LocalBazelTarget, which the class does not override.
- BazelTasks.BazelCompileTask.Compile: the failure message embeds `toString()` of the configuration object, which is given as the parameter `configText`.
- ConfigureStreams.UnknownProject: the message is Gradle's "Project with path … could not be found." without the name of the project searched from, because that part of Gradle is not part of this model.
- A `RuntimeException(e)` wrapping a cause takes the cause's message as its own, as Java does with `toString()` of the cause. The model keeps the cause's message and not its class-name prefix.
- The source files disagree with each other in places. Each file is modelled as written, except for the self filter listed above:
  - AspectRunner calls a static four-argument `BazelExecHelper.createBazelRun(config, target, command, args…)` and `getErrorOutput()`, which the BazelExecHelper shown does not declare. The model routes the call through the `createBazelRun` overload with console output off and reads the run's error lines.
  - The older `Strategy` class calls `getAspectResult` with the rule file name only. The model passes the configured target name, as the two-argument method that exists requires.
  - JavaLibraryStrategy and AndroidLibraryStrategy override `generateBazelBuildTaskName`, while StrategyBase declares `generateBazelExecTaskName`. The model takes the subclasses' names as the task names.
  - BazelInfoTask overrides an `onSuccessfulRun` that BazelExecTaskBase does not define. The override only logs, as listed above.
  - `apply` calls `injectDownloadTask` with the binary path string, while the method is declared to take the resolved configuration and to read its `bazelBin`. The model passes the binary path, which is the value `bazelBin` is resolved from.
  - BazelCompileTask calls a static three-argument `BazelExecHelper.createBazelRun(config, target, "build")`. BazelExecHelper declares no such method, only the instance overloads at BazelExecHelper.java:85 and :101. BazelTasks.CompileExec routes the call through the configuration overload.
  - HatchejModel declares five sets, while HatchejImlAction also reads test dependencies, library tests and outputs. The model's HatchejModel holds all eight.
- The standalone hatchej plugin's own HatchejModel and HatchejPlugin are not part of this model. The model is a subset of the bazelleaf one, and the plugin is only Gradle wiring.
- The groovy copies of BazelLeafPlugin and BazelLeafConfig are not part of this model. Their logic is superseded by, or duplicates, the Java classes that are modelled.
- The interfaces `strategies/Strategy` and `BazelConfigTask` have no logic. BazelAspectServiceFactory is a constructor call.
- BazelAspectService.Classify: a `//third_party:` annotation without the bracketed file list falls through to the local-target pattern and is classified as a local target. That is what the two patterns do, and the model follows them. ClassifiedLocal states that a line the external pattern matches is never classified as local; ThirdPartyWithoutListIsLocal states that a `//third_party:` line without the list is local.
- BazelAspectService.GetSourceFolders: a folder whose first Java file declares no package is a NullPointerException. That is what `computeIfAbsent` followed by `length()` does; there is no fallback to the parent folder.

## Findings

| source | as written | input that shows it | evidently intended | confidence | as-written member | corrected member |
|---|---|---|---|---|---|---|
| buildSrc/bazelleaf/src/main/java/com/spotify/gradle/bazel/BazelLeafPlugin.java:175 | the test target's module dependencies are filtered with `bazelDep.equals(config.targetPath + ':' + config.targetName)`, comparing a LocalBazelTarget with a String, so the filter never drops anything | a module `:lib` whose test target depends on its own main target `//lib:lib`: the test dependency `:lib` is added to the module itself | the module's own main target is dropped from its test dependencies ("no need to depend on self for tests") | not executed | ConfigureSteps.AsWrittenKeepsSelf | ConfigureSteps.CorrectedSelfFilter |
