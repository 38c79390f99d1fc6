/** `BazelLeafPlugin.configurePlugin`, run once the module's build script is
  * evaluated: it folds what the aspects report about the main target (and
  * the test target, when there is one) into the module's tasks, its default
  * configuration and the IDE model, rewrites the module's IML file and adds
  * the workspace-wide tasks to the root project. Any exception on the way
  * ends it. */
module PluginConfigure {
  import opened Common
  import opened Strings
  import opened Paths
  import opened Files
  import opened LeafConfig
  import opened BazelExecHelper
  import opened AspectRunner
  import opened BazelAspectService
  import opened HatchejModel
  import opened Strategies
  import opened TargetCleanTask
  import opened HatchejImlAction
  import opened BazelLeafPlugin
  import opened ConfigureStreams
  import opened ConfigureSteps
  import RootProject
  import Artifacts

  /** What Bazel does for each aspect run on one target. */
  datatype TargetRuns = TargetRuns(ruleKind: ProcessRun, ruleOuts: ProcessRun, sources: ProcessRun, deps: ProcessRun)

  /** What Bazel does for `bazel info` and for the runs on the two targets. */
  datatype BazelRuns = BazelRuns(info: ProcessRun, main: TargetRuns, test: TargetRuns)

  /** A test target is set and not empty. */
  predicate HasTest(config: Decorated) {
    config.testTargetName.Some? && config.testTargetName.value != ""
  }

  const CleanTaskName := "clean"

  /** Whether the rule file of `aspect` can be written into the runner's
    * folder: it is not read-only and no folder is in its way. */
  predicate Writable(readOnly: set<string>, dirs: set<string>, runner: Runner, aspect: string) {
    var ruleFile := Child(runner.aspectsFolder, aspect);
    ruleFile !in readOnly && ruleFile !in dirs
  }

  /** The first line the rule-kind aspect prints for `target`, as
    * `getAspectResult` and `findFirst` give it. */
  function RuleKindOf(writable: bool, runner: Runner, target: string, run: ProcessRun, fallback: string): Result<string> {
    var kinds := AspectResult(writable, runner, RuleKindAspect, target, run);
    if kinds.Err? then Err(kinds.error) else Ok(FirstOr(kinds.value, fallback))
  }

  /** `s` is the strategy the rule-kind aspect picks for `target`. */
  predicate Picked(readOnly: set<string>, dirs: set<string>, runner: Runner, target: string, run: ProcessRun,
                   fallback: string, s: Strategy) {
    var kind := RuleKindOf(Writable(readOnly, dirs, runner, RuleKindAspect), runner, target, run, fallback);
    kind.Ok? && s == BuildStrategy(kind.value, runner.config)
  }

  /** The runner that `AspectRunner`'s constructor makes for `config`. */
  function AspectsRunner(config: Decorated): Runner {
    Runner(config, AspectsFolder(config.targetPath))
  }

  /** The folders once that runner exists: its folder is made when missing. */
  function DirsWithAspects(files: map<string, Content>, dirs: set<string>, config: Decorated): set<string> {
    var folder := AspectsFolder(config.targetPath);
    if folder in files || folder in dirs then dirs else dirs + {folder}
  }

  /** Every file outside `folder` is as it was: none appears, none goes and
    * none changes. */
  ghost predicate WrittenOnlyUnder(before: map<string, Content>, after: map<string, Content>, folder: string) {
    forall p :: !StartsWith(p, folder) ==> (p in after <==> p in before) && (p in before ==> after[p] == before[p])
  }

  /** Writing one file in `folder` changes nothing outside it. */
  lemma ChildWritten(before: map<string, Content>, after: map<string, Content>, folder: string, name: string, c: Content,
                     wrote: bool)
    requires after == (if wrote then before[Child(folder, name) := c] else before)
    ensures WrittenOnlyUnder(before, after, folder)
  {
    assert StartsWith(Child(folder, name), folder) by {
      if EndsWith(folder, "/") {
        assert (folder + name)[..|folder|] == folder;
      } else {
        assert (folder + "/" + name)[..|folder|] == folder;
      }
    }
  }

  /** An aspect run writes only its rule file, which is in the runner's folder. */
  lemma RuleFileWritten(before: map<string, Content>, after: map<string, Content>, runner: Runner, aspect: string, wrote: bool)
    requires after == (if wrote then before[Child(runner.aspectsFolder, aspect) := Resource("aspects/" + aspect)] else before)
    ensures WrittenOnlyUnder(before, after, runner.aspectsFolder)
  {
    ChildWritten(before, after, runner.aspectsFolder, aspect, Resource("aspects/" + aspect), wrote);
  }

  lemma WrittenChain(a: map<string, Content>, b: map<string, Content>, c: map<string, Content>, folder: string)
    requires WrittenOnlyUnder(a, b, folder) && WrittenOnlyUnder(b, c, folder)
    ensures WrittenOnlyUnder(a, c, folder)
  {
  }

  /** What the aspects report about one target: its source folders, found
    * among the files as they were at that run (`seen`), and its dependency
    * annotations. */
  datatype Report = Report(sources: set<string>, seen: map<string, Content>, deps: seq<Annotation>)

  /** `rep` is what the source and dependency aspects report about `target`,
    * and both dependency streams got to their end. */
  ghost predicate Reported(readOnly: set<string>, dirs: set<string>, service: Service, target: string,
                           self: Option<Decorated>, known: set<string>, runs: TargetRuns, rep: Report) {
    && SourcesReport(Writable(readOnly, dirs, service.runner, SourcesAspect), service, target, runs.sources, rep.seen, dirs)
       == Ok(rep.sources)
    && DepsReport(Writable(readOnly, dirs, service.runner, DepsAspect), service.runner, target, runs.deps) == Ok(rep.deps)
    && StreamsComplete(rep.deps, self, known)
  }

  /** The main target was configured as the aspects report it: `s` is its
    * strategy, `published` what the strategy publishes and `rep` the rest. */
  ghost predicate MainConfigured(readOnly: set<string>, dirs: set<string>, files: map<string, Content>, service: Service,
                                 known: set<string>, runs: TargetRuns, s: Strategy, published: Published, rep: Report) {
    var runner := service.runner;
    && Picked(readOnly, dirs, runner, runner.config.targetName, runs.ruleKind, "java_library", s)
    && ArtifactsReport(Writable(readOnly, dirs, runner, RuleOutsAspect), s, runner, runs.ruleOuts) == Ok(published)
    && Reported(readOnly, dirs, service, runner.config.targetName, None, known, runs, rep)
    && WrittenOnlyUnder(files, rep.seen, runner.aspectsFolder)
  }

  /** The test target was configured as the aspects report it. */
  ghost predicate TestConfigured(readOnly: set<string>, dirs: set<string>, files: map<string, Content>, service: Service,
                                 known: set<string>, runs: TargetRuns, s: Strategy, rep: Report)
    requires HasTest(service.runner.config)
  {
    var runner := service.runner;
    var target := runner.config.testTargetName.value;
    && Picked(readOnly, dirs, runner, target, runs.ruleKind, "java_test", s)
    && Reported(readOnly, dirs, service, target, Some(runner.config), known, runs, rep)
    && WrittenOnlyUnder(files, rep.seen, runner.aspectsFolder)
  }

  /** The Gradle paths of the local targets among `deps`, as the
    * module-dependency stream adds them to the IDE model. */
  function ModulePaths(deps: seq<Annotation>, self: Option<Decorated>, known: set<string>): set<string> {
    SetOf(ModuleStream(deps, self, known).paths)
  }

  /** The IDE model `s` after a target's reports: its source folders join
    * collection `sources`, the Gradle paths of its local targets
    * `modules` and its workspace jars `libraries`. */
  function TargetGrown(s: Snapshot, sources: Collection, modules: Collection, libraries: Collection, rep: Report,
                       self: Option<Decorated>, info: map<string, string>, known: set<string>): Snapshot {
    s.Grown(sources, rep.sources).Grown(modules, ModulePaths(rep.deps, self, known))
     .Grown(libraries, LibraryPaths(info, Remotes(rep.deps)))
  }

  /** What the test target, when there is one, adds to the configuration's
    * dependencies. */
  function TestDependencyList(config: Decorated, known: set<string>, rep: Option<Report>): seq<Dependency> {
    if rep.None? then [] else TargetDependencyList(rep.value.deps, Some(config), known)
  }

  /** Both targets' Bazel tasks are wired into the module: each runs its
    * target's strategy, `assemble` depends on the main task and the test
    * task on the main task, and the clean task, whose targets are
    * `cleaned`, covers both. A test strategy is picked exactly when a test
    * target is set. */
  ghost predicate TargetTasksWired(tasks: map<string, ModuleTask>, dependsOn: set<(string, string)>, cleaned: set<string>,
                                   config: Decorated, main: Option<Strategy>, test: Option<Strategy>) {
    && main.Some? && main.value.config == config
    && var m := TaskName(main.value);
    && m in tasks && tasks[m] == Exec(CreateBazelExecTask(main.value))
    && ("assemble", m) in dependsOn
    && cleaned == {m} + (if test.Some? then {TaskName(test.value)} else {})
    && (test.Some? <==> HasTest(config))
    && (test.Some? ==> TestTaskWired(tasks, dependsOn, test.value, config, m))
  }

  /** The test strategy `s` belongs to the module's configuration, and its
    * Bazel task, which is not the main task `main`, runs it after `main`. */
  ghost predicate TestTaskWired(tasks: map<string, ModuleTask>, dependsOn: set<(string, string)>, s: Strategy,
                                config: Decorated, main: string) {
    && s.config == config && TaskName(s) != main
    && TaskName(s) in tasks && tasks[TaskName(s)] == Exec(CreateBazelExecTask(s))
    && (TaskName(s), main) in dependsOn
  }

  /** What the test target's reports add: the IDE model `s0` grows into `s`
    * by its source folders, local dependencies (read without the main
    * target of `config`) and workspace jars; the configuration's artifacts
    * stay, and its dependencies gain the test target's. */
  ghost predicate TestAdded(s0: Snapshot, s: Snapshot, artifacts0: seq<Artifacts.PublishArtifact>,
                            artifacts: seq<Artifacts.PublishArtifact>, deps0: seq<Dependency>, deps: seq<Dependency>,
                            config: Decorated, info: map<string, string>, known: set<string>, rep: Report) {
    && s == TargetGrown(s0, TestSourceFolders, ProjectTestDependencies, LibraryTestDependencies, rep, Some(config), info, known)
    && artifacts == artifacts0
    && deps == deps0 + TargetDependencyList(rep.deps, Some(config), known)
  }

  /** The main target was configured from its aspects' reports, and so was
    * the test target when its strategy was picked. */
  ghost predicate TargetsReported(readOnly: set<string>, dirs: set<string>, files: map<string, Content>, service: Service,
                                  known: set<string>, runs: BazelRuns, main: Option<Strategy>, test: Option<Strategy>,
                                  published: Published, mainRep: Report, testRep: Option<Report>) {
    && main.Some?
    && MainConfigured(readOnly, dirs, files, service, known, runs.main, main.value, published, mainRep)
    && (testRep.Some? <==> test.Some?)
    && (test.Some? ==>
          HasTest(service.runner.config)
          && TestConfigured(readOnly, dirs, files, service, known, runs.test, test.value, testRep.value))
  }

  /** The default configuration gained the main target's artifacts, then
    * the main target's dependencies followed by the test target's. */
  ghost predicate TargetsAdded(artifacts0: seq<Artifacts.PublishArtifact>, deps0: seq<Dependency>, artifacts: seq<Artifacts.PublishArtifact>,
                               deps: seq<Dependency>, config: Decorated, known: set<string>, published: Published,
                               mainRep: Report, testRep: Option<Report>) {
    && artifacts == artifacts0 + published.artifacts
    && deps == deps0 + TargetDependencyList(mainRep.deps, None, known) + TestDependencyList(config, known, testRep)
  }

  /** The IDE model that `configurePlugin` builds, collection by
    * collection: nothing excluded; the main target's source folders, local
    * dependencies, workspace jars and artifact files; the test target's
    * source folders, local dependencies (read without the main target)
    * and workspace jars, all empty without a test target. */
  function ModelBuilt(config: Decorated, info: map<string, string>, known: set<string>, published: Published,
                      main: Report, test: Option<Report>): Snapshot {
    Snapshot(
      excludeFolders := {},
      sourceFolders := main.sources,
      testSourceFolders := if test.Some? then test.value.sources else {},
      projectDependencies := ModulePaths(main.deps, None, known),
      projectTestDependencies := if test.Some? then ModulePaths(test.value.deps, Some(config), known) else {},
      libraryDependencies := LibraryPaths(info, Remotes(main.deps)),
      libraryTestDependencies := if test.Some? then LibraryPaths(info, Remotes(test.value.deps)) else {},
      projectOutputs := SetOf(ArtifactFiles(published.artifacts)))
  }

  /** The IDE model as the configuration steps grow it from an empty one:
    * the main target's artifact files, then its reports, then the test
    * target's reports when there is one. */
  function ModelGrown(config: Decorated, info: map<string, string>, known: set<string>, published: Published,
                      main: Report, test: Option<Report>): Snapshot {
    var m := TargetGrown(EmptySnapshot.Grown(ProjectOutputs, SetOf(ArtifactFiles(published.artifacts))),
                         SourceFolders, ProjectDependencies, LibraryDependencies, main, None, info, known);
    if test.Some? then TargetGrown(m, TestSourceFolders, ProjectTestDependencies, LibraryTestDependencies,
                                   test.value, Some(config), info, known)
    else m
  }

  /** Growing an empty model by the main target's collections fills exactly those. */
  lemma MainGrownFromEmpty(outputs: set<string>, sources: set<string>, modules: set<string>, libraries: set<string>)
    ensures EmptySnapshot.Grown(ProjectOutputs, outputs).Grown(SourceFolders, sources).Grown(ProjectDependencies, modules)
            .Grown(LibraryDependencies, libraries)
            == Snapshot({}, sources, {}, modules, {}, libraries, {}, outputs)
  {
    assert {} + outputs == outputs && {} + sources == sources;
    assert {} + modules == modules && {} + libraries == libraries;
  }

  /** Growing the test collections of a model where they are empty sets them. */
  lemma TestGrownFromEmpty(s: Snapshot, sources: set<string>, modules: set<string>, libraries: set<string>)
    requires s.testSourceFolders == s.projectTestDependencies == s.libraryTestDependencies == {}
    ensures s.Grown(TestSourceFolders, sources).Grown(ProjectTestDependencies, modules).Grown(LibraryTestDependencies, libraries)
            == s.(testSourceFolders := sources, projectTestDependencies := modules, libraryTestDependencies := libraries)
  {
    assert {} + sources == sources && {} + modules == modules && {} + libraries == libraries;
  }

  /** The steps of `configurePlugin` build exactly the model its reports describe. */
  lemma {:induction false} ModelGrownBuilt(config: Decorated, info: map<string, string>, known: set<string>,
                                           published: Published, main: Report, test: Option<Report>)
    ensures ModelGrown(config, info, known, published, main, test) == ModelBuilt(config, info, known, published, main, test)
  {
    MainGrownFromEmpty(SetOf(ArtifactFiles(published.artifacts)), main.sources, ModulePaths(main.deps, None, known),
                       LibraryPaths(info, Remotes(main.deps)));
    if test.Some? {
      var m := TargetGrown(EmptySnapshot.Grown(ProjectOutputs, SetOf(ArtifactFiles(published.artifacts))),
                           SourceFolders, ProjectDependencies, LibraryDependencies, main, None, info, known);
      TestGrownFromEmpty(m, test.value.sources, ModulePaths(test.value.deps, Some(config), known),
                         LibraryPaths(info, Remotes(test.value.deps)));
    }
  }

  /** An absolute path is outside the aspects folder, which is relative. */
  lemma AbsoluteOutsideAspects(p: string, config: Decorated)
    requires StartsWith(p, "/")
    ensures !StartsWith(p, AspectsFolder(config.targetPath)) && p != AspectsFolder(config.targetPath)
  {
    assert AspectsFolder(config.targetPath)[0] == 'b';
    assert p[0] == '/';
  }

  lemma ChildOfAbsolute(parent: string, child: string)
    requires StartsWith(parent, "/")
    ensures StartsWith(Child(parent, child), "/")
  {
    assert Child(parent, child)[0] == parent[0];
  }

  /** Configuring the targets leaves alone the IML file of a module whose
    * directory is absolute: which file it is, and what is in it. */
  lemma ImlUntouched(files0: map<string, Content>, dirs0: set<string>, files1: map<string, Content>, dirs1: set<string>,
                     project: Project, config: Decorated)
    requires StartsWith(project.projectDir, "/")
    requires WrittenOnlyUnder(files0, files1, AspectsFolder(config.targetPath))
    requires dirs1 == DirsWithAspects(files0, dirs0, config)
    ensures FindIml(files1, dirs1, project) == FindIml(files0, dirs0, project)
    ensures var found := FindIml(files0, dirs0, project);
      found.Ok? && found.value.Some? ==>
        (found.value.value in files1 <==> found.value.value in files0) &&
        (found.value.value in files0 ==> files1[found.value.value] == files0[found.value.value])
  {
    var nameFile := ImlNameFile(project);
    ChildOfAbsolute(project.projectDir, project.name + ".iml");
    AbsoluteOutsideAspects(nameFile, config);
    if project.path != "" {
      var pathFile := ImlPathFile(project).value;
      ChildOfAbsolute(project.projectDir, ReplaceChar(project.path[1..], ':', '.') + ".iml");
      AbsoluteOutsideAspects(pathFile, config);
    }
  }

  // ---------------------------------------------------------------------------
  // The phases of `configurePlugin`, one statement block of the source each


  /** The strategy of `target` and its Bazel task: the rule-kind aspect's
    * first line (or `fallback`) picks the strategy, whose task joins the
    * module's tasks. */
  method TargetTask(fs: FileSystem, ghost dirs: set<string>, graph: TaskGraph, runner: Runner, target: string,
                    fallback: string, run: ProcessRun) returns (r: Result<Strategy>)
    requires fs.dirs == dirs && graph.Valid()
    modifies fs, graph
    ensures graph.Valid() && graph.dependsOn == old(graph.dependsOn) && TasksKept(old(graph.tasks), graph.tasks)
    ensures fs.dirs == dirs && WrittenOnlyUnder(old(fs.files), fs.files, runner.aspectsFolder)
    ensures var kind := RuleKindOf(Writable(fs.readOnly, dirs, runner, RuleKindAspect), runner, target, run, fallback);
      && (kind.Err? ==> r == Err(kind.error))
      && (r.Ok? ==> kind.Ok? && r.value == BuildStrategy(kind.value, runner.config))
      && (kind.Ok? ==> var s := BuildStrategy(kind.value, runner.config);
            && (TaskName(s) !in old(graph.tasks) ==> r == Ok(s))
            && (TaskName(s) in old(graph.tasks) ==> r == Err(DuplicateTask(TaskName(s)))))
    ensures r.Ok? ==>
      && r.value.config == runner.config && TaskName(r.value) !in old(graph.tasks)
      && graph.tasks == old(graph.tasks)[TaskName(r.value) := Exec(CreateBazelExecTask(r.value))]
    ensures r.Err? ==> graph.tasks == old(graph.tasks)
  {
    ghost var files0 := fs.files;
    var kinds := GetAspectResult(fs, runner, RuleKindAspect, target, run);
    RuleFileWritten(files0, fs.files, runner, RuleKindAspect, Writable(fs.readOnly, dirs, runner, RuleKindAspect));
    if kinds.Err? {
      return Err(kinds.error);
    }
    r := CreateStrategyTask(graph, kinds.value, fallback, runner.config);
  }

  /** The main target's artifacts, published as the strategy lists them: each
    * joins the configuration's artifacts, its file the project outputs and
    * the outputs of the build task. The outputs aspect's failure, or an AAR
    * task of a name already taken, ends it with nothing changed but the rule
    * file. */
  method MainArtifacts(fs: FileSystem, ghost dirs: set<string>, graph: TaskGraph, conf: DefaultConfiguration,
                       model: HatchejModel, runner: Runner, s: Strategy, run: ProcessRun) returns (r: Result<()>)
    requires fs.dirs == dirs && graph.Valid() && TaskName(s) in graph.tasks
    modifies fs, graph, conf, model
    ensures graph.Valid() && TasksKept(old(graph.tasks), graph.tasks) && old(graph.dependsOn) <= graph.dependsOn
    ensures fs.dirs == dirs && WrittenOnlyUnder(old(fs.files), fs.files, runner.aspectsFolder)
    ensures var report := ArtifactsReport(Writable(fs.readOnly, dirs, runner, RuleOutsAspect), s, runner, run);
      && (report.Err? ==> r == Err(report.error) && unchanged(graph, conf, model))
      && (report.Ok? && report.value.aar.Some? && report.value.aar.value.name in old(graph.tasks) ==>
            r == Err(DuplicateTask(report.value.aar.value.name)) && unchanged(graph, conf, model))
      && (report.Ok? && !(report.value.aar.Some? && report.value.aar.value.name in old(graph.tasks)) ==>
            var p := report.value;
            && r.Ok?
            && conf.artifacts == old(conf.artifacts) + p.artifacts && conf.dependencies == old(conf.dependencies)
            && model.Contents() == old(model.Contents()).Grown(ProjectOutputs, SetOf(ArtifactFiles(p.artifacts)))
            && graph.outputs[TaskName(s)] == old(graph.outputs)[TaskName(s)] + ArtifactFiles(p.artifacts))
  {
    ghost var files0 := fs.files;
    var published := GetBazelArtifacts(fs, s, runner, run);
    RuleFileWritten(files0, fs.files, runner, RuleOutsAspect,
                    s.kind != JavaTest && Writable(fs.readOnly, dirs, runner, RuleOutsAspect));
    if published.Err? {
      return Err(published.error);
    }
    r := PublishMain(graph, conf, model, TaskName(s), published.value);
  }

  /** The source folders of `target`: into collection `c` of the IDE model
    * and the input folders of `task`. A failure changes neither. */
  method TargetSources(fs: FileSystem, ghost dirs: set<string>, graph: TaskGraph, model: HatchejModel, service: Service,
                       target: string, task: string, c: Collection, run: ProcessRun) returns (r: Result<set<string>>)
    requires fs.dirs == dirs && graph.Valid() && task in graph.tasks
    modifies fs, graph, model
    ensures graph.Valid() && graph.tasks == old(graph.tasks) && graph.dependsOn == old(graph.dependsOn)
    ensures fs.dirs == dirs && WrittenOnlyUnder(old(fs.files), fs.files, service.runner.aspectsFolder)
    ensures r == SourcesReport(Writable(fs.readOnly, dirs, service.runner, SourcesAspect), service, target, run,
                               fs.files, dirs)
    ensures r.Err? ==> unchanged(graph, model)
    ensures r.Ok? ==>
      && model.Contents() == old(model.Contents()).Grown(c, r.value)
      && graph.inputDirs == old(graph.inputDirs)[task := old(graph.inputDirs)[task] + r.value]
  {
    ghost var files0 := fs.files;
    r := GetSourceFolders(fs, service, target, run);
    RuleFileWritten(files0, fs.files, service.runner, SourcesAspect,
                    Writable(fs.readOnly, dirs, service.runner, SourcesAspect));
    if r.Err? {
      return;
    }
    model.AddAll(c, r.value);
    graph.AddInputDirs(task, r.value);
  }

  /** The dependencies of `target`, as `getAllDeps` reports them: its
    * failure ends it with nothing changed; otherwise the streams run as
    * `AddDependencies` says, the local targets into `modules` and the
    * workspace jars into `libraries`. */
  method TargetDependencies(fs: FileSystem, ghost dirs: set<string>, conf: DefaultConfiguration, model: HatchejModel,
                            service: Service, info: map<string, string>, target: string, self: Option<Decorated>,
                            modules: Collection, libraries: Collection, known: set<string>, run: ProcessRun)
    returns (r: Result<()>)
    requires fs.dirs == dirs && modules != libraries
    modifies fs, conf, model
    ensures fs.dirs == dirs && WrittenOnlyUnder(old(fs.files), fs.files, service.runner.aspectsFolder)
    ensures conf.artifacts == old(conf.artifacts)
    ensures var report := DepsReport(Writable(fs.readOnly, dirs, service.runner, DepsAspect), service.runner, target, run);
      && (report.Err? ==> r == Err(report.error) && unchanged(conf, model))
      && (report.Ok? ==>
            var f, m := ModuleStream(report.value, self, known), MavenDepsFold(Remotes(report.value));
            && r == (if f.outcome.Err? then f.outcome else m.outcome)
            && model.Contents() == old(model.Contents()).Grown(modules, SetOf(f.paths))
                                     .Grown(libraries, if f.outcome.Ok? then LibraryPaths(info, Remotes(report.value)) else {})
            && conf.dependencies == old(conf.dependencies) + GradleProjects(f.projects)
                                    + (if f.outcome.Ok? then ExternalModules(m.coordinates) else []))
  {
    ghost var files0 := fs.files;
    ghost var report := DepsReport(Writable(fs.readOnly, dirs, service.runner, DepsAspect), service.runner, target, run);
    var deps := GetAllDeps(fs, service, target, run);
    RuleFileWritten(files0, fs.files, service.runner, DepsAspect,
                    Writable(fs.readOnly, dirs, service.runner, DepsAspect));
    if deps.Err? {
      return Err(deps.error);
    }
    assert report == Ok(deps.value.added);
    assert deps.value.moduleDeps == Locals(report.value) && deps.value.remoteWorkspaceDeps == Remotes(report.value);
    r := AddDependencies(conf, model, deps.value.moduleDeps, deps.value.remoteWorkspaceDeps, info, self,
                         modules, libraries, known);
  }

  /** The module's `clean` task, created to delete the outputs of `task`;
    * a module that already has a task of that name fails. */
  method AddCleanTask(graph: TaskGraph, task: string) returns (r: Result<()>, clean: BazelTargetCleanTask)
    requires graph.Valid()
    modifies graph
    ensures fresh(clean) && graph.Valid() && graph.dependsOn == old(graph.dependsOn) && TasksKept(old(graph.tasks), graph.tasks)
    ensures CleanTaskName in old(graph.tasks) ==> r == Err(DuplicateTask(CleanTaskName))
    ensures CleanTaskName !in old(graph.tasks) ==>
      && r.Ok? && graph.tasks == old(graph.tasks)[CleanTaskName := Cleaner(clean)] && clean.targetTasks == {task}
  {
    clean := new BazelTargetCleanTask();
    r := graph.Create(CleanTaskName, Cleaner(clean));
    if r.Err? {
      return;
    }
    clean.AddTargetTask(task);
  }

  /** The main target's strategy and build task, which `assemble` depends on
    * (a module without `assemble` fails on the null that `findByName`
    * gives). */
  method MainTask(fs: FileSystem, ghost dirs: set<string>, graph: TaskGraph, runner: Runner, run: ProcessRun)
    returns (r: Result<Strategy>)
    requires fs.dirs == dirs && graph.Valid()
    modifies fs, graph
    ensures graph.Valid() && TasksKept(old(graph.tasks), graph.tasks) && old(graph.dependsOn) <= graph.dependsOn
    ensures fs.dirs == dirs && WrittenOnlyUnder(old(fs.files), fs.files, runner.aspectsFolder)
    ensures var kind := RuleKindOf(Writable(fs.readOnly, dirs, runner, RuleKindAspect), runner,
                                   runner.config.targetName, run, "java_library");
      && (kind.Err? ==> r == Err(kind.error))
      && (r.Ok? ==> kind.Ok? && r.value == BuildStrategy(kind.value, runner.config))
      && (kind.Ok? ==> var s := BuildStrategy(kind.value, runner.config);
            && (TaskName(s) !in old(graph.tasks) ==>
                  (r == Ok(s) <==> "assemble" in old(graph.tasks)))
            && (TaskName(s) in old(graph.tasks) ==> r == Err(DuplicateTask(TaskName(s)))))
    ensures r.Ok? ==>
      var task := TaskName(r.value);
      && r.value.config == runner.config && task !in old(graph.tasks)
      && task in graph.tasks && graph.tasks[task] == Exec(CreateBazelExecTask(r.value))
      && ("assemble", task) in graph.dependsOn
  {
    r := TargetTask(fs, dirs, graph, runner, runner.config.targetName, "java_library", run);
    if r.Err? {
      return;
    }
    if "assemble" !in graph.tasks {
      assert TaskName(r.value)[0] != 'a';
      return Err(Throw(NullPointer, ""));
    }
    graph.DependOn("assemble", TaskName(r.value));
  }

  /** The main target's dependencies into the project and library
    * dependencies, then the module's `clean` task, which deletes the outputs
    * of the main build task `task`. */
  method MainDependencies(fs: FileSystem, ghost dirs: set<string>, graph: TaskGraph, conf: DefaultConfiguration,
                          model: HatchejModel, service: Service, task: string, info: map<string, string>,
                          known: set<string>, run: ProcessRun) returns (r: Result<()>, clean: BazelTargetCleanTask?)
    requires fs.dirs == dirs && graph.Valid()
    modifies fs, graph, conf, model
    ensures graph.Valid() && TasksKept(old(graph.tasks), graph.tasks) && graph.dependsOn == old(graph.dependsOn)
    ensures fs.dirs == dirs && WrittenOnlyUnder(old(fs.files), fs.files, service.runner.aspectsFolder)
    ensures r.Ok? ==>
      var report := DepsReport(Writable(fs.readOnly, dirs, service.runner, DepsAspect), service.runner,
                               service.runner.config.targetName, run);
      && report.Ok? && StreamsComplete(report.value, None, known)
      && model.Contents() == old(model.Contents()).Grown(ProjectDependencies, ModulePaths(report.value, None, known))
                                                  .Grown(LibraryDependencies, LibraryPaths(info, Remotes(report.value)))
      && conf.artifacts == old(conf.artifacts)
      && conf.dependencies == old(conf.dependencies) + TargetDependencyList(report.value, None, known)
      && clean != null && fresh(clean) && clean.targetTasks == {task}
      && CleanTaskName in graph.tasks && graph.tasks[CleanTaskName] == Cleaner(clean)
  {
    ghost var deps0 := conf.dependencies;
    var target := service.runner.config.targetName;
    ghost var report := DepsReport(Writable(fs.readOnly, dirs, service.runner, DepsAspect), service.runner, target, run);
    r := TargetDependencies(fs, dirs, conf, model, service, info, target, None,
                            ProjectDependencies, LibraryDependencies, known, run);
    if r.Err? {
      return r, null;
    }
    AppendAssoc(deps0, GradleProjects(ModuleStream(report.value, None, known).projects),
                ExternalModules(MavenDepsFold(Remotes(report.value)).coordinates));
    var cleaner;
    r, cleaner := AddCleanTask(graph, task);
    clean := cleaner;
  }

  /** What the main build task reads: the main target's source folders and
    * its dependencies, then the `clean` task for its outputs. Only the
    * source folders, the project dependencies and the library dependencies
    * change, by what the aspects report. */
  method MainInputs(fs: FileSystem, ghost dirs: set<string>, graph: TaskGraph, conf: DefaultConfiguration,
                    model: HatchejModel, service: Service, task: string, info: map<string, string>, known: set<string>,
                    runs: TargetRuns) returns (r: Result<()>, clean: BazelTargetCleanTask?, ghost rep: Report)
    requires fs.dirs == dirs && graph.Valid() && task in graph.tasks
    modifies fs, graph, conf, model
    ensures graph.Valid() && TasksKept(old(graph.tasks), graph.tasks) && graph.dependsOn == old(graph.dependsOn)
    ensures fs.dirs == dirs && WrittenOnlyUnder(old(fs.files), fs.files, service.runner.aspectsFolder)
    ensures r.Ok? ==>
      && clean != null && fresh(clean) && clean.targetTasks == {task}
      && CleanTaskName in graph.tasks && graph.tasks[CleanTaskName] == Cleaner(clean)
    ensures r.Ok? ==>
      && Reported(fs.readOnly, dirs, service, service.runner.config.targetName, None, known, runs, rep)
      && WrittenOnlyUnder(old(fs.files), rep.seen, service.runner.aspectsFolder)
      && model.Contents() == TargetGrown(old(model.Contents()), SourceFolders, ProjectDependencies, LibraryDependencies,
                                         rep, None, info, known)
      && conf.artifacts == old(conf.artifacts)
      && conf.dependencies == old(conf.dependencies) + TargetDependencyList(rep.deps, None, known)
  {
    ghost var files0 := fs.files;
    rep := Report({}, map[], []);
    var target := service.runner.config.targetName;
    var sources := TargetSources(fs, dirs, graph, model, service, target, task, SourceFolders, runs.sources);
    if sources.Err? {
      return Err(sources.error), null, rep;
    }
    ghost var seen := fs.files;
    ghost var deps := DepsReport(Writable(fs.readOnly, dirs, service.runner, DepsAspect), service.runner, target, runs.deps);
    r, clean := MainDependencies(fs, dirs, graph, conf, model, service, task, info, known, runs.deps);
    WrittenChain(files0, seen, fs.files, service.runner.aspectsFolder);
    if r.Ok? {
      rep := Report(sources.value, seen, deps.value);
    }
  }

  /** What the main target's build task produces and reads: its artifacts,
    * then its source folders and dependencies, and the `clean` task that
    * deletes its outputs. `published` and `rep` are what the aspects
    * reported. */
  method MainOutputs(fs: FileSystem, ghost dirs: set<string>, graph: TaskGraph, conf: DefaultConfiguration,
                     model: HatchejModel, service: Service, s: Strategy, info: map<string, string>, known: set<string>,
                     runs: TargetRuns)
    returns (r: Result<()>, clean: BazelTargetCleanTask?, ghost published: Published, ghost rep: Report)
    requires fs.dirs == dirs && graph.Valid() && TaskName(s) in graph.tasks
    modifies fs, graph, conf, model
    ensures graph.Valid() && TasksKept(old(graph.tasks), graph.tasks) && old(graph.dependsOn) <= graph.dependsOn
    ensures fs.dirs == dirs && WrittenOnlyUnder(old(fs.files), fs.files, service.runner.aspectsFolder)
    ensures r.Ok? ==>
      && clean != null && fresh(clean) && clean.targetTasks == {TaskName(s)}
      && CleanTaskName in graph.tasks && graph.tasks[CleanTaskName] == Cleaner(clean)
    ensures r.Ok? ==>
      var runner := service.runner;
      && ArtifactsReport(Writable(fs.readOnly, dirs, runner, RuleOutsAspect), s, runner, runs.ruleOuts) == Ok(published)
      && Reported(fs.readOnly, dirs, service, runner.config.targetName, None, known, runs, rep)
      && WrittenOnlyUnder(old(fs.files), rep.seen, runner.aspectsFolder)
      && model.Contents() == TargetGrown(old(model.Contents()).Grown(ProjectOutputs, SetOf(ArtifactFiles(published.artifacts))),
                                         SourceFolders, ProjectDependencies, LibraryDependencies, rep, None, info, known)
      && conf.artifacts == old(conf.artifacts) + published.artifacts
      && conf.dependencies == old(conf.dependencies) + TargetDependencyList(rep.deps, None, known)
  {
    ghost var files0 := fs.files;
    published, rep := Published([], None), Report({}, map[], []);
    var task := TaskName(s);
    ghost var report := ArtifactsReport(Writable(fs.readOnly, dirs, service.runner, RuleOutsAspect), s, service.runner,
                                        runs.ruleOuts);
    var outputs := MainArtifacts(fs, dirs, graph, conf, model, service.runner, s, runs.ruleOuts);
    if outputs.Err? {
      return Err(outputs.error), null, published, rep;
    }
    published := report.value;
    ghost var files1 := fs.files;
    r, clean, rep := MainInputs(fs, dirs, graph, conf, model, service, task, info, known, runs);
    WrittenChain(files0, files1, fs.files, service.runner.aspectsFolder);
    if r.Ok? {
      WrittenChain(files0, files1, rep.seen, service.runner.aspectsFolder);
    }
  }

  /** The test target's strategy and build task. */
  method TestTask(fs: FileSystem, ghost dirs: set<string>, graph: TaskGraph, runner: Runner,
                  target: string, run: ProcessRun) returns (r: Result<Strategy>)
    requires fs.dirs == dirs && graph.Valid()
    modifies fs, graph
    ensures graph.Valid() && graph.dependsOn == old(graph.dependsOn) && TasksKept(old(graph.tasks), graph.tasks)
    ensures fs.dirs == dirs && WrittenOnlyUnder(old(fs.files), fs.files, runner.aspectsFolder)
    ensures var kind := RuleKindOf(Writable(fs.readOnly, dirs, runner, RuleKindAspect), runner, target, run, "java_test");
      && (kind.Err? ==> r == Err(kind.error))
      && (r.Ok? ==> kind.Ok? && r.value == BuildStrategy(kind.value, runner.config))
      && (kind.Ok? ==> var s := BuildStrategy(kind.value, runner.config);
            && (TaskName(s) !in old(graph.tasks) ==> r == Ok(s))
            && (TaskName(s) in old(graph.tasks) ==> r == Err(DuplicateTask(TaskName(s)))))
    ensures r.Ok? ==>
      var task := TaskName(r.value);
      && r.value.config == runner.config && task !in old(graph.tasks)
      && task in graph.tasks && graph.tasks[task] == Exec(CreateBazelExecTask(r.value))
  {
    r := TargetTask(fs, dirs, graph, runner, target, "java_test", run);
  }

  /** What the test task reads: the test target's source folders and its
    * dependencies (without the main target itself); the test task runs after
    * the main build task. Only the test collections change. */
  method TestInputs(fs: FileSystem, ghost dirs: set<string>, graph: TaskGraph, conf: DefaultConfiguration,
                    model: HatchejModel, service: Service, target: string, main: string, test: string,
                    info: map<string, string>, known: set<string>, runs: TargetRuns) returns (r: Result<()>, ghost rep: Report)
    requires fs.dirs == dirs && graph.Valid() && test in graph.tasks
    modifies fs, graph, conf, model
    ensures graph.Valid() && graph.tasks == old(graph.tasks) && old(graph.dependsOn) <= graph.dependsOn
    ensures fs.dirs == dirs && WrittenOnlyUnder(old(fs.files), fs.files, service.runner.aspectsFolder)
    ensures r.Ok? ==> (test, main) in graph.dependsOn
    ensures r.Ok? ==>
      var self := Some(service.runner.config);
      && Reported(fs.readOnly, dirs, service, target, self, known, runs, rep)
      && WrittenOnlyUnder(old(fs.files), rep.seen, service.runner.aspectsFolder)
      && TestAdded(old(model.Contents()), model.Contents(), old(conf.artifacts), conf.artifacts, old(conf.dependencies),
                   conf.dependencies, service.runner.config, info, known, rep)
  {
    ghost var files0, deps0 := fs.files, conf.dependencies;
    rep := Report({}, map[], []);
    var sources := TargetSources(fs, dirs, graph, model, service, target, test, TestSourceFolders, runs.sources);
    if sources.Err? {
      return Err(sources.error), rep;
    }
    graph.DependOn(test, main);
    ghost var seen := fs.files;
    var self := Some(service.runner.config);
    ghost var deps := DepsReport(Writable(fs.readOnly, dirs, service.runner, DepsAspect), service.runner, target, runs.deps);
    r := TargetDependencies(fs, dirs, conf, model, service, info, target, self,
                            ProjectTestDependencies, LibraryTestDependencies, known, runs.deps);
    WrittenChain(files0, seen, fs.files, service.runner.aspectsFolder);
    if r.Ok? {
      rep := Report(sources.value, seen, deps.value);
      AppendAssoc(deps0, GradleProjects(ModuleStream(rep.deps, self, known).projects),
                  ExternalModules(MavenDepsFold(Remotes(rep.deps)).coordinates));
    }
  }

  /** `iml` held an IML document, and now holds it rewritten from `s`. */
  ghost predicate ImlFileRewritten(before: map<string, Content>, after: map<string, Content>, iml: string,
                                   projectDir: string, s: Snapshot) {
    && iml in before && before[iml].XmlDoc? && iml in after && after[iml].XmlDoc?
    && ImlRewritten(before[iml].root, after[iml].root, projectDir, s)
  }

  /** The libraries folder of `project` and the library file of every jar
    * of `s` exist. */
  ghost predicate LibrariesWritten(files: map<string, Content>, dirs: set<string>, project: Project, s: Snapshot) {
    var dir := LibrariesDir(project);
    var libs, tests := LibraryFiles(dir, s.libraryDependencies), LibraryFiles(dir, s.libraryTestDependencies);
    && (dir in files || dir in dirs)
    && (forall d :: d in libs ==> libs[d] in files || libs[d] in dirs)
    && (forall d :: d in tests ==> tests[d] in files || tests[d] in dirs)
  }

  /** `modifyImlFile`, with any exception it throws wrapped in a
    * RuntimeException. The IML file it finds is rewritten from the model,
    * and the library files of the model's jars exist. */
  method RewriteIml(fs: FileSystem, project: Project, model: HatchejModel) returns (r: Result<()>)
    modifies fs
    ensures r.Err? ==> r.error.kind == Runtime && r.error.cause.Some?
    ensures var found := FindIml(old(fs.files), old(fs.dirs), project);
      && (found.Err? ==> r.Err? && r.error.cause.value.kind == IndexOutOfBounds && fs.files == old(fs.files))
      && (found == Ok(None) ==> r.Ok? && fs.files == old(fs.files) && fs.dirs == old(fs.dirs))
      && (found.Ok? && found.value.Some? && r.Ok? ==>
            && ImlFileRewritten(old(fs.files), fs.files, found.value.value, project.projectDir, model.Contents())
            && LibrariesWritten(fs.files, fs.dirs, project, model.Contents()))
  {
    ghost var files0, found := fs.files, FindIml(fs.files, fs.dirs, project);
    var written := ModifyImlFile(fs, project, model);
    if written.Err? {
      return Err(Wrap(written.error.message, written.error));
    }
    if found.Ok? && found.value.Some? {
      assert FindIml(files0, old(fs.dirs), project) != Ok(None);
      assert written.value;
      assert ImlFileRewritten(files0, fs.files, found.value.value, project.projectDir, model.Contents());
      assert LibrariesWritten(fs.files, fs.dirs, project, model.Contents());
    }
    return Ok(());
  }

  /** The main target: its build task, which `assemble` depends on, what the
    * task produces and reads, and the `clean` task for its outputs. */
  method ConfigureMain(fs: FileSystem, ghost dirs: set<string>, graph: TaskGraph, conf: DefaultConfiguration,
                       model: HatchejModel, service: Service, info: map<string, string>, known: set<string>, runs: TargetRuns)
    returns (r: Result<Strategy>, clean: BazelTargetCleanTask?, ghost published: Published, ghost rep: Report)
    requires fs.dirs == dirs && graph.Valid()
    modifies fs, graph, conf, model
    ensures graph.Valid() && TasksKept(old(graph.tasks), graph.tasks)
    ensures fs.dirs == dirs && WrittenOnlyUnder(old(fs.files), fs.files, service.runner.aspectsFolder)
    ensures r.Ok? ==>
      var m := TaskName(r.value);
      && r.value.config == service.runner.config
      && m in graph.tasks && graph.tasks[m] == Exec(CreateBazelExecTask(r.value))
      && ("assemble", m) in graph.dependsOn
      && clean != null && fresh(clean) && clean.targetTasks == {m}
      && CleanTaskName in graph.tasks && graph.tasks[CleanTaskName] == Cleaner(clean)
    ensures r.Ok? ==>
      && MainConfigured(fs.readOnly, dirs, old(fs.files), service, known, runs, r.value, published, rep)
      && model.Contents() == TargetGrown(old(model.Contents()).Grown(ProjectOutputs, SetOf(ArtifactFiles(published.artifacts))),
                                         SourceFolders, ProjectDependencies, LibraryDependencies, rep, None, info, known)
      && conf.artifacts == old(conf.artifacts) + published.artifacts
      && conf.dependencies == old(conf.dependencies) + TargetDependencyList(rep.deps, None, known)
  {
    ghost var files0 := fs.files;
    published, rep := Published([], None), Report({}, map[], []);
    r := MainTask(fs, dirs, graph, service.runner, runs.ruleKind);
    if r.Err? {
      return r, null, published, rep;
    }
    ghost var files1 := fs.files;
    var outputs;
    outputs, clean, published, rep := MainOutputs(fs, dirs, graph, conf, model, service, r.value, info, known, runs);
    WrittenChain(files0, files1, fs.files, service.runner.aspectsFolder);
    if outputs.Err? {
      return Err(outputs.error), clean, published, rep;
    }
    WrittenChain(files0, files1, rep.seen, service.runner.aspectsFolder);
  }

  /** The test target: its build task, which runs after the main build task
    * `main`, and what it reads. */
  method ConfigureTest(fs: FileSystem, ghost dirs: set<string>, graph: TaskGraph, conf: DefaultConfiguration,
                       model: HatchejModel, service: Service, main: string,
                       info: map<string, string>, known: set<string>, runs: TargetRuns) returns (r: Result<Strategy>, ghost rep: Report)
    requires fs.dirs == dirs && graph.Valid() && HasTest(service.runner.config) && main in graph.tasks
    modifies fs, graph, conf, model
    ensures graph.Valid() && TasksKept(old(graph.tasks), graph.tasks) && old(graph.dependsOn) <= graph.dependsOn
    ensures fs.dirs == dirs && WrittenOnlyUnder(old(fs.files), fs.files, service.runner.aspectsFolder)
    ensures r.Ok? ==> TestTaskWired(graph.tasks, graph.dependsOn, r.value, service.runner.config, main)
    ensures r.Ok? ==>
      && TestConfigured(fs.readOnly, dirs, old(fs.files), service, known, runs, r.value, rep)
      && TestAdded(old(model.Contents()), model.Contents(), old(conf.artifacts), conf.artifacts, old(conf.dependencies),
                   conf.dependencies, service.runner.config, info, known, rep)
  {
    ghost var files0 := fs.files;
    rep := Report({}, map[], []);
    var target := service.runner.config.testTargetName.value;
    r := TestTask(fs, dirs, graph, service.runner, target, runs.ruleKind);
    if r.Err? {
      return;
    }
    ghost var files1 := fs.files;
    var inputs;
    inputs, rep := TestInputs(fs, dirs, graph, conf, model, service, target, main, TaskName(r.value), info, known, runs);
    WrittenChain(files0, files1, fs.files, service.runner.aspectsFolder);
    if inputs.Err? {
      return Err(inputs.error), rep;
    }
    WrittenChain(files0, files1, rep.seen, service.runner.aspectsFolder);
  }

  /** The test target when one is set, as `ConfigureTest` says; without
    * one nothing changes. */
  method ConfigureTestIfSet(fs: FileSystem, ghost dirs: set<string>, graph: TaskGraph, conf: DefaultConfiguration,
                            model: HatchejModel, clean: BazelTargetCleanTask, service: Service, main: string,
                            info: map<string, string>, known: set<string>, runs: TargetRuns)
    returns (r: Result<()>, ghost test: Option<Strategy>, ghost rep: Option<Report>)
    requires fs.dirs == dirs && graph.Valid() && main in graph.tasks
    modifies fs, graph, conf, model, clean
    ensures graph.Valid() && TasksKept(old(graph.tasks), graph.tasks) && old(graph.dependsOn) <= graph.dependsOn
    ensures fs.dirs == dirs && WrittenOnlyUnder(old(fs.files), fs.files, service.runner.aspectsFolder)
    ensures r.Ok? ==>
      && (test.Some? <==> HasTest(service.runner.config)) && (rep.Some? <==> test.Some?)
      && clean.targetTasks == old(clean.targetTasks) + (if test.Some? then {TaskName(test.value)} else {})
      && (test.Some? ==>
            && TestTaskWired(graph.tasks, graph.dependsOn, test.value, service.runner.config, main)
            && TestConfigured(fs.readOnly, dirs, old(fs.files), service, known, runs, test.value, rep.value)
            && model.Contents() == TargetGrown(old(model.Contents()), TestSourceFolders, ProjectTestDependencies,
                                               LibraryTestDependencies, rep.value, Some(service.runner.config), info, known))
      && (test.None? ==> model.Contents() == old(model.Contents()))
      && conf.artifacts == old(conf.artifacts)
      && conf.dependencies == old(conf.dependencies) + TestDependencyList(service.runner.config, known, rep)
  {
    test, rep := None, None;
    if !HasTest(service.runner.config) {
      assert conf.dependencies + [] == conf.dependencies;
      assert clean.targetTasks + {} == clean.targetTasks;
      return Ok(()), test, rep;
    }
    var tested, report := ConfigureTest(fs, dirs, graph, conf, model, service, main, info, known, runs);
    if tested.Err? {
      return Err(tested.error), test, rep;
    }
    clean.AddTargetTask(TaskName(tested.value));
    test, rep := Some(tested.value), Some(report);
    r := Ok(());
  }

  /** Both targets, configured into an empty IDE model: the main target,
    * then the test target when one is set. The model ends as the aspects'
    * reports build it, and the configuration gains what they add. */
  method ConfigureBoth(fs: FileSystem, ghost dirs: set<string>, graph: TaskGraph, conf: DefaultConfiguration,
                       model: HatchejModel, service: Service, info: map<string, string>, known: set<string>, runs: BazelRuns)
    returns (r: Result<()>, ghost main: Option<Strategy>, ghost test: Option<Strategy>, ghost published: Published,
             ghost mainRep: Report, ghost testRep: Option<Report>)
    requires fs.dirs == dirs && graph.Valid() && model.Contents() == EmptySnapshot
    modifies fs, graph, conf, model
    ensures graph.Valid() && TasksKept(old(graph.tasks), graph.tasks)
    ensures fs.dirs == dirs && WrittenOnlyUnder(old(fs.files), fs.files, service.runner.aspectsFolder)
    ensures r.Ok? ==>
      var config := service.runner.config;
      && CleanTaskName in graph.tasks && graph.tasks[CleanTaskName].Cleaner?
      && TargetTasksWired(graph.tasks, graph.dependsOn, graph.tasks[CleanTaskName].clean.targetTasks, config, main, test)
    ensures r.Ok? ==>
      var config := service.runner.config;
      && TargetsReported(fs.readOnly, dirs, old(fs.files), service, known, runs, main, test, published, mainRep, testRep)
      && model.Contents() == ModelBuilt(config, info, known, published, mainRep, testRep)
      && TargetsAdded(old(conf.artifacts), old(conf.dependencies), conf.artifacts, conf.dependencies, config, known,
                      published, mainRep, testRep)
  {
    main, test, published, mainRep, testRep := None, None, Published([], None), Report({}, map[], []), None;
    ghost var files0 := fs.files;
    var built, clean;
    built, clean, published, mainRep := ConfigureMain(fs, dirs, graph, conf, model, service, info, known, runs.main);
    if built.Err? {
      return Err(built.error), main, test, published, mainRep, testRep;
    }
    main := Some(built.value);
    ghost var files1 := fs.files;
    r, test, testRep := ConfigureTestIfSet(fs, dirs, graph, conf, model, clean, service, TaskName(built.value), info, known,
                                           runs.test);
    WrittenChain(files0, files1, fs.files, service.runner.aspectsFolder);
    if r.Ok? {
      if test.Some? {
        WrittenChain(files0, files1, testRep.value.seen, service.runner.aspectsFolder);
      }
      ModelGrownBuilt(service.runner.config, info, known, published, mainRep, testRep);
    }
  }

  /** The aspects folder is prepared for `config`, then both targets are
    * configured into an empty IDE model: the main target, and the test
    * target when one is set. The model ends as the aspects' reports build
    * it, and the configuration gains what they add. */
  method ConfigureTargets(fs: FileSystem, graph: TaskGraph, conf: DefaultConfiguration, model: HatchejModel,
                          rootDir: string, config: Decorated, info: map<string, string>, known: set<string>, runs: BazelRuns)
    returns (r: Result<()>, ghost main: Option<Strategy>, ghost test: Option<Strategy>, ghost published: Published,
             ghost mainRep: Report, ghost testRep: Option<Report>)
    requires graph.Valid() && model.Contents() == EmptySnapshot
    modifies fs, graph, conf, model
    ensures graph.Valid() && TasksKept(old(graph.tasks), graph.tasks)
    ensures r.Ok? ==>
      && CleanTaskName in graph.tasks && graph.tasks[CleanTaskName].Cleaner?
      && TargetTasksWired(graph.tasks, graph.dependsOn, graph.tasks[CleanTaskName].clean.targetTasks, config, main, test)
    ensures r.Ok? ==>
      var service := Service(rootDir, AspectsRunner(config));
      var dirs := DirsWithAspects(old(fs.files), old(fs.dirs), config);
      && fs.dirs == dirs && WrittenOnlyUnder(old(fs.files), fs.files, AspectsFolder(config.targetPath))
      && TargetsReported(fs.readOnly, dirs, old(fs.files), service, known, runs, main, test, published, mainRep, testRep)
      && model.Contents() == ModelBuilt(config, info, known, published, mainRep, testRep)
      && TargetsAdded(old(conf.artifacts), old(conf.dependencies), conf.artifacts, conf.dependencies, config, known,
                      published, mainRep, testRep)
  {
    main, test, published, mainRep, testRep := None, None, Published([], None), Report({}, map[], []), None;
    ghost var files0 := fs.files;
    var runner := Create(fs, config);
    if runner.Err? {
      return Err(runner.error), main, test, published, mainRep, testRep;
    }
    assert runner.value == AspectsRunner(config);
    assert WrittenOnlyUnder(files0, fs.files, AspectsFolder(config.targetPath)) by {
      ChildWritten(files0, fs.files, runner.value.aspectsFolder, BuildFileName, Blank, true);
    }
    ghost var files1 := fs.files;
    r, main, test, published, mainRep, testRep := ConfigureBoth(fs, fs.dirs, graph, conf, model,
                                                                Service(rootDir, runner.value), info, known, runs);
    WrittenChain(files0, files1, fs.files, runner.value.aspectsFolder);
    if r.Ok? {
      WrittenChain(files0, files1, mainRep.seen, runner.value.aspectsFolder);
      if test.Some? {
        WrittenChain(files0, files1, testRep.value.seen, runner.value.aspectsFolder);
      }
    }
  }

  /** The last steps of `configurePlugin`, once the targets are configured
    * and the aspects folder (only) written since `files0`, `dirs0`: the IML
    * file is rewritten from the model, then the root project gets its
    * workspace-wide tasks. */
  method FinishConfiguration(fs: FileSystem, root: RootProject.RootProject, project: Project, model: HatchejModel,
                             config: Decorated, ghost files0: map<string, Content>, ghost dirs0: set<string>)
    returns (r: Result<()>)
    requires WrittenOnlyUnder(files0, fs.files, AspectsFolder(config.targetPath))
    requires fs.dirs == DirsWithAspects(files0, dirs0, config)
    modifies fs, root
    ensures r.Ok? ==> RootProject.RootExecNames <= root.tasks.Keys
    ensures r.Ok? && StartsWith(project.projectDir, "/") ==>
      var found := FindIml(files0, dirs0, project);
      && found.Ok?
      && (found.value.Some? ==>
            var iml := found.value.value;
            && iml in files0 && files0[iml].XmlDoc? && iml in fs.files && fs.files[iml].XmlDoc?
            && ImlRewritten(files0[iml].root, fs.files[iml].root, project.projectDir, model.Contents()))
  {
    if StartsWith(project.projectDir, "/") {
      ImlUntouched(files0, dirs0, fs.files, fs.dirs, project, config);
    }
    r := RewriteIml(fs, project, model);
    if r.Err? {
      return;
    }
    root.AddBazelTasksToRootProject(config);
  }

  /** The part of `configurePlugin` after the build directory is set: both
    * targets are configured into a new IDE model, the IML file is rewritten
    * from the model, and the root project gets its workspace-wide tasks. */
  method ConfigureProject(fs: FileSystem, root: RootProject.RootProject, graph: TaskGraph, conf: DefaultConfiguration,
                          project: Project, config: Decorated, info: map<string, string>, known: set<string>, runs: BazelRuns, model: HatchejModel)
    returns (r: Result<()>, ghost main: Option<Strategy>, ghost test: Option<Strategy>,
             ghost published: Published, ghost mainRep: Report, ghost testRep: Option<Report>)
    requires graph.Valid() && model.Contents() == EmptySnapshot
    modifies fs, root, graph, conf, model
    ensures r.Ok? ==>
      && CleanTaskName in graph.tasks && graph.tasks[CleanTaskName].Cleaner?
      && TargetTasksWired(graph.tasks, graph.dependsOn, graph.tasks[CleanTaskName].clean.targetTasks, config, main, test)
      && RootProject.RootExecNames <= root.tasks.Keys
      && TasksKept(old(graph.tasks), graph.tasks)
    ensures r.Ok? ==>
      var service := Service(project.rootDir, AspectsRunner(config));
      var dirs := DirsWithAspects(old(fs.files), old(fs.dirs), config);
      && main.Some?
      && TargetsReported(fs.readOnly, dirs, old(fs.files), service, known, runs, main, test, published, mainRep, testRep)
      && model.Contents() == ModelBuilt(config, info, known, published, mainRep, testRep)
      && TargetsAdded(old(conf.artifacts), old(conf.dependencies), conf.artifacts, conf.dependencies, config, known,
                      published, mainRep, testRep)
    ensures r.Ok? && StartsWith(project.projectDir, "/") ==>
      var found := FindIml(old(fs.files), old(fs.dirs), project);
      && found.Ok?
      && (found.value.Some? ==>
            var iml := found.value.value;
            && iml in old(fs.files) && old(fs.files[iml]).XmlDoc? && iml in fs.files && fs.files[iml].XmlDoc?
            && ImlRewritten(old(fs.files[iml]).root, fs.files[iml].root, project.projectDir, model.Contents()))
  {
    r, main, test, published, mainRep, testRep := ConfigureTargets(fs, graph, conf, model, project.rootDir, config, info,
                                                                   known, runs);
    if r.Err? {
      return;
    }
    r := FinishConfiguration(fs, root, project, model, config, old(fs.files), old(fs.dirs));
  }

  /** `configurePlugin`. The module's configuration is decorated (an
    * unconfigured module fails), `bazel info` gives the build directory (a
    * `bazel info` that failed with an IOException or InterruptedException
    * fails on its null properties, any other exception propagates), both
    * targets are configured into a new IDE model, the IML file is rewritten
    * from the model, and the root project gets its workspace-wide tasks.
    * `buildDir` is the build directory set on the module, `model` the IDE
    * model; `main` and `test` are the strategies picked, `published`,
    * `mainRep` and `testRep` what the aspects reported. */
  method ConfigurePlugin(fs: FileSystem, root: RootProject.RootProject, graph: TaskGraph, conf: DefaultConfiguration,
                         ext: BazelLeafConfig, project: Project, bazelBinPath: string, known: set<string>, runs: BazelRuns)
    returns (r: Result<()>, buildDir: Option<string>, model: HatchejModel?, ghost main: Option<Strategy>,
             ghost test: Option<Strategy>, ghost published: Published, ghost mainRep: Report, ghost testRep: Option<Report>)
    requires graph.Valid()
    modifies fs, root, graph, conf
    ensures !ext.IsConfigured() ==>
      && r == Err(Throw(IllegalArgument, NotConfiguredMessage)) && buildDir.None? && model == null
      && unchanged(fs, root, graph, conf)
    ensures ext.IsConfigured() && Start(InfoExec(ext.Decorate(project, bazelBinPath).value), runs.info).result.Err? ==>
      && var e := Start(InfoExec(ext.Decorate(project, bazelBinPath).value), runs.info).result.error;
      && r.Err? && r.error.kind == (if e.kind in {IOError, Interrupted} then NullPointer else e.kind)
      && buildDir.None? && model == null && unchanged(fs, root, graph, conf)
    ensures r.Ok? ==>
      && ext.IsConfigured()
      && var config := ext.Decorate(project, bazelBinPath).value;
      && buildDir.Some? && BuildDir(Some(ParseProperties(SplitLines(runs.info.output))), config.targetPath) == Ok(buildDir.value)
      && model != null && fresh(model)
      && CleanTaskName in graph.tasks && graph.tasks[CleanTaskName].Cleaner?
      && TargetTasksWired(graph.tasks, graph.dependsOn, graph.tasks[CleanTaskName].clean.targetTasks, config, main, test)
      && RootProject.RootExecNames <= root.tasks.Keys
      && TasksKept(old(graph.tasks), graph.tasks)
    ensures r.Ok? ==>
      var config := ext.Decorate(project, bazelBinPath).value;
      var info := ParseProperties(SplitLines(runs.info.output));
      var service := Service(project.rootDir, AspectsRunner(config));
      var dirs := DirsWithAspects(old(fs.files), old(fs.dirs), config);
      && model != null && main.Some?
      && TargetsReported(fs.readOnly, dirs, old(fs.files), service, known, runs, main, test, published, mainRep, testRep)
      && model.Contents() == ModelBuilt(config, info, known, published, mainRep, testRep)
      && TargetsAdded(old(conf.artifacts), old(conf.dependencies), conf.artifacts, conf.dependencies, config, known,
                      published, mainRep, testRep)
    ensures r.Ok? && StartsWith(project.projectDir, "/") ==>
      var found := FindIml(old(fs.files), old(fs.dirs), project);
      && model != null && found.Ok?
      && (found.value.Some? ==>
            var iml := found.value.value;
            && iml in old(fs.files) && old(fs.files[iml]).XmlDoc? && iml in fs.files && fs.files[iml].XmlDoc?
            && ImlRewritten(old(fs.files[iml]).root, fs.files[iml].root, project.projectDir, model.Contents()))
  {
    buildDir, model, main, test := None, null, None, None;
    published, mainRep, testRep := Published([], None), Report({}, map[], []), None;
    var decorated := ext.Decorate(project, bazelBinPath);
    if decorated.Err? {
      return Err(decorated.error), buildDir, model, main, test, published, mainRep, testRep;
    }
    var config := decorated.value;
    var loaded, _ := GetInfo(config, runs.info);
    if loaded.Err? {
      return Err(loaded.error), buildDir, model, main, test, published, mainRep, testRep;
    }
    var info := loaded.value;
    var dir := BuildDir(info, config.targetPath);
    if dir.Err? {
      return Err(dir.error), buildDir, model, main, test, published, mainRep, testRep;
    }
    buildDir := Some(dir.value);
    var built := new HatchejModel();
    r, main, test, published, mainRep, testRep := ConfigureProject(fs, root, graph, conf, project, config, info.value,
                                                                   known, runs, built);
    model := built;
  }
}
