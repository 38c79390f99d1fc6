/** The steps of `BazelLeafPlugin.configurePlugin` that run an aspect on a
  * target and fold its answer into the module: the strategy and its task,
  * the published artifacts, the source folders and the dependencies. */
module ConfigureSteps {
  import opened Common
  import opened Strings
  import opened Paths
  import opened Files
  import opened LeafConfig
  import opened BazelExecHelper
  import opened AspectRunner
  import opened BazelAspectService
  import opened HatchejModel
  import opened Artifacts
  import opened Strategies
  import opened TargetCleanTask
  import opened BazelLeafPlugin
  import opened ConfigureStreams

  // ---------------------------------------------------------------------------
  // The self-dependency filter of the test target's module dependencies

  /** The label of the module's main target. */
  function SelfLabel(config: Decorated): string {
    config.targetPath + ":" + config.targetName
  }

  /** `bazelDep.equals(label)` as written: `LocalBazelTarget` does not
    * override `equals`, so a target never equals a String. */
  predicate TargetEqualsString(dep: LocalBazelTarget, s: string) {
    false
  }

  /** The self filter of `BazelLeafPlugin.java` line 175 as written: drops
    * the dependencies that `equals` the main target's label, which is none
    * of them. */
  function AsWrittenSelfFilter(deps: seq<LocalBazelTarget>, config: Decorated): (r: seq<LocalBazelTarget>)
    ensures r == deps
  {
    if deps == [] then []
    else (if TargetEqualsString(deps[0], SelfLabel(config)) then [] else [deps[0]]) + AsWrittenSelfFilter(deps[1..], config)
  }

  /** So a test target that depends on the main target, as test targets do,
    * keeps that dependency, and it converts to the module's own Gradle path:
    * the module is made a dependency of itself. */
  lemma AsWrittenKeepsSelf(config: Decorated, path: string)
    requires |path| >= 2 && path[0] == ':' && '/' !in path && NoLineEnd(path)
    requires |config.targetName| >= 1 && ':' !in config.targetName && NoLineEnd(config.targetName)
    requires config.targetPath == TargetPath(path)
    ensures var self := LocalBazelTarget(SelfLabel(config));
      && self in AsWrittenSelfFilter([self], config)
      && ConvertLocalBazelDepToGradle(self) == Ok(path)
  {
    ConvertTargetPathRoundTrip(path, config.targetName);
  }

  /** The filter as intended: drops exactly the dependencies whose label is
    * the main target's, keeping the others in order. */
  function CorrectedSelfFilter(deps: seq<LocalBazelTarget>, config: Decorated): (r: seq<LocalBazelTarget>)
    ensures |r| <= |deps|
    ensures forall t :: t in r <==> t in deps && t.path != SelfLabel(config)
  {
    if deps == [] then []
    else (if deps[0].path == SelfLabel(config) then [] else [deps[0]]) + CorrectedSelfFilter(deps[1..], config)
  }

  /** The corrected filter works element by element, so it keeps the order
    * of what it keeps, and it changes nothing where the main target does
    * not occur. */
  lemma {:induction false} CorrectedSelfFilterAppend(a: seq<LocalBazelTarget>, b: seq<LocalBazelTarget>, config: Decorated)
    ensures CorrectedSelfFilter(a + b, config) == CorrectedSelfFilter(a, config) + CorrectedSelfFilter(b, config)
    decreases |a|
  {
    if a != [] {
      assert (a + b)[1..] == a[1..] + b;
      CorrectedSelfFilterAppend(a[1..], b, config);
    } else {
      assert a + b == b;
    }
  }

  lemma {:induction false} CorrectedSelfFilterNoSelf(deps: seq<LocalBazelTarget>, config: Decorated)
    requires forall i :: 0 <= i < |deps| ==> deps[i].path != SelfLabel(config)
    ensures CorrectedSelfFilter(deps, config) == deps
    decreases |deps|
  {
    if deps != [] {
      CorrectedSelfFilterNoSelf(deps[1..], config);
    }
  }

  /** The corrected filter removes the self-dependency the written one keeps. */
  lemma CorrectedDropsSelf(config: Decorated)
    ensures CorrectedSelfFilter([LocalBazelTarget(SelfLabel(config))], config) == []
  {
  }

  // ---------------------------------------------------------------------------
  // The steps of `configurePlugin`

  const RuleKindAspect := "get_rule_kind.bzl"

  /** `stream().findFirst().orElse(fallback)`. */
  function FirstOr(lines: seq<string>, fallback: string): (r: string)
    ensures lines == [] ==> r == fallback
    ensures lines != [] ==> r == lines[0]
  {
    if lines == [] then fallback else lines[0]
  }

  /** The strategy of a target and its Bazel task: `kinds` are the lines the
    * rule-kind aspect printed for the target, the first of them (or
    * `fallback`) picks the strategy, and the strategy's task joins the
    * module's tasks under the strategy's task name. */
  method CreateStrategyTask(graph: TaskGraph, kinds: seq<string>, fallback: string, config: Decorated)
    returns (r: Result<Strategy>)
    requires graph.Valid()
    modifies graph
    ensures graph.Valid() && graph.dependsOn == old(graph.dependsOn) && TasksKept(old(graph.tasks), graph.tasks)
    ensures r.Ok? ==> TaskName(r.value) in graph.tasks && graph.tasks[TaskName(r.value)] == Exec(CreateBazelExecTask(r.value))
    ensures var s := BuildStrategy(FirstOr(kinds, fallback), config);
      && (TaskName(s) in old(graph.tasks) ==> r == Err(DuplicateTask(TaskName(s))) && unchanged(graph))
      && (TaskName(s) !in old(graph.tasks) ==>
            && r == Ok(s) && graph.tasks == old(graph.tasks)[TaskName(s) := Exec(CreateBazelExecTask(s))]
            && graph.outputs == old(graph.outputs)[TaskName(s) := []]
            && graph.inputDirs == old(graph.inputDirs)[TaskName(s) := {}])
  {
    var s := BuildStrategy(FirstOr(kinds, fallback), config);
    var task := CreateBazelExecTask(s);
    var created := graph.Create(task.name, Exec(task));
    if created.Err? {
      return Err(created.error);
    }
    return Ok(s);
  }

  /** What the main target's strategy publishes: the AAR packaging task, when
    * the strategy has one, joins the module's tasks and depends on the build
    * task; then every artifact is published on the configuration, and its
    * file is a project output of the IDE model and an output of `task`. */
  method PublishMain(graph: TaskGraph, conf: DefaultConfiguration, model: HatchejModel, task: string, p: Published)
    returns (r: Result<()>)
    requires graph.Valid() && task in graph.tasks
    modifies graph, conf, model
    ensures graph.Valid() && TasksKept(old(graph.tasks), graph.tasks) && old(graph.dependsOn) <= graph.dependsOn
    ensures p.aar.Some? && p.aar.value.name in old(graph.tasks) ==>
      r == Err(DuplicateTask(p.aar.value.name)) && unchanged(graph, conf, model)
    ensures !(p.aar.Some? && p.aar.value.name in old(graph.tasks)) ==>
      && r.Ok?
      && conf.artifacts == old(conf.artifacts) + p.artifacts && conf.dependencies == old(conf.dependencies)
      && model.Contents() == old(model.Contents()).Grown(ProjectOutputs, SetOf(ArtifactFiles(p.artifacts)))
      && graph.outputs[task] == old(graph.outputs)[task] + ArtifactFiles(p.artifacts)
      && (p.aar.None? ==>
            graph.tasks == old(graph.tasks) && graph.dependsOn == old(graph.dependsOn) && graph.inputDirs == old(graph.inputDirs))
      && (p.aar.Some? ==>
            && graph.tasks == old(graph.tasks)[p.aar.value.name := AarJar(p.aar.value)]
            && graph.inputDirs == old(graph.inputDirs)[p.aar.value.name := {}]
            && graph.dependsOn == old(graph.dependsOn) + {(p.aar.value.name, p.aar.value.dependsOn)})
  {
    if p.aar.Some? {
      var created := graph.Create(p.aar.value.name, AarJar(p.aar.value));
      if created.Err? {
        return Err(created.error);
      }
      graph.DependOn(p.aar.value.name, p.aar.value.dependsOn);
    }
    PublishArtifacts(conf, model, graph, task, p.artifacts);
    return Ok(());
  }

  /** The module dependencies a target contributes: the test target's lose
    * the main target's label. */
  function SelfFiltered(deps: seq<LocalBazelTarget>, self: Option<Decorated>): (r: seq<LocalBazelTarget>)
    ensures self.None? ==> r == deps
    ensures self.Some? ==> forall t :: t in r <==> t in deps && t.path != SelfLabel(self.value)
  {
    if self.Some? then CorrectedSelfFilter(deps, self.value) else deps
  }

  /** The two streams over a target's workspace dependencies: every jar's
    * local path into collection `libraries` of the IDE model, then the
    * Maven coordinates into the configuration. */
  method AddRemoteDependencies(conf: DefaultConfiguration, model: HatchejModel, remotes: seq<ExternalTarget>,
                               info: map<string, string>, libraries: Collection)
    returns (r: Result<()>)
    modifies conf, model
    ensures conf.artifacts == old(conf.artifacts)
    ensures model.Contents() == old(model.Contents()).Grown(libraries, LibraryPaths(info, remotes))
    ensures var m := MavenDepsFold(remotes);
      r == m.outcome && conf.dependencies == old(conf.dependencies) + ExternalModules(m.coordinates)
  {
    model.AddAll(libraries, LibraryPaths(info, remotes));
    r := AddMavenDependencies(conf, remotes);
  }

  /** The dependencies of a target, as `getAllDeps` split them: the
    * module-dependency stream into collection `modules`, then the streams
    * over the workspace dependencies; these run only when the first got to
    * its end, since a failure ends `configurePlugin`. */
  method AddDependencies(conf: DefaultConfiguration, model: HatchejModel, moduleDeps: seq<LocalBazelTarget>,
                         remotes: seq<ExternalTarget>, info: map<string, string>, self: Option<Decorated>,
                         modules: Collection, libraries: Collection, known: set<string>)
    returns (r: Result<()>)
    requires modules != libraries
    modifies conf, model
    ensures conf.artifacts == old(conf.artifacts)
    ensures var f, m := ModuleDepsFold(Conversions(SelfFiltered(moduleDeps, self)), known), MavenDepsFold(remotes);
      && r == (if f.outcome.Err? then f.outcome else m.outcome)
      && model.Contents() == old(model.Contents()).Grown(modules, SetOf(f.paths))
                             .Grown(libraries, if f.outcome.Ok? then LibraryPaths(info, remotes) else {})
      && conf.dependencies == old(conf.dependencies) + GradleProjects(f.projects)
                              + (if f.outcome.Ok? then ExternalModules(m.coordinates) else [])
  {
    r := AddModuleDependencies(conf, model, modules, SelfFiltered(moduleDeps, self), known);
    if r.Err? {
      GrownByNothing(model.Contents(), libraries);
      assert conf.dependencies == conf.dependencies + [];
      return;
    }
    r := AddRemoteDependencies(conf, model, remotes, info, libraries);
  }

  // ---------------------------------------------------------------------------
  // What a target's dependency annotations add once every stream got to its end

  /** The module-dependency stream over the local targets among `deps`;
    * `self` is the module's configuration for the test target. */
  function ModuleStream(deps: seq<Annotation>, self: Option<Decorated>, known: set<string>): ModuleFold {
    ModuleDepsFold(Conversions(SelfFiltered(Locals(deps), self)), known)
  }

  /** The module-dependency stream and the Maven stream over `deps` both got
    * to their end, so `configurePlugin` went on. */
  predicate StreamsComplete(deps: seq<Annotation>, self: Option<Decorated>, known: set<string>) {
    ModuleStream(deps, self, known).outcome.Ok? && MavenDepsFold(Remotes(deps)).outcome.Ok?
  }

  /** What the default configuration gains from `deps`: the projects of the
    * module-dependency stream, then the Maven stream's modules. */
  function TargetDependencyList(deps: seq<Annotation>, self: Option<Decorated>, known: set<string>): seq<Dependency> {
    GradleProjects(ModuleStream(deps, self, known).projects) + ExternalModules(MavenDepsFold(Remotes(deps)).coordinates)
  }

  /** The dependencies are one project per local target, in order, at the
    * target's Gradle path (a project of the build), then one Maven module per
    * external jar, in order, with the jar's coordinate. */
  ghost predicate DependenciesOfTargets(list: seq<Dependency>, locals: seq<LocalBazelTarget>, remotes: seq<ExternalTarget>,
                                        known: set<string>) {
    && |list| == |locals| + |remotes|
    && (forall i :: 0 <= i < |locals| ==>
          list[i].ProjectDependency? && list[i].path in known && ConvertLocalBazelDepToGradle(locals[i]) == Ok(list[i].path))
    && (forall i :: 0 <= i < |remotes| ==>
          list[|locals| + i].ExternalModule? && CreateMavenDependency(remotes[i]) == Ok(list[|locals| + i].coordinate))
  }

  /** When the module-dependency stream gets to its end, its projects are
    * the local targets' Gradle paths, in order, each a project of the build. */
  lemma {:induction false} ProjectsOfTargets(deps: seq<Annotation>, self: Option<Decorated>, known: set<string>)
    requires ModuleStream(deps, self, known).outcome.Ok?
    ensures var locals, projects := SelfFiltered(Locals(deps), self), GradleProjects(ModuleStream(deps, self, known).projects);
      && |projects| == |locals|
      && forall i :: 0 <= i < |locals| ==>
           projects[i].ProjectDependency? && projects[i].path in known && ConvertLocalBazelDepToGradle(locals[i]) == Ok(projects[i].path)
  {
    var locals := SelfFiltered(Locals(deps), self);
    var converted := Conversions(locals);
    var f := ModuleDepsFold(converted, known);
    ModuleDepsFoldSpec(converted, known);
    var projects := GradleProjects(f.projects);
    forall i | 0 <= i < |locals|
      ensures projects[i].ProjectDependency? && projects[i].path in known && ConvertLocalBazelDepToGradle(locals[i]) == Ok(projects[i].path)
    {
      assert projects[i] == ProjectDependency(f.projects[i]);
      assert converted[i] == Ok(f.paths[i]);
    }
  }

  /** When the Maven stream gets to its end, its modules are the external
    * jars' coordinates, in order. */
  lemma {:induction false} ModulesOfTargets(deps: seq<Annotation>)
    requires MavenDepsFold(Remotes(deps)).outcome.Ok?
    ensures var remotes, modules := Remotes(deps), ExternalModules(MavenDepsFold(Remotes(deps)).coordinates);
      && |modules| == |remotes|
      && forall i :: 0 <= i < |remotes| ==>
           modules[i].ExternalModule? && CreateMavenDependency(remotes[i]) == Ok(modules[i].coordinate)
  {
    var remotes := Remotes(deps);
    var m := MavenDepsFold(remotes);
    MavenDepsFoldSpec(remotes);
    var modules := ExternalModules(m.coordinates);
    forall i | 0 <= i < |remotes|
      ensures modules[i].ExternalModule? && CreateMavenDependency(remotes[i]) == Ok(modules[i].coordinate)
    {
      assert modules[i] == ExternalModule(m.coordinates[i]);
    }
  }

  /** The projects of the local targets followed by the modules of the
    * external jars are the dependencies of both. */
  lemma ListOfTargets(projects: seq<Dependency>, modules: seq<Dependency>, locals: seq<LocalBazelTarget>,
                      remotes: seq<ExternalTarget>, known: set<string>)
    requires |projects| == |locals| && |modules| == |remotes|
    requires forall i :: 0 <= i < |locals| ==>
      projects[i].ProjectDependency? && projects[i].path in known && ConvertLocalBazelDepToGradle(locals[i]) == Ok(projects[i].path)
    requires forall i :: 0 <= i < |remotes| ==>
      modules[i].ExternalModule? && CreateMavenDependency(remotes[i]) == Ok(modules[i].coordinate)
    ensures DependenciesOfTargets(projects + modules, locals, remotes, known)
  {
    var list := projects + modules;
    forall i | 0 <= i < |locals|
      ensures list[i].ProjectDependency? && list[i].path in known && ConvertLocalBazelDepToGradle(locals[i]) == Ok(list[i].path)
    {
      assert list[i] == projects[i];
    }
    forall i | 0 <= i < |remotes|
      ensures list[|locals| + i].ExternalModule? && CreateMavenDependency(remotes[i]) == Ok(list[|locals| + i].coordinate)
    {
      assert list[|locals| + i] == modules[i];
    }
  }

  /** When both streams get to their end, the configuration gains one project
    * per local target, in order, each the target's Gradle path, and then one
    * Maven module per external jar, in order. */
  lemma {:induction false} TargetDependencyListOf(deps: seq<Annotation>, self: Option<Decorated>, known: set<string>)
    requires StreamsComplete(deps, self, known)
    ensures DependenciesOfTargets(TargetDependencyList(deps, self, known), SelfFiltered(Locals(deps), self), Remotes(deps), known)
  {
    ProjectsOfTargets(deps, self, known);
    ModulesOfTargets(deps);
    ListOfTargets(GradleProjects(ModuleStream(deps, self, known).projects),
                  ExternalModules(MavenDepsFold(Remotes(deps)).coordinates), SelfFiltered(Locals(deps), self), Remotes(deps), known);
  }

  /** The paths are exactly the Gradle paths of the targets. */
  ghost predicate PathsOfTargets(paths: set<string>, targets: seq<LocalBazelTarget>) {
    forall p :: p in paths <==> exists i :: 0 <= i < |targets| && ConvertLocalBazelDepToGradle(targets[i]) == Ok(p)
  }

  /** When the module-dependency stream gets to its end, the IDE model's
    * module collection holds exactly the Gradle paths of the local targets. */
  lemma {:induction false} ModulePathsOf(deps: seq<Annotation>, self: Option<Decorated>, known: set<string>)
    requires ModuleStream(deps, self, known).outcome.Ok?
    ensures PathsOfTargets(SetOf(ModuleStream(deps, self, known).paths), SelfFiltered(Locals(deps), self))
  {
    var locals := SelfFiltered(Locals(deps), self);
    var converted := Conversions(locals);
    var f := ModuleDepsFold(converted, known);
    assert f == ModuleStream(deps, self, known);
    ModuleDepsFoldSpec(converted, known);
    var paths := SetOf(f.paths);
    forall p
      ensures p in paths <==> exists i :: 0 <= i < |locals| && ConvertLocalBazelDepToGradle(locals[i]) == Ok(p)
    {
      if p in paths {
        var i :| 0 <= i < |f.paths| && f.paths[i] == p;
        assert converted[i] == Ok(p);
      }
      if exists i :: 0 <= i < |locals| && ConvertLocalBazelDepToGradle(locals[i]) == Ok(p) {
        var i :| 0 <= i < |locals| && ConvertLocalBazelDepToGradle(locals[i]) == Ok(p);
        assert converted[i] == Ok(f.paths[i]);
      }
    }
    assert PathsOfTargets(paths, locals);
  }
}
