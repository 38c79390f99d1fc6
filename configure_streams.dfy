/** The streams of `BazelLeafPlugin.configurePlugin`: the module's default
  * configuration, its tasks, and the element-by-element folds that carry the
  * aspects' dependency lists and artifacts into the configuration and the
  * IDE model. */
module ConfigureStreams {
  import opened Common
  import opened Strings
  import opened Paths
  import opened Files
  import opened LeafConfig
  import opened BazelExecHelper
  import opened AspectRunner
  import opened BazelAspectService
  import opened HatchejModel
  import opened Artifacts
  import opened Strategies
  import opened TargetCleanTask
  import opened BazelLeafPlugin
  // ---------------------------------------------------------------------------
  // The module's default configuration

  /** A dependency added to the default configuration: the Gradle project at
    * a path, or an external module by its Maven coordinate. */
  datatype Dependency = ProjectDependency(path: string) | ExternalModule(coordinate: MavenCoordinate)

  /** The `default` configuration `apply` creates; the plugin adds to its
    * dependencies and to its outgoing artifacts. */
  class DefaultConfiguration {
    var dependencies: seq<Dependency>
    var artifacts: seq<PublishArtifact>

    constructor ()
      ensures dependencies == [] && artifacts == []
    {
      dependencies, artifacts := [], [];
    }

    /** `getDependencies().add`, for each of `ds` in turn. */
    method AddDependencies(ds: seq<Dependency>)
      modifies this
      ensures dependencies == old(dependencies) + ds && artifacts == old(artifacts)
    {
      dependencies := dependencies + ds;
    }

    /** `getOutgoing().getArtifacts().add`, for each of `published` in turn. */
    method AddArtifacts(published: seq<PublishArtifact>)
      modifies this
      ensures artifacts == old(artifacts) + published && dependencies == old(dependencies)
    {
      artifacts := artifacts + published;
    }
  }

  /** The project dependencies at the given paths, in order. */
  function GradleProjects(paths: seq<string>): (r: seq<Dependency>)
    ensures |r| == |paths| && forall i :: 0 <= i < |paths| ==> r[i] == ProjectDependency(paths[i])
    decreases |paths|
  {
    if paths == [] then [] else GradleProjects(paths[..|paths| - 1]) + [ProjectDependency(paths[|paths| - 1])]
  }

  /** The external modules with the given coordinates, in order. */
  function ExternalModules(coordinates: seq<MavenCoordinate>): (r: seq<Dependency>)
    ensures |r| == |coordinates| && forall i :: 0 <= i < |coordinates| ==> r[i] == ExternalModule(coordinates[i])
    decreases |coordinates|
  {
    if coordinates == [] then []
    else ExternalModules(coordinates[..|coordinates| - 1]) + [ExternalModule(coordinates[|coordinates| - 1])]
  }

  lemma AppendAssoc<T>(a: seq<T>, b: seq<T>, c: seq<T>)
    ensures (a + b) + c == a + (b + c)
  {
  }

  /** The elements of a sequence. */
  function SetOf(s: seq<string>): (r: set<string>)
    ensures forall x :: x in r <==> x in s
    decreases |s|
  {
    if s == [] then {} else SetOf(s[..|s| - 1]) + {s[|s| - 1]}
  }

  // ---------------------------------------------------------------------------
  // The module-dependency stream

  /** `convertGradlePathToProject` on a path no project of the build has. */
  function UnknownProject(path: string): Exc {
    Throw(Runtime, "Project with path '" + path + "' could not be found.")
  }

  /** What the stream over a target's module dependencies leaves behind: the
    * Gradle paths it added to the IDE model, the paths whose projects it
    * added to the configuration, and whether it got to the end. */
  datatype ModuleFold = ModuleFold(paths: seq<string>, projects: seq<string>, outcome: Result<()>)

  /** The Gradle path of each target, or the reason it has none. */
  function Conversions(deps: seq<LocalBazelTarget>): seq<Result<string>> {
    seq(|deps|, i requires 0 <= i < |deps| => ConvertLocalBazelDepToGradle(deps[i]))
  }

  /** The module-dependency stream, one target at a time, over the targets'
    * conversions: the target's Gradle path goes into the IDE model, then the
    * project at that path into the configuration. A target that does not
    * convert stops the stream before the model sees it; a path that names no
    * project (`known` are the projects' paths) stops it after the model saw
    * it. */
  function ModuleDepsFold(converted: seq<Result<string>>, known: set<string>): ModuleFold
    decreases |converted|
  {
    if converted == [] then ModuleFold([], [], Ok(()))
    else
      match converted[0]
      case Err(e) => ModuleFold([], [], Err(e))
      case Ok(path) =>
        if path !in known then ModuleFold([path], [], Err(UnknownProject(path)))
        else
          var rest := ModuleDepsFold(converted[1..], known);
          ModuleFold([path] + rest.paths, [path] + rest.projects, rest.outcome)
  }

  /** What the stream leaves behind: the paths of a prefix of the targets,
    * the projects of a prefix of those, and an outcome that tells which
    * failure stopped it, if any. */
  lemma {:induction false} ModuleDepsFoldSpec(converted: seq<Result<string>>, known: set<string>)
    ensures var f := ModuleDepsFold(converted, known);
      && |f.projects| <= |f.paths| <= |converted|
      && f.projects == f.paths[..|f.projects|]
      && (forall i :: 0 <= i < |f.paths| ==> converted[i] == Ok(f.paths[i]))
      && (forall p :: p in f.projects ==> p in known)
    ensures var f := ModuleDepsFold(converted, known);
      && (f.outcome.Ok? <==> forall i :: 0 <= i < |converted| ==> converted[i].Ok? && converted[i].value in known)
      && (f.outcome.Ok? ==> |f.paths| == |converted| && f.projects == f.paths)
    ensures var f := ModuleDepsFold(converted, known);
      && (f.outcome.Err? && |f.projects| == |f.paths| ==>
            |f.paths| < |converted| && converted[|f.paths|] == Err(f.outcome.error))
      && (f.outcome.Err? && |f.projects| < |f.paths| ==>
            && |f.paths| == |f.projects| + 1 && f.paths[|f.projects|] !in known
            && f.outcome.error == UnknownProject(f.paths[|f.projects|]))
    decreases |converted|
  {
    if converted != [] && converted[0].Ok? && converted[0].value in known {
      ModuleDepsFoldSpec(converted[1..], known);
    }
  }

  /** The stream has handled the first `i` targets, and the projects of
    * `done` went into the model and the configuration. */
  predicate ModuleFoldReached(converted: seq<Result<string>>, known: set<string>, i: nat, done: seq<string>)
    requires i <= |converted|
  {
    var f, rest := ModuleDepsFold(converted, known), ModuleDepsFold(converted[i..], known);
    f.paths == done + rest.paths && f.projects == done + rest.projects && f.outcome == rest.outcome
  }

  lemma ModuleFoldStart(converted: seq<Result<string>>, known: set<string>)
    ensures ModuleFoldReached(converted, known, 0, [])
  {
    assert converted[0..] == converted;
  }

  lemma ModuleFoldEnd(converted: seq<Result<string>>, known: set<string>, done: seq<string>)
    requires ModuleFoldReached(converted, known, |converted|, done)
    ensures ModuleDepsFold(converted, known) == ModuleFold(done, done, Ok(()))
  {
    assert converted[|converted|..] == [];
    assert done + [] == done;
  }

  /** One more target: where it stops the stream, and how far the stream
    * got when it does not. */
  lemma ModuleFoldAdvance(converted: seq<Result<string>>, known: set<string>, i: nat, done: seq<string>)
    requires i < |converted| && ModuleFoldReached(converted, known, i, done)
    ensures var f, path := ModuleDepsFold(converted, known), converted[i];
      && (path.Err? ==> f == ModuleFold(done, done, Err(path.error)))
      && (path.Ok? && path.value !in known ==> f == ModuleFold(done + [path.value], done, Err(UnknownProject(path.value))))
      && (path.Ok? && path.value in known ==> ModuleFoldReached(converted, known, i + 1, done + [path.value]))
  {
    assert converted[i..][1..] == converted[i + 1..];
    var path := converted[i];
    var next := ModuleDepsFold(converted[i + 1..], known);
    if path.Ok? && path.value in known {
      AppendAssoc(done, [path.value], next.paths);
      AppendAssoc(done, [path.value], next.projects);
    } else {
      assert done + [] == done;
    }
  }

  // ---------------------------------------------------------------------------
  // The remote-dependency streams

  /** What the Maven stream over a target's workspace dependencies added to
    * the configuration, and whether it got to the end. */
  datatype MavenFold = MavenFold(coordinates: seq<MavenCoordinate>, outcome: Result<()>)

  /** The Maven stream: each remote dependency's coordinate is added in
    * order, and the first that has none stops the stream. */
  function MavenDepsFold(remotes: seq<ExternalTarget>): MavenFold
    decreases |remotes|
  {
    if remotes == [] then MavenFold([], Ok(()))
    else
      match CreateMavenDependency(remotes[0])
      case Err(e) => MavenFold([], Err(e))
      case Ok(c) =>
        var rest := MavenDepsFold(remotes[1..]);
        MavenFold([c] + rest.coordinates, rest.outcome)
  }

  /** The stream adds the coordinates of a prefix of the remote
    * dependencies, all of them when every one has a coordinate, and
    * otherwise stops with the failure of the first that has none. */
  lemma {:induction false} MavenDepsFoldSpec(remotes: seq<ExternalTarget>)
    ensures var f := MavenDepsFold(remotes);
      && |f.coordinates| <= |remotes|
      && (forall i :: 0 <= i < |f.coordinates| ==> CreateMavenDependency(remotes[i]) == Ok(f.coordinates[i]))
      && (f.outcome.Ok? <==> forall i :: 0 <= i < |remotes| ==> CreateMavenDependency(remotes[i]).Ok?)
      && (f.outcome.Ok? ==> |f.coordinates| == |remotes|)
      && (f.outcome.Err? ==>
            |f.coordinates| < |remotes| && CreateMavenDependency(remotes[|f.coordinates|]) == Err(f.outcome.error))
    decreases |remotes|
  {
    if remotes != [] && CreateMavenDependency(remotes[0]).Ok? {
      MavenDepsFoldSpec(remotes[1..]);
    }
  }

  /** One step of the Maven stream from position `i`. */
  lemma MavenDepsFoldFrom(remotes: seq<ExternalTarget>, i: nat)
    requires i < |remotes|
    ensures var here, next, c := MavenDepsFold(remotes[i..]), MavenDepsFold(remotes[i + 1..]), CreateMavenDependency(remotes[i]);
      here == if c.Err? then MavenFold([], Err(c.error)) else MavenFold([c.value] + next.coordinates, next.outcome)
  {
    assert remotes[i..][1..] == remotes[i + 1..];
  }

  /** The library stream: the local path of every remote dependency's jar. */
  function LibraryPaths(info: map<string, string>, remotes: seq<ExternalTarget>): (r: set<string>)
    ensures forall i :: 0 <= i < |remotes| ==> ExternalJarPath(info, remotes[i].jarPath) in r
    ensures forall p :: p in r ==> exists i :: 0 <= i < |remotes| && p == ExternalJarPath(info, remotes[i].jarPath)
  {
    set i | 0 <= i < |remotes| :: ExternalJarPath(info, remotes[i].jarPath)
  }

  // ---------------------------------------------------------------------------
  // The module's tasks

  /** A task of the module, by class. */
  datatype ModuleTask =
    | Lifecycle
    | Exec(exec: ExecTask)
    | AarJar(aar: AarPackage)
    | Cleaner(clean: BazelTargetCleanTask)

  /** Gradle's failure for a task name the module already has. */
  function DuplicateTask(name: string): Exc {
    Throw(Runtime, "Cannot add task '" + name + "' as a task with that name already exists.")
  }

  /** The module's tasks only grow: every task keeps its name and class. */
  predicate TasksKept(before: map<string, ModuleTask>, after: map<string, ModuleTask>) {
    forall n :: n in before ==> n in after && after[n] == before[n]
  }

  /** The module's tasks, the dependencies between them, and the output
    * files and input folders each declares. */
  class TaskGraph {
    var tasks: map<string, ModuleTask>
    var dependsOn: set<(string, string)>
    var outputs: map<string, seq<string>>
    var inputDirs: map<string, set<string>>

    /** Every task declares outputs and inputs, none at first. */
    predicate Valid()
      reads this
    {
      outputs.Keys == tasks.Keys && inputDirs.Keys == tasks.Keys
    }

    /** The lifecycle tasks `apply` creates: `check` depends on `assemble`. */
    constructor ()
      ensures Valid()
      ensures tasks == map["assemble" := Lifecycle, "check" := Lifecycle] && dependsOn == {("check", "assemble")}
      ensures outputs == map["assemble" := [], "check" := []] && inputDirs == map["assemble" := {}, "check" := {}]
    {
      tasks := map["assemble" := Lifecycle, "check" := Lifecycle];
      dependsOn := {("check", "assemble")};
      outputs, inputDirs := map["assemble" := [], "check" := []], map["assemble" := {}, "check" := {}];
    }

    /** `project.task(...)`: a name already taken is an error. */
    method Create(name: string, t: ModuleTask) returns (r: Result<()>)
      requires Valid()
      modifies this
      ensures Valid() && dependsOn == old(dependsOn)
      ensures name in old(tasks) ==> r == Err(DuplicateTask(name)) && unchanged(this)
      ensures name !in old(tasks) ==>
        && r == Ok(()) && tasks == old(tasks)[name := t]
        && outputs == old(outputs)[name := []] && inputDirs == old(inputDirs)[name := {}]
    {
      if name in tasks {
        return Err(DuplicateTask(name));
      }
      tasks, outputs, inputDirs := tasks[name := t], outputs[name := []], inputDirs[name := {}];
      return Ok(());
    }

    /** `task.dependsOn(dependency)`. */
    method DependOn(task: string, dependency: string)
      modifies this
      ensures dependsOn == old(dependsOn) + {(task, dependency)}
      ensures tasks == old(tasks) && outputs == old(outputs) && inputDirs == old(inputDirs)
    {
      dependsOn := dependsOn + {(task, dependency)};
    }

    /** `task.getOutputs().file`, for each of `files` in turn. */
    method AddOutputFiles(task: string, files: seq<string>)
      requires Valid() && task in tasks
      modifies this
      ensures Valid()
      ensures outputs == old(outputs)[task := old(outputs)[task] + files]
      ensures tasks == old(tasks) && dependsOn == old(dependsOn) && inputDirs == old(inputDirs)
    {
      outputs := outputs[task := outputs[task] + files];
    }

    /** `dirs.forEach(task.getInputs()::dir)`. */
    method AddInputDirs(task: string, dirs: set<string>)
      requires Valid() && task in tasks
      modifies this
      ensures inputDirs == old(inputDirs)[task := old(inputDirs)[task] + dirs]
      ensures tasks == old(tasks) && dependsOn == old(dependsOn) && outputs == old(outputs)
    {
      inputDirs := inputDirs[task := inputDirs[task] + dirs];
    }
  }

  // ---------------------------------------------------------------------------
  // The streams, element by element

  /** The module-dependency stream over a target's module dependencies: what
    * it hands to the IDE model (`paths`) and to the configuration
    * (`projects`), and whether it got to the end. */
  method ModuleDependencyStream(deps: seq<LocalBazelTarget>, known: set<string>)
    returns (paths: seq<string>, projects: seq<string>, r: Result<()>)
    ensures ModuleFold(paths, projects, r) == ModuleDepsFold(Conversions(deps), known)
  {
    ghost var converted := Conversions(deps);
    ModuleFoldStart(converted, known);
    paths := [];
    var i := 0;
    while i < |deps|
      invariant 0 <= i <= |deps| && ModuleFoldReached(converted, known, i, paths)
    {
      ModuleFoldAdvance(converted, known, i, paths);
      var path := ConvertLocalBazelDepToGradle(deps[i]);
      if path.Err? {
        return paths, paths, Err(path.error);
      }
      if path.value !in known {
        return paths + [path.value], paths, Err(UnknownProject(path.value));
      }
      paths := paths + [path.value];
      i := i + 1;
    }
    ModuleFoldEnd(converted, known, paths);
    return paths, paths, Ok(());
  }

  /** The module-dependency stream into collection `c` of the IDE model and
    * the configuration's dependencies. */
  method AddModuleDependencies(conf: DefaultConfiguration, model: HatchejModel, c: Collection,
                               deps: seq<LocalBazelTarget>, known: set<string>) returns (r: Result<()>)
    modifies conf, model
    ensures var f := ModuleDepsFold(Conversions(deps), known);
      && r == f.outcome
      && model.Contents() == old(model.Contents()).Grown(c, SetOf(f.paths))
      && conf.dependencies == old(conf.dependencies) + GradleProjects(f.projects)
    ensures conf.artifacts == old(conf.artifacts)
  {
    var paths, projects;
    paths, projects, r := ModuleDependencyStream(deps, known);
    model.AddAll(c, SetOf(paths));
    conf.AddDependencies(GradleProjects(projects));
  }

  /** The Maven stream over a target's workspace dependencies: the
    * coordinates it hands to the configuration, and whether it got to the
    * end. */
  method MavenDependencyStream(remotes: seq<ExternalTarget>) returns (coordinates: seq<MavenCoordinate>, r: Result<()>)
    ensures MavenFold(coordinates, r) == MavenDepsFold(remotes)
  {
    ghost var f := MavenDepsFold(remotes);
    assert remotes[0..] == remotes;
    coordinates := [];
    var i := 0;
    while i < |remotes|
      invariant 0 <= i <= |remotes|
      invariant var rest := MavenDepsFold(remotes[i..]);
        f.coordinates == coordinates + rest.coordinates && f.outcome == rest.outcome
    {
      MavenDepsFoldFrom(remotes, i);
      ghost var next := MavenDepsFold(remotes[i + 1..]);
      var coordinate := CreateMavenDependency(remotes[i]);
      if coordinate.Err? {
        assert coordinates + [] == coordinates;
        return coordinates, Err(coordinate.error);
      }
      AppendAssoc(coordinates, [coordinate.value], next.coordinates);
      coordinates := coordinates + [coordinate.value];
      i := i + 1;
    }
    assert remotes[i..] == [] && coordinates + [] == coordinates;
    return coordinates, Ok(());
  }

  /** The Maven stream into the configuration's dependencies. */
  method AddMavenDependencies(conf: DefaultConfiguration, remotes: seq<ExternalTarget>) returns (r: Result<()>)
    modifies conf
    ensures var f := MavenDepsFold(remotes);
      r == f.outcome && conf.dependencies == old(conf.dependencies) + ExternalModules(f.coordinates)
    ensures conf.artifacts == old(conf.artifacts)
  {
    var coordinates;
    coordinates, r := MavenDependencyStream(remotes);
    conf.AddDependencies(ExternalModules(coordinates));
  }

  /** The files of the artifacts, in order. */
  function ArtifactFiles(artifacts: seq<PublishArtifact>): (r: seq<string>)
    ensures |r| == |artifacts| && forall i :: 0 <= i < |r| ==> r[i] == artifacts[i].file
  {
    seq(|artifacts|, i requires 0 <= i < |artifacts| => artifacts[i].file)
  }

  /** The artifact stream: every artifact is published on the configuration,
    * its file becomes a project output of the IDE model and an output file
    * of the build task `task`. */
  method PublishArtifacts(conf: DefaultConfiguration, model: HatchejModel, graph: TaskGraph, task: string,
                          artifacts: seq<PublishArtifact>)
    requires graph.Valid() && task in graph.tasks
    modifies conf, model, graph
    ensures conf.artifacts == old(conf.artifacts) + artifacts && conf.dependencies == old(conf.dependencies)
    ensures model.Contents() == old(model.Contents()).Grown(ProjectOutputs, SetOf(ArtifactFiles(artifacts)))
    ensures graph.Valid() && graph.outputs == old(graph.outputs)[task := old(graph.outputs)[task] + ArtifactFiles(artifacts)]
    ensures graph.tasks == old(graph.tasks) && graph.dependsOn == old(graph.dependsOn) && graph.inputDirs == old(graph.inputDirs)
  {
    var files := ArtifactFiles(artifacts);
    conf.AddArtifacts(artifacts);
    model.AddAll(ProjectOutputs, SetOf(files));
    graph.AddOutputFiles(task, files);
  }
}
