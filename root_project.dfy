/** The root project's tasks the plugin creates once for the whole build:
  * `downloadBazel`, `bazelClean`, `bazelExpungeClean` and `bazelInfo`. The
  * first module that applies the plugin creates them; later modules find
  * them by name and leave them as they are. */
module RootProject {
  import opened Common
  import opened LeafConfig
  import opened BazelTasks
  import opened DownloadTask

  /** A task registered in the root project, by class. */
  datatype RootTask =
    | ExecTask(exec: BazelExecTask)
    | Downloader(download: DownloadBazelTask)
    | OtherTask

  const DownloadTaskName := "downloadBazel"

  /** The workspace-wide tasks, each with the kind of task created under it. */
  function RootExecKind(name: string): Option<TaskKind> {
    if name == "bazelClean" then Some(Clean)
    else if name == "bazelExpungeClean" then Some(Expunge)
    else if name == "bazelInfo" then Some(Info)
    else None
  }

  const RootExecNames: set<string> := {"bazelClean", "bazelExpungeClean", "bazelInfo"}

  /** Exactly the three names carry a kind, and each a different one. */
  lemma RootExecNamesHaveKinds(a: string, b: string)
    ensures RootExecKind(a).Some? <==> a in RootExecNames
    ensures RootExecKind(a).Some? && RootExecKind(a) == RootExecKind(b) ==> a == b
    ensures RootExecKind(a).Some? ==> RootExecKind(a).value in {Clean, Expunge, Info}
  {
  }

  /** A task of the given kind set up with `config` by `setBazelConfig`. */
  predicate ConfiguredExec(t: RootTask, kind: TaskKind, config: Decorated)
    reads if t.ExecTask? then {t.exec} else {}
  {
    t.ExecTask? && t.exec.kind == kind && t.exec.config == Some(config)
    && t.exec.description == Some(Description(kind, config)) && t.exec.group == Some(Group(kind))
  }

  class RootProject {
    var tasks: map<string, RootTask>

    constructor (tasks0: map<string, RootTask>)
      ensures tasks == tasks0
    {
      tasks := tasks0;
    }

    /** `injectTask`: for a non-empty String URL, creates `downloadBazel` with
      * the URL and the binary path unless the root project already has it,
      * in which case the existing task is returned unchanged (and a task of
      * another class under that name fails the cast); any other URL value
      * gives null and creates nothing. */
    method InjectTask(urlValue: PropertyValue, bazelBinPath: string) returns (r: Result<Option<DownloadBazelTask>>)
      modifies this
      ensures !IsUrl(urlValue) ==> r == Ok(None) && tasks == old(tasks)
      ensures IsUrl(urlValue) && DownloadTaskName !in old(tasks) ==>
        && r.Ok? && r.value.Some? && fresh(r.value.value)
        && tasks == old(tasks)[DownloadTaskName := Downloader(r.value.value)]
        && r.value.value.downloadUrl == Some(urlValue.text) && r.value.value.targetFile == Some(bazelBinPath)
      ensures IsUrl(urlValue) && DownloadTaskName in old(tasks) ==>
        && tasks == old(tasks)
        && (old(tasks)[DownloadTaskName].Downloader? ==> r == Ok(Some(old(tasks)[DownloadTaskName].download)))
        && (!old(tasks)[DownloadTaskName].Downloader? ==> r.Err? && r.error.kind == ClassCast)
    {
      if !IsUrl(urlValue) {
        return Ok(None);
      }
      if DownloadTaskName in tasks {
        var existing := tasks[DownloadTaskName];
        if !existing.Downloader? {
          return Err(Throw(ClassCast, "DownloadBazelTask"));
        }
        return Ok(Some(existing.download));
      }
      var task := new DownloadBazelTask();
      task.SetDownloadUrl(urlValue.text);
      task.SetTargetFile(bazelBinPath);
      tasks := tasks[DownloadTaskName := Downloader(task)];
      return Ok(Some(task));
    }

    /** `injectDownloadTask`: reads the URL property of the running operating
      * system from the root project's properties and injects the task. */
    method InjectDownloadTask(osNameProperty: Option<string>, properties: map<string, PropertyValue>, bazelBinPath: string)
      returns (r: Result<Option<DownloadBazelTask>>)
      modifies this
      ensures var name := UrlPropertyName(osNameProperty);
        !(name in properties && IsUrl(properties[name])) ==> r == Ok(None) && tasks == old(tasks)
      ensures var name := UrlPropertyName(osNameProperty);
        name in properties && IsUrl(properties[name]) && DownloadTaskName !in old(tasks) ==>
        && r.Ok? && r.value.Some? && fresh(r.value.value)
        && tasks == old(tasks)[DownloadTaskName := Downloader(r.value.value)]
        && r.value.value.downloadUrl == Some(properties[name].text) && r.value.value.targetFile == Some(bazelBinPath)
      ensures var name := UrlPropertyName(osNameProperty);
        name in properties && IsUrl(properties[name]) && DownloadTaskName in old(tasks) ==>
        && tasks == old(tasks)
        && (old(tasks)[DownloadTaskName].Downloader? ==> r == Ok(Some(old(tasks)[DownloadTaskName].download)))
        && (!old(tasks)[DownloadTaskName].Downloader? ==> r.Err? && r.error.kind == ClassCast)
    {
      var name := UrlPropertyName(osNameProperty);
      var urlValue := if name in properties then properties[name] else NoValue;
      r := InjectTask(urlValue, bazelBinPath);
    }

    /** One block of `addBazelTasksToRootProject`: creates the task of the
      * name's kind with `config` unless the name is taken. */
    method AddExecTask(name: string, kind: TaskKind, config: Decorated)
      modifies this
      ensures name in old(tasks) ==> tasks == old(tasks)
      ensures name !in old(tasks) ==>
        && tasks.Keys == old(tasks).Keys + {name}
        && (forall n :: n in old(tasks) ==> tasks[n] == old(tasks)[n])
        && ConfiguredExec(tasks[name], kind, config) && fresh(tasks[name].exec)
    {
      if name !in tasks {
        var task := new BazelExecTask(kind);
        task.SetBazelConfig(config);
        tasks := tasks[name := ExecTask(task)];
      }
    }

    /** `addBazelTasksToRootProject`: each of the three workspace-wide tasks
      * the root project lacks is created with this module's configuration;
      * tasks already there, whatever their configuration, stay. So only the
      * first module's configuration is used, and once the three exist a
      * further call changes nothing. */
    method AddBazelTasksToRootProject(config: Decorated)
      modifies this
      ensures tasks.Keys == old(tasks).Keys + RootExecNames
      ensures forall n :: n in old(tasks) ==> tasks[n] == old(tasks)[n]
      ensures forall n :: n in RootExecNames && n !in old(tasks) ==>
        ConfiguredExec(tasks[n], RootExecKind(n).value, config) && fresh(tasks[n].exec)
      ensures RootExecNames <= old(tasks).Keys ==> tasks == old(tasks)
    {
      AddExecTask("bazelClean", Clean, config);
      AddExecTask("bazelExpungeClean", Expunge, config);
      AddExecTask("bazelInfo", Info, config);
    }
  }
}
