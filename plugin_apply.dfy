/** `BazelLeafPlugin.apply`: the check, made once per build when the
  * download task is injected, that the configured Bazel binary runs, with
  * one download attempt when it does not. */
module PluginApply {
  import opened Common
  import opened Files
  import opened Paths
  import opened BazelExecHelper
  import opened DownloadTask
  import opened RootProject

  /** `isBazelExecutable`: `bazel version` in the workspace root exits with 0.
    * A failed start counts as not executable; exceptions of other classes
    * pass through. `run` is what the process does. */
  function IsBazelExecutable(bazelBinPath: string, workspaceRootFolder: string, run: ProcessRun): (r: Result<bool>)
    ensures r == Ok(true) <==> run.Ran? && run.exitCode == 0
    ensures r == Ok(false) <==> (run.Ran? && run.exitCode != 0) || (run.Threw? && run.exc.kind in {IOError, Interrupted})
    ensures r.Err? <==> run.Threw? && run.exc.kind !in {IOError, Interrupted}
    ensures r.Err? ==> r.error == run.exc
  {
    var started := Start(VersionExec(bazelBinPath, workspaceRootFolder), run).result;
    if started.Ok? then Ok(started.value.exitCode == 0)
    else if started.error.kind in {IOError, Interrupted} then Ok(false)
    else Err(started.error)
  }

  /** The exec `isBazelExecutable` starts. */
  function VersionExec(bazelBinPath: string, workspaceRootFolder: string): (r: BazelExec)
    ensures r.command == [bazelBinPath, "version"] + BasicExecArgs
    ensures r.directory == workspaceRootFolder && r.outputToConsole
  {
    CreateBazelRunRaw(true, bazelBinPath, workspaceRootFolder, "version", [])
  }

  /** `checkIsBazelBinaryValid`: a binary that runs is valid without a
    * download. Otherwise the task downloads once: an IOException (a parent
    * folder that cannot be created) means invalid, any other failure of the
    * download propagates, and after a download the binary is checked again.
    * `first` and `second` are the two `bazel version` runs; `downloaded` is
    * the outcome of the download, when there was one. */
  method CheckIsBazelBinaryValid(fs: FileSystem, task: DownloadBazelTask, bazelBinPath: string, workspaceRootFolder: string,
                                 first: ProcessRun, transfer: Option<Exc>, second: ProcessRun)
    returns (r: Result<bool>, downloaded: Option<Result<()>>)
    modifies fs
    ensures var before := IsBazelExecutable(bazelBinPath, workspaceRootFolder, first);
      before != Ok(false) ==> r == before && downloaded.None? && fs.files == old(fs.files) && fs.dirs == old(fs.dirs)
    ensures IsBazelExecutable(bazelBinPath, workspaceRootFolder, first) == Ok(false) ==>
      && downloaded.Some?
      && (downloaded.value.Ok? ==> r == IsBazelExecutable(bazelBinPath, workspaceRootFolder, second))
      && (downloaded.value.Err? && downloaded.value.error.kind == IOError ==> r == Ok(false))
      && (downloaded.value.Err? && downloaded.value.error.kind != IOError ==> r == Err(downloaded.value.error))
    ensures var file := task.targetFile;
      && IsBazelExecutable(bazelBinPath, workspaceRootFolder, first) == Ok(false)
      && file.Some? && task.downloadUrl.Some? && Parent(file.value).Some?
      && (old(fs.Exists(Parent(file.value).value)) || Parent(file.value).value !in fs.readOnly)
      ==>
      && (downloaded.value.Ok? <==> transfer.None? && file.value !in fs.readOnly && file.value !in fs.dirs)
      && (downloaded.value.Ok? ==> fs.files == old(fs.files)[file.value := Binary])
  {
    var before := IsBazelExecutable(bazelBinPath, workspaceRootFolder, first);
    if before != Ok(false) {
      return before, None;
    }
    var d := task.Download(fs, transfer);
    downloaded := Some(d);
    if d.Err? {
      if d.error.kind == IOError {
        return Ok(false), downloaded;
      }
      return Err(d.error), downloaded;
    }
    r := IsBazelExecutable(bazelBinPath, workspaceRootFolder, second);
  }

  function InvalidBinaryMessage(bazelBinPath: string): string {
    "Bazel binary at " + bazelBinPath + " is invalid, and was unable to download a valid binary."
  }

  /** What `apply` makes of the validity check's outcome. */
  function ApplyOutcome(bazelBinPath: string, check: Result<bool>): (r: Result<()>)
    ensures r.Ok? <==> check == Ok(true)
    ensures check.Err? ==> r == Err(check.error)
    ensures check == Ok(false) ==> r == Err(Throw(IllegalState, InvalidBinaryMessage(bazelBinPath)))
  {
    match check
    case Err(e) => Err(e)
    case Ok(valid) => if valid then Ok(()) else Err(Throw(IllegalState, InvalidBinaryMessage(bazelBinPath)))
  }

  /** The binary check of `apply`: it happens only when a download task is
    * available (a URL is configured for this operating system), and an
    * invalid binary that could not be replaced stops the build with an
    * IllegalStateException. `check` is the validity verdict, when the check
    * ran, and `downloaded` the outcome of the download, when there was one. */
  method Apply(root: RootProject, fs: FileSystem, osNameProperty: Option<string>, properties: map<string, PropertyValue>,
               bazelBinPath: string, rootDir: string, first: ProcessRun, transfer: Option<Exc>, second: ProcessRun)
    returns (r: Result<()>, check: Option<Result<bool>>, downloaded: Option<Result<()>>)
    modifies root, fs
    ensures var name := UrlPropertyName(osNameProperty);
      !(name in properties && IsUrl(properties[name])) ==>
        r == Ok(()) && check.None? && root.tasks == old(root.tasks) && fs.files == old(fs.files) && fs.dirs == old(fs.dirs)
    ensures check.Some? ==> r == ApplyOutcome(bazelBinPath, check.value)
    ensures check.Some? && IsBazelExecutable(bazelBinPath, rootDir, first) != Ok(false) ==>
      check.value == IsBazelExecutable(bazelBinPath, rootDir, first) && fs.files == old(fs.files) && fs.dirs == old(fs.dirs)
    ensures check.None? && r.Err? ==> r.error.kind == ClassCast
    ensures var name := UrlPropertyName(osNameProperty);
      name in properties && IsUrl(properties[name]) && (DownloadTaskName !in old(root.tasks) || old(root.tasks)[DownloadTaskName].Downloader?) ==>
        check.Some?
    ensures var name := UrlPropertyName(osNameProperty);
      name in properties && IsUrl(properties[name]) && DownloadTaskName !in old(root.tasks) ==>
        && DownloadTaskName in root.tasks && root.tasks[DownloadTaskName].Downloader?
        && root.tasks == old(root.tasks)[DownloadTaskName := root.tasks[DownloadTaskName]]
        && root.tasks[DownloadTaskName].download.downloadUrl == Some(properties[name].text)
        && root.tasks[DownloadTaskName].download.targetFile == Some(bazelBinPath)
    ensures DownloadTaskName in old(root.tasks) ==> root.tasks == old(root.tasks)
    ensures check.None? || IsBazelExecutable(bazelBinPath, rootDir, first) != Ok(false) ==> downloaded.None?
    ensures check.Some? && IsBazelExecutable(bazelBinPath, rootDir, first) == Ok(false) ==>
      && downloaded.Some?
      && (downloaded.value.Ok? ==> check.value == IsBazelExecutable(bazelBinPath, rootDir, second))
      && (downloaded.value.Err? && downloaded.value.error.kind == IOError ==> check.value == Ok(false))
      && (downloaded.value.Err? && downloaded.value.error.kind != IOError ==> check.value == Err(downloaded.value.error))
    ensures var name := UrlPropertyName(osNameProperty);
      name in properties && IsUrl(properties[name]) && DownloadTaskName !in old(root.tasks) &&
      IsBazelExecutable(bazelBinPath, rootDir, first) == Ok(false) && Parent(bazelBinPath).Some? &&
      (old(fs.Exists(Parent(bazelBinPath).value)) || Parent(bazelBinPath).value !in fs.readOnly) ==>
        && downloaded.Some?
        && (downloaded.value.Ok? <==> transfer.None? && bazelBinPath !in fs.readOnly && bazelBinPath !in fs.dirs)
        && (downloaded.value.Ok? ==> fs.files == old(fs.files)[bazelBinPath := Binary])
  {
    var injected := root.InjectDownloadTask(osNameProperty, properties, bazelBinPath);
    if injected.Err? {
      return Err(injected.error), None, None;
    }
    if injected.value.None? {
      return Ok(()), None, None;
    }
    var valid;
    valid, downloaded := CheckIsBazelBinaryValid(fs, injected.value.value, bazelBinPath, rootDir, first, transfer, second);
    return ApplyOutcome(bazelBinPath, valid), Some(valid), downloaded;
  }

  /** A binary that runs needs no download and passes the check; one that
    * does not run and is not replaced fails it. */
  lemma RunningBinaryIsValid(bazelBinPath: string, rootDir: string, output: string, errorOutput: string)
    ensures IsBazelExecutable(bazelBinPath, rootDir, Ran(0, output, errorOutput)) == Ok(true)
    ensures ApplyOutcome(bazelBinPath, IsBazelExecutable(bazelBinPath, rootDir, Ran(0, output, errorOutput))) == Ok(())
  {
  }

  lemma BrokenBinaryFails(bazelBinPath: string, rootDir: string, code: int, output: string, errorOutput: string)
    requires code != 0
    ensures ApplyOutcome(bazelBinPath, IsBazelExecutable(bazelBinPath, rootDir, Ran(code, output, errorOutput)))
      == Err(Throw(IllegalState, InvalidBinaryMessage(bazelBinPath)))
  {
  }
}
