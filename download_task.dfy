/** `DownloadBazelTask`: the root project's task that downloads a Bazel
  * binary to the configured path, and the choice of the download URL by the
  * running operating system. */
module DownloadTask {
  import opened Common
  import opened Strings
  import opened Paths
  import opened Files
  import opened SystemEnvironment

  /** The property holding the download URL for the operating system with the
    * given `os.name`: the same test as `getOsType`, written out again. */
  function UrlPropertyName(osNameProperty: Option<string>): string {
    var osName := ToLower(osNameProperty.GetOr("none"));
    if Contains(osName, "mac") || Contains(osName, "darwin") then "bazel.bin.url.macos"
    else if Contains(osName, "win") then "bazel.bin.url.windows"
    else "bazel.bin.url.linux"
  }

  /** The URL property of an operating system. */
  function OsUrlProperty(os: OsType): (r: string)
    ensures StartsWith(r, "bazel.bin.url.")
  {
    match os
    case Linux => "bazel.bin.url.linux"
    case MacOs => "bazel.bin.url.macos"
    case Windows => "bazel.bin.url.windows"
  }

  /** The property `injectDownloadTask` reads is the one of the operating
    * system `SystemEnvironment` detects, and different systems read
    * different properties. */
  lemma UrlPropertyFollowsOsType(osNameProperty: Option<string>)
    ensures UrlPropertyName(osNameProperty) == OsUrlProperty(GetOsType(osNameProperty))
  {
  }

  lemma {:induction false} OsUrlPropertyInjective(a: OsType, b: OsType)
    ensures OsUrlProperty(a) == OsUrlProperty(b) <==> a == b
  {
    if a != b {
      var ra, rb := OsUrlProperty(a), OsUrlProperty(b);
      assert ra[14] != rb[14];
    }
  }

  /** What the root project's properties hold under a name: nothing, a
    * String, or some other object. */
  datatype PropertyValue = NoValue | Text(text: string) | OtherValue

  /** `injectTask` creates or returns a task only for a non-empty String URL. */
  predicate IsUrl(v: PropertyValue) {
    v.Text? && v.text != ""
  }

  /** The message of the exception a failed transfer or write is wrapped in. */
  function DownloadFailure(file: string): string {
    "Failed to download Bazel to " + file + "! This could be a target path issue."
  }

  class DownloadBazelTask {
    var targetFile: Option<string>
    var downloadUrl: Option<string>

    constructor ()
      ensures targetFile.None? && downloadUrl.None?
    {
      targetFile, downloadUrl := None, None;
    }

    method SetTargetFile(file: string)
      modifies this
      ensures targetFile == Some(file) && downloadUrl == old(downloadUrl)
    {
      targetFile := Some(file);
    }

    method SetDownloadUrl(url: string)
      modifies this
      ensures downloadUrl == Some(url) && targetFile == old(targetFile)
    {
      downloadUrl := Some(url);
    }

    /** `download`: both settings must be present, the target file first;
      * the parent folder is created when missing, and a parent that is
      * neither there nor creatable is an IOException. Every failure of the
      * transfer itself, including writing the file, is a RuntimeException
      * that keeps its cause. `transfer` is the failure the network side
      * raises, if any. A path without a parent dereferences null. */
    method Download(fs: FileSystem, transfer: Option<Exc>) returns (r: Result<()>)
      modifies fs
      ensures targetFile.None? ==>
        r == Err(Throw(NullPointer, "targetFile needs to be set!")) && fs.files == old(fs.files) && fs.dirs == old(fs.dirs)
      ensures targetFile.Some? && downloadUrl.None? ==>
        r == Err(Throw(NullPointer, "downloadUrl needs to be set!")) && fs.files == old(fs.files) && fs.dirs == old(fs.dirs)
      ensures targetFile.Some? && downloadUrl.Some? && Parent(targetFile.value).None? ==>
        r.Err? && r.error.kind == NullPointer && fs.files == old(fs.files) && fs.dirs == old(fs.dirs)
      ensures targetFile.Some? && downloadUrl.Some? && Parent(targetFile.value).Some? ==>
        var file, parent := targetFile.value, Parent(targetFile.value).value;
        && (!old(fs.Exists(parent)) && parent in fs.readOnly ==>
              r == Err(Throw(IOError, "Failed to create parent folder for " + file))
              && fs.files == old(fs.files) && fs.dirs == old(fs.dirs))
        && (old(fs.Exists(parent)) || parent !in fs.readOnly ==>
              && fs.dirs == (if old(fs.Exists(parent)) then old(fs.dirs) else old(fs.dirs) + {parent})
              && (r.Ok? <==> transfer.None? && file !in fs.readOnly && file !in fs.dirs)
              && (r.Ok? ==> fs.files == old(fs.files)[file := Binary])
              && (r.Err? ==> fs.files == old(fs.files))
              && (r.Err? && transfer.Some? ==> r.error == Wrap(DownloadFailure(file), transfer.value))
              && (r.Err? && transfer.None? ==> r.error == Wrap(DownloadFailure(file), Throw(IOError, file))))
    {
      if targetFile.None? {
        return Err(Throw(NullPointer, "targetFile needs to be set!"));
      }
      if downloadUrl.None? {
        return Err(Throw(NullPointer, "downloadUrl needs to be set!"));
      }
      var file := targetFile.value;
      var parent := Parent(file);
      if parent.None? {
        return Err(Throw(NullPointer, ""));
      }
      if !fs.Exists(parent.value) {
        var created := fs.Mkdirs(parent.value);
        if !created {
          return Err(Throw(IOError, "Failed to create parent folder for " + file));
        }
      }
      if transfer.Some? {
        return Err(Wrap(DownloadFailure(file), transfer.value));
      }
      var written := fs.Write(file, Binary);
      if !written {
        return Err(Wrap(DownloadFailure(file), Throw(IOError, file)));
      }
      return Ok(());
    }
  }
}
