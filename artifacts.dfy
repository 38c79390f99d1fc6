/** The artifacts the plugin publishes on a module's outgoing configuration. */
module Artifacts {
  import opened Common
  import opened Strings
  import opened Paths

  /** `BazelPublishArtifact`: a file produced by the task named `task`; its
    * name, extension and type are read off the file name. */
  datatype PublishArtifact = PublishArtifact(task: string, file: string) {
    /** `getName()`: the file's name, without any directory. */
    function Name(): (r: string)
      ensures '/' !in r
    {
      FileName(file)
    }

    /** `getExtension()`: what follows the last '.' of the name, or "" when the
      * name has no '.'. */
    function Extension(): (r: string)
      ensures '.' !in r
      ensures '.' in Name() ==> EndsWith(Name(), "." + r)
      ensures '.' !in Name() ==> r == ""
    {
      SubstringAfterLastChar(Name(), '.')
    }

    /** `getType()` is the extension. */
    function Type(): string {
      Extension()
    }

    function Classifier(): Option<string> {
      None
    }
  }

  /** A file `dir/base.ext` is published under the name `base.ext` with
    * extension and type `ext`. */
  lemma {:induction false} PublishArtifactNaming(task: string, dir: string, base: string, ext: string)
    requires |dir| > 1 && dir[|dir| - 1] != '/'
    requires '/' !in base && '/' !in ext && '.' !in ext
    ensures var a := PublishArtifact(task, Child(dir, base + "." + ext));
      a.Name() == base + "." + ext && a.Extension() == ext && a.Type() == ext && a.Classifier() == None
  {
    var child := base + "." + ext;
    assert '/' !in child by {
      forall i | 0 <= i < |child| ensures child[i] != '/' {
        if i < |base| { assert child[i] == base[i]; }
        else if i > |base| { assert child[i] == ext[i - |base| - 1]; }
      }
    }
    ChildParts(dir, child);
    assert child == base + ['.'] + ext;
    SplitAtLast(base, '.', ext);
  }

  /** `BazelArtifact`: an artifact whose name, extension and type are fixed
    * ("lib2", "jar", "jar") whatever file it wraps. */
  datatype FixedJarArtifact = FixedJarArtifact(task: string, file: string) {
    function Name(): string { "lib2" }
    function Extension(): string { "jar" }
    function Type(): string { "jar" }
    function Classifier(): Option<string> { None }
  }
}
