/** The part of the local file system the plugin reads and writes, with the
  * environment's failures (a path that cannot be created or written, a file
  * that cannot be deleted) fixed when the file system is set up. */
module Files {
  import Xml

  /** What a file holds, as far as the plugin looks at it. */
  datatype Content =
    | Blank                         // an empty file such as the aspects folder's BUILD.bazel
    | Lines(lines: seq<string>)     // a text file, read line by line
    | XmlDoc(root: Xml.Node)        // a parsed XML document (.iml, library .xml)
    | Resource(name: string)        // a copy of a classpath resource (an aspect .bzl file)
    | Binary                        // anything else (a downloaded executable)

  class FileSystem {
    var files: map<string, Content>
    var dirs: set<string>
    /** Paths where `mkdirs` or a `FileWriter` fails. */
    const readOnly: set<string>
    /** Files whose `delete()` returns false. */
    const locked: set<string>

    constructor (files0: map<string, Content>, dirs0: set<string>, readOnly0: set<string>, locked0: set<string>)
      ensures files == files0 && dirs == dirs0 && readOnly == readOnly0 && locked == locked0
    {
      files, dirs, readOnly, locked := files0, dirs0, readOnly0, locked0;
    }

    /** `File.exists()`. */
    predicate Exists(p: string)
      reads this
    {
      p in files || p in dirs
    }

    /** `File.isDirectory()`. */
    predicate IsDirectory(p: string)
      reads this
    {
      p in dirs
    }

    /** `File.mkdirs()`: true only when the directory was created now. */
    method Mkdirs(p: string) returns (created: bool)
      modifies this
      ensures created == (!old(Exists(p)) && p !in readOnly)
      ensures dirs == if created then old(dirs) + {p} else old(dirs)
      ensures files == old(files)
    {
      created := !Exists(p) && p !in readOnly;
      if created {
        dirs := dirs + {p};
      }
    }

    /** Writing a whole file; false stands for the IOException of the writer. */
    method Write(p: string, c: Content) returns (ok: bool)
      modifies this
      ensures ok == (p !in readOnly && p !in old(dirs))
      ensures files == if ok then old(files)[p := c] else old(files)
      ensures dirs == old(dirs)
    {
      ok := p !in readOnly && p !in dirs;
      if ok {
        files := files[p := c];
      }
    }

    /** `File.delete()` on a file. */
    method Delete(p: string) returns (ok: bool)
      modifies this
      ensures ok == (p in old(files) && p !in locked)
      ensures files == if ok then old(files) - {p} else old(files)
      ensures dirs == old(dirs)
    {
      ok := p in files && p !in locked;
      if ok {
        files := files - {p};
      }
    }
  }
}
