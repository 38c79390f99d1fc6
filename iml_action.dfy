/** The IntelliJ side of the bridge: rewrites a module's `.iml` file from the
  * HatchejModel and writes one `.idea/libraries/<name>.xml` per library. */
module HatchejImlAction {
  import opened Common
  import opened Strings
  import opened Paths
  import opened Xml
  import opened Files
  import opened LeafConfig
  import opened HatchejModel

  const JarPrefix := "jar://"
  const JarSuffix := "!/"
  const ModuleDirUrl := "file://$MODULE_DIR$"

  /** `getJarUrl`: a dependency that already looks like a jar URL at either end
    * is kept, anything else is wrapped in "jar://" and "!/". */
  function GetJarUrl(path: string): (r: string)
    ensures StartsWith(r, JarPrefix) || EndsWith(r, JarSuffix)
    ensures StartsWith(path, JarPrefix) || EndsWith(path, JarSuffix) ==> r == path
  {
    if !StartsWith(path, JarPrefix) && !EndsWith(path, JarSuffix) then
      var r := JarPrefix + path + JarSuffix;
      assert r[..|JarPrefix|] == JarPrefix;
      r
    else path
  }

  /** Wrapping a URL a second time changes nothing. */
  lemma GetJarUrlIdempotent(path: string)
    ensures GetJarUrl(GetJarUrl(path)) == GetJarUrl(path)
  {
  }

  /** `getFilenameWithoutExtension`: the file name up to its last '.'. */
  function FilenameWithoutExtension(path: string): (r: string)
    ensures '/' !in r
    ensures '.' in FileName(path) ==> exists ext :: '.' !in ext && FileName(path) == r + "." + ext
    ensures '.' !in FileName(path) ==> r == FileName(path)
  {
    var name := FileName(path);
    var r := SubstringBeforeLastChar(name, '.');
    assert '.' in name ==> exists tail :: '.' !in tail && name == r + ['.'] + tail;
    assert forall i :: 0 <= i < |r| ==> r[i] in name by {
      if '.' in name {
        var tail :| '.' !in tail && name == r + ['.'] + tail;
        assert forall i :: 0 <= i < |r| ==> r[i] == name[i];
      }
    }
    r
  }

  /** `normalizePath`: every '/', '-' and '.' becomes '_', nothing else changes. */
  function NormalizePath(s: string): (r: string)
    ensures |r| == |s|
    ensures '/' !in r && '-' !in r && '.' !in r
    ensures forall i :: 0 <= i < |s| && s[i] in {'/', '-', '.'} ==> r[i] == '_'
    ensures forall i :: 0 <= i < |s| && s[i] !in {'/', '-', '.'} ==> r[i] == s[i]
  {
    ReplaceAny(s, {'/', '-', '.'}, '_')
  }

  /** The name a library gets in its `.idea/libraries` file. */
  function LibraryName(dependency: string): string {
    FilenameWithoutExtension(GetJarUrl(dependency))
  }

  /** `<root>/.idea/libraries`. */
  function LibrariesDir(project: Project): string {
    Child(project.rootDir, ".idea/libraries")
  }

  /** The library file of one dependency. */
  function LibraryFile(librariesDir: string, dependency: string): (r: string)
    ensures EndsWith(r, ".xml")
    ensures exists base :: '/' !in base && '.' !in base && r == Child(librariesDir, base + ".xml")
  {
    var base := NormalizePath(LibraryName(dependency));
    var name := base + ".xml";
    var r := Child(librariesDir, name);
    assert name[|name| - 4..] == ".xml";
    assert r[|r| - |name|..] == name;
    assert r[|r| - 4..] == name[|name| - 4..];
    assert '/' !in base && '.' !in base && r == Child(librariesDir, base + ".xml");
    r
  }

  /** The `component name=libraryTable` document of one library: the library
    * by name, its CLASSES root at the jar URL, and empty JAVADOC and SOURCES. */
  function LibraryXml(dependency: string): Node {
    Node("component", map["name" := "libraryTable"], [
      Node("library", map["name" := LibraryName(dependency)], [
        Node("CLASSES", map[], [Node("root", map["url" := GetJarUrl(dependency)], [])]),
        Node("JAVADOC", map[], []),
        Node("SOURCES", map[], [])])])
  }

  /** `libraryModuleNode`: the orderEntry that refers to a library by name. */
  function LibraryModuleNode(path: string, forTest: bool): (r: Node)
    ensures Selects(EntryOfType("library"), r) && !Selects(EntryOfType("module"), r)
    ensures HasAttr(r, "scope", "TEST") <==> forTest
    ensures HasAttr(r, "name", FilenameWithoutExtension(path)) && HasAttr(r, "level", "project")
  {
    var attrs := map["type" := "library", "name" := FilenameWithoutExtension(path), "exported" := ""];
    Node("orderEntry", (if forTest then attrs["scope" := "TEST"] else attrs)["level" := "project"], [])
  }

  /** For a jar `<dir>/<base>.<ext>` the library file, the library it declares
    * and the orderEntry that refers to it all use the name `base`. */
  lemma JarLibraryNames(dir: string, base: string, ext: string)
    requires '/' !in base && '/' !in ext && '.' !in ext
    requires !StartsWith(dir + "/" + base + "." + ext, JarPrefix)
    ensures GetJarUrl(dir + "/" + base + "." + ext) == JarPrefix + dir + "/" + base + "." + ext + JarSuffix
    ensures LibraryName(dir + "/" + base + "." + ext) == base
    ensures LibraryModuleNode(dir + "/" + base + "." + ext, false).attrs["name"] == base
  {
    JarUrlOfJar(dir, base, ext);
    LibraryNameOfJar(dir, base, ext);
    EntryNameOfJar(dir, base, ext);
  }

  lemma JarUrlOfJar(dir: string, base: string, ext: string)
    requires '/' !in ext
    requires !StartsWith(dir + "/" + base + "." + ext, JarPrefix)
    ensures GetJarUrl(dir + "/" + base + "." + ext) == JarPrefix + dir + "/" + base + "." + ext + JarSuffix
  {
    var name := base + "." + ext;
    var dep := dir + ['/'] + name;
    assert dep == dir + "/" + base + "." + ext;
    assert name[|name| - 1] != '/' by {
      assert name[|name| - 1] == '.' || name[|name| - 1] in ext;
    }
    JarUrlOfPlain(dep);
  }

  lemma LibraryNameOfJar(dir: string, base: string, ext: string)
    requires '/' !in base && '/' !in ext && '.' !in ext
    requires GetJarUrl(dir + "/" + base + "." + ext) == JarPrefix + dir + "/" + base + "." + ext + JarSuffix
    ensures LibraryName(dir + "/" + base + "." + ext) == base
  {
    var name := base + "." + ext;
    var dep := dir + ['/'] + name;
    assert dep == dir + "/" + base + "." + ext;
    var url := GetJarUrl(dep);
    assert url == (JarPrefix + dir) + ['/'] + name + JarSuffix;
    FileNameOfJarUrl(JarPrefix + dir, name);
    var file := FileName(url);
    assert file == base + "." + (ext + "!");
    NameBeforeDot(base, ext + "!");
    assert FilenameWithoutExtension(url) == SubstringBeforeLastChar(file, '.');
  }

  lemma EntryNameOfJar(dir: string, base: string, ext: string)
    requires '/' !in base && '/' !in ext && '.' !in ext
    ensures LibraryModuleNode(dir + "/" + base + "." + ext, false).attrs["name"] == base
  {
    var name := base + "." + ext;
    var dep := dir + ['/'] + name;
    assert dep == dir + "/" + base + "." + ext;
    FileNameOfLast(dir, name);
    NameBeforeDot(base, ext);
  }

  /** A path whose last character is not '/' and that does not start with
    * "jar://" is wrapped. */
  lemma JarUrlOfPlain(dep: string)
    requires dep != "" && dep[|dep| - 1] != '/' && !StartsWith(dep, JarPrefix)
    ensures GetJarUrl(dep) == JarPrefix + dep + JarSuffix
  {
  }

  /** The last name of `dir/name`, for a name without separators. */
  lemma FileNameOfLast(dir: string, name: string)
    requires '/' !in name && name != ""
    ensures FileName(dir + ['/'] + name) == name
  {
    var p := dir + ['/'] + name;
    assert p[|p| - 1] == name[|name| - 1];
    assert StripTrailingSlashes(p) == p;
    assert p[|dir|] == '/';
    SplitAtLast(dir, '/', name);
  }

  /** A jar URL ending in `/name!/` has the last name `name!`. */
  lemma FileNameOfJarUrl(prefix: string, name: string)
    requires '/' !in name && name != ""
    ensures FileName(prefix + ['/'] + name + JarSuffix) == name + "!"
  {
    var url := prefix + ['/'] + name + JarSuffix;
    var q := prefix + ['/'] + (name + "!");
    assert url == q + "/";
    assert url[..|url| - 1] == q;
    assert q[|q| - 1] == '!';
    assert StripTrailingSlashes(url) == StripTrailingSlashes(q);
    FileNameOfLast(prefix, name + "!");
  }

  lemma NameBeforeDot(base: string, ext: string)
    requires '.' !in ext
    ensures SubstringBeforeLastChar(base + "." + ext, '.') == base
  {
    assert base + "." + ext == base + ['.'] + ext;
    SplitAtLast(base, '.', ext);
  }

  /** A dependency that is a bare name: its jar URL wraps it, and both its
    * library name and its file name carry the '!' of the URL, while the
    * orderEntry refers to it by the bare name, so the two do not match. */
  lemma PlainDependencyNames(dir: string, d: string)
    requires d != "" && '/' !in d && '.' !in d && '-' !in d && '!' !in d
    requires !StartsWith(d, JarPrefix)
    ensures GetJarUrl(d) == JarPrefix + d + JarSuffix
    ensures LibraryName(d) == d + "!"
    ensures LibraryFile(dir, d) == Child(dir, d + "!" + ".xml")
    ensures LibraryModuleNode(d, false).attrs["name"] == d
    ensures LibraryName(d) != LibraryModuleNode(d, false).attrs["name"]
  {
    PlainLibraryName(d);
    var n := d + "!";
    NormalizeClean(n);
    PlainEntryName(d);
    assert |n| > |d| && n[|d|] == '!';
  }

  lemma PlainLibraryName(d: string)
    requires d != "" && '/' !in d && '.' !in d && '!' !in d
    requires !StartsWith(d, JarPrefix)
    ensures GetJarUrl(d) == JarPrefix + d + JarSuffix
    ensures LibraryName(d) == d + "!"
  {
    JarUrlOfPlain(d);
    FileNameOfJarUrl("jar:/", d);
    assert JarPrefix + d + JarSuffix == "jar:/" + ['/'] + d + JarSuffix;
    assert '.' !in d + "!";
  }

  lemma PlainEntryName(d: string)
    requires '/' !in d && '.' !in d
    ensures LibraryModuleNode(d, false).attrs["name"] == d
  {
    assert StripTrailingSlashes(d) == d;
  }

  /** A name without '/', '-' or '.' is already normalised. */
  lemma NormalizeClean(s: string)
    requires '/' !in s && '-' !in s && '.' !in s
    ensures NormalizePath(s) == s
  {
  }

  /** `projectModuleNode`'s module name: the Gradle path after its first ':',
    * or the whole path when nothing non-blank follows, with ':' turned to '.'. */
  function ModuleName(path: string): (r: string)
    ensures ':' !in r
  {
    ReplaceCharTwice(DefaultIfBlank(SubstringAfterChar(path, ':'), path), ':', '.');
    ReplaceChar(DefaultIfBlank(SubstringAfterChar(path, ':'), path), ':', '.')
  }

  /** ":android:lib3" refers to module "android.lib3". */
  lemma ModuleNameOfGradlePath(rest: string)
    requires !IsBlank(rest)
    ensures ModuleName(":" + rest) == ReplaceChar(rest, ':', '.')
  {
    var p := ":" + rest;
    assert p[0] == ':' && p[1..] == rest && ':' !in p[..0];
  }

  /** A path without ':' is a module name already. */
  lemma ModuleNameWithoutColon(path: string)
    requires ':' !in path
    ensures ModuleName(path) == path
  {
  }

  /** `projectModuleNode`. */
  function ProjectModuleNode(path: string, forTest: bool): (r: Node)
    ensures Selects(EntryOfType("module"), r) && !Selects(EntryOfType("library"), r)
    ensures HasAttr(r, "module-name", ModuleName(path))
    ensures HasAttr(r, "scope", "TEST") <==> forTest
  {
    var attrs := map["type" := "module", "module-name" := ModuleName(path), "exported" := ""];
    Node("orderEntry", if forTest then attrs["scope" := "TEST"] else attrs, [])
  }

  /** `outputNode`. */
  function OutputNode(path: string, forTest: bool): (r: Node)
    ensures r.name == (if forTest then "output-test" else "output")
    ensures HasAttr(r, "url", "file://" + path)
  {
    Node(if forTest then "output-test" else "output", map["url" := "file://" + path], [])
  }

  /** The `file://$MODULE_DIR$…` URL of a folder: the folder's path with as many
    * characters cut off as the project directory has; a shorter path is the
    * StringIndexOutOfBoundsException of `substring`. */
  function FolderUrl(projectDir: string, folder: string): (r: Result<string>)
    ensures r.Ok? <==> |projectDir| <= |folder|
    ensures r.Err? ==> r.error.kind == IndexOutOfBounds
  {
    if |folder| < |projectDir| then
      Err(Throw(IndexOutOfBounds, "begin " + NatToString(|projectDir|) + ", length " + NatToString(|folder|)))
    else
      Ok(ModuleDirUrl + folder[|projectDir|..])
  }

  /** A folder inside the project directory gets the URL of its relative path. */
  lemma FolderUrlOfChild(projectDir: string, rel: string)
    requires !EndsWith(projectDir, "/")
    ensures FolderUrl(projectDir, Child(projectDir, rel)) == Ok(ModuleDirUrl + "/" + rel)
  {
    var f := projectDir + "/" + rel;
    assert Child(projectDir, rel) == f;
    assert f[|projectDir|..] == "/" + rel;
    assert ModuleDirUrl + ("/" + rel) == ModuleDirUrl + "/" + rel;
  }

  /** `sourceContentFolderNode`. */
  function SourceFolderNode(projectDir: string, folder: string, isTest: bool): (r: Result<Node>)
    ensures r.Ok? <==> |projectDir| <= |folder|
    ensures r.Err? ==> r.error.kind == IndexOutOfBounds
    ensures r.Ok? ==> r.value.name == "sourceFolder" && r.value.children == []
    ensures r.Ok? ==> r.value.attrs.Keys == {"url", "isTestSource"}
    ensures r.Ok? ==> HasAttr(r.value, "url", FolderUrl(projectDir, folder).value)
    ensures r.Ok? ==> HasAttr(r.value, "isTestSource", if isTest then "true" else "false")
  {
    var url :- FolderUrl(projectDir, folder);
    Ok(Node("sourceFolder", map["url" := url, "isTestSource" := if isTest then "true" else "false"], []))
  }

  /** `excludeContentFolderNode`. */
  function ExcludeFolderNode(projectDir: string, folder: string): (r: Result<Node>)
    ensures r.Ok? <==> |projectDir| <= |folder|
    ensures r.Err? ==> r.error.kind == IndexOutOfBounds
    ensures r.Ok? ==> r.value.name == "excludeFolder" && r.value.children == []
    ensures r.Ok? ==> r.value.attrs.Keys == {"url"} && HasAttr(r.value, "url", FolderUrl(projectDir, folder).value)
  {
    var url :- FolderUrl(projectDir, folder);
    Ok(Node("excludeFolder", map["url" := url], []))
  }

  const SourceSel := Named("sourceFolder")
  const ExcludeSel := Named("excludeFolder")
  const ModuleSel := EntryOfType("module")
  const LibrarySel := EntryOfType("library")
  const OutputSel := Named("output")

  function SourceNodes(projectDir: string, folders: set<string>, isTest: bool): (r: map<string, Result<Node>>)
    ensures r.Keys == folders && |r| == |folders| && BuildsOnly(r, SourceSel)
    ensures AllBuilt(r) <==> AllFit(projectDir, folders)
    ensures forall k :: k in r && r[k].Err? ==> r[k].error.kind == IndexOutOfBounds
  {
    map f | f in folders :: SourceFolderNode(projectDir, f, isTest)
  }

  function ExcludeNodes(projectDir: string, folders: set<string>): (r: map<string, Result<Node>>)
    ensures r.Keys == folders && |r| == |folders| && BuildsOnly(r, ExcludeSel)
    ensures AllBuilt(r) <==> AllFit(projectDir, folders)
    ensures forall k :: k in r && r[k].Err? ==> r[k].error.kind == IndexOutOfBounds
  {
    map f | f in folders :: ExcludeFolderNode(projectDir, f)
  }

  function ModuleNodes(paths: set<string>, forTest: bool): (r: map<string, Result<Node>>)
    ensures r.Keys == paths && |r| == |paths| && BuildsOnly(r, ModuleSel)
    ensures AllBuilt(r)
  {
    map p | p in paths :: Ok(ProjectModuleNode(p, forTest))
  }

  function LibraryNodes(paths: set<string>, forTest: bool): (r: map<string, Result<Node>>)
    ensures r.Keys == paths && |r| == |paths| && BuildsOnly(r, LibrarySel)
    ensures AllBuilt(r)
  {
    map p | p in paths :: Ok(LibraryModuleNode(p, forTest))
  }

  function OutputNodes(paths: set<string>): (r: map<string, Result<Node>>)
    ensures r.Keys == paths && |r| == |paths| && BuildsOnly(r, OutputSel)
    ensures AllBuilt(r)
  {
    map p | p in paths :: Ok(OutputNode(p, false))
  }

  /** The children the content rewrite owns. */
  const ContentOwned := Either(SourceSel, ExcludeSel)
  /** The children the component rewrite owns. */
  const ComponentOwned := Either(ModuleSel, Either(LibrarySel, OutputSel))

  /** The content element after the rewrite: everything but source and exclude
    * folders as before; one source folder per source folder of the model, then
    * one per test source folder; one exclude folder per exclude folder. */
  ghost predicate ContentRewritten(before: Node, after: Node, projectDir: string, s: Snapshot) {
    ContentFrom(before, after, SourceNodes(projectDir, s.sourceFolders, false),
                SourceNodes(projectDir, s.testSourceFolders, true), ExcludeNodes(projectDir, s.excludeFolders))
  }

  /** `ContentRewritten` for given maps of source, test source and exclude nodes. */
  ghost predicate ContentFrom(before: Node, after: Node, sources: map<string, Result<Node>>,
                              tests: map<string, Result<Node>>, excludes: map<string, Result<Node>>) {
    var kept := Keep(after.children, SourceSel);
    after.name == before.name && after.attrs == before.attrs
    && Drop(after.children, ContentOwned) == Drop(before.children, ContentOwned)
    && |kept| == |sources| + |tests|
    && (forall n :: n in kept[..|sources|] <==> BuiltBy(sources, n))
    && (forall n :: n in kept <==> BuiltBy(sources, n) || BuiltBy(tests, n))
    && |Keep(after.children, ExcludeSel)| == |excludes|
    && (forall n :: n in Keep(after.children, ExcludeSel) <==> BuiltBy(excludes, n))
  }

  /** What the two replacements of `RewriteContent` leave behind. */
  lemma ContentOfReplacements(content: Node, a: seq<Node>, b: seq<Node>, sources: map<string, Result<Node>>,
                              tests: map<string, Result<Node>>, excludes: map<string, Result<Node>>)
    requires |Keep(a, SourceSel)| == |sources| + |tests|
    requires forall n :: n in Keep(a, SourceSel)[..|sources|] <==> BuiltBy(sources, n)
    requires forall n :: n in Keep(a, SourceSel) <==> BuiltBy(sources, n) || BuiltBy(tests, n)
    requires DropsAlike(a, content.children, SourceSel)
    requires |Keep(b, ExcludeSel)| == |excludes| + 0
    requires forall n :: n in Keep(b, ExcludeSel) <==> BuiltBy(excludes, n) || BuiltBy(map[], n)
    requires KeepsOthers(b, a, ExcludeSel) && DropsAlike(b, a, ExcludeSel)
    ensures ContentFrom(content, content.(children := b), sources, tests, excludes)
  {
    assert Disjoint(SourceSel, ExcludeSel);
    assert Keep(b, SourceSel) == Keep(a, SourceSel);
    assert Drop(b, Either(ExcludeSel, SourceSel)) == Drop(a, Either(ExcludeSel, SourceSel));
    DropSwap(a, ExcludeSel, SourceSel);
    DropSwap(b, ExcludeSel, SourceSel);
    assert Drop(a, ContentOwned) == Drop(content.children, ContentOwned);
  }

  /** Every folder of the model lies at least as deep as the project directory. */
  predicate FoldersFit(projectDir: string, s: Snapshot) {
    AllFit(projectDir, s.sourceFolders) && AllFit(projectDir, s.testSourceFolders) && AllFit(projectDir, s.excludeFolders)
  }

  /** Every one of `folders` is at least as long as the project directory. */
  predicate AllFit(projectDir: string, folders: set<string>) {
    forall f :: f in folders ==> |projectDir| <= |f|
  }

  /** The folder nodes all build exactly when the folders fit, and one that
    * does not build fails with an index error. */
  lemma FolderNodesFit(projectDir: string, s: Snapshot)
    ensures FoldersFit(projectDir, s) <==>
      AllBuilt(SourceNodes(projectDir, s.sourceFolders, false)) && AllBuilt(SourceNodes(projectDir, s.testSourceFolders, true))
      && AllBuilt(ExcludeNodes(projectDir, s.excludeFolders))
    ensures AllBuilt(map[])
    ensures forall e :: FailsWith(SourceNodes(projectDir, s.sourceFolders, false), e) ==> e.kind == IndexOutOfBounds
    ensures forall e :: FailsWith(SourceNodes(projectDir, s.testSourceFolders, true), e) ==> e.kind == IndexOutOfBounds
    ensures forall e :: FailsWith(ExcludeNodes(projectDir, s.excludeFolders), e) ==> e.kind == IndexOutOfBounds
    ensures forall e :: !FailsWith(map[], e)
  {
  }

  /** The content step of `modifyImlFile`: replaces the source folders, then the exclude folders. */
  method RewriteContent(content: Node, projectDir: string, s: Snapshot) returns (r: Result<Node>)
    ensures r.Ok? <==> FoldersFit(projectDir, s)
    ensures r.Err? ==> r.error.kind == IndexOutOfBounds
    ensures r.Ok? ==> ContentRewritten(content, r.value, projectDir, s)
  {
    var first, second := SourceNodes(projectDir, s.sourceFolders, false), SourceNodes(projectDir, s.testSourceFolders, true);
    var third := ExcludeNodes(projectDir, s.excludeFolders);
    FolderNodesFit(projectDir, s);
    var a := ReplaceChildren(content.children, SourceSel, first, second);
    if a.Err? {
      return Err(a.error);
    }
    var b := ReplaceChildren(a.value, ExcludeSel, third, map[]);
    if b.Err? {
      return Err(b.error);
    }
    ContentOfReplacements(content, a.value, b.value, first, second, third);
    r := Ok(content.(children := b.value));
  }

  /** The component element after the rewrite: everything but module entries,
    * library entries and outputs as before; one module entry per project
    * dependency, then one per test dependency; one library entry per library,
    * then per test library; one output per project output. */
  ghost predicate ComponentRewritten(before: Node, after: Node, s: Snapshot) {
    ComponentFrom(before.children, after, ModuleNodes(s.projectDependencies, false), ModuleNodes(s.projectTestDependencies, true),
                  LibraryNodes(s.libraryDependencies, false), LibraryNodes(s.libraryTestDependencies, true),
                  OutputNodes(s.projectOutputs)) && after.name == before.name && after.attrs == before.attrs
  }

  /** The children of `ComponentRewritten` for given maps of nodes. */
  ghost predicate ComponentFrom(before: seq<Node>, after: Node, m1: map<string, Result<Node>>, m2: map<string, Result<Node>>,
                                l1: map<string, Result<Node>>, l2: map<string, Result<Node>>, o: map<string, Result<Node>>) {
    var modules := Keep(after.children, ModuleSel);
    var libraries := Keep(after.children, LibrarySel);
    var outputs := Keep(after.children, OutputSel);
    Drop(after.children, ComponentOwned) == Drop(before, ComponentOwned)
    && |modules| == |m1| + |m2|
    && (forall n :: n in modules[..|m1|] <==> BuiltBy(m1, n))
    && (forall n :: n in modules <==> BuiltBy(m1, n) || BuiltBy(m2, n))
    && |libraries| == |l1| + |l2|
    && (forall n :: n in libraries[..|l1|] <==> BuiltBy(l1, n))
    && (forall n :: n in libraries <==> BuiltBy(l1, n) || BuiltBy(l2, n))
    && |outputs| == |o|
    && (forall n :: n in outputs <==> BuiltBy(o, n))
  }

  /** The three removals together remove the same children whichever comes first. */
  lemma ComponentOwnedOrder(cs: seq<Node>)
    ensures Drop(cs, Either(OutputSel, Either(LibrarySel, ModuleSel))) == Drop(cs, ComponentOwned)
    ensures Drop(cs, Either(LibrarySel, Either(OutputSel, ModuleSel))) == Drop(cs, ComponentOwned)
  {
    DropSame(cs, Either(OutputSel, Either(LibrarySel, ModuleSel)), ComponentOwned);
    DropSame(cs, Either(LibrarySel, Either(OutputSel, ModuleSel)), ComponentOwned);
  }

  /** What the three replacements of `RewriteComponent` leave behind. */
  lemma ComponentOfReplacements(cs: seq<Node>, a: seq<Node>, b: seq<Node>, c: seq<Node>, after: Node,
                                m1: map<string, Result<Node>>, m2: map<string, Result<Node>>,
                                l1: map<string, Result<Node>>, l2: map<string, Result<Node>>, o: map<string, Result<Node>>)
    requires |Keep(a, ModuleSel)| == |m1| + |m2|
    requires forall n :: n in Keep(a, ModuleSel)[..|m1|] <==> BuiltBy(m1, n)
    requires forall n :: n in Keep(a, ModuleSel) <==> BuiltBy(m1, n) || BuiltBy(m2, n)
    requires DropsAlike(a, cs, ModuleSel)
    requires |Keep(b, LibrarySel)| == |l1| + |l2|
    requires forall n :: n in Keep(b, LibrarySel)[..|l1|] <==> BuiltBy(l1, n)
    requires forall n :: n in Keep(b, LibrarySel) <==> BuiltBy(l1, n) || BuiltBy(l2, n)
    requires KeepsOthers(b, a, LibrarySel) && DropsAlike(b, a, LibrarySel)
    requires |Keep(c, OutputSel)| == |o| + 0
    requires forall n :: n in Keep(c, OutputSel) <==> BuiltBy(o, n) || BuiltBy(map[], n)
    requires KeepsOthers(c, b, OutputSel) && DropsAlike(c, b, OutputSel)
    requires after.children == c
    ensures ComponentFrom(cs, after, m1, m2, l1, l2, o)
  {
    assert Disjoint(ModuleSel, LibrarySel) && Disjoint(ModuleSel, OutputSel) && Disjoint(LibrarySel, OutputSel);
    assert Keep(c, ModuleSel) == Keep(b, ModuleSel) == Keep(a, ModuleSel);
    assert Keep(c, LibrarySel) == Keep(b, LibrarySel);
    ComponentOwnedOrder(a);
    ComponentOwnedOrder(b);
    ComponentOwnedOrder(c);
    assert Drop(c, Either(OutputSel, Either(LibrarySel, ModuleSel))) == Drop(b, Either(OutputSel, Either(LibrarySel, ModuleSel)));
    assert Drop(b, Either(LibrarySel, Either(OutputSel, ModuleSel))) == Drop(a, Either(LibrarySel, Either(OutputSel, ModuleSel)));
    assert Drop(a, ComponentOwned) == Drop(cs, ComponentOwned);
  }

  /** The component step of `modifyImlFile`: replaces the module entries, the library entries and the outputs. */
  method RewriteComponent(component: Node, s: Snapshot) returns (r: Node)
    ensures ComponentRewritten(component, r, s)
  {
    var cs := component.children;
    var m1, m2 := ModuleNodes(s.projectDependencies, false), ModuleNodes(s.projectTestDependencies, true);
    var a := ReplaceChildren(cs, ModuleSel, m1, m2);
    var l1, l2 := LibraryNodes(s.libraryDependencies, false), LibraryNodes(s.libraryTestDependencies, true);
    var b := ReplaceChildren(a.value, LibrarySel, l1, l2);
    var o := OutputNodes(s.projectOutputs);
    var c := ReplaceChildren(b.value, OutputSel, o, map[]);
    r := component.(children := c.value);
    ComponentOfReplacements(cs, a.value, b.value, c.value, r, m1, m2, l1, l2, o);
  }

  const ComponentFinder := Finder("component", "name", "NewModuleRootManager")
  const ContentFinder := Finder("content", "url", ModuleDirUrl)

  /** The whole `.iml` document after the rewrite: the NewModuleRootManager
    * component is the only child of the root that changes; inside it the
    * `file://$MODULE_DIR$` content element is rewritten, then the component. */
  ghost predicate ImlRewritten(before: Node, after: Node, projectDir: string, s: Snapshot) {
    FirstChild(before, ComponentFinder).Ok? &&
    var ci := FirstChild(before, ComponentFinder).value;
    var component := before.children[ci];
    FirstChild(component, ContentFinder).Ok? &&
    var ki := FirstChild(component, ContentFinder).value;
    after.name == before.name && after.attrs == before.attrs &&
    |after.children| == |before.children| &&
    after.children == before.children[ci := after.children[ci]] &&
    exists content ::
      ContentRewritten(component.children[ki], content, projectDir, s) &&
      ComponentRewritten(component.(children := component.children[ki := content]), after.children[ci], s)
  }

  /** The IML file named after the Gradle path (":android:lib3" gives
    * "android.lib3.iml"); an empty path is the exception of `substring(1)`. */
  function ImlPathFile(project: Project): (r: Result<string>)
    ensures r.Ok? <==> project.path != ""
    ensures r.Err? ==> r.error.kind == IndexOutOfBounds
    ensures r.Ok? ==> EndsWith(r.value, ".iml")
  {
    if project.path == "" then Err(Throw(IndexOutOfBounds, "begin 1, end 0, length 0"))
    else
      var name := ReplaceChar(project.path[1..], ':', '.') + ".iml";
      var r := Child(project.projectDir, name);
      assert r[|r| - |name|..] == name;
      assert name[|name| - 4..] == ".iml";
      Ok(r)
  }

  /** The IML file named after the project. */
  function ImlNameFile(project: Project): string {
    Child(project.projectDir, project.name + ".iml")
  }

  /** A path-named IML file carries the name other modules' entries use for it. */
  lemma ImlPathFileIsModuleName(project: Project, rest: string)
    requires project.path == ":" + rest && !IsBlank(rest)
    ensures ImlPathFile(project) == Ok(Child(project.projectDir, ModuleName(project.path) + ".iml"))
  {
    ModuleNameOfGradlePath(rest);
    assert project.path[1..] == rest;
  }

  /** `new XmlParser().parse(file)`: a directory cannot be read, and a file that
    * is not an XML document does not parse. */
  function ParseIml(files: map<string, Content>, dirs: set<string>, iml: string): (r: Result<Node>)
    ensures r.Ok? <==> iml !in dirs && iml in files && files[iml].XmlDoc?
    ensures r.Ok? ==> r.value == files[iml].root
  {
    if iml in dirs then Err(Throw(IOError, iml + " (Is a directory)"))
    else if iml in files && files[iml].XmlDoc? then Ok(files[iml].root)
    else Err(Throw(XmlParse, "Content is not allowed in prolog."))
  }

  /** `createLibraryFileIfNotExists`: writes the library's file when there is
    * none and says whether it did; a failed write is a RuntimeException. */
  method CreateLibraryFileIfNotExists(fs: FileSystem, librariesDir: string, dependency: string) returns (r: Result<bool>)
    modifies fs
    ensures fs.dirs == old(fs.dirs)
    ensures old(fs.Exists(LibraryFile(librariesDir, dependency))) ==> r == Ok(false) && fs.files == old(fs.files)
    ensures !old(fs.Exists(LibraryFile(librariesDir, dependency))) && LibraryFile(librariesDir, dependency) !in fs.readOnly ==>
      r == Ok(true) && fs.files == old(fs.files)[LibraryFile(librariesDir, dependency) := XmlDoc(LibraryXml(dependency))]
    ensures !old(fs.Exists(LibraryFile(librariesDir, dependency))) && LibraryFile(librariesDir, dependency) in fs.readOnly ==>
      r.Err? && r.error.kind == Runtime && r.error.cause.Some? && r.error.cause.value.kind == IOError && fs.files == old(fs.files)
  {
    var file := LibraryFile(librariesDir, dependency);
    if fs.Exists(file) {
      return Ok(false);
    }
    var ok := fs.Write(file, XmlDoc(LibraryXml(dependency)));
    if !ok {
      var e := Throw(IOError, file);
      return Err(Wrap("java.io.IOException: " + file, e));
    }
    return Ok(true);
  }

  /** The library file of each dependency. */
  function LibraryFiles(librariesDir: string, deps: set<string>): (r: map<string, string>)
    ensures r.Keys == deps
  {
    map d | d in deps :: LibraryFile(librariesDir, d)
  }

  /** The library document of each dependency. */
  function LibraryDocs(deps: set<string>): (r: map<string, Content>)
    ensures r.Keys == deps
  {
    map d | d in deps :: XmlDoc(LibraryXml(d))
  }

  /** Every file of `before` is still there with the same content. */
  ghost predicate Kept(before: map<string, Content>, after: map<string, Content>) {
    forall p :: p in before ==> p in after && after[p] == before[p]
  }

  /** The files in `after` that `before` lacks are the files of dependencies in
    * `ds`, each holding that dependency's document. */
  ghost predicate OnlyFilesOf(before: map<string, Content>, after: map<string, Content>,
                              fileOf: map<string, string>, docOf: map<string, Content>, ds: set<string>) {
    forall p :: p in after && p !in before ==>
      exists d :: d in ds && d in fileOf && d in docOf && p == fileOf[d] && after[p] == docOf[d]
  }

  /** Neither a file nor a directory. */
  predicate Missing(files: map<string, Content>, dirs: set<string>, p: string) {
    p !in files && p !in dirs
  }

  /** Some dependency's library file does not exist yet and cannot be written. */
  predicate Blocked(files: map<string, Content>, dirs: set<string>, readOnly: set<string>, librariesDir: string, deps: set<string>) {
    exists d :: d in deps && Missing(files, dirs, LibraryFile(librariesDir, d)) && LibraryFile(librariesDir, d) in readOnly
  }

  /** A library file is never the libraries folder itself. */
  lemma LibraryFileNotDir(librariesDir: string, d: string)
    ensures LibraryFile(librariesDir, d) != librariesDir
  {
    var name := NormalizePath(LibraryName(d)) + ".xml";
    assert |Child(librariesDir, name)| > |librariesDir|;
  }

  /** Creating the libraries folder does not change which library files are blocked. */
  lemma BlockedWithDir(files: map<string, Content>, dirs0: set<string>, dirs1: set<string>, readOnly: set<string>,
                       librariesDir: string, deps: set<string>)
    requires dirs0 <= dirs1 <= dirs0 + {librariesDir}
    ensures Blocked(files, dirs1, readOnly, librariesDir, deps) <==> Blocked(files, dirs0, readOnly, librariesDir, deps)
  {
    if Blocked(files, dirs0, readOnly, librariesDir, deps) {
      var d :| d in deps && Missing(files, dirs0, LibraryFile(librariesDir, d)) && LibraryFile(librariesDir, d) in readOnly;
      LibraryFileNotDir(librariesDir, d);
      assert Missing(files, dirs1, LibraryFile(librariesDir, d));
    }
  }

  /** Once the files of `libs` are all written, a file of `tests` is blocked
    * exactly when one of either set was blocked before. */
  lemma BlockedAfterLibraries(files0: map<string, Content>, files2: map<string, Content>, dirs: set<string>, readOnly: set<string>,
                              librariesDir: string, libs: set<string>, tests: set<string>)
    requires Kept(files0, files2)
    requires forall p :: p in files2 && p !in files0 ==> p in LibraryFiles(librariesDir, libs).Values
    requires !Blocked(files0, dirs, readOnly, librariesDir, libs)
    ensures Blocked(files2, dirs, readOnly, librariesDir, tests) <==> Blocked(files0, dirs, readOnly, librariesDir, libs + tests)
  {
    if Blocked(files0, dirs, readOnly, librariesDir, libs + tests) {
      var d :| d in libs + tests && Missing(files0, dirs, LibraryFile(librariesDir, d)) && LibraryFile(librariesDir, d) in readOnly;
      assert d in tests && Missing(files2, dirs, LibraryFile(librariesDir, d));
    }
  }

  /** Rewriting an existing file changes no file's existence, so nothing becomes blocked. */
  lemma BlockedSameFiles(files0: map<string, Content>, p: string, c: Content, dirs: set<string>, readOnly: set<string>,
                         librariesDir: string, deps: set<string>)
    requires p in files0
    ensures Blocked(files0[p := c], dirs, readOnly, librariesDir, deps) <==> Blocked(files0, dirs, readOnly, librariesDir, deps)
  {
  }

  /** What the loop of `CreateLibraryFiles` knows after the dependencies `done`. */
  ghost predicate LoopState(files0: map<string, Content>, files: map<string, Content>, dirs: set<string>, readOnly: set<string>,
                            fileOf: map<string, string>, docOf: map<string, Content>, done: set<string>, added: bool) {
    done <= fileOf.Keys
    && Kept(files0, files)
    && OnlyFilesOf(files0, files, fileOf, docOf, done)
    && (forall d :: d in done ==> !Missing(files, dirs, fileOf[d]))
    && (forall d :: d in done ==> !Missing(files0, dirs, fileOf[d]) || fileOf[d] !in readOnly)
    && (added <==> exists d :: d in done && Missing(files0, dirs, fileOf[d]))
  }

  /** One successful `CreateLibraryFileIfNotExists` keeps the loop's knowledge. */
  lemma LoopStep(files0: map<string, Content>, files1: map<string, Content>, files2: map<string, Content>,
                 dirs: set<string>, readOnly: set<string>, fileOf: map<string, string>, docOf: map<string, Content>,
                 done: set<string>, added: bool, d: string, created: bool)
    requires LoopState(files0, files1, dirs, readOnly, fileOf, docOf, done, added)
    requires d in fileOf && d in docOf
    requires !Missing(files1, dirs, fileOf[d]) ==> !created && files2 == files1
    requires Missing(files1, dirs, fileOf[d]) ==> fileOf[d] !in readOnly && created && files2 == files1[fileOf[d] := docOf[d]]
    ensures LoopState(files0, files2, dirs, readOnly, fileOf, docOf, done + {d}, added || created)
  {
    var file := fileOf[d];
    if !Missing(files1, dirs, file) && Missing(files0, dirs, file) {
      var d' :| d' in done && d' in fileOf && d' in docOf && file == fileOf[d'] && files1[file] == docOf[d'];
      assert Missing(files0, dirs, fileOf[d']);
    }
  }

  lemma DoneGrows(deps: set<string>, todo: set<string>, d: string)
    requires d in todo && todo <= deps
    ensures deps - (todo - {d}) == (deps - todo) + {d}
  {
  }

  /** Creates the library file of every dependency in turn, in the HashSet's
    * unspecified order; the first failure ends the loop. The result says
    * whether any file was created. */
  method CreateLibraryFiles(fs: FileSystem, librariesDir: string, deps: set<string>) returns (r: Result<bool>)
    modifies fs
    ensures fs.dirs == old(fs.dirs)
    ensures Kept(old(fs.files), fs.files)
    ensures OnlyFilesOf(old(fs.files), fs.files, LibraryFiles(librariesDir, deps), LibraryDocs(deps), deps)
    ensures r.Err? <==> Blocked(old(fs.files), fs.dirs, fs.readOnly, librariesDir, deps)
    ensures r.Err? ==> r.error.kind == Runtime
    ensures var fileOf := LibraryFiles(librariesDir, deps);
      r.Ok? ==> forall d :: d in deps ==> fs.Exists(fileOf[d])
    ensures var fileOf := LibraryFiles(librariesDir, deps);
      r.Ok? ==> (r.value <==> exists d :: d in deps && Missing(old(fs.files), fs.dirs, fileOf[d]))
  {
    ghost var files0, dirs, readOnly := fs.files, fs.dirs, fs.readOnly;
    ghost var fileOf, docOf := LibraryFiles(librariesDir, deps), LibraryDocs(deps);
    var todo := deps;
    var added := false;
    while todo != {}
      invariant todo <= deps
      invariant fs.dirs == dirs
      invariant LoopState(files0, fs.files, dirs, readOnly, fileOf, docOf, deps - todo, added)
      decreases todo
    {
      var d :| d in todo;
      ghost var files1 := fs.files;
      assert fileOf[d] == LibraryFile(librariesDir, d) && docOf[d] == XmlDoc(LibraryXml(d));
      var c := CreateLibraryFileIfNotExists(fs, librariesDir, d);
      ghost var files2 := fs.files;
      if c.Err? {
        assert Missing(files0, dirs, fileOf[d]);
        return Err(c.error);
      }
      LoopStep(files0, files1, files2, dirs, readOnly, fileOf, docOf, deps - todo, added, d, c.value);
      DoneGrows(deps, todo, d);
      added := added || c.value;
      todo := todo - {d};
    }
    assert deps - todo == deps;
    return Ok(added);
  }

  /** `addLibraryFiles`: outside an IntelliJ workspace (no `.idea/libraries`
    * directory) nothing happens; otherwise the library dependencies get their
    * files. Test-only libraries are not part of this pass. */
  method AddLibraryFiles(fs: FileSystem, project: Project, model: HatchejModel) returns (r: Result<bool>)
    modifies fs
    ensures !old(fs.IsDirectory(LibrariesDir(project))) ==> r == Ok(false) && fs.files == old(fs.files)
    ensures fs.dirs == old(fs.dirs)
    ensures forall p :: p in old(fs.files) ==> p in fs.files && fs.files[p] == old(fs.files[p])
    ensures forall p :: p in fs.files && p !in old(fs.files) ==>
      exists d :: d in model.libraryDependencies && p == LibraryFile(LibrariesDir(project), d) && fs.files[p] == XmlDoc(LibraryXml(d))
    ensures old(fs.IsDirectory(LibrariesDir(project))) ==>
      (r.Ok? <==> !Blocked(old(fs.files), old(fs.dirs), fs.readOnly, LibrariesDir(project), model.libraryDependencies))
    ensures old(fs.IsDirectory(LibrariesDir(project))) && r.Ok? ==>
      (r.value <==> exists d :: d in model.libraryDependencies && !old(fs.Exists(LibraryFile(LibrariesDir(project), d))))
    ensures old(fs.IsDirectory(LibrariesDir(project))) && r.Ok? ==>
      forall d :: d in model.libraryDependencies ==> fs.Exists(LibraryFile(LibrariesDir(project), d))
  {
    var dir := LibrariesDir(project);
    if !fs.IsDirectory(dir) {
      return Ok(false);
    }
    r := CreateLibraryFiles(fs, dir, model.libraryDependencies);
  }

  /** The IML file choice of `modifyImlFile`: the file the rewrite reads and writes, the path-named
    * one when it exists, the project-named one otherwise, and none when
    * neither exists (not an IntelliJ project). */
  function FindIml(files: map<string, Content>, dirs: set<string>, project: Project): (r: Result<Option<string>>)
    ensures r.Err? <==> project.path == ""
    ensures r.Err? ==> r.error.kind == IndexOutOfBounds
    ensures r == Ok(None) <==> project.path != "" && Missing(files, dirs, ImlPathFile(project).value) && Missing(files, dirs, ImlNameFile(project))
    ensures r.Ok? && r.value.Some? ==> !Missing(files, dirs, r.value.value)
    ensures r.Ok? && r.value.Some? && r.value.value != ImlPathFile(project).value ==>
      Missing(files, dirs, ImlPathFile(project).value) && r.value.value == ImlNameFile(project)
  {
    var pathFile :- ImlPathFile(project);
    var nameFile := ImlNameFile(project);
    if !Missing(files, dirs, pathFile) then Ok(Some(pathFile))
    else if !Missing(files, dirs, nameFile) then Ok(Some(nameFile))
    else Ok(None)
  }

  /** The root has the NewModuleRootManager component and, inside it, the
    * `file://$MODULE_DIR$` content element. */
  predicate HasContent(root: Node) {
    FirstChild(root, ComponentFinder).Ok?
    && FirstChild(root.children[FirstChild(root, ComponentFinder).value], ContentFinder).Ok?
  }

  /** `modifyImlFile` on the parsed document: finds the component and its
    * content element (a missing one is the IllegalArgumentException of
    * `xmlPath`), rewrites the content, then the component. */
  method RewriteIml(root: Node, projectDir: string, s: Snapshot) returns (r: Result<Node>)
    ensures r.Ok? <==> HasContent(root) && FoldersFit(projectDir, s)
    ensures !HasContent(root) ==> r.Err? && r.error.kind == IllegalArgument
    ensures HasContent(root) && !FoldersFit(projectDir, s) ==> r.Err? && r.error.kind == IndexOutOfBounds
    ensures r.Ok? ==> ImlRewritten(root, r.value, projectDir, s)
  {
    var ci :- FirstChild(root, ComponentFinder);
    var component := root.children[ci];
    var ki :- FirstChild(component, ContentFinder);
    var content :- RewriteContent(component.children[ki], projectDir, s);
    var newComponent := RewriteComponent(component.(children := component.children[ki := content]), s);
    var newRoot := root.(children := root.children[ci := newComponent]);
    assert ImlRewritten(root, newRoot, projectDir, s);
    return Ok(newRoot);
  }

  /** The files in `after` that `before` lacks are all in `allowed`. */
  ghost predicate NewFilesIn(before: map<string, Content>, after: map<string, Content>, allowed: set<string>) {
    forall p :: p in after && p !in before ==> p in allowed
  }

  lemma NewFilesOfLibraries(before: map<string, Content>, after: map<string, Content>,
                            fileOf: map<string, string>, docOf: map<string, Content>, ds: set<string>)
    requires OnlyFilesOf(before, after, fileOf, docOf, ds)
    ensures NewFilesIn(before, after, fileOf.Values)
  {
    forall p | p in after && p !in before ensures p in fileOf.Values {
      var d :| d in ds && d in fileOf && d in docOf && p == fileOf[d] && after[p] == docOf[d];
    }
  }

  lemma NewFilesChain(a: map<string, Content>, b: map<string, Content>, c: map<string, Content>, s: set<string>, t: set<string>)
    requires NewFilesIn(a, b, s) && NewFilesIn(b, c, t)
    ensures NewFilesIn(a, c, s + t)
  {
  }

  /** Every file of `before` but `changed` is still there with the same content. */
  ghost predicate KeptBut(before: map<string, Content>, after: map<string, Content>, changed: Option<string>) {
    forall p :: p in before && changed != Some(p) ==> p in after && after[p] == before[p]
  }

  lemma KeptButUpdate(a: map<string, Content>, p: string, c: Content)
    ensures KeptBut(a, a[p := c], Some(p))
  {
  }

  lemma KeptButChain(a: map<string, Content>, b: map<string, Content>, c: map<string, Content>, changed: Option<string>)
    requires KeptBut(a, b, changed) && Kept(b, c)
    ensures KeptBut(a, c, changed)
  {
  }

  lemma KeptChain(a: map<string, Content>, b: map<string, Content>, c: map<string, Content>)
    requires Kept(a, b) && Kept(b, c)
    ensures Kept(a, c)
  {
  }

  /** The IML part of `modifyImlFile`: finds, parses, rewrites and writes back the IML file;
    * returns the file written, or nothing when there is no IML file. */
  method WriteIml(fs: FileSystem, project: Project, s: Snapshot) returns (r: Result<Option<string>>)
    modifies fs
    ensures fs.dirs == old(fs.dirs)
    ensures r.Err? ==> fs.files == old(fs.files)
    ensures FindIml(old(fs.files), old(fs.dirs), project).Err? ==> r.Err? && r.error.kind == IndexOutOfBounds
    ensures FindIml(old(fs.files), old(fs.dirs), project) == Ok(None) <==> r == Ok(None)
    ensures r == Ok(None) ==> fs.files == old(fs.files)
    ensures r.Ok? && r.value.Some? ==>
      var iml := r.value.value;
      FindIml(old(fs.files), old(fs.dirs), project) == Ok(Some(iml)) &&
      iml in old(fs.files) && old(fs.files[iml]).XmlDoc? && iml in fs.files && fs.files[iml].XmlDoc? &&
      fs.files == old(fs.files)[iml := fs.files[iml]] &&
      ImlRewritten(old(fs.files[iml]).root, fs.files[iml].root, project.projectDir, s)
    ensures !FoldersFit(project.projectDir, s) ==> r.Err? || r == Ok(None)
    ensures FindIml(old(fs.files), old(fs.dirs), project).Ok? && FindIml(old(fs.files), old(fs.dirs), project).value.Some? ==>
      var iml := FindIml(old(fs.files), old(fs.dirs), project).value.value;
      var parsed := ParseIml(old(fs.files), old(fs.dirs), iml);
      && (parsed.Err? ==> r == Err(parsed.error))
      && (parsed.Ok? && !HasContent(parsed.value) ==> r.Err? && r.error.kind == IllegalArgument)
      && (parsed.Ok? && HasContent(parsed.value) && !FoldersFit(project.projectDir, s) ==>
            r.Err? && r.error.kind == IndexOutOfBounds)
      && (parsed.Ok? && HasContent(parsed.value) && FoldersFit(project.projectDir, s) ==>
            r == (if iml in fs.readOnly then Err(Throw(IOError, iml)) else Ok(Some(iml))))
    ensures r.Ok? && r.value.Some? ==>
      var parsed := ParseIml(old(fs.files), old(fs.dirs), r.value.value);
      parsed.Ok? && HasContent(parsed.value) && FoldersFit(project.projectDir, s) && r.value.value !in fs.readOnly
  {
    var found :- FindIml(fs.files, fs.dirs, project);
    if found.None? {
      return Ok(None);
    }
    var iml := found.value;
    var root :- ParseIml(fs.files, fs.dirs, iml);
    var newRoot :- RewriteIml(root, project.projectDir, s);
    var written := fs.Write(iml, XmlDoc(newRoot));
    if !written {
      return Err(Throw(IOError, iml));
    }
    return Ok(Some(iml));
  }

  /** The library part of `modifyImlFile`: creates the libraries folder when it does not exist, then
    * the file of every library and test library that has none; the result is
    * the exception that stops it, if any. */
  method EnsureLibraryFiles(fs: FileSystem, dir: string, libs: set<string>, tests: set<string>) returns (failure: Option<Exc>)
    modifies fs
    ensures fs.dirs <= old(fs.dirs) + {dir}
    ensures Kept(old(fs.files), fs.files)
    ensures NewFilesIn(old(fs.files), fs.files, LibraryFiles(dir, libs).Values + LibraryFiles(dir, tests).Values)
    ensures failure.None? ==> fs.Exists(dir)
    ensures failure.None? ==> forall d :: d in libs ==> fs.Exists(LibraryFiles(dir, libs)[d])
    ensures failure.None? ==> forall d :: d in tests ==> fs.Exists(LibraryFiles(dir, tests)[d])
    ensures !old(fs.Exists(dir)) && dir in fs.readOnly ==> failure == Some(Throw(IOError, "Failed to create idea-libraries folder at " + dir))
    ensures (old(fs.Exists(dir)) || dir !in fs.readOnly) && failure.Some? ==> failure.value.kind == Runtime
    ensures failure.None? <==>
      (old(fs.Exists(dir)) || dir !in fs.readOnly) && !Blocked(old(fs.files), old(fs.dirs), fs.readOnly, dir, libs + tests)
  {
    ghost var dirs0 := fs.dirs;
    if !fs.Exists(dir) {
      var created := fs.Mkdirs(dir);
      if !created {
        return Some(Throw(IOError, "Failed to create idea-libraries folder at " + dir));
      }
    }
    ghost var files1 := fs.files;
    BlockedWithDir(files1, dirs0, fs.dirs, fs.readOnly, dir, libs + tests);
    BlockedWithDir(files1, dirs0, fs.dirs, fs.readOnly, dir, libs);
    ghost var libFiles, testFiles := LibraryFiles(dir, libs), LibraryFiles(dir, tests);
    var created := CreateLibraryFiles(fs, dir, libs);
    ghost var files2 := fs.files;
    NewFilesOfLibraries(files1, files2, libFiles, LibraryDocs(libs), libs);
    if created.Err? {
      assert Blocked(files1, fs.dirs, fs.readOnly, dir, libs + tests);
      return Some(created.error);
    }
    BlockedAfterLibraries(files1, files2, fs.dirs, fs.readOnly, dir, libs, tests);
    created := CreateLibraryFiles(fs, dir, tests);
    NewFilesOfLibraries(files2, fs.files, testFiles, LibraryDocs(tests), tests);
    KeptChain(files1, files2, fs.files);
    NewFilesChain(files1, files2, fs.files, libFiles.Values, testFiles.Values);
    if created.Err? {
      return Some(created.error);
    }
    return None;
  }

  /** `modifyImlFile`: rewrites the IML file, then makes sure the libraries
    * folder exists and every library and test library has its file. Returns
    * whether an IML file was found. */
  method ModifyImlFile(fs: FileSystem, project: Project, model: HatchejModel) returns (r: Result<bool>)
    modifies fs
    ensures FindIml(old(fs.files), old(fs.dirs), project).Err? ==> r.Err? && r.error.kind == IndexOutOfBounds && fs.files == old(fs.files)
    ensures FindIml(old(fs.files), old(fs.dirs), project) == Ok(None) ==>
      r == Ok(false) && fs.files == old(fs.files) && fs.dirs == old(fs.dirs)
    ensures r == Ok(true) ==>
      FindIml(old(fs.files), old(fs.dirs), project).Ok? && FindIml(old(fs.files), old(fs.dirs), project).value.Some? &&
      var iml := FindIml(old(fs.files), old(fs.dirs), project).value.value;
      iml in old(fs.files) && old(fs.files[iml]).XmlDoc? && iml in fs.files && fs.files[iml].XmlDoc? &&
      ImlRewritten(old(fs.files[iml]).root, fs.files[iml].root, project.projectDir, model.Contents())
    ensures r == Ok(false) ==> FindIml(old(fs.files), old(fs.dirs), project) == Ok(None)
    ensures r == Ok(true) ==> fs.Exists(LibrariesDir(project))
    ensures r == Ok(true) ==>
      var libs := LibraryFiles(LibrariesDir(project), model.libraryDependencies);
      forall d :: d in libs ==> fs.Exists(libs[d])
    ensures r == Ok(true) ==>
      var tests := LibraryFiles(LibrariesDir(project), model.libraryTestDependencies);
      forall d :: d in tests ==> fs.Exists(tests[d])
    ensures r.Ok? ==> !FoldersFit(project.projectDir, model.Contents()) ==> !r.value
    ensures fs.dirs <= old(fs.dirs) + {LibrariesDir(project)}
    ensures FindIml(old(fs.files), old(fs.dirs), project).Ok? && FindIml(old(fs.files), old(fs.dirs), project).value.Some? ==>
      NewFilesIn(old(fs.files), fs.files, {FindIml(old(fs.files), old(fs.dirs), project).value.value}
        + LibraryFiles(LibrariesDir(project), model.libraryDependencies).Values
        + LibraryFiles(LibrariesDir(project), model.libraryTestDependencies).Values)
    ensures var found := FindIml(old(fs.files), old(fs.dirs), project);
      KeptBut(old(fs.files), fs.files, if found.Ok? then found.value else None)
    ensures FindIml(old(fs.files), old(fs.dirs), project).Ok? && FindIml(old(fs.files), old(fs.dirs), project).value.Some? ==>
      var iml := FindIml(old(fs.files), old(fs.dirs), project).value.value;
      var parsed := ParseIml(old(fs.files), old(fs.dirs), iml);
      var dir := LibrariesDir(project);
      && (parsed.Err? ==> r == Err(parsed.error))
      && (parsed.Ok? && !HasContent(parsed.value) ==> r.Err? && r.error.kind == IllegalArgument)
      && (parsed.Ok? && HasContent(parsed.value) && !FoldersFit(project.projectDir, model.Contents()) ==>
            r.Err? && r.error.kind == IndexOutOfBounds)
      && (parsed.Ok? && HasContent(parsed.value) && FoldersFit(project.projectDir, model.Contents()) ==>
            && (iml in fs.readOnly ==> r == Err(Throw(IOError, iml)))
            && (iml !in fs.readOnly && !old(fs.Exists(dir)) && dir in fs.readOnly ==>
                  r == Err(Throw(IOError, "Failed to create idea-libraries folder at " + dir)))
            && (iml !in fs.readOnly && (old(fs.Exists(dir)) || dir !in fs.readOnly) ==>
                  r.Err? ==> r.error.kind == Runtime)
            && (iml !in fs.readOnly && (old(fs.Exists(dir)) || dir !in fs.readOnly) ==>
                  (r == Ok(true) <==>
                     !Blocked(old(fs.files), old(fs.dirs), fs.readOnly, dir, model.libraryDependencies + model.libraryTestDependencies))))
  {
    var s := model.Contents();
    ghost var files0, files0dirs := fs.files, fs.dirs;
    var found := WriteIml(fs, project, s);
    if found.Err? {
      assert KeptBut(files0, fs.files, None);
      return Err(found.error);
    }
    if found.value.None? {
      assert KeptBut(files0, fs.files, None);
      return Ok(false);
    }
    ghost var iml := found.value.value;
    ghost var files1 := fs.files;
    assert iml in files0 && files1 == files0[iml := files1[iml]];
    KeptButUpdate(files0, iml, files1[iml]);
    assert LibrariesDir(project) in files1 <==> LibrariesDir(project) in files0;
    ghost var written := fs.files[iml];
    assert NewFilesIn(files0, files1, {iml});
    var dir := LibrariesDir(project);
    ghost var libFiles, testFiles := LibraryFiles(dir, s.libraryDependencies), LibraryFiles(dir, s.libraryTestDependencies);
    var failure := EnsureLibraryFiles(fs, dir, s.libraryDependencies, s.libraryTestDependencies);
    NewFilesChain(files0, files1, fs.files, {iml}, libFiles.Values + testFiles.Values);
    KeptButChain(files0, files1, fs.files, Some(iml));
    assert fs.files[iml] == written;
    BlockedSameFiles(files0, iml, files1[iml], files0dirs, fs.readOnly, dir, s.libraryDependencies + s.libraryTestDependencies);
    if failure.Some? {
      return Err(failure.value);
    }
    return Ok(true);
  }
}
