/** The older IML rewrite of the standalone hatchej plugin: only the content
  * folders and the module entries of `<name>.iml` are rewritten, module
  * entries are named after the last segment of the Gradle path, and no
  * library files are written. */
module LegacyImlAction {
  import opened Common
  import opened Strings
  import opened Paths
  import opened Xml
  import opened Files
  import opened LeafConfig
  import opened HatchejModel
  import opened HatchejImlAction

  /** `path.substring(1 + path.lastIndexOf(":"))`: the text after the last ':',
    * or the whole path when it has none. */
  function LegacyModuleName(path: string): (r: string)
    ensures ':' !in r
    ensures ':' !in path ==> r == path
    ensures ':' in path ==> |r| < |path| && path == path[..|path| - |r| - 1] + [':'] + r
  {
    if ':' in path then SubstringAfterLastChar(path, ':') else path
  }

  /** `:a:b` is entry `b`: the last segment of any Gradle path. */
  lemma LegacyModuleNameOfPath(prefix: string, name: string)
    requires ':' !in name
    ensures LegacyModuleName(prefix + [':'] + name) == name
  {
    SplitAtLast(prefix, ':', name);
  }

  /** For a nested project the two rewrites name the module entry differently:
    * the older one keeps only the last segment, the newer one the whole path
    * with '.' for ':'. */
  lemma NestedPathNamesDiffer(parent: string, name: string)
    requires parent != "" && ':' !in parent && ':' !in name
    ensures LegacyModuleName(":" + parent + ":" + name) == name
    ensures ModuleName(":" + parent + ":" + name) == parent + "." + name
  {
    var path := ":" + parent + ":" + name;
    assert path == (":" + parent) + [':'] + name;
    LegacyModuleNameOfPath(":" + parent, name);
    var rest := parent + ":" + name;
    assert path == ":" + rest;
    assert rest[|parent|] == ':';
    ModuleNameOfGradlePath(rest);
    ReplaceColonOnce(parent, name);
  }

  lemma ReplaceColonOnce(parent: string, name: string)
    requires ':' !in parent && ':' !in name
    ensures ReplaceChar(parent + ":" + name, ':', '.') == parent + "." + name
  {
    var s := parent + ":" + name;
    var r := ReplaceChar(s, ':', '.');
    assert |r| == |parent + "." + name|;
    forall i | 0 <= i < |r| ensures r[i] == (parent + "." + name)[i] {
      if i < |parent| {
        assert s[i] == parent[i];
      } else if i > |parent| {
        assert s[i] == name[i - |parent| - 1];
      }
    }
  }

  /** The older `projectModuleNode`: a module entry without a scope. */
  function LegacyModuleNode(path: string): (r: Node)
    ensures Selects(ModuleSel, r) && !Selects(LibrarySel, r) && !Selects(OutputSel, r)
    ensures HasAttr(r, "module-name", LegacyModuleName(path)) && HasAttr(r, "exported", "")
    ensures "scope" !in r.attrs
  {
    Node("orderEntry", map["type" := "module", "module-name" := LegacyModuleName(path), "exported" := ""], [])
  }

  function LegacyModuleNodes(paths: set<string>): (r: map<string, Result<Node>>)
    ensures r.Keys == paths && |r| == |paths| && BuildsOnly(r, ModuleSel) && AllBuilt(r)
  {
    map p | p in paths :: Ok(LegacyModuleNode(p))
  }

  /** The component element after the older rewrite: only the module entries
    * change, and they are one per project dependency. */
  ghost predicate LegacyComponentRewritten(before: Node, after: Node, s: Snapshot) {
    var modules := Keep(after.children, ModuleSel);
    after.name == before.name && after.attrs == before.attrs
    && Drop(after.children, ModuleSel) == Drop(before.children, ModuleSel)
    && |modules| == |s.projectDependencies|
    && (forall n :: n in modules <==> BuiltBy(LegacyModuleNodes(s.projectDependencies), n))
  }

  /** The component step of the older `modifyImlFile`: replaces the module entries. */
  method LegacyRewriteComponent(component: Node, s: Snapshot) returns (r: Node)
    ensures LegacyComponentRewritten(component, r, s)
  {
    var modules := LegacyModuleNodes(s.projectDependencies);
    var a := ReplaceChildren(component.children, ModuleSel, modules, map[]);
    assert forall n :: !BuiltBy(map[], n);
    r := component.(children := a.value);
  }

  /** Library entries and outputs come through the older rewrite unchanged. */
  lemma LegacyKeepsLibrariesAndOutputs(before: Node, after: Node, s: Snapshot)
    requires LegacyComponentRewritten(before, after, s)
    ensures Keep(after.children, LibrarySel) == Keep(before.children, LibrarySel)
    ensures Keep(after.children, OutputSel) == Keep(before.children, OutputSel)
  {
    KeepDrop(after.children, LibrarySel, ModuleSel);
    KeepDrop(before.children, LibrarySel, ModuleSel);
    KeepDrop(after.children, OutputSel, ModuleSel);
    KeepDrop(before.children, OutputSel, ModuleSel);
  }

  /** The whole `.iml` document after the older rewrite. */
  ghost predicate LegacyImlRewritten(before: Node, after: Node, projectDir: string, s: Snapshot) {
    FirstChild(before, ComponentFinder).Ok? &&
    var ci := FirstChild(before, ComponentFinder).value;
    var component := before.children[ci];
    FirstChild(component, ContentFinder).Ok? &&
    var ki := FirstChild(component, ContentFinder).value;
    after.name == before.name && after.attrs == before.attrs &&
    |after.children| == |before.children| &&
    after.children == before.children[ci := after.children[ci]] &&
    exists content ::
      ContentRewritten(component.children[ki], content, projectDir, s) &&
      LegacyComponentRewritten(component.(children := component.children[ki := content]), after.children[ci], s)
  }

  /** The older `modifyImlFile` on the parsed document. */
  method LegacyRewriteIml(root: Node, projectDir: string, s: Snapshot) returns (r: Result<Node>)
    ensures r.Ok? <==> HasContent(root) && FoldersFit(projectDir, s)
    ensures !HasContent(root) ==> r.Err? && r.error.kind == IllegalArgument
    ensures HasContent(root) && !FoldersFit(projectDir, s) ==> r.Err? && r.error.kind == IndexOutOfBounds
    ensures r.Ok? ==> LegacyImlRewritten(root, r.value, projectDir, s)
  {
    var ci :- FirstChild(root, ComponentFinder);
    var component := root.children[ci];
    var ki :- FirstChild(component, ContentFinder);
    var content :- RewriteContent(component.children[ki], projectDir, s);
    var newComponent := LegacyRewriteComponent(component.(children := component.children[ki := content]), s);
    var newRoot := root.(children := root.children[ci := newComponent]);
    assert LegacyImlRewritten(root, newRoot, projectDir, s);
    return Ok(newRoot);
  }

  /** The older `modifyImlFile`: nothing happens without `<name>.iml`; a missing
    * model is an IllegalStateException once the file is parsed; otherwise the
    * file is rewritten in place and nothing else is touched. The result says
    * whether it was rewritten. */
  method LegacyModifyImlFile(fs: FileSystem, project: Project, model: HatchejModel?) returns (r: Result<bool>)
    modifies fs
    ensures fs.dirs == old(fs.dirs)
    ensures r != Ok(true) ==> fs.files == old(fs.files)
    ensures Missing(old(fs.files), old(fs.dirs), ImlNameFile(project)) ==> r == Ok(false)
    ensures var iml := ImlNameFile(project);
      !Missing(old(fs.files), old(fs.dirs), iml) && ParseIml(old(fs.files), old(fs.dirs), iml).Ok? && model == null ==>
      r == Err(Throw(IllegalState, "HatchejImlAction was called without any HatchejModel set on project " + project.path))
    ensures var iml := ImlNameFile(project);
      var parsed := ParseIml(old(fs.files), old(fs.dirs), iml);
      !Missing(old(fs.files), old(fs.dirs), iml) && parsed.Err? ==> r == Err(parsed.error)
    ensures var iml := ImlNameFile(project);
      var parsed := ParseIml(old(fs.files), old(fs.dirs), iml);
      !Missing(old(fs.files), old(fs.dirs), iml) && parsed.Ok? && model != null ==>
      (r == Ok(true) <==> HasContent(parsed.value) && FoldersFit(project.projectDir, model.Contents()) && iml !in fs.readOnly)
    ensures var iml := ImlNameFile(project);
      r == Ok(true) ==>
      model != null && iml in old(fs.files) && old(fs.files[iml]).XmlDoc? &&
      iml in fs.files && fs.files == old(fs.files)[iml := fs.files[iml]] && fs.files[iml].XmlDoc? &&
      LegacyImlRewritten(old(fs.files[iml]).root, fs.files[iml].root, project.projectDir, model.Contents())
  {
    var iml := ImlNameFile(project);
    if !fs.Exists(iml) {
      return Ok(false);
    }
    var root :- ParseIml(fs.files, fs.dirs, iml);
    if model == null {
      return Err(Throw(IllegalState, "HatchejImlAction was called without any HatchejModel set on project " + project.path));
    }
    r := LegacyWriteBack(fs, iml, root, project.projectDir, model.Contents());
  }

  /** The older `modifyImlFile` once the file is parsed: rewrites the document and writes it
    * back to the same file. */
  method LegacyWriteBack(fs: FileSystem, iml: string, root: Node, projectDir: string, s: Snapshot) returns (r: Result<bool>)
    modifies fs
    ensures fs.dirs == old(fs.dirs)
    ensures r.Ok? ==> r.value
    ensures r.Err? ==> fs.files == old(fs.files)
    ensures r.Ok? <==> HasContent(root) && FoldersFit(projectDir, s) && iml !in fs.readOnly && iml !in fs.dirs
    ensures r.Ok? ==> (iml in fs.files && fs.files == old(fs.files)[iml := fs.files[iml]] && fs.files[iml].XmlDoc?
      && LegacyImlRewritten(root, fs.files[iml].root, projectDir, s))
  {
    var newRoot :- LegacyRewriteIml(root, projectDir, s);
    var written := fs.Write(iml, XmlDoc(newRoot));
    if !written {
      return Err(Throw(IOError, iml));
    }
    return Ok(true);
  }
}
