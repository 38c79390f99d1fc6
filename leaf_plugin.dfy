/** The plugin applied to a Bazel-built module: the conversions from Bazel's
  * names to Gradle's and Maven's, and the configuration that folds a target's
  * Bazel facts into the IDE model and the module's default configuration. */
module BazelLeafPlugin {
  import opened Common
  import opened Strings
  import opened LeafConfig
  import opened BazelAspectService

  // ---------------------------------------------------------------------------
  // `convertLocalBazelDepToGradle`

  /** `^/(/.+):.+$` covering the whole label, with the group ending at the
    * ':' at `p`: two slashes, at least one character, the colon, and at least
    * one character after it, none of them a line terminator. */
  predicate LocalModuleShape(t: string, p: int) {
    NoLineEnd(t) && |t| >= 2 && t[0] == '/' && t[1] == '/' && 3 <= p <= |t| - 2 && t[p] == ':'
  }

  /** The IllegalArgumentException for a label the pattern does not cover.
    * Its message prints the target object itself, whose text is not part of
    * this model, so the message is left empty. */
  function NotConvertible(dep: LocalBazelTarget): Exc {
    Throw(IllegalArgument, "")
  }

  /** `convertLocalBazelDepToGradle`: the group is greedy, so it ends at the
    * last ':' that still leaves a character after it, and its slashes become
    * colons (`//a/b:c` gives `:a:b`). */
  function ConvertLocalBazelDepToGradle(dep: LocalBazelTarget): (r: Result<string>)
    ensures r.Err? ==> r.error == NotConvertible(dep)
  {
    var t := dep.path;
    if |t| < 2 || !NoLineEnd(t) || t[0] != '/' || t[1] != '/' then Err(NotConvertible(dep))
    else
      var p := LastIndexOfChar(t[..|t| - 1], ':');
      if p < 3 then Err(NotConvertible(dep)) else Ok(ReplaceChar(t[1..p], '/', ':'))
  }

  /** The conversion succeeds exactly on the labels the pattern covers, and then
    * takes the group of the last colon the pattern can end it at. */
  lemma ConvertLocalWhen(dep: LocalBazelTarget)
    ensures ConvertLocalBazelDepToGradle(dep).Ok? <==> exists p :: LocalModuleShape(dep.path, p)
    ensures ConvertLocalBazelDepToGradle(dep).Ok? ==> exists p ::
      && LocalModuleShape(dep.path, p)
      && ConvertLocalBazelDepToGradle(dep).value == ReplaceChar(dep.path[1..p], '/', ':')
      && forall q :: LocalModuleShape(dep.path, q) ==> q <= p
  {
    var t := dep.path;
    if |t| >= 2 && NoLineEnd(t) && t[0] == '/' && t[1] == '/' {
      var p := LastIndexOfChar(t[..|t| - 1], ':');
      forall q | LocalModuleShape(t, q) ensures q <= p && p >= 3 {
        assert t[..|t| - 1][q] == ':';
      }
      if p >= 3 {
        assert LocalModuleShape(t, p);
      }
    }
  }

  /** A dependency on a target of the workspace's root package (`//:x`) has no
    * Gradle path: the pattern needs a character between the slashes and the
    * colon. */
  lemma RootPackageNotConvertible(name: string)
    requires ':' !in name
    ensures ConvertLocalBazelDepToGradle(LocalBazelTarget("//:" + name)).Err?
  {
    var t := "//:" + name;
    ConvertLocalWhen(LocalBazelTarget(t));
    forall p | 3 <= p < |t| ensures t[p] != ':' {
      assert t[p] == name[p - 3];
    }
  }

  /** The inverse of `decorate`'s target path: the label of any target of the
    * project's package converts back to the project's Gradle path. */
  lemma ConvertTargetPathRoundTrip(path: string, name: string)
    requires |path| >= 2 && path[0] == ':' && '/' !in path && NoLineEnd(path)
    requires |name| >= 1 && ':' !in name && NoLineEnd(name)
    ensures ConvertLocalBazelDepToGradle(LocalBazelTarget(TargetPath(path) + ":" + name)) == Ok(path)
  {
    var tp := TargetPath(path);
    var t := tp + ":" + name;
    assert NoLineEnd(tp) by {
      forall k | 0 <= k < |tp| ensures tp[k] == '/' || tp[k] == path[k - 1] { }
    }
    assert t[..|t| - 1] == tp + [':'] + name[..|name| - 1];
    LastIndexAt(tp, ':', name[..|name| - 1]);
    assert t[1..|tp|] == ReplaceChar(path, ':', '/');
    ReplaceCharRoundTrip(path, ':', '/');
  }

  /** `//lib4:jar` is the project `:lib4`. */
  lemma Lib4Converts()
    ensures ConvertLocalBazelDepToGradle(LocalBazelTarget("//lib4:jar")) == Ok(":lib4")
  {
    ConvertTargetPathRoundTrip(":lib4", "jar");
    assert TargetPath(":lib4") + ":" + "jar" == "//lib4:jar";
  }

  // ---------------------------------------------------------------------------
  // `createMavenDependency`

  /** `DefaultClientModule(group, name, version)`. */
  datatype MavenCoordinate = MavenCoordinate(groupId: string, artifactId: string, artifactVersion: string)

  /** `^(.+)__(.+)__(.+)$` covering the whole name, with the separators at `p`
    * and `q`. */
  predicate MavenShape(s: string, p: int, q: int) {
    NoLineEnd(s) && 1 <= p && p + 3 <= q && q + 3 <= |s| && OccursAt(s, "__", p) && OccursAt(s, "__", q)
  }

  /** The three groups with separators at `p` and `q`; the group and the version
    * turn '_' into '.'. */
  function Coordinate(s: string, p: nat, q: nat): MavenCoordinate
    requires p + 2 <= q && q + 2 <= |s|
  {
    MavenCoordinate(ReplaceChar(s[..p], '_', '.'), s[p + 2..q], ReplaceChar(s[q + 2..], '_', '.'))
  }

  function NotMaven(name: string): Exc {
    Throw(IllegalArgument, "The path " + name + " can not be parsed to retrieve artifact Maven details")
  }

  /** `createMavenDependency`: both groups before the last are greedy, so the
    * second separator is the last one leaving a version, and the first is the
    * last one before it leaving an artifact. */
  function CreateMavenDependency(remote: ExternalTarget): (r: Result<MavenCoordinate>)
    ensures r.Err? ==> r.error == NotMaven(remote.externalDepName)
  {
    var s := remote.externalDepName;
    match MavenSeparators(s)
    case None => Err(NotMaven(s))
    case Some(pq) => Ok(Coordinate(s, pq.0, pq.1))
  }

  /** Where the pattern's two separators sit in a name, when it matches. */
  function MavenSeparators(s: string): (r: Option<(nat, nat)>)
    ensures r.Some? ==> 1 <= r.value.0 && r.value.0 + 3 <= r.value.1 && r.value.1 + 3 <= |s|
  {
    if !NoLineEnd(s) then None
    else match LastOccurrence(s, "__", 4, |s| - 3)
      case None => None
      case Some(q) =>
        match LastOccurrence(s, "__", 1, q - 3)
        case None => None
        case Some(p) => Some((p, q))
  }

  /** A parsed name is one the pattern covers, at the separators of the greedy
    * match: no covering puts either separator later. */
  lemma CreateMavenOk(remote: ExternalTarget)
    requires CreateMavenDependency(remote).Ok?
    ensures var s := remote.externalDepName; exists p, q ::
      && MavenShape(s, p, q) && CreateMavenDependency(remote).value == Coordinate(s, p, q)
      && forall p', q' :: MavenShape(s, p', q') ==> p' <= p && q' <= q
  {
    var s := remote.externalDepName;
    var q := LastOccurrence(s, "__", 4, |s| - 3).value;
    var p := LastOccurrence(s, "__", 1, q - 3).value;
    assert CreateMavenDependency(remote) == Ok(Coordinate(s, p, q));
    MavenGreedy(s, p, q);
  }

  /** The separators the parser picks are those of the greedy match. */
  lemma MavenGreedy(s: string, p: nat, q: nat)
    requires NoLineEnd(s) && |s| >= 3
    requires LastOccurrence(s, "__", 4, |s| - 3) == Some(q) && LastOccurrence(s, "__", 1, q - 3) == Some(p)
    ensures MavenShape(s, p, q)
    ensures forall p', q' :: MavenShape(s, p', q') ==> p' <= p && q' <= q
  {
    SeparatorIsLast(s, 4, |s| - 3, q);
    SeparatorIsLast(s, 1, q - 3, p);
    forall p', q' | MavenShape(s, p', q') ensures p' <= p && q' <= q {
      assert q' <= q;
    }
  }

  /** The separator found is one, and no later one is in range. */
  lemma SeparatorIsLast(s: string, lo: nat, hi: int, p: nat)
    requires LastOccurrence(s, "__", lo, hi) == Some(p)
    ensures lo <= p <= hi && OccursAt(s, "__", p) && forall k :: p < k <= hi ==> !OccursAt(s, "__", k)
  {
    LastOccurrenceSpec(s, "__", lo, hi);
  }

  /** A name the pattern covers is parsed. */
  lemma CreateMavenCovered(remote: ExternalTarget, p: int, q: int)
    requires MavenShape(remote.externalDepName, p, q)
    ensures CreateMavenDependency(remote).Ok?
  {
    var s := remote.externalDepName;
    LastOccurrenceSpec(s, "__", 4, |s| - 3);
    var q0 := LastOccurrence(s, "__", 4, |s| - 3).value;
    LastOccurrenceSpec(s, "__", 1, q0 - 3);
  }

  /** The name is parsed exactly when the pattern covers it. */
  lemma CreateMavenWhen(remote: ExternalTarget)
    ensures CreateMavenDependency(remote).Ok? <==> exists p, q :: MavenShape(remote.externalDepName, p, q)
  {
    if CreateMavenDependency(remote).Ok? {
      CreateMavenOk(remote);
    }
    if exists p, q :: MavenShape(remote.externalDepName, p, q) {
      var p, q :| MavenShape(remote.externalDepName, p, q);
      CreateMavenCovered(remote, p, q);
    }
  }

  /** `__` occurs at `k` when both characters there are underscores. */
  lemma PairAt(s: string, k: int)
    requires 0 <= k && k + 2 <= |s|
    ensures OccursAt(s, "__", k) <==> s[k] == '_' && s[k + 1] == '_'
  {
    assert s[k..k + 2] == [s[k], s[k + 1]];
  }

  /** No two underscores in a row. */
  predicate NoDoubleUnderscore(v: string) {
    forall k :: 0 <= k < |v| - 1 ==> v[k] != '_' || v[k + 1] != '_'
  }

  /** `G__A__V` with no '_' in the artifact and no "__" in the version, nor
    * an underscore at its start, parses to group G, artifact A and version V,
    * with '.' for '_' in the group and the version. */
  lemma MavenOfParts(g: string, a: string, v: string, jar: string)
    requires |g| >= 1 && |a| >= 1 && |v| >= 1 && NoLineEnd(g) && NoLineEnd(a) && NoLineEnd(v)
    requires '_' !in a && v[0] != '_' && NoDoubleUnderscore(v)
    ensures CreateMavenDependency(ExternalTarget(g + "__" + a + "__" + v, jar))
      == Ok(MavenCoordinate(ReplaceChar(g, '_', '.'), a, ReplaceChar(v, '_', '.')))
  {
    MavenPartsSeparators(g, a, v, jar);
    MavenPartsSlices(g, a, v);
  }

  /** Where the parts of `G__A__V` sit. */
  lemma MavenPartsSlices(g: string, a: string, v: string)
    ensures var s := g + "__" + a + "__" + v; var q := |g| + 2 + |a|;
      s[..|g|] == g && s[|g| + 2..q] == a && s[q + 2..] == v
  {
    var s := g + "__" + a + "__" + v;
    assert s == g + ("__" + a + "__" + v);
    assert s == (g + "__" + a + "__") + v;
    assert s[..|g| + 2 + |a|] == g + "__" + a;
  }

  /** The separators the parser picks in `G__A__V` are the two shown. */
  lemma MavenPartsSeparators(g: string, a: string, v: string, jar: string)
    requires |g| >= 1 && |a| >= 1 && |v| >= 1 && NoLineEnd(g) && NoLineEnd(a) && NoLineEnd(v)
    requires '_' !in a && v[0] != '_' && NoDoubleUnderscore(v)
    ensures var s := g + "__" + a + "__" + v;
      CreateMavenDependency(ExternalTarget(s, jar)) == Ok(Coordinate(s, |g|, |g| + 2 + |a|))
  {
    var s := g + "__" + a + "__" + v;
    var p, q := |g|, |g| + 2 + |a|;
    MavenSeparatorsIn(s, g, a, v, p, q);
    SeparatorsFound(s, p, q);
    MavenAt(s, p, q, jar);
  }

  lemma MavenSeparatorsIn(s: string, g: string, a: string, v: string, p: nat, q: nat)
    requires |g| >= 1 && |a| >= 1 && |v| >= 1 && NoLineEnd(g) && NoLineEnd(a) && NoLineEnd(v)
    requires '_' !in a && v[0] != '_' && NoDoubleUnderscore(v)
    requires s == g + "__" + a + "__" + v && p == |g| && q == |g| + 2 + |a|
    ensures NoLineEnd(s) && |s| >= 3
    ensures LastOccurrence(s, "__", 4, |s| - 3) == Some(q) && LastOccurrence(s, "__", 1, q - 3) == Some(p)
  {
    NoLineEndJoined(g, a, v);
    MavenPartsSlices(g, a, v);
    MavenPartsPairs(g, a, v);
    SecondSeparator(s, v, q);
    FirstSeparator(s, a, p, q);
  }

  /** Where the two separators of `G__A__V` sit. */
  lemma MavenPartsPairs(g: string, a: string, v: string)
    ensures var s := g + "__" + a + "__" + v; var q := |g| + 2 + |a|;
      s[|g|..|g| + 2] == "__" && s[q..q + 2] == "__"
  {
    var s := g + "__" + a + "__" + v;
    assert s == (g + "__") + (a + "__" + v);
    assert s == (g + "__" + a + "__") + v;
    assert (g + "__" + a + "__") == (g + "__" + a) + "__";
  }

  /** The separator before the version is the last one leaving a version. */
  lemma SecondSeparator(s: string, v: string, q: nat)
    requires |v| >= 1 && v[0] != '_' && NoDoubleUnderscore(v)
    requires 4 <= q && q + 2 + |v| == |s| && s[q..q + 2] == "__" && s[q + 2..] == v
    ensures LastOccurrence(s, "__", 4, |s| - 3) == Some(q)
  {
    VersionSeparatorFree(s, v, q);
    LastOccurrenceIs(s, "__", 4, |s| - 3, q);
  }

  /** The separator before the artifact is the last one before the second. */
  lemma FirstSeparator(s: string, a: string, p: nat, q: nat)
    requires '_' !in a && |a| >= 1 && 1 <= p && p + 2 + |a| == q && q + 2 <= |s|
    requires s[p..p + 2] == "__" && s[p + 2..q] == a
    ensures LastOccurrence(s, "__", 1, q - 3) == Some(p)
  {
    ArtifactSeparatorFree(s, a, p, q);
    LastOccurrenceIs(s, "__", 1, q - 3, p);
  }

  /** Joining with "__" adds no line end. */
  lemma NoLineEndJoined(g: string, a: string, v: string)
    requires NoLineEnd(g) && NoLineEnd(a) && NoLineEnd(v)
    ensures NoLineEnd(g + "__" + a + "__" + v)
  {
    PlainNameNoLineEnd("__");
    NoLineEndAppend(g, "__");
    NoLineEndAppend(g + "__", a);
    NoLineEndAppend(g + "__" + a, "__");
    NoLineEndAppend(g + "__" + a + "__", v);
  }

  lemma NoLineEndAppend(a: string, b: string)
    requires NoLineEnd(a) && NoLineEnd(b)
    ensures NoLineEnd(a + b)
  {
  }

  /** No "__" starts inside the version, which follows the separator at `q`. */
  lemma VersionSeparatorFree(s: string, v: string, q: nat)
    requires |v| >= 1 && v[0] != '_' && NoDoubleUnderscore(v)
    requires q + 2 + |v| == |s| && s[q + 2..] == v
    ensures forall k :: q < k <= |s| - 3 ==> !OccursAt(s, "__", k)
  {
    forall k | q < k <= |s| - 3 ensures !OccursAt(s, "__", k) {
      PairAt(s, k);
      assert s[k + 1] == v[k - q - 1];
    }
  }

  /** No "__" starts inside the artifact, which sits between `p + 2` and `q`. */
  lemma ArtifactSeparatorFree(s: string, a: string, p: nat, q: nat)
    requires '_' !in a && p + 2 + |a| == q && q + 2 <= |s| && s[p + 2..q] == a
    ensures forall k :: p < k <= q - 3 ==> !OccursAt(s, "__", k)
  {
    forall k | p < k <= q - 3 ensures !OccursAt(s, "__", k) {
      PairAt(s, k);
      assert s[k + 1] == a[k - p - 1];
    }
  }

  /** The parser's choice of separators, once known, gives the coordinate. */
  lemma MavenAt(s: string, p: nat, q: nat, jar: string)
    requires MavenSeparators(s) == Some((p, q))
    ensures CreateMavenDependency(ExternalTarget(s, jar)) == Ok(Coordinate(s, p, q))
  {
  }

  /** The separators the two searches find are the pattern's. */
  lemma SeparatorsFound(s: string, p: nat, q: nat)
    requires NoLineEnd(s) && |s| >= 3
    requires LastOccurrence(s, "__", 4, |s| - 3) == Some(q) && LastOccurrence(s, "__", 1, q - 3) == Some(p)
    ensures MavenSeparators(s) == Some((p, q))
  {
    var q0 := LastOccurrence(s, "__", 4, |s| - 3);
    assert q0.value == q;
    var p0 := LastOccurrence(s, "__", 1, q0.value - 3);
    assert p0.value == p;
  }

  /** `org_hamcrest__hamcrest-library__1_3` is `org.hamcrest:hamcrest-library:1.3`. */
  lemma HamcrestLibrary(jar: string)
    ensures CreateMavenDependency(ExternalTarget("org_hamcrest__hamcrest-library__1_3", jar))
      == Ok(MavenCoordinate("org.hamcrest", "hamcrest-library", "1.3"))
  {
    HamcrestParts();
    PlainNameNoLineEnd("org_hamcrest");
    PlainNameNoLineEnd("hamcrest-library");
    PlainNameNoLineEnd("1_3");
    HamcrestDots();
    MavenOfParts("org_hamcrest", "hamcrest-library", "1_3", jar);
  }

  lemma HamcrestParts()
    ensures "org_hamcrest" + "__" + "hamcrest-library" + "__" + "1_3" == "org_hamcrest__hamcrest-library__1_3"
    ensures '_' !in "hamcrest-library" && NoDoubleUnderscore("1_3")
  {
  }

  /** A name of characters between '-' and 'z' has no line end. */
  lemma PlainNameNoLineEnd(s: string)
    requires forall k :: 0 <= k < |s| ==> '-' <= s[k] <= 'z'
    ensures NoLineEnd(s)
  {
  }

  lemma HamcrestDots()
    ensures ReplaceChar("org_hamcrest", '_', '.') == "org.hamcrest" && ReplaceChar("1_3", '_', '.') == "1.3"
  {
  }

  /** A name with fewer than two separators, like a bare `junit`, is not parsed. */
  lemma NoSeparatorNotMaven(name: string, jar: string)
    requires !Contains(name, "__")
    ensures CreateMavenDependency(ExternalTarget(name, jar)) == Err(NotMaven(name))
  {
    CreateMavenWhen(ExternalTarget(name, jar));
  }

  // ---------------------------------------------------------------------------
  // The values read from `bazel info`

  /** `Properties.getProperty`: a missing key gives null, which `%s` prints
    * as "null". */
  function InfoProperty(info: map<string, string>, key: string): (r: string)
    ensures key in info ==> r == info[key]
    ensures key !in info ==> r == "null"
  {
    if key in info then info[key] else "null"
  }

  /** `convertExternalJarBazelLocalPath`: the jar's path under Bazel's output
    * base. */
  function ExternalJarPath(info: map<string, string>, jarPath: string): (r: string)
    ensures StartsWith(r, InfoProperty(info, "output_base") + "/") && EndsWith(r, jarPath)
  {
    InfoProperty(info, "output_base") + "/" + jarPath
  }

  /** Different jars of one workspace get different library paths. */
  lemma ExternalJarPathInjective(info: map<string, string>, a: string, b: string)
    ensures ExternalJarPath(info, a) == ExternalJarPath(info, b) <==> a == b
  {
    var prefix := InfoProperty(info, "output_base") + "/";
    if ExternalJarPath(info, a) == ExternalJarPath(info, b) {
      assert a == ExternalJarPath(info, a)[|prefix|..];
      assert b == ExternalJarPath(info, b)[|prefix|..];
    }
  }

  /** Line 115: the module's build directory is its package under Bazel's
    * `bazel-bin`. A failed `bazel info` gave null properties, which this
    * dereferences first; a target path shorter than "//" fails the
    * substring. */
  function BuildDir(info: Option<map<string, string>>, targetPath: string): (r: Result<string>)
    ensures info.None? ==> r.Err? && r.error.kind == NullPointer
    ensures info.Some? && |targetPath| < 2 ==> r.Err? && r.error.kind == IndexOutOfBounds
    ensures r.Ok? ==> |targetPath| >= 2 && EndsWith(r.value, targetPath[2..])
  {
    if info.None? then Err(Throw(NullPointer, ""))
    else if |targetPath| < 2 then Err(Throw(IndexOutOfBounds, var n := if |targetPath| == 0 then "0" else "1"; "begin 2, end " + n + ", length " + n))
    else Ok(InfoProperty(info.value, "bazel-bin") + "/" + targetPath[2..])
  }

  /** For the target path `decorate` derives, the build directory mirrors the
    * project's Gradle path with '/' for ':' (`:a:b` builds in `bazel-bin/a/b`). */
  lemma BuildDirOfProject(info: map<string, string>, path: string)
    requires |path| >= 1 && path[0] == ':'
    ensures BuildDir(Some(info), TargetPath(path)) == Ok(InfoProperty(info, "bazel-bin") + "/" + ReplaceChar(path[1..], ':', '/'))
  {
    var tp := TargetPath(path);
    assert tp[2..] == ReplaceChar(path[1..], ':', '/');
  }
}
