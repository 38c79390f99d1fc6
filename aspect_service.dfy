/** The service that reads the two Bazel aspects back into Gradle terms: the
  * dependency annotations of a target, split into local Bazel targets and
  * external jars, and the source roots of the Java files of a target. */
module BazelAspectService {
  import opened Common
  import opened Strings
  import opened Paths
  import opened Files
  import opened BazelExecHelper
  import opened AspectRunner

  /** `BazelAspectService.create`: the root project's directory (the one holding
    * the WORKSPACE file) and the runner of the aspects. */
  datatype Service = Service(rootDir: string, runner: Runner)

  const DepsAspect: string := "get_deps.bzl"
  const SourcesAspect: string := "get_source_files.bzl"

  // ---------------------------------------------------------------------------
  // The three regular expressions of `getAllDeps`, as `matches()` applies them.

  /** Text a `.*` can cover: none of Java's line terminators, the characters
    * `.` does not match. */
  predicate NoLineEnd(s: string) {
    '\n' !in s && '\r' !in s && '\U{0085}' !in s && '\U{2028}' !in s && '\U{2029}' !in s
  }

  /** Text without a `\s` character. */
  predicate NoSpace(s: string) {
    ' ' !in s && '\t' !in s && '\n' !in s && '\U{000B}' !in s && '\U{000C}' !in s && '\r' !in s
  }

  /** A run of `\s` characters from `i` that stops before a non-space at `j`
    * is the run `SpaceRunEnd` finds. */
  lemma SpaceRunAt(s: string, i: nat, j: nat)
    requires i <= j < |s| && !IsSpace(s[j]) && forall m :: i <= m < j ==> IsSpace(s[m])
    ensures SpaceRunEnd(s, i) == j
    decreases j - i
  {
    if i < j {
      SpaceRunAt(s, i + 1, j);
    }
  }

  /** `s[q + m]` is `pat[m]` where `pat` occurs at `q`. */
  lemma OccursChar(s: string, pat: string, q: int, m: nat)
    requires OccursAt(s, pat, q) && m < |pat|
    ensures s[q + m] == pat[m]
  {
    assert s[q..q + |pat|][m] == s[q + m];
  }

  const ThirdPartyPrefix: string := "//third_party:"
  const FilesMarker: string := "<FILES:>"
  const FilesList: string := "<FILES:>["

  /** `^//third_party:(.*)<FILES:>\[(.*)]$`: the rule name and the bracketed file
    * list. The greedy first group ends at the last `<FILES:>[` that leaves room
    * for the closing bracket. */
  function RemoteMatch(t: string): Option<(string, string)> {
    if NoLineEnd(t) && StartsWith(t, ThirdPartyPrefix) && EndsWith(t, "]") then
      match LastOccurrence(t, FilesList, |ThirdPartyPrefix|, |t| - |FilesList| - 1)
      case Some(p) => Some((t[|ThirdPartyPrefix|..p], t[p + |FilesList|..|t| - 1]))
      case None => None
    else None
  }

  /** No `<FILES:>[` can start in the last `|FilesList|` characters of a line
    * ending with ']'. */
  lemma NoListAtEnd(t: string)
    requires EndsWith(t, "]")
    ensures forall q :: |t| - |FilesList| - 1 < q ==> !OccursAt(t, FilesList, q)
  {
    forall q | |t| - |FilesList| - 1 < q && OccursAt(t, FilesList, q) ensures false {
      OccursBeforeLast(t, FilesList, q);
    }
  }

  /** A remote match splits the line at its last `<FILES:>[`. */
  lemma RemoteMatchShape(t: string)
    requires RemoteMatch(t).Some?
    ensures var m := RemoteMatch(t).value;
      && t == ThirdPartyPrefix + m.0 + FilesList + m.1 + "]"
      && NoLineEnd(t) && forall q :: |ThirdPartyPrefix| + |m.0| < q ==> !OccursAt(t, FilesList, q)
  {
    var hi := |t| - |FilesList| - 1;
    LastOccurrenceSpec(t, FilesList, |ThirdPartyPrefix|, hi);
    var p := LastOccurrence(t, FilesList, |ThirdPartyPrefix|, hi).value;
    Around(t, ThirdPartyPrefix, FilesList, "]", p);
    NoListAtEnd(t);
  }

  /** The remote pattern matches exactly the lines of its form. */
  lemma RemoteMatchWhen(t: string)
    ensures RemoteMatch(t).Some? <==> (NoLineEnd(t) && StartsWith(t, ThirdPartyPrefix) && EndsWith(t, "]") &&
      exists p :: |ThirdPartyPrefix| <= p && p + |FilesList| < |t| && OccursAt(t, FilesList, p))
  {
    LastOccurrenceSpec(t, FilesList, |ThirdPartyPrefix|, |t| - |FilesList| - 1);
    if NoLineEnd(t) && StartsWith(t, ThirdPartyPrefix) && EndsWith(t, "]") {
      forall p | |ThirdPartyPrefix| <= p && p + |FilesList| < |t| && OccursAt(t, FilesList, p)
        ensures RemoteMatch(t).Some?
      {
        OccursBeforeLast(t, FilesList, p);
      }
    }
  }

  /** `^(//.+)<FILES:>.*$`: the target path, which the greedy group ends at the
    * last `<FILES:>`. */
  function LocalMatch(t: string): Option<string> {
    if NoLineEnd(t) && StartsWith(t, "//") then
      match LastOccurrence(t, FilesMarker, 3, |t| - |FilesMarker|)
      case Some(p) => Some(t[..p])
      case None => None
    else None
  }

  /** A local match cuts the line at its last `<FILES:>`. */
  lemma LocalMatchShape(t: string)
    requires LocalMatch(t).Some?
    ensures var path := LocalMatch(t).value;
      && |path| >= 3 && StartsWith(path, "//") && StartsWith(t, path + FilesMarker)
      && NoLineEnd(t) && forall q :: |path| < q ==> !OccursAt(t, FilesMarker, q)
  {
    LastOccurrenceSpec(t, FilesMarker, 3, |t| - |FilesMarker|);
    var p := LastOccurrence(t, FilesMarker, 3, |t| - |FilesMarker|).value;
    assert t[..p + |FilesMarker|] == t[..p] + FilesMarker;
  }

  /** The local pattern matches exactly the lines of its form. */
  lemma LocalMatchWhen(t: string)
    ensures LocalMatch(t).Some? <==> (NoLineEnd(t) && StartsWith(t, "//") && exists p :: 3 <= p && OccursAt(t, FilesMarker, p))
  {
    LastOccurrenceSpec(t, FilesMarker, 3, |t| - |FilesMarker|);
  }

  /** The end of the run of `\s` characters starting at `i`. */
  function SpaceRunEnd(s: string, i: nat): (j: nat)
    requires i <= |s|
    ensures i <= j <= |s|
    decreases |s| - i
  {
    if i < |s| && IsSpace(s[i]) then SpaceRunEnd(s, i + 1) else i
  }

  /** The run found is all whitespace and stops at a non-space or the end. */
  lemma {:induction false} SpaceRunEndSpec(s: string, i: nat)
    requires i <= |s|
    ensures var j := SpaceRunEnd(s, i);
      (forall k :: i <= k < j ==> IsSpace(s[k])) && (j < |s| ==> !IsSpace(s[j]))
    decreases |s| - i
  {
    if i < |s| && IsSpace(s[i]) {
      SpaceRunEndSpec(s, i + 1);
    }
  }

  /** `\s+file\s+(.+)>` covering `s[i..]` with the first run ending at `j` and
    * the group starting at `k`. */
  predicate FileGroupShape(s: string, i: int, j: int, k: int) {
    0 <= i < j && j + 4 < k < |s| - 1 && s[|s| - 1] == '>'
    && (forall m :: i <= m < j ==> IsSpace(s[m]))
    && OccursAt(s, "file", j)
    && (forall m :: j + 4 <= m < k ==> IsSpace(s[m]))
    && NoLineEnd(s[k..|s| - 1])
  }

  /** `\s+file\s+(.+)>` against `s[i..]`, where `s` ends with '>': the group.
    * The second run gives back one character when the group would be empty. */
  function FileGroupAt(s: string, i: nat): Option<string>
    requires i < |s| && s[|s| - 1] == '>'
  {
    var j := SpaceRunEnd(s, i);
    if j == i || !OccursAt(s, "file", j) then None
    else
      var k0 := SpaceRunEnd(s, j + 4);
      var k := if k0 >= |s| - 1 then k0 - 1 else k0;
      if k <= j + 4 || k >= |s| - 1 || !NoLineEnd(s[k..|s| - 1]) then None
      else Some(s[k..|s| - 1])
  }

  /** The group found is the one of the only way the pattern can cover `s[i..]`. */
  lemma FileGroupAtSpec(s: string, i: nat)
    requires i < |s| && s[|s| - 1] == '>'
    ensures var r := FileGroupAt(s, i);
      && (r.Some? ==> exists j, k :: FileGroupShape(s, i, j, k) && r.value == s[k..|s| - 1])
      && (r.None? ==> forall j, k :: !FileGroupShape(s, i, j, k))
  {
    var j := SpaceRunEnd(s, i);
    SpaceRunEndSpec(s, i);
    forall j', k | FileGroupShape(s, i, j', k) ensures j' == j {
      OccursChar(s, "file", j', 0);
      SpaceRunAt(s, i, j');
    }
    if j != i && OccursAt(s, "file", j) {
      var k0 := SpaceRunEnd(s, j + 4);
      SpaceRunEndSpec(s, j + 4);
      assert k0 < |s|;
      var k := if k0 >= |s| - 1 then k0 - 1 else k0;
      if FileGroupAt(s, i).Some? {
        assert FileGroupShape(s, i, j, k);
      } else {
        forall j', k' | FileGroupShape(s, i, j', k') ensures false {
        }
      }
    }
  }

  /** Where the leading `.*` may end: the text it covers has no line terminator
    * and the rest of the pattern matches from there. */
  predicate FileGroupFrom(s: string, m: int) {
    1 <= m < |s| && s[|s| - 1] == '>' && NoLineEnd(s[1..m]) && FileGroupAt(s, m).Some?
  }

  /** The greedy `.*`: the largest place at most `i` where the rest matches,
    * or 0 for none. */
  function GroupPlace(s: string, i: nat): (m: nat)
    requires i < |s| && s[|s| - 1] == '>'
    ensures m <= i
    decreases i
  {
    if i == 0 then 0
    else if FileGroupFrom(s, i) then i
    else GroupPlace(s, i - 1)
  }

  /** The place found is one where the rest matches, and no later one is. */
  lemma {:induction false} GroupPlaceSpec(s: string, i: nat)
    requires i < |s| && s[|s| - 1] == '>'
    ensures var m := GroupPlace(s, i);
      (m > 0 ==> FileGroupFrom(s, m)) && forall q :: m < q <= i ==> !FileGroupFrom(s, q)
    decreases i
  {
    if i > 0 && !FileGroupFrom(s, i) {
      GroupPlaceSpec(s, i - 1);
    }
  }

  /** A place where the rest matches, with none later, is the place found. */
  lemma {:induction false} GroupPlaceIs(s: string, m: nat, i: nat)
    requires i < |s| && s[|s| - 1] == '>' && m <= i && FileGroupFrom(s, m)
    requires forall q :: m < q <= i ==> !FileGroupFrom(s, q)
    ensures GroupPlace(s, i) == m
    decreases i
  {
    if m < i {
      assert !FileGroupFrom(s, i);
      GroupPlaceIs(s, m, i - 1);
    }
  }

  /** `<.*\s+file\s+(.+)>`: the path after the last whitespace-delimited `file`. */
  function GeneratedFile(s: string): Option<string> {
    if |s| >= 2 && s[0] == '<' && s[|s| - 1] == '>' then
      var m := GroupPlace(s, |s| - 2);
      if m == 0 then None else FileGroupAt(s, m)
    else None
  }

  /** The pattern matches when the text is `<...>` and the rest of the pattern
    * covers it from some place; the group is the one from the last such place. */
  lemma GeneratedFileSpec(s: string)
    ensures var r := GeneratedFile(s);
      && (r.Some? ==> |s| >= 2 && s[0] == '<' && exists m :: (FileGroupFrom(s, m) && r == FileGroupAt(s, m)
           && forall q :: m < q ==> !FileGroupFrom(s, q)))
      && (r.None? ==> |s| < 2 || s[0] != '<' || forall q :: !FileGroupFrom(s, q))
  {
    if |s| >= 2 && s[0] == '<' && s[|s| - 1] == '>' {
      GroupPlaceSpec(s, |s| - 2);
    }
  }

  /** A generated-file match is the text just before the closing '>'. */
  lemma GeneratedFileEnds(s: string)
    requires GeneratedFile(s).Some?
    ensures EndsWith(s, GeneratedFile(s).value + ">")
  {
    var m := GroupPlace(s, |s| - 2);
    FileGroupAtSpec(s, m);
    var j, k :| FileGroupShape(s, m, j, k) && GeneratedFile(s).value == s[k..|s| - 1];
    assert s[k..] == GeneratedFile(s).value + ">";
  }

  /** No character of `s` is a `\s` character. */
  lemma NoSpaceAt(s: string, m: int)
    requires NoSpace(s) && 0 <= m < |s|
    ensures !IsSpace(s[m])
  {
    assert s[m] in s;
  }

  /** In `<K file P>` with `P` free of whitespace, the rest of the pattern
    * cannot match from a place after the space before "file". */
  lemma NoGroupAfter(kind: string, path: string, q: int)
    requires NoSpace(path) && |path| >= 1
    requires var s := "<" + kind + " file " + path + ">"; 1 + |kind| < q <= |s| - 2
    ensures !FileGroupFrom("<" + kind + " file " + path + ">", q)
  {
  }

  /** The pattern matches from the last place where its rest does. */
  lemma GeneratedFileAt(s: string, m: nat)
    requires |s| >= 2 && s[0] == '<' && s[|s| - 1] == '>' && m <= |s| - 2 && FileGroupFrom(s, m)
    requires forall q :: m < q <= |s| - 2 ==> !FileGroupFrom(s, q)
    ensures GeneratedFile(s) == FileGroupAt(s, m)
  {
    GroupPlaceIs(s, m, |s| - 2);
  }

  /** From the space before "file", the rest of `<K file P>` matches with group `P`. */
  lemma FileGroupOf(kind: string, path: string)
    requires NoLineEnd(kind) && NoLineEnd(path) && |path| >= 1 && NoSpace(path)
    ensures var s := "<" + kind + " file " + path + ">";
      FileGroupAt(s, 1 + |kind|) == Some(path) && FileGroupFrom(s, 1 + |kind|)
  {
    var s := "<" + kind + " file " + path + ">";
    var i0 := 1 + |kind|;
    assert s[1..i0] == kind;
    assert s[i0 + 6..|s| - 1] == path;
    assert s[i0..i0 + 6] == " file ";
    assert OccursAt(s, "file", i0 + 1);
    SpaceRunAt(s, i0, i0 + 1);
    assert s[i0 + 6] == path[0];
    NoSpaceAt(path, 0);
    SpaceRunAt(s, i0 + 5, i0 + 6);
  }

  /** `<source file P>` names `P` when `P` is non-empty and has no whitespace. */
  lemma GeneratedFileOf(kind: string, path: string)
    requires NoLineEnd(kind) && NoLineEnd(path) && |path| >= 1 && NoSpace(path)
    ensures GeneratedFile("<" + kind + " file " + path + ">") == Some(path)
  {
    var s := "<" + kind + " file " + path + ">";
    FileGroupOf(kind, path);
    forall q | 1 + |kind| < q <= |s| - 2 ensures !FileGroupFrom(s, q) {
      NoGroupAfter(kind, path, q);
    }
    GeneratedFileAt(s, 1 + |kind|);
  }

  datatype LocalBazelTarget = LocalBazelTarget(path: string)
  datatype ExternalTarget = ExternalTarget(externalDepName: string, jarPath: string)

  /** One dependency annotation printed by the deps aspect, classified. */
  datatype Annotation = Local(local: LocalBazelTarget) | Remote(remote: ExternalTarget)

  /** One iteration of the collector: the remote pattern is tried first, and a
    * remote annotation whose file list does not match is an error rather than
    * a local target. */
  function Classify(line: string): (r: Result<Annotation>)
    ensures r.Err? ==> r.error.kind == IllegalState && r.error.cause.None?
    ensures r.Err? ==>
      r.error.message == "Was not able to match remote-dependency " + line ||
      r.error.message == "the Bazel dep '" + line + "' does not match any known annotations."
  {
    match RemoteMatch(line)
    case Some((name, inner)) =>
      (match GeneratedFile(inner)
       case Some(jar) => Ok(Remote(ExternalTarget(name, jar)))
       case None => Err(Throw(IllegalState, "Was not able to match remote-dependency " + line)))
    case None =>
      match LocalMatch(line)
      case Some(path) => Ok(Local(LocalBazelTarget(path)))
      case None => Err(Throw(IllegalState, "the Bazel dep '" + line + "' does not match any known annotations."))
  }

  /** A local target is the text before the last `<FILES:>` of a line the
    * remote pattern rejects. */
  lemma ClassifiedLocal(line: string, target: LocalBazelTarget)
    requires Classify(line) == Ok(Local(target))
    ensures RemoteMatch(line).None?
    ensures StartsWith(target.path, "//") && |target.path| >= 3 && StartsWith(line, target.path + FilesMarker)
    ensures NoLineEnd(line) && forall q :: |target.path| < q ==> !OccursAt(line, FilesMarker, q)
  {
    LocalMatchShape(line);
  }

  /** An external jar is named by the rule after `//third_party:`, and its path
    * closes the bracketed file list. */
  lemma ClassifiedRemote(line: string, e: ExternalTarget)
    requires Classify(line) == Ok(Remote(e))
    ensures exists inner :: (line == ThirdPartyPrefix + e.externalDepName + FilesList + inner + "]"
      && EndsWith(inner, e.jarPath + ">"))
  {
    RemoteMatchShape(line);
    GeneratedFileEnds(RemoteMatch(line).value.1);
  }

  /** No `<FILES:>` starts after the one that follows `path` when `R` has none. */
  lemma NoMarkerAfter(path: string, rest: string)
    requires !Contains(rest, FilesMarker)
    ensures forall q :: |path| < q ==> !OccursAt(path + FilesMarker + rest, FilesMarker, q)
  {
    assert FilesMarker == ['<'] + "FILES:>";
    forall q | |path| < q ensures !OccursAt(path + FilesMarker + rest, FilesMarker, q) {
      NoLaterOccurrence(path, '<', "FILES:>", rest, q);
    }
  }

  /** A line of the local form is cut at its last `<FILES:>`. */
  lemma LocalMatchAt(t: string, p: nat)
    requires NoLineEnd(t) && StartsWith(t, "//") && 3 <= p && OccursAt(t, FilesMarker, p)
    requires forall q :: p < q ==> !OccursAt(t, FilesMarker, q)
    ensures LocalMatch(t) == Some(t[..p])
  {
    LastOccurrenceIs(t, FilesMarker, 3, |t| - |FilesMarker|, p);
  }

  /** The local pattern cuts `P<FILES:>R` at `P` when no later `<FILES:>` follows. */
  lemma LocalMatchOf(path: string, rest: string)
    requires StartsWith(path, "//") && |path| >= 3 && NoLineEnd(path) && NoLineEnd(rest)
    requires !Contains(rest, FilesMarker)
    ensures LocalMatch(path + FilesMarker + rest) == Some(path)
  {
    var t := path + FilesMarker + rest;
    NoMarkerAfter(path, rest);
    assert OccursAt(t, FilesMarker, |path|);
    assert NoLineEnd(t);
    assert t[..2] == path[..2];
    LocalMatchAt(t, |path|);
    assert t[..|path|] == path;
  }

  /** A line `P<FILES:>R` is the local target `P` when `P` starts with "//", no
    * later `<FILES:>` follows and the line does not end with ']'. */
  lemma ClassifyLocalLine(path: string, rest: string)
    requires StartsWith(path, "//") && |path| >= 3 && NoLineEnd(path) && NoLineEnd(rest)
    requires !Contains(rest, FilesMarker)
    requires rest == "" || rest[|rest| - 1] != ']'
    ensures Classify(path + FilesMarker + rest) == Ok(Local(LocalBazelTarget(path)))
  {
    var tail := FilesMarker + rest;
    var t := path + tail;
    assert t == path + FilesMarker + rest;
    assert t[|t| - 1] == tail[|tail| - 1];
    if rest == "" {
      assert tail == FilesMarker;
    } else {
      assert tail[|tail| - 1] == rest[|rest| - 1];
    }
    assert !EndsWith(t, "]");
    LocalMatchOf(path, rest);
  }

  /** No `<FILES:>[` starts after the one that follows `pre` when `I` has no '['. */
  lemma NoListAfter(pre: string, inner: string)
    requires '[' !in inner
    ensures forall q :: |pre| < q ==> !OccursAt(pre + FilesList + inner + "]", FilesList, q)
  {
    assert FilesList == ['<'] + "FILES:>[";
    assert FilesList[8] == '[';
    NotContainsMissingChar(inner + "]", FilesList, '[');
    assert pre + FilesList + inner + "]" == pre + FilesList + (inner + "]");
    forall q | |pre| < q ensures !OccursAt(pre + FilesList + (inner + "]"), FilesList, q) {
      NoLaterOccurrence(pre, '<', "FILES:>[", inner + "]", q);
    }
  }

  /** A line of the remote form splits at its last `<FILES:>[`. */
  lemma RemoteMatchAt(t: string, p: nat)
    requires NoLineEnd(t) && StartsWith(t, ThirdPartyPrefix) && EndsWith(t, "]")
    requires |ThirdPartyPrefix| <= p <= |t| - |FilesList| - 1 && OccursAt(t, FilesList, p)
    requires forall q :: p < q ==> !OccursAt(t, FilesList, q)
    ensures RemoteMatch(t) == Some((t[|ThirdPartyPrefix|..p], t[p + |FilesList|..|t| - 1]))
  {
    LastOccurrenceIs(t, FilesList, |ThirdPartyPrefix|, |t| - |FilesList| - 1, p);
  }

  /** The remote pattern splits `//third_party:N<FILES:>[I]` into `N` and `I`
    * when `I` has no '['. */
  lemma RemoteMatchOf(name: string, inner: string)
    requires NoLineEnd(name) && NoLineEnd(inner) && '[' !in inner
    ensures RemoteMatch(ThirdPartyPrefix + name + FilesList + inner + "]") == Some((name, inner))
  {
    var pre := ThirdPartyPrefix + name;
    var t := pre + FilesList + inner + "]";
    NoListAfter(pre, inner);
    assert NoLineEnd(t);
    Pieces(ThirdPartyPrefix, name, FilesList, inner, "]");
    RemoteMatchAt(t, |pre|);
  }

  /** `//third_party:N<FILES:>[<K file P>]` is the external jar `P` of rule `N`. */
  lemma ClassifyRemoteLine(name: string, kind: string, path: string)
    requires NoLineEnd(name) && NoLineEnd(kind) && NoLineEnd(path) && |path| >= 1 && NoSpace(path)
    requires '[' !in kind && '[' !in path
    ensures Classify(ThirdPartyPrefix + name + FilesList + ("<" + kind + " file " + path + ">") + "]")
      == Ok(Remote(ExternalTarget(name, path)))
  {
    var inner := "<" + kind + " file " + path + ">";
    assert '[' !in inner && NoLineEnd(inner);
    RemoteMatchOf(name, inner);
    GeneratedFileOf(kind, path);
  }

  /** Every remote annotation also fits the local pattern, so the order of the
    * two tests decides what it becomes. */
  lemma RemoteAlsoLocal(t: string)
    requires RemoteMatch(t).Some?
    ensures LocalMatch(t).Some?
  {
    var hi := |t| - |FilesList| - 1;
    LastOccurrenceSpec(t, FilesList, |ThirdPartyPrefix|, hi);
    var p := LastOccurrence(t, FilesList, |ThirdPartyPrefix|, hi).value;
    MarkerInList(t, p);
    ThirdPartyIsLabel(t);
    LocalMatchWhen(t);
  }

  /** Where the file list starts, the marker does. */
  lemma MarkerInList(t: string, p: nat)
    requires OccursAt(t, FilesList, p)
    ensures OccursAt(t, FilesMarker, p)
  {
    assert t[p..p + |FilesMarker|] == t[p..p + |FilesList|][..|FilesMarker|];
  }

  /** A `//third_party:` annotation starts like a label. */
  lemma ThirdPartyIsLabel(t: string)
    requires StartsWith(t, ThirdPartyPrefix)
    ensures StartsWith(t, "//")
  {
    assert t[..2] == t[..|ThirdPartyPrefix|][..2];
  }

  /** A `//third_party:` annotation without a bracketed file list is taken for
    * a local target, not reported. */
  lemma ThirdPartyWithoutListIsLocal(name: string, rest: string)
    requires NoLineEnd(name) && NoLineEnd(rest) && !Contains(rest, FilesMarker)
    requires rest == "" || rest[|rest| - 1] != ']'
    ensures Classify(ThirdPartyPrefix + name + FilesMarker + rest) == Ok(Local(LocalBazelTarget(ThirdPartyPrefix + name)))
  {
    var path := ThirdPartyPrefix + name;
    assert path[..2] == "//";
    ClassifyLocalLine(path, rest);
  }

  /** A remote annotation with an empty file list is an error, not a local target. */
  lemma EmptyListFails(name: string)
    requires NoLineEnd(name)
    ensures var t := ThirdPartyPrefix + name + FilesList + "]";
      Classify(t) == Err(Throw(IllegalState, "Was not able to match remote-dependency " + t))
  {
    RemoteMatchOf(name, "");
    assert ThirdPartyPrefix + name + FilesList + "" + "]" == ThirdPartyPrefix + name + FilesList + "]";
    assert GeneratedFile("") == None;
  }

  /** The classification of every line, in order. */
  function Classified(lines: seq<string>): (r: seq<Result<Annotation>>)
    ensures |r| == |lines| && forall i :: 0 <= i < |lines| ==> r[i] == Classify(lines[i])
  {
    seq(|lines|, i requires 0 <= i < |lines| => Classify(lines[i]))
  }

  /** The sequential collector over the lines: the annotations in order, or the
    * error of the first line that does not classify. */
  function ClassifyAll(lines: seq<string>): Result<seq<Annotation>>
    decreases |lines|
  {
    if |lines| == 0 then Ok([])
    else
      var init :- ClassifyAll(lines[..|lines| - 1]);
      var a :- Classify(lines[|lines| - 1]);
      Ok(init + [a])
  }

  /** The collector succeeds exactly when every line classifies, with one
    * annotation per line; otherwise it fails with the first line's error. */
  lemma {:induction false} ClassifyAllOfLines(lines: seq<string>)
    ensures ClassifyAll(lines) == AllOk(Classified(lines))
    decreases |lines|
  {
    if |lines| > 0 {
      var init := lines[..|lines| - 1];
      ClassifyAllOfLines(init);
      assert Classified(lines)[..|lines| - 1] == Classified(init);
    }
  }

  /** Once a prefix of the lines fails, the whole collection fails the same way. */
  lemma {:induction false} ClassifyAllFailsFrom(lines: seq<string>, j: nat)
    requires j <= |lines| && ClassifyAll(lines[..j]).Err?
    ensures ClassifyAll(lines) == ClassifyAll(lines[..j])
    decreases |lines| - j
  {
    if j < |lines| {
      assert lines[..j + 1][..j] == lines[..j];
      ClassifyAllFailsFrom(lines, j + 1);
    } else {
      assert lines[..j] == lines;
    }
  }

  /** The local targets among the annotations, in order. */
  function Locals(anns: seq<Annotation>): seq<LocalBazelTarget>
    decreases |anns|
  {
    if |anns| == 0 then []
    else Locals(anns[..|anns| - 1]) + (if anns[|anns| - 1].Local? then [anns[|anns| - 1].local] else [])
  }

  /** The external jars among the annotations, in order. */
  function Remotes(anns: seq<Annotation>): seq<ExternalTarget>
    decreases |anns|
  {
    if |anns| == 0 then []
    else Remotes(anns[..|anns| - 1]) + (if anns[|anns| - 1].Remote? then [anns[|anns| - 1].remote] else [])
  }

  /** Every annotation lands in exactly one of the two lists, and nothing else does. */
  lemma {:induction false} LocalsRemotesPartition(anns: seq<Annotation>)
    ensures |Locals(anns)| + |Remotes(anns)| == |anns|
    ensures forall t :: t in Locals(anns) <==> Local(t) in anns
    ensures forall e :: e in Remotes(anns) <==> Remote(e) in anns
    decreases |anns|
  {
    if |anns| > 0 {
      var init := anns[..|anns| - 1];
      LocalsRemotesPartition(init);
      assert anns == init + [anns[|anns| - 1]];
    }
  }

  /** The lists of a concatenation are the concatenated lists: the combiner of
    * two partial collections keeps the order. */
  lemma {:induction false} LocalsRemotesAppend(a: seq<Annotation>, b: seq<Annotation>)
    ensures Locals(a + b) == Locals(a) + Locals(b)
    ensures Remotes(a + b) == Remotes(a) + Remotes(b)
    decreases |b|
  {
    if |b| > 0 {
      var b' := b[..|b| - 1];
      assert (a + b)[..|a + b| - 1] == a + b';
      LocalsRemotesAppend(a, b');
    } else {
      assert a + b == a;
    }
  }

  /** `BazelAspectService.Deps`: the two lists the collector fills, and the
    * annotations that filled them. */
  class Deps {
    var moduleDeps: seq<LocalBazelTarget>
    var remoteWorkspaceDeps: seq<ExternalTarget>
    ghost var added: seq<Annotation>

    ghost predicate Valid()
      reads this
    {
      moduleDeps == Locals(added) && remoteWorkspaceDeps == Remotes(added)
    }

    constructor ()
      ensures Valid() && added == []
      ensures moduleDeps == [] && remoteWorkspaceDeps == []
    {
      moduleDeps, remoteWorkspaceDeps := [], [];
      added := [];
    }

    /** The accumulator: the annotation goes at the end of its list. */
    method Add(a: Annotation)
      requires Valid()
      modifies this
      ensures Valid() && added == old(added) + [a]
      ensures a.Local? ==> moduleDeps == old(moduleDeps) + [a.local] && remoteWorkspaceDeps == old(remoteWorkspaceDeps)
      ensures a.Remote? ==> remoteWorkspaceDeps == old(remoteWorkspaceDeps) + [a.remote] && moduleDeps == old(moduleDeps)
    {
      if a.Local? {
        moduleDeps := moduleDeps + [a.local];
      } else {
        remoteWorkspaceDeps := remoteWorkspaceDeps + [a.remote];
      }
      added := added + [a];
      assert added[..|added| - 1] == old(added);
    }

    /** The combiner: the other collection's lists are appended to these. */
    method Combine(other: Deps)
      requires Valid() && other.Valid()
      modifies this
      ensures Valid() && added == old(added) + old(other.added)
      ensures moduleDeps == old(moduleDeps) + old(other.moduleDeps)
      ensures remoteWorkspaceDeps == old(remoteWorkspaceDeps) + old(other.remoteWorkspaceDeps)
    {
      LocalsRemotesAppend(added, other.added);
      moduleDeps, remoteWorkspaceDeps, added :=
        moduleDeps + other.moduleDeps, remoteWorkspaceDeps + other.remoteWorkspaceDeps, added + other.added;
    }
  }

  /** The stream collection of `getAllDeps` over the aspect's lines, in order. */
  method CollectDeps(lines: seq<string>) returns (r: Result<Deps>)
    ensures r.Ok? <==> ClassifyAll(lines).Ok?
    ensures r.Err? ==> r.error == ClassifyAll(lines).error
    ensures r.Ok? ==> fresh(r.value) && r.value.Valid() && r.value.added == ClassifyAll(lines).value
  {
    var deps := new Deps();
    var i := 0;
    while i < |lines|
      invariant 0 <= i <= |lines|
      invariant fresh(deps) && deps.Valid()
      invariant ClassifyAll(lines[..i]) == Ok(deps.added)
    {
      assert lines[..i + 1][..i] == lines[..i];
      var a := Classify(lines[i]);
      if a.Err? {
        ClassifyAllFailsFrom(lines, i + 1);
        return Err(a.error);
      }
      deps.Add(a.value);
      i := i + 1;
    }
    assert lines[..i] == lines;
    return Ok(deps);
  }

  /** What `getAllDeps` reports for a target: the annotations of the lines
    * the deps aspect printed, or the failure that stopped it; `writable` says
    * whether the aspect's rule file can be written and `run` is what its build
    * does. */
  function DepsReport(writable: bool, runner: Runner, targetName: string, run: ProcessRun): Result<seq<Annotation>> {
    var lines := AspectResult(writable, runner, DepsAspect, targetName, run);
    if lines.Err? then Err(lines.error) else ClassifyAll(lines.value)
  }

  /** `getAllDeps`: runs the deps aspect on the target and classifies every
    * line it prints. */
  method GetAllDeps(fs: FileSystem, service: Service, targetName: string, run: ProcessRun) returns (r: Result<Deps>)
    modifies fs
    ensures var ruleFile := Child(service.runner.aspectsFolder, DepsAspect);
      var report := DepsReport(ruleFile !in fs.readOnly && ruleFile !in old(fs.dirs), service.runner, targetName, run);
      && (r.Ok? <==> report.Ok?) && (r.Err? ==> r.error == report.error)
      && (r.Ok? ==> fresh(r.value) && r.value.Valid() && r.value.added == report.value)
    ensures var ruleFile := Child(service.runner.aspectsFolder, DepsAspect);
      var writable := ruleFile !in fs.readOnly && ruleFile !in old(fs.dirs);
      var started := Start(AspectExec(service.runner, DepsAspect, targetName), run).result;
      && fs.dirs == old(fs.dirs)
      && fs.files == (if writable then old(fs.files)[ruleFile := Resource("aspects/" + DepsAspect)] else old(fs.files))
      && (!(writable && started.Ok?) ==> r.Err?)
      && (!writable || (started.Err? && started.error.kind in {IOError, Interrupted}) ==> r.Err? && r.error.kind == Runtime)
      && (writable && started.Err? && started.error.kind !in {IOError, Interrupted} ==> r == Err(started.error))
      && (writable && started.Ok? ==>
            var parsed := ClassifyAll(CleanUp(SplitLines(run.errorOutput), DepsAspect));
            && (r.Ok? <==> parsed.Ok?) && (r.Err? ==> r.error == parsed.error)
            && (r.Ok? ==> fresh(r.value) && r.value.Valid() && r.value.added == parsed.value))
  {
    var lines :- GetAspectResult(fs, service.runner, DepsAspect, targetName, run);
    r := CollectDeps(lines);
  }

  // ---------------------------------------------------------------------------
  // `parseDeclaredPackage`

  /** `[\w\.]`. */
  predicate IsNameChar(c: char) {
    IsWordChar(c) || c == '.'
  }

  /** The end of the run of `[\w\.]` characters starting at `i`. */
  function NameRunEnd(s: string, i: nat): (j: nat)
    requires i <= |s|
    ensures i <= j <= |s|
    decreases |s| - i
  {
    if i < |s| && IsNameChar(s[i]) then NameRunEnd(s, i + 1) else i
  }

  /** The run found is all name characters and stops at another character or
    * the end. */
  lemma {:induction false} NameRunEndSpec(s: string, i: nat)
    requires i <= |s|
    ensures var j := NameRunEnd(s, i);
      (forall k :: i <= k < j ==> IsNameChar(s[k])) && (j < |s| ==> !IsNameChar(s[j]))
    decreases |s| - i
  {
    if i < |s| && IsNameChar(s[i]) {
      NameRunEndSpec(s, i + 1);
    }
  }

  /** A run of name characters from `i` that stops before another character at
    * `j` is the run `NameRunEnd` finds. */
  lemma NameRunAt(s: string, i: nat, j: nat)
    requires i <= j < |s| && !IsNameChar(s[j]) && forall m :: i <= m < j ==> IsNameChar(s[m])
    ensures NameRunEnd(s, i) == j
    decreases j - i
  {
    if i < j {
      NameRunAt(s, i + 1, j);
    }
  }

  /** What `$` lets follow the last character matched: nothing, or one final
    * line terminator. */
  predicate AtEnd(rest: string) {
    |rest| == 0
    || (|rest| == 1 && rest[0] in {'\n', '\r', '\U{0085}', '\U{2028}', '\U{2029}'})
    || (|rest| == 2 && rest[0] == '\r' && rest[1] == '\n')
  }

  /** `^\s*package\s+([\w\.]+);$` covering `line`, with "package" at `a` and
    * the name at `b`. */
  predicate PackageShape(line: string, a: int, b: int, name: string) {
    0 <= a && a + 7 < b && b + |name| < |line| && |name| >= 1
    && (forall k :: 0 <= k < a ==> IsSpace(line[k]))
    && OccursAt(line, "package", a)
    && (forall k :: a + 7 <= k < b ==> IsSpace(line[k]))
    && line[b..b + |name|] == name
    && (forall k :: 0 <= k < |name| ==> IsNameChar(name[k]))
    && line[b + |name|] == ';'
    && AtEnd(line[b + |name| + 1..])
  }

  /** `PACKAGE_PATTERN.matcher(line).find()`: the declared package of one line.
    * Each run is possessive in effect: giving back a character never helps. */
  function PackageOf(line: string): Option<string> {
    var a := SpaceRunEnd(line, 0);
    if !OccursAt(line, "package", a) then None
    else
      var b := SpaceRunEnd(line, a + 7);
      var c := NameRunEnd(line, b);
      if a + 7 < b && b < c && c < |line| && line[c] == ';' && AtEnd(line[c + 1..]) then Some(line[b..c])
      else None
  }

  /** A package found is one the pattern can cover the line with. */
  lemma PackageOfShape(line: string)
    requires PackageOf(line).Some?
    ensures exists a, b :: PackageShape(line, a, b, PackageOf(line).value)
  {
    var a := SpaceRunEnd(line, 0);
    var b := SpaceRunEnd(line, a + 7);
    PackageRunsShape(line, a, b, NameRunEnd(line, b));
  }

  /** The runs `PackageOf` finds, when they fit, cover the line. */
  lemma PackageRunsShape(line: string, a: nat, b: nat, c: nat)
    requires a == SpaceRunEnd(line, 0) && a + 7 <= |line| && b == SpaceRunEnd(line, a + 7) && c == NameRunEnd(line, b)
    requires OccursAt(line, "package", a) && a + 7 < b < c < |line| && line[c] == ';' && AtEnd(line[c + 1..])
    ensures PackageShape(line, a, b, line[b..c])
  {
    SpaceRunEndSpec(line, 0);
    SpaceRunEndSpec(line, a + 7);
    NameRunEndSpec(line, b);
    NameSlice(line, b, c);
  }

  /** A run of name characters, cut out of the line, is a name. */
  lemma NameSlice(s: string, i: nat, j: nat)
    requires i <= j <= |s| && forall k :: i <= k < j ==> IsNameChar(s[k])
    ensures forall k :: 0 <= k < |s[i..j]| ==> IsNameChar(s[i..j][k])
  {
    forall k | 0 <= k < j - i ensures IsNameChar(s[i..j][k]) {
      assert s[i..j][k] == s[i + k];
    }
  }

  /** Every way the pattern can cover the line yields the package found. */
  lemma PackageOfUnique(line: string, a: int, b: int, name: string)
    requires PackageShape(line, a, b, name)
    ensures PackageOf(line) == Some(name)
  {
    assert line[a..a + 7][0] == 'p';
    SpaceRunAt(line, 0, a);
    assert line[b..b + |name|][0] == name[0];
    SpaceRunAt(line, a + 7, b);
    forall k | b <= k < b + |name| ensures IsNameChar(line[k]) {
      assert line[b..b + |name|][k - b] == line[k];
    }
    NameRunAt(line, b, b + |name|);
  }

  /** A declaration line yields its package name. */
  lemma PackageLine(lead: string, gap: string, name: string, end: string)
    requires forall k :: 0 <= k < |lead| ==> IsSpace(lead[k])
    requires |gap| >= 1 && (forall k :: 0 <= k < |gap| ==> IsSpace(gap[k])) && |name| >= 1 && AtEnd(end)
    requires forall k :: 0 <= k < |name| ==> IsNameChar(name[k])
    ensures PackageOf(lead + "package" + gap + name + ";" + end) == Some(name)
  {
    var line := lead + "package" + gap + name + ";" + end;
    var a, b := |lead|, |lead| + 7 + |gap|;
    assert line[a..a + 7] == "package";
    assert line[b..b + |name|] == name;
    assert line[b + |name| + 1..] == end;
    forall k | a + 7 <= k < b ensures IsSpace(line[k]) {
      assert line[k] == gap[k - a - 7];
    }
    assert PackageShape(line, a, b, name);
    PackageOfUnique(line, a, b, name);
  }

  /** The package of the first declaration line, or none. */
  function DeclaredPackage(lines: seq<string>): (r: Option<string>)
    ensures r.Some? ==> exists i :: (0 <= i < |lines| && PackageOf(lines[i]) == r
      && forall j :: 0 <= j < i ==> PackageOf(lines[j]).None?)
    ensures r.None? ==> forall i :: 0 <= i < |lines| ==> PackageOf(lines[i]).None?
    decreases |lines|
  {
    if |lines| == 0 then None
    else if PackageOf(lines[0]).Some? then PackageOf(lines[0])
    else
      var r := DeclaredPackage(lines[1..]);
      assert forall i :: 1 <= i < |lines| ==> lines[1..][i - 1] == lines[i];
      r
  }

  /** The lines a reader sees: a text file's lines, none for an empty file. Other
    * content is taken to hold no declaration. */
  function TextLines(c: Content): seq<string> {
    if c.Lines? then c.lines else []
  }

  /** What `parseDeclaredPackage` returns: an unreadable file (missing, or a
    * directory) is a RuntimeException wrapping the reader's IOException. */
  function PackageIn(files: map<string, Content>, dirs: set<string>, file: string): (r: Result<Option<string>>)
    ensures r.Err? <==> file !in files || file in dirs
    ensures r.Err? ==> (r.error.kind == Runtime && r.error.message == "Failed to parse java package for " + file
      && r.error.cause == Some(Throw(IOError, file)))
    ensures r.Ok? ==> r.value == DeclaredPackage(TextLines(files[file]))
  {
    if file !in files || file in dirs then Err(Wrap("Failed to parse java package for " + file, Throw(IOError, file)))
    else Ok(DeclaredPackage(TextLines(files[file])))
  }

  /** `parseDeclaredPackage`: reads the file line by line and stops at the first
    * declaration. */
  method ParseDeclaredPackage(fs: FileSystem, file: string) returns (r: Result<Option<string>>)
    ensures r == PackageIn(fs.files, fs.dirs, file)
  {
    if file !in fs.files || file in fs.dirs {
      return Err(Wrap("Failed to parse java package for " + file, Throw(IOError, file)));
    }
    var lines := TextLines(fs.files[file]);
    var i := 0;
    while i < |lines|
      invariant 0 <= i <= |lines|
      invariant forall j :: 0 <= j < i ==> PackageOf(lines[j]).None?
    {
      var m := PackageOf(lines[i]);
      if m.Some? {
        return Ok(m);
      }
      i := i + 1;
    }
    return Ok(None);
  }

  // ---------------------------------------------------------------------------
  // `getSourceFolders`

  /** A listed source file once resolved against the root project, and its
    * parent folder (`getParentFile`, null for a path with a single name). */
  datatype Source = Source(file: string, folder: Option<string>)

  /** The `.map(File::new).map(mRootProject::file)` stages of the stream. */
  function Locate(rootDir: string, lines: seq<string>): (r: seq<Source>)
    ensures |r| == |lines|
    ensures forall i :: 0 <= i < |lines| ==>
      r[i].file == Resolve(rootDir, lines[i]) && r[i].folder == Parent(r[i].file)
  {
    seq(|lines|, i requires 0 <= i < |lines| => Source(Resolve(rootDir, lines[i]), Parent(Resolve(rootDir, lines[i]))))
  }

  /** The folder with the package's length cut off its end, as a `File`. */
  function RootOfFolder(folder: string, pkg: string): (r: Result<string>)
    ensures r.Err? <==> |pkg| > |folder|
    ensures r.Err? ==> r.error.kind == IndexOutOfBounds
    ensures r.Ok? ==> r.value <= folder[..|folder| - |pkg|]
    ensures var n := |folder| - |pkg|;
      1 < n && folder[n - 1] == '/' && folder[n - 2] != '/' ==> r == Ok(folder[..n - 1])
  {
    if |pkg| > |folder| then Err(Throw(IndexOutOfBounds, "begin 0, end " + IntToString(|folder| - |pkg|) + ", length " + IntToString(|folder|)))
    else
      var n := |folder| - |pkg|;
      assert 1 < n && folder[n - 1] == '/' && folder[n - 2] != '/' ==>
        && folder[..n][..n - 1] == folder[..n - 1]
        && StripTrailingSlashes(folder[..n - 1]) == folder[..n - 1];
      Ok(StripTrailingSlashes(folder[..n]))
  }

  /** A file of package `a.b.c` in `R/a/b/c` has source root `R`. */
  lemma RootOfPackageFolder(root: string, pkg: string)
    requires root != "" && !EndsWith(root, "/")
    ensures RootOfFolder(root + "/" + ReplaceChar(pkg, '.', '/'), pkg) == Ok(root)
  {
    var folder := root + "/" + ReplaceChar(pkg, '.', '/');
    assert folder[..|folder| - |pkg|] == root + "/";
    assert (root + "/")[..|root|] == root;
    assert StripTrailingSlashes(root + "/") == StripTrailingSlashes(root) == root;
  }

  /** The root one listed file maps to, and the folder cache after it. */
  datatype Visited = Visited(root: string, cache: map<string, string>)

  /** One element of the stream: the package comes from the cache of the
    * file's folder, or is read from the file and cached when it is not null.
    * A file without a parent, or a package that is null, ends in a
    * NullPointerException. */
  function Visit(files: map<string, Content>, dirs: set<string>, src: Source, cache: map<string, string>): Result<Visited>
  {
    if src.folder.Some? && src.folder.value in cache then
      var root :- RootOfFolder(src.folder.value, cache[src.folder.value]);
      Ok(Visited(root, cache))
    else
      var pkg :- PackageIn(files, dirs, src.file);
      if src.folder.None? || pkg.None? then Err(Throw(NullPointer, ""))
      else
        var root :- RootOfFolder(src.folder.value, pkg.value);
        Ok(Visited(root, cache[src.folder.value := pkg.value]))
  }

  /** A step of the stream leaves a hit cache alone and caches the package read
    * on a miss. */
  lemma VisitCache(files: map<string, Content>, dirs: set<string>, src: Source, cache: map<string, string>)
    requires Visit(files, dirs, src, cache).Ok?
    ensures var pkg := PackageIn(files, dirs, src.file);
      var v := Visit(files, dirs, src, cache).value;
      && src.folder.Some?
      && (src.folder.value in cache ==>
            v.cache == cache && RootOfFolder(src.folder.value, cache[src.folder.value]) == Ok(v.root))
      && (src.folder.value !in cache ==>
            (pkg.Ok? && pkg.value.Some? && v.cache == cache[src.folder.value := pkg.value.value]
             && RootOfFolder(src.folder.value, pkg.value.value) == Ok(v.root)))
  {
  }

  /** The rest of the stream from a given cache, collected into a set. */
  function RootsFrom(files: map<string, Content>, dirs: set<string>, srcs: seq<Source>,
                     cache: map<string, string>): Result<set<string>>
    decreases |srcs|
  {
    if |srcs| == 0 then Ok({})
    else
      var v :- Visit(files, dirs, srcs[0], cache);
      var rest :- RootsFrom(files, dirs, srcs[1..], v.cache);
      Ok({v.root} + rest)
  }

  /** The index of the first listed file in `folder`, or the length. */
  function FirstInFolder(srcs: seq<Source>, folder: string): (k: nat)
    ensures k <= |srcs|
    ensures k < |srcs| ==> srcs[k].folder == Some(folder)
    decreases |srcs|
  {
    if |srcs| == 0 then 0
    else if srcs[0].folder == Some(folder) then 0
    else 1 + FirstInFolder(srcs[1..], folder)
  }

  /** No listed file in `folder` comes before the first one. */
  lemma {:induction false} FirstInFolderFirst(srcs: seq<Source>, folder: string, j: nat)
    requires j < |srcs| && srcs[j].folder == Some(folder)
    ensures FirstInFolder(srcs, folder) <= j
    decreases j
  {
    if j > 0 && srcs[0].folder != Some(folder) {
      assert srcs[1..][j - 1] == srcs[j];
      FirstInFolderFirst(srcs[1..], folder, j - 1);
    }
  }

  /** The root of the `k`th file computed without a cache: its folder less the
    * package declared by the first listed file in the same folder. */
  function RootByFirstFile(files: map<string, Content>, dirs: set<string>, srcs: seq<Source>, k: nat): Option<string>
    requires k < |srcs|
  {
    match srcs[k].folder
    case None => None
    case Some(folder) =>
      FirstInFolderFirst(srcs, folder, k);
      match PackageIn(files, dirs, srcs[FirstInFolder(srcs, folder)].file)
      case Ok(Some(pkg)) => (match RootOfFolder(folder, pkg) case Ok(root) => Some(root) case Err(_) => None)
      case _ => None
  }

  /** The roots of the files from `i` on, each computed without a cache. */
  ghost function RootsByFirstFiles(files: map<string, Content>, dirs: set<string>, srcs: seq<Source>, i: nat): set<string>
  {
    set k | i <= k < |srcs| && RootByFirstFile(files, dirs, srcs, k).Some? :: RootByFirstFile(files, dirs, srcs, k).value
  }

  lemma RootsByFirstFilesStep(files: map<string, Content>, dirs: set<string>, srcs: seq<Source>, i: nat)
    requires i < |srcs| && RootByFirstFile(files, dirs, srcs, i).Some?
    ensures RootsByFirstFiles(files, dirs, srcs, i)
      == {RootByFirstFile(files, dirs, srcs, i).value} + RootsByFirstFiles(files, dirs, srcs, i + 1)
  {
  }

  /** After the first `i` files the cache maps exactly the folders seen so far,
    * each to the package of the first file seen in it. */
  ghost predicate CacheOfFirstFiles(files: map<string, Content>, dirs: set<string>, srcs: seq<Source>, i: nat,
                                    cache: map<string, string>) {
    i <= |srcs|
    && (forall f :: f in cache <==> FirstInFolder(srcs, f) < i)
    && forall f :: f in cache ==> PackageIn(files, dirs, srcs[FirstInFolder(srcs, f)].file) == Ok(Some(cache[f]))
  }

  /** One step of the stream computes the root of the first file in the folder. */
  lemma VisitRootByFirstFile(files: map<string, Content>, dirs: set<string>, srcs: seq<Source>, i: nat,
                             cache: map<string, string>)
    requires i < |srcs| && CacheOfFirstFiles(files, dirs, srcs, i, cache)
    requires Visit(files, dirs, srcs[i], cache).Ok?
    ensures RootByFirstFile(files, dirs, srcs, i) == Some(Visit(files, dirs, srcs[i], cache).value.root)
  {
    VisitCache(files, dirs, srcs[i], cache);
    var folder := srcs[i].folder.value;
    var first := FirstInFolder(srcs, folder);
    FirstInFolderFirst(srcs, folder, i);
    if folder in cache {
      assert first < i;
      assert PackageIn(files, dirs, srcs[first].file) == Ok(Some(cache[folder]));
    } else {
      assert first == i;
    }
  }

  /** One step of the stream keeps the cache one of first files. */
  lemma VisitKeepsFirstFiles(files: map<string, Content>, dirs: set<string>, srcs: seq<Source>, i: nat,
                             cache: map<string, string>)
    requires i < |srcs| && CacheOfFirstFiles(files, dirs, srcs, i, cache)
    requires Visit(files, dirs, srcs[i], cache).Ok?
    ensures CacheOfFirstFiles(files, dirs, srcs, i + 1, Visit(files, dirs, srcs[i], cache).value.cache)
  {
    var v := Visit(files, dirs, srcs[i], cache).value;
    VisitCache(files, dirs, srcs[i], cache);
    var folder := srcs[i].folder.value;
    FirstInFolderFirst(srcs, folder, i);
    if folder in cache {
      forall f ensures f in cache <==> FirstInFolder(srcs, f) < i + 1 {
        assert FirstInFolder(srcs, f) == i ==> f == folder;
      }
    } else {
      assert FirstInFolder(srcs, folder) == i;
      forall f ensures f in v.cache <==> FirstInFolder(srcs, f) < i + 1 {
        assert FirstInFolder(srcs, f) == i ==> f == folder;
      }
    }
  }

  /** The rest of the stream computes, for every file, the root the first file
    * of its folder determines. */
  lemma {:induction false} RootsFromFirstFiles(files: map<string, Content>, dirs: set<string>, srcs: seq<Source>, i: nat,
                                               cache: map<string, string>, s: set<string>)
    requires i <= |srcs| && CacheOfFirstFiles(files, dirs, srcs, i, cache)
    requires RootsFrom(files, dirs, srcs[i..], cache) == Ok(s)
    ensures forall k :: i <= k < |srcs| ==> RootByFirstFile(files, dirs, srcs, k).Some?
    ensures s == RootsByFirstFiles(files, dirs, srcs, i)
    decreases |srcs| - i
  {
    if i < |srcs| {
      assert srcs[i..][0] == srcs[i] && srcs[i..][1..] == srcs[i + 1..];
      var v := Visit(files, dirs, srcs[i], cache).value;
      var rest := RootsFrom(files, dirs, srcs[i + 1..], v.cache).value;
      VisitRootByFirstFile(files, dirs, srcs, i, cache);
      VisitKeepsFirstFiles(files, dirs, srcs, i, cache);
      RootsFromFirstFiles(files, dirs, srcs, i + 1, v.cache, rest);
      RootsByFirstFilesStep(files, dirs, srcs, i);
    }
  }

  /** The cache is invisible in the result: every file's root is the one the
    * first listed file of its folder determines. */
  lemma SourceRootsByFirstFiles(files: map<string, Content>, dirs: set<string>, srcs: seq<Source>)
    requires RootsFrom(files, dirs, srcs, map[]).Ok?
    ensures forall k :: 0 <= k < |srcs| ==> RootByFirstFile(files, dirs, srcs, k).Some?
    ensures RootsFrom(files, dirs, srcs, map[]).value == RootsByFirstFiles(files, dirs, srcs, 0)
  {
    assert srcs[0..] == srcs;
    RootsFromFirstFiles(files, dirs, srcs, 0, map[], RootsFrom(files, dirs, srcs, map[]).value);
  }

  /** Files in one folder share a source root, whatever the later files declare. */
  lemma SameFolderSameRoot(files: map<string, Content>, dirs: set<string>, srcs: seq<Source>, j: nat, k: nat)
    requires j < |srcs| && k < |srcs| && srcs[j].folder == srcs[k].folder
    ensures RootByFirstFile(files, dirs, srcs, j) == RootByFirstFile(files, dirs, srcs, k)
  {
  }

  /** The roots collected so far joined with the rest of the stream. */
  function Merge(acc: set<string>, r: Result<set<string>>): Result<set<string>> {
    if r.Ok? then Ok(acc + r.value) else r
  }

  /** One element more of the stream: its error ends the collection, and its
    * root joins the roots collected so far. */
  lemma MergeStep(files: map<string, Content>, dirs: set<string>, srcs: seq<Source>, i: nat,
                  cache: map<string, string>, roots: set<string>)
    requires i < |srcs|
    ensures var v := Visit(files, dirs, srcs[i], cache);
      Merge(roots, RootsFrom(files, dirs, srcs[i..], cache))
      == if v.Err? then Err(v.error)
         else Merge(roots + {v.value.root}, RootsFrom(files, dirs, srcs[i + 1..], v.value.cache))
  {
    assert srcs[i..][0] == srcs[i] && srcs[i..][1..] == srcs[i + 1..];
    var v := Visit(files, dirs, srcs[i], cache);
    if v.Ok? {
      var rest := RootsFrom(files, dirs, srcs[i + 1..], v.value.cache);
      if rest.Ok? {
        assert roots + ({v.value.root} + rest.value) == roots + {v.value.root} + rest.value;
      }
    }
  }

  /** The mapping step of `getSourceFolders` on one listed file. */
  method VisitFile(fs: FileSystem, src: Source, cache: map<string, string>) returns (r: Result<Visited>)
    ensures r == Visit(fs.files, fs.dirs, src, cache)
  {
    var pkg: string;
    var newCache := cache;
    if src.folder.Some? && src.folder.value in cache {
      pkg := cache[src.folder.value];
    } else {
      var parsed := ParseDeclaredPackage(fs, src.file);
      if parsed.Err? {
        return Err(parsed.error);
      }
      if src.folder.None? || parsed.value.None? {
        return Err(Throw(NullPointer, ""));
      }
      pkg := parsed.value.value;
      newCache := cache[src.folder.value := pkg];
    }
    var root := RootOfFolder(src.folder.value, pkg);
    if root.Err? {
      return Err(root.error);
    }
    return Ok(Visited(root.value, newCache));
  }

  /** The stream of `getSourceFolders` after the aspect ran, with the folder cache. */
  method SourceFolders(fs: FileSystem, rootDir: string, lines: seq<string>) returns (r: Result<set<string>>)
    ensures r == RootsFrom(fs.files, fs.dirs, Locate(rootDir, lines), map[])
  {
    var srcs := Locate(rootDir, lines);
    var cache: map<string, string> := map[];
    var roots: set<string> := {};
    var i := 0;
    assert srcs[0..] == srcs;
    ghost var all := RootsFrom(fs.files, fs.dirs, srcs, map[]);
    assert all.Ok? ==> {} + all.value == all.value;
    while i < |srcs|
      invariant 0 <= i <= |srcs|
      invariant all == Merge(roots, RootsFrom(fs.files, fs.dirs, srcs[i..], cache))
    {
      MergeStep(fs.files, fs.dirs, srcs, i, cache, roots);
      var v := VisitFile(fs, srcs[i], cache);
      if v.Err? {
        return Err(v.error);
      }
      roots, cache := roots + {v.value.root}, v.value.cache;
      i := i + 1;
    }
    return Ok(roots);
  }

  /** What `getSourceFolders` reports for a target: the roots of the files
    * the sources aspect printed, read from `files` and `dirs`, or the failure
    * that stopped it; `writable` says whether the aspect's rule file can be
    * written and `run` is what its build does. */
  function SourcesReport(writable: bool, service: Service, targetName: string, run: ProcessRun,
                         files: map<string, Content>, dirs: set<string>): Result<set<string>> {
    var lines := AspectResult(writable, service.runner, SourcesAspect, targetName, run);
    if lines.Err? then Err(lines.error) else RootsFrom(files, dirs, Locate(service.rootDir, lines.value), map[])
  }

  /** `getSourceFolders`: runs the sources aspect on the target and maps every
    * listed file to its source root. */
  method GetSourceFolders(fs: FileSystem, service: Service, targetName: string, run: ProcessRun) returns (r: Result<set<string>>)
    modifies fs
    ensures var ruleFile := Child(service.runner.aspectsFolder, SourcesAspect);
      r == SourcesReport(ruleFile !in fs.readOnly && ruleFile !in old(fs.dirs), service, targetName, run, fs.files, fs.dirs)
    ensures var ruleFile := Child(service.runner.aspectsFolder, SourcesAspect);
      var writable := ruleFile !in fs.readOnly && ruleFile !in old(fs.dirs);
      var started := Start(AspectExec(service.runner, SourcesAspect, targetName), run).result;
      && fs.dirs == old(fs.dirs)
      && fs.files == (if writable then old(fs.files)[ruleFile := Resource("aspects/" + SourcesAspect)] else old(fs.files))
      && (!(writable && started.Ok?) ==> r.Err?)
      && (!writable || (started.Err? && started.error.kind in {IOError, Interrupted}) ==> r.Err? && r.error.kind == Runtime)
      && (writable && started.Err? && started.error.kind !in {IOError, Interrupted} ==> r == Err(started.error))
      && (writable && started.Ok? ==>
            r == RootsFrom(fs.files, fs.dirs, Locate(service.rootDir, CleanUp(SplitLines(run.errorOutput), SourcesAspect)), map[]))
  {
    var lines :- GetAspectResult(fs, service.runner, SourcesAspect, targetName, run);
    r := SourceFolders(fs, service.rootDir, lines);
  }
}
