/** Running one Bazel aspect on a target and reading back the lines it prints.
  * The runner owns a scratch folder under `build/bazel_aspects/` that holds
  * the aspect rule files and an empty BUILD.bazel making it a Bazel package. */
module AspectRunner {
  import opened Common
  import opened Strings
  import opened Paths
  import opened Files
  import opened LeafConfig
  import opened BazelExecHelper

  /** The output group passed to Bazel; it does not exist, so only the aspect runs. */
  const NoopOutputGroup: string := "noop"
  const AspectsRoot: string := "build/bazel_aspects/"
  const BuildFileName: string := "BUILD.bazel"

  /** The scratch folder of a target: the root followed by the target path with
    * every '/' and ':' turned into '_'. */
  function AspectsFolder(targetPath: string): (r: string)
    ensures r == AspectsRoot + ReplaceAny(targetPath, {'/', ':'}, '_')
    ensures |r| == |AspectsRoot| + |targetPath|
    ensures forall k :: |AspectsRoot| <= k < |r| ==> r[k] != '/' && r[k] != ':'
  {
    ReplaceCharsTwice(targetPath);
    Child(AspectsRoot, ReplaceChar(ReplaceChar(targetPath, '/', '_'), ':', '_'))
  }

  /** Replacing '/' and then ':' is one replacement of both. */
  lemma ReplaceCharsTwice(s: string)
    ensures ReplaceChar(ReplaceChar(s, '/', '_'), ':', '_') == ReplaceAny(s, {'/', ':'}, '_')
  {
  }

  /** Two targets share a scratch folder exactly when their paths agree after
    * mapping '/' and ':' to '_'; `//a:b` and `//a/b` therefore collide. */
  lemma AspectsFolderCollision(p: string, q: string)
    ensures AspectsFolder(p) == AspectsFolder(q) <==>
      ReplaceAny(p, {'/', ':'}, '_') == ReplaceAny(q, {'/', ':'}, '_')
  {
    var rp, rq := ReplaceAny(p, {'/', ':'}, '_'), ReplaceAny(q, {'/', ':'}, '_');
    if AspectsFolder(p) == AspectsFolder(q) {
      assert rp == AspectsFolder(p)[|AspectsRoot|..];
      assert rq == AspectsFolder(q)[|AspectsRoot|..];
    }
  }

  /** A constructed runner: the decorated configuration and its scratch folder. */
  datatype Runner = Runner(config: Decorated, aspectsFolder: string)

  /** The constructor: creates the scratch folder when it is missing (failing
    * with IllegalStateException when that is impossible), then writes an empty
    * BUILD.bazel into it (an IOException there becomes a RuntimeException). */
  method Create(fs: FileSystem, config: Decorated) returns (r: Result<Runner>)
    modifies fs
    ensures var folder := AspectsFolder(config.targetPath);
      var buildFile := Child(folder, BuildFileName);
      var folderOk := old(fs.Exists(folder)) || folder !in fs.readOnly;
      && (!folderOk ==> r == Err(Throw(IllegalState, "Failed to create output folder for aspects at " + folder))
                        && fs.files == old(fs.files) && fs.dirs == old(fs.dirs))
      && (folderOk ==> fs.dirs == (if old(fs.Exists(folder)) then old(fs.dirs) else old(fs.dirs) + {folder}))
      && (folderOk && (buildFile in fs.readOnly || buildFile in old(fs.dirs)) ==>
            r.Err? && r.error.kind == Runtime && r.error.message == "Failed to create an empty BUILD file for aspects rules!"
            && fs.files == old(fs.files))
      && (folderOk && buildFile !in fs.readOnly && buildFile !in old(fs.dirs) ==>
            r == Ok(Runner(config, folder)) && fs.files == old(fs.files)[buildFile := Blank])
  {
    var folder := AspectsFolder(config.targetPath);
    if !fs.Exists(folder) {
      var created := fs.Mkdirs(folder);
      if !created {
        return Err(Throw(IllegalState, "Failed to create output folder for aspects at " + folder));
      }
    }
    var buildFile := Child(folder, BuildFileName);
    var written := fs.Write(buildFile, Blank);
    if !written {
      return Err(Wrap("Failed to create an empty BUILD file for aspects rules!", Throw(IOError, buildFile)));
    }
    return Ok(Runner(config, folder));
  }

  /** The arguments of the aspect build: the no-op output group and the aspect. */
  function AspectArgs(ruleFile: string): (r: seq<string>)
    ensures r == ["--output_groups=" + NoopOutputGroup, "--aspects", ruleFile + "%print_aspect"]
  {
    ["--output_groups=" + NoopOutputGroup, "--aspects", ruleFile + "%print_aspect"]
  }

  /** The process the runner starts for one aspect on one target. */
  function AspectExec(runner: Runner, aspectRuleFileName: string, target: string): (r: BazelExec)
    ensures var c := r.command;
      |c| >= 10 && c[1] == "build" && c[6] == "--symlink_prefix=" + runner.config.buildOutputDir
      && (target != "" ==> |c| == 11 && c[7] == Label(runner.config, target)
                           && c[8..] == AspectArgs(Child(runner.aspectsFolder, aspectRuleFileName)))
      && (target == "" ==> |c| == 10 && c[7..] == AspectArgs(Child(runner.aspectsFolder, aspectRuleFileName)))
    ensures r.directory == runner.config.workspaceRootFolder
  {
    var args := AspectArgs(Child(runner.aspectsFolder, aspectRuleFileName));
    CreateBazelRunShape(false, runner.config, Some(target), "build", args);
    CreateBazelRun(false, runner.config, Some(target), "build", args)
  }

  /** What `getAspectResult` returns, given whether the rule file could be
    * written: the wrapped write failure, the failure of the build (wrapped
    * when it is an IOException or InterruptedException), or the payload lines. */
  function AspectResult(writable: bool, runner: Runner, aspectRuleFileName: string, target: string, run: ProcessRun)
    : (r: Result<seq<string>>)
    ensures var started := Start(AspectExec(runner, aspectRuleFileName, target), run).result;
      && (r.Ok? <==> writable && started.Ok?)
      && (r.Err? && (!writable || (started.Err? && started.error.kind in {IOError, Interrupted})) ==>
            r.error.kind == Runtime && r.error.cause.Some?)
      && (writable && started.Err? && started.error.kind !in {IOError, Interrupted} ==> r == Err(started.error))
  {
    var ruleFile := Child(runner.aspectsFolder, aspectRuleFileName);
    var started := Start(AspectExec(runner, aspectRuleFileName, target), run).result;
    if !writable then Err(Wrap(ruleFile, Throw(IOError, ruleFile)))
    else if started.Err? && started.error.kind in {IOError, Interrupted} then Err(Wrap(started.error.message, started.error))
    else if started.Err? then Err(started.error)
    else Ok(CleanUp(SplitLines(run.errorOutput), aspectRuleFileName))
  }

  /** `getAspectResult`: overwrites the aspect rule file in the scratch folder,
    * runs the aspect build and keeps the payload lines it printed on the error
    * channel, split into lines as `start` splits its output. A failure to
    * write the file, or an IOException or InterruptedException of the build,
    * becomes a RuntimeException wrapping it; any other exception of the build
    * passes through unchanged. */
  method GetAspectResult(fs: FileSystem, runner: Runner, aspectRuleFileName: string, target: string, run: ProcessRun)
    returns (r: Result<seq<string>>)
    modifies fs
    ensures var ruleFile := Child(runner.aspectsFolder, aspectRuleFileName);
      var writable := ruleFile !in fs.readOnly && ruleFile !in old(fs.dirs);
      var started := Start(AspectExec(runner, aspectRuleFileName, target), run).result;
      && fs.dirs == old(fs.dirs)
      && fs.files == (if writable then old(fs.files)[ruleFile := Resource("aspects/" + aspectRuleFileName)] else old(fs.files))
      && (!writable ==> r.Err? && r.error.kind == Runtime)
      && (writable && started.Err? && started.error.kind in {IOError, Interrupted} ==>
            r == Err(Wrap(started.error.message, started.error)))
      && (writable && started.Err? && started.error.kind !in {IOError, Interrupted} ==> r == Err(started.error))
      && (writable && started.Ok? ==> r == Ok(CleanUp(SplitLines(run.errorOutput), aspectRuleFileName)))
      && r == AspectResult(writable, runner, aspectRuleFileName, target, run)
  {
    var ruleFile := Child(runner.aspectsFolder, aspectRuleFileName);
    var written := fs.Write(ruleFile, Resource("aspects/" + aspectRuleFileName));
    if !written {
      var cause := Throw(IOError, ruleFile);
      return Err(Wrap(cause.message, cause));
    }
    var started := Start(AspectExec(runner, aspectRuleFileName, target), run).result;
    if started.Err? && started.error.kind in {IOError, Interrupted} {
      return Err(Wrap(started.error.message, started.error));
    } else if started.Err? {
      return Err(started.error);
    }
    // The aspect prints on the error channel: its lines are read from there.
    return Ok(CleanUp(SplitLines(run.errorOutput), aspectRuleFileName));
  }

  // The line filter `^DEBUG.*<file>:\d+:\d+:\s+(.+)\s*$`, matched against whole lines.

  /** The aspect file name used as a pattern: '.' matches any character,
    * every other character itself. */
  predicate FileAt(line: string, file: string, p: nat) {
    p + |file| <= |line| &&
    forall k :: 0 <= k < |file| ==> file[k] == '.' || line[p + k] == file[k]
  }

  /** The end of the run of digits starting at `i`. */
  function DigitRunEnd(line: string, i: nat): (r: nat)
    requires i <= |line|
    ensures i <= r <= |line|
    ensures forall k :: i <= k < r ==> IsDigit(line[k])
    ensures r < |line| ==> !IsDigit(line[r])
    decreases |line| - i
  {
    if i == |line| || !IsDigit(line[i]) then i else DigitRunEnd(line, i + 1)
  }

  /** The index just after `<file>:\d+:\d+:` when that locator starts at `p`,
    * or None. Digits are matched greedily; as a ':' is not a digit, no shorter
    * run could match instead. */
  function LocatorEnd(line: string, file: string, p: nat): (r: Option<nat>)
    ensures r.Some? ==> FileAt(line, file, p) && p + |file| < r.value <= |line| && line[r.value - 1] == ':'
  {
    if !FileAt(line, file, p) then None else
    var a := p + |file|;
    if a >= |line| || line[a] != ':' then None else
    var b := DigitRunEnd(line, a + 1);
    if b == a + 1 || b >= |line| || line[b] != ':' then None else
    var c := DigitRunEnd(line, b + 1);
    if c == b + 1 || c >= |line| || line[c] != ':' then None else
    Some(c + 1)
  }

  /** `\s+(.+)\s*$` can match the rest: at least two characters, the first a space. */
  predicate PayloadFits(rest: string) {
    |rest| >= 2 && IsSpace(rest[0])
  }

  /** A locator starting at `p` (after "DEBUG") from which the rest of the line matches. */
  predicate LocatorAt(line: string, file: string, p: nat) {
    5 <= p && LocatorEnd(line, file, p).Some? && PayloadFits(line[LocatorEnd(line, file, p).value..])
  }

  /** The greedy `.*` picks the last locator position that leads to a match. */
  function LastLocator(line: string, file: string, hi: nat): (r: Option<nat>)
    ensures r.Some? ==> r.value <= hi && LocatorAt(line, file, r.value)
    ensures forall p :: (if r.Some? then r.value < p else 0 <= p) && p <= hi ==> !LocatorAt(line, file, p)
  {
    if LocatorAt(line, file, hi) then Some(hi)
    else if hi == 0 then None
    else LastLocator(line, file, hi - 1)
  }

  /** The line matches the whole pattern. */
  predicate Matches(line: string, file: string) {
    StartsWith(line, "DEBUG") && exists p: nat :: p <= |line| && LocatorAt(line, file, p)
  }

  /** Group 1 of `\s+(.+)\s*$` on the rest: the greedy `\s+` takes every leading
    * space and `(.+)` the remainder, unless the rest is all spaces, when `\s+`
    * gives back one character for the group. */
  function Group(rest: string): (r: string)
    requires PayloadFits(rest)
    ensures |r| >= 1 && EndsWith(rest, r)
    ensures !IsSpace(r[0]) || |r| == 1
  {
    var w := FirstNonSpace(rest);
    if w == |rest| then rest[|rest| - 1..] else rest[w..]
  }

  function FirstNonSpace(s: string): (r: nat)
    ensures r <= |s| && (r < |s| ==> !IsSpace(s[r]))
    ensures forall k :: 0 <= k < r ==> IsSpace(s[k])
  {
    if |s| == 0 || !IsSpace(s[0]) then 0 else 1 + FirstNonSpace(s[1..])
  }

  /** The payload of a matching line. */
  function Payload(line: string, file: string): (r: string)
    requires Matches(line, file)
    ensures |r| >= 1 && EndsWith(line, r)
  {
    var p: nat :| p <= |line| && LocatorAt(line, file, p);
    var q := LastLocator(line, file, |line|);
    var e := LocatorEnd(line, file, q.value).value;
    var g := Group(line[e..]);
    assert EndsWith(line[e..], g);
    assert line[|line| - |g|..] == line[e..][|line[e..]| - |g|..];
    g
  }

  /** `cleanUp`: the payloads of the matching lines, in order; other lines are dropped. */
  function CleanUp(lines: seq<string>, file: string): (r: seq<string>)
    ensures |r| <= |lines|
  {
    if |lines| == 0 then []
    else if Matches(lines[0], file) then [Payload(lines[0], file)] + CleanUp(lines[1..], file)
    else CleanUp(lines[1..], file)
  }

  /** Every kept line is the payload of a matching input line. */
  lemma {:induction false} CleanUpKeepsPayloads(lines: seq<string>, file: string, k: nat)
    requires k < |CleanUp(lines, file)|
    ensures exists j :: 0 <= j < |lines| && Matches(lines[j], file) && CleanUp(lines, file)[k] == Payload(lines[j], file)
  {
    var tail := lines[1..];
    var rest := CleanUp(tail, file);
    var k': nat := k;
    if Matches(lines[0], file) {
      var p := Payload(lines[0], file);
      assert CleanUp(lines, file) == [p] + rest;
      if k == 0 {
        return;
      }
      k' := k - 1;
      assert CleanUp(lines, file)[k] == rest[k'];
    } else {
      assert CleanUp(lines, file) == rest;
    }
    CleanUpKeepsPayloads(tail, file, k');
    var j :| 0 <= j < |tail| && Matches(tail[j], file) && rest[k'] == Payload(tail[j], file);
    assert lines[j + 1] == tail[j];
  }

  /** Filtering two batches of output is filtering them joined: order is kept. */
  lemma {:induction false} CleanUpAppend(a: seq<string>, b: seq<string>, file: string)
    ensures CleanUp(a + b, file) == CleanUp(a, file) + CleanUp(b, file)
  {
    if |a| == 0 {
      assert a + b == b;
    } else {
      assert (a + b)[1..] == a[1..] + b;
      CleanUpAppend(a[1..], b, file);
    }
  }

  /** A line that does not start with DEBUG gives nothing, such as Bazel's
    * progress lines `____Loading complete.`. */
  lemma NonDebugLineDropped(line: string, file: string)
    requires !StartsWith(line, "DEBUG")
    ensures CleanUp([line], file) == []
  {
  }

  /** A typical aspect print, `DEBUG: <path>/<file>:<line>:<col>: <payload>`,
    * yields its payload when the payload holds no ':' and does not start
    * with a space. */
  lemma DebugLineGivesPayload(prefix: string, file: string, d1: string, d2: string, payload: string)
    requires |d1| >= 1 && AllDigits(d1) && |d2| >= 1 && AllDigits(d2)
    requires |payload| >= 1 && !IsSpace(payload[0]) && ':' !in payload
    ensures var line := "DEBUG" + prefix + file + ":" + d1 + ":" + d2 + ":" + (" " + payload);
      Matches(line, file) && Payload(line, file) == payload && CleanUp([line], file) == [payload]
  {
    var head, rest := "DEBUG" + prefix, " " + payload;
    var line := head + file + ":" + d1 + ":" + d2 + ":" + rest;
    LocatorOfParts(head, file, d1, d2, rest);
    var e := |line| - |rest|;
    assert line[e..] == rest;
    assert line == line[..e] + " " + payload;
    assert LocatorAt(line, file, |head|);
    assert line[..5] == "DEBUG";
    forall q: nat | |head| < q <= |line| ensures !LocatorAt(line, file, q) {
      NoLaterLocator(line, file, |head|, q, e - 1, payload);
    }
    GreedyPicks(line, file, |head|);
    assert FirstNonSpace(rest) == 1;
    assert rest[1..] == payload;
    assert [line][1..] == [];
  }

  /** The locator made of its parts ends right after its third colon. */
  lemma LocatorOfParts(head: string, file: string, d1: string, d2: string, rest: string)
    requires |d1| >= 1 && AllDigits(d1) && |d2| >= 1 && AllDigits(d2)
    ensures var line := head + file + ":" + d1 + ":" + d2 + ":" + rest;
      LocatorEnd(line, file, |head|) == Some(|line| - |rest|)
  {
    var line := head + file + ":" + d1 + ":" + d2 + ":" + rest;
    var p := |head|;
    var a := p + |file|;
    var b := a + 1 + |d1|;
    var c := b + 1 + |d2|;
    assert line[p..a] == file;
    assert FileAt(line, file, p) by {
      forall k | 0 <= k < |file| ensures line[p + k] == file[k] {
        assert line[p..a][k] == line[p + k];
      }
    }
    assert line[a] == ':' && line[b] == ':' && line[c] == ':';
    assert line[a + 1..b] == d1;
    assert line[b + 1..c] == d2;
    LocatorAtColons(line, file, p, d1, d2);
  }

  /** A file at `p` followed by ':', the digits `d1`, ':', the digits `d2`
    * and ':' is a locator ending after the third colon. */
  lemma LocatorAtColons(line: string, file: string, p: nat, d1: string, d2: string)
    requires |d1| >= 1 && AllDigits(d1) && |d2| >= 1 && AllDigits(d2) && FileAt(line, file, p)
    requires var a := p + |file|; var b := a + 1 + |d1|; var c := b + 1 + |d2|;
      && c < |line| && line[a] == ':' && line[b] == ':' && line[c] == ':'
      && line[a + 1..b] == d1 && line[b + 1..c] == d2
    ensures LocatorEnd(line, file, p) == Some(p + |file| + |d1| + |d2| + 3)
  {
    var a := p + |file|;
    var b := a + 1 + |d1|;
    var c := b + 1 + |d2|;
    DigitsAt(line, a + 1, d1);
    DigitsAt(line, b + 1, d2);
  }

  /** The greedy choice: a locator with none after it is the one `.*` stops at. */
  lemma GreedyPicks(line: string, file: string, p: nat)
    requires p <= |line| && LocatorAt(line, file, p)
    requires forall q: nat :: p < q <= |line| ==> !LocatorAt(line, file, q)
    ensures LastLocator(line, file, |line|) == Some(p)
  {
  }

  lemma DigitsAt(line: string, i: nat, d: string)
    requires i + |d| < |line| && line[i..i + |d|] == d && AllDigits(d) && !IsDigit(line[i + |d|])
    ensures DigitRunEnd(line, i) == i + |d|
    decreases |d|
  {
    if |d| > 0 {
      assert line[i] == d[0];
      assert line[i + 1..i + |d|] == d[1..];
      DigitsAt(line, i + 1, d[1..]);
    }
  }

  /** After the third ':' of the locator at `p` the line holds no ':', so a
    * locator starting later cannot find its three colons. */
  lemma NoLaterLocator(line: string, file: string, p: nat, q: nat, c: nat, payload: string)
    requires LocatorEnd(line, file, p) == Some(c + 1)
    requires line == line[..c + 1] + " " + payload && ':' !in payload
    requires p < q <= |line|
    ensures !LocatorAt(line, file, q)
  {
    if LocatorEnd(line, file, q).Some? {
      var e := LocatorEnd(line, file, q).value;
      ColonsBetween(line, file, p, q);
    }
  }

  /** The colons of a locator lie at `p + |file|` and two later positions with
    * only digits between them, so a locator starting after `p` ends later. */
  lemma ColonsBetween(line: string, file: string, p: nat, q: nat)
    requires LocatorEnd(line, file, p).Some? && LocatorEnd(line, file, q).Some? && p < q
    ensures LocatorEnd(line, file, q).value > LocatorEnd(line, file, p).value
  {
    var a := p + |file|;
    var b := DigitRunEnd(line, a + 1);
    var c := DigitRunEnd(line, b + 1);
    var a' := q + |file|;
    var b' := DigitRunEnd(line, a' + 1);
    var c' := DigitRunEnd(line, b' + 1);
    assert LocatorEnd(line, file, p) == Some(c + 1);
    assert LocatorEnd(line, file, q) == Some(c' + 1);
    assert line[a'] == ':';
    if a' == b {
      assert b' == c;
    }
  }
}
