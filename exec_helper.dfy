/** Building Bazel command lines, running them and reading `bazel info`.
  * The child process is not run: what it does is given as a ProcessRun. */
module BazelExecHelper {
  import opened Common
  import opened Strings
  import opened LeafConfig

  /** Flags that keep Bazel's output plain text, placed right after the command. */
  const BasicExecArgs: seq<string> := ["--curses=no", "--color=no", "--experimental_ui=no", "--progress_in_terminal_title=no"]

  /** A prepared process: whether its output is echoed, its argv and its working directory. */
  datatype BazelExec = BazelExec(outputToConsole: bool, command: seq<string>, directory: string)

  /** How a started process behaves: it exits with a code after writing its
    * merged output (and, separately, what went to its error channel), or
    * starting or awaiting it throws. */
  datatype ProcessRun =
    | Ran(exitCode: int, output: string, errorOutput: string)
    | Threw(exc: Exc)

  datatype RunResult = RunResult(exitCode: int, executionOutput: seq<string>)

  /** The result of `start()`, together with what it echoed character by
    * character and what it logged afterwards. */
  datatype StartOutcome = StartOutcome(result: Result<RunResult>, echoed: string, logged: seq<string>)

  /** The raw `createBazelRun`: binary, command, the plain-output flags, then the arguments. */
  function CreateBazelRunRaw(outputToConsole: bool, bazelBinPath: string, workspaceRootFolder: string,
                             bazelCommand: string, args: seq<string>): (r: BazelExec)
    ensures |r.command| == 6 + |args|
    ensures r.command[0] == bazelBinPath && r.command[1] == bazelCommand
    ensures r.command[2..6] == BasicExecArgs && r.command[6..] == args
    ensures r.directory == workspaceRootFolder && r.outputToConsole == outputToConsole
  {
    BazelExec(outputToConsole, [bazelBinPath, bazelCommand] + BasicExecArgs + args, workspaceRootFolder)
  }

  /** The label `targetPath:target`, `//lib2:lib2`. */
  function Label(config: Decorated, target: string): string {
    config.targetPath + ":" + target
  }

  /** The arguments the configuration adds: the symlink prefix, then the label
    * when a non-empty target is given, then the caller's arguments. */
  function ConfigArgs(config: Decorated, target: Option<string>, args: seq<string>): (r: seq<string>)
    ensures |r| >= 1 && r[0] == "--symlink_prefix=" + config.buildOutputDir
    ensures target.Some? && target.value != "" ==> r == [r[0], Label(config, target.value)] + args
    ensures target.None? || target.value == "" ==> r == [r[0]] + args
  {
    ["--symlink_prefix=" + config.buildOutputDir]
      + (if target.Some? && target.value != "" then [Label(config, target.value)] else [])
      + args
  }

  /** The configuration overload of `createBazelRun`. */
  function CreateBazelRun(outputToConsole: bool, config: Decorated, target: Option<string>,
                          bazelCommand: string, args: seq<string>): (r: BazelExec)
    ensures r == CreateBazelRunRaw(outputToConsole, config.bazelBin, config.workspaceRootFolder,
                                   bazelCommand, ConfigArgs(config, target, args))
  {
    CreateBazelRunRaw(outputToConsole, config.bazelBin, config.workspaceRootFolder, bazelCommand,
                      ConfigArgs(config, target, args))
  }

  /** Every line `start()` returns, the label passed (if any) and its symlink
    * prefix can be read back from the command line. */
  lemma CreateBazelRunShape(outputToConsole: bool, config: Decorated, target: Option<string>,
                            bazelCommand: string, args: seq<string>)
    ensures var c := CreateBazelRun(outputToConsole, config, target, bazelCommand, args).command;
      c[0] == config.bazelBin && c[1] == bazelCommand && c[2..6] == BasicExecArgs
      && c[6] == "--symlink_prefix=" + config.buildOutputDir
      && (if target.Some? && target.value != "" then c[7] == Label(config, target.value) && c[8..] == args
          else c[7..] == args)
  {
    var a := ConfigArgs(config, target, args);
    var c := CreateBazelRun(outputToConsole, config, target, bazelCommand, args).command;
    assert c[6..] == a;
    if target.Some? && target.value != "" {
      assert c[6..][2..] == c[8..];
    } else {
      assert c[6..][1..] == c[7..];
    }
  }

  /** `toString()` of a BazelExec: "BazelExec: [" + argv joined by ", " + "]". */
  function Describe(exec: BazelExec): string {
    "BazelExec: [" + Join(exec.command, ", ") + "]"
  }

  /** `String.split("\\r?\\n")`: cut at every line feed, dropping a carriage
    * return right before it; no separator found gives the whole text, and
    * otherwise trailing empty strings are removed. */
  function SplitLines(s: string): (r: seq<string>)
    ensures forall k :: 0 <= k < |r| ==> '\n' !in r[k]
    ensures '\n' !in s ==> r == [s]
    ensures '\n' in s && |r| > 0 ==> r[|r| - 1] != ""
  {
    var pieces := SplitOn(s, '\n');
    SplitOnSingle(s, '\n');
    if |pieces| == 1 then pieces
    else DropTrailingEmpty(StripCarriageReturns(pieces))
  }

  /** All pieces except the last lose one trailing '\r'. */
  function StripCarriageReturns(pieces: seq<string>): (r: seq<string>)
    requires |pieces| >= 1
    requires forall k :: 0 <= k < |pieces| ==> '\n' !in pieces[k]
    ensures |r| == |pieces| && r[|r| - 1] == pieces[|pieces| - 1]
    ensures forall k :: 0 <= k < |r| ==> '\n' !in r[k]
    ensures forall k :: 0 <= k < |r| - 1 ==> r[k] == (if EndsWith(pieces[k], "\r") then pieces[k][..|pieces[k]| - 1] else pieces[k])
  {
    seq(|pieces|, k requires 0 <= k < |pieces| =>
      if k < |pieces| - 1 && EndsWith(pieces[k], "\r") then pieces[k][..|pieces[k]| - 1] else pieces[k])
  }

  function DropTrailingEmpty(lines: seq<string>): (r: seq<string>)
    ensures r <= lines
    ensures |r| > 0 ==> r[|r| - 1] != ""
    ensures forall k :: |r| <= k < |lines| ==> lines[k] == ""
  {
    if |lines| == 0 then []
    else if lines[|lines| - 1] == "" then DropTrailingEmpty(lines[..|lines| - 1])
    else lines
  }

  /** Lines joined by '\n' split back into the same lines, provided none of
    * them holds a line feed, none but the last ends in '\r', and the last is
    * not empty (unless it is the only one). */
  lemma SplitLinesJoin(lines: seq<string>)
    requires |lines| >= 1
    requires forall k :: 0 <= k < |lines| ==> '\n' !in lines[k]
    requires forall k :: 0 <= k < |lines| - 1 ==> !EndsWith(lines[k], "\r")
    requires |lines| == 1 || lines[|lines| - 1] != ""
    ensures SplitLines(Join(lines, "\n")) == lines
  {
    var s := Join(lines, "\n");
    SplitOnJoin(lines, '\n');
    assert SplitOn(s, '\n') == lines;
    if |lines| > 1 {
      StripNothing(lines);
      assert DropTrailingEmpty(lines) == lines;
    }
  }

  lemma StripNothing(lines: seq<string>)
    requires |lines| >= 1
    requires forall k :: 0 <= k < |lines| ==> '\n' !in lines[k]
    requires forall k :: 0 <= k < |lines| - 1 ==> !EndsWith(lines[k], "\r")
    ensures StripCarriageReturns(lines) == lines
  {
    var stripped := StripCarriageReturns(lines);
    forall k | 0 <= k < |lines| ensures stripped[k] == lines[k] {
    }
  }

  /** `BazelExec.start()`: a zero exit gives the split output; a non-zero exit
    * logs the output unless it was echoed already and throws IOException;
    * an exception while starting or waiting propagates. */
  function Start(exec: BazelExec, run: ProcessRun): (r: StartOutcome)
    ensures r.result.Ok? <==> run.Ran? && run.exitCode == 0
    ensures r.result.Ok? ==> r.result.value == RunResult(0, SplitLines(run.output))
    ensures run.Ran? && run.exitCode != 0 ==> r.result.error.kind == IOError
    ensures run.Threw? ==> r.result == Err(run.exc) && r.echoed == "" && r.logged == []
    ensures run.Ran? && run.exitCode != 0 ==> r.echoed + Join(r.logged, "") == run.output
    ensures run.Ran? && run.exitCode == 0 ==> r.logged == []
  {
    match run
    case Threw(e) => StartOutcome(Err(e), "", [])
    case Ran(code, output, _) =>
      var echoed := if exec.outputToConsole then output else "";
      if code != 0 then
        StartOutcome(Err(Throw(IOError, "Got process exit code " + IntToString(code) + " when running bazel " + Describe(exec))),
                     echoed, if exec.outputToConsole then [] else [output])
      else
        StartOutcome(Ok(RunResult(code, SplitLines(output))), echoed, [])
  }

  // java.util.Properties.load, line by line

  /** Whitespace that Properties skips around keys and separators. */
  const PropertySpace: set<char> := {' ', '\t', '\U{000C}'}
  /** Characters that end a key. */
  const KeyTerminators: set<char> := {'=', ':', ' ', '\t', '\U{000C}'}

  function SkipSpace(s: string): (r: string)
    ensures |r| <= |s| && r == s[|s| - |r|..]
    ensures r != [] ==> r[0] !in PropertySpace
  {
    s[FirstNotIn(s, PropertySpace)..]
  }

  /** The key and value a line defines, or None for a blank or comment line. */
  function PropertyOf(line: string): (r: Option<(string, string)>)
  {
    var t := SkipSpace(line);
    if t == "" || t[0] == '#' || t[0] == '!' then None
    else
      var k := FirstIn(t, KeyTerminators);
      Some((t[..k], ValueAfterKey(t[k..])))
  }

  /** What follows a key: optional space, at most one '=' or ':', optional space, then the value. */
  function ValueAfterKey(tail: string): string {
    var rest := SkipSpace(tail);
    if rest != "" && (rest[0] == '=' || rest[0] == ':') then SkipSpace(rest[1..]) else rest
  }

  function LoadLine(props: map<string, string>, line: string): map<string, string> {
    match PropertyOf(line)
    case None => props
    case Some((k, v)) => props[k := v]
  }

  /** `Properties.load` of the lines; a later line overrides an earlier one with the same key. */
  function ParseProperties(lines: seq<string>): map<string, string>
  {
    if lines == [] then map[]
    else LoadLine(ParseProperties(lines[..|lines| - 1]), lines[|lines| - 1])
  }

  /** A `key=value` or `key: value` line defines exactly that entry. */
  lemma {:induction false} PropertyLine(key: string, sep: string, value: string)
    requires key != "" && PlainKey(key)
    requires sep == "=" || sep == ": "
    requires value == "" || value[0] !in PropertySpace
    ensures PropertyOf(key + sep + value) == Some((key, value))
  {
    var line := key + sep + value;
    assert line[0] == key[0] && key[0] !in PropertySpace;
    assert FirstNotIn(line, PropertySpace) == 0;
    assert SkipSpace(line) == line;
    assert line == key + (sep + value);
    KeyEnd(key, sep + value);
    assert line[..|key|] == key && line[|key|..] == sep + value;
    ValueAfterSeparator(sep, value);
  }

  lemma ValueAfterSeparator(sep: string, value: string)
    requires sep == "=" || sep == ": "
    requires value == "" || value[0] !in PropertySpace
    ensures ValueAfterKey(sep + value) == value
  {
    var tail := sep + value;
    assert tail[0] == sep[0] && sep[0] !in PropertySpace;
    assert FirstNotIn(tail, PropertySpace) == 0;
    assert SkipSpace(tail) == tail;
    if sep == "=" {
      assert tail[1..] == value;
      SkipNoSpace(value);
    } else {
      assert tail[1..] == " " + value;
      SkipOneSpace(value);
    }
  }

  /** Keys as `bazel info` prints them: letters, digits, '_', '-' and '.'. */
  predicate PlainKey(key: string) {
    forall i :: 0 <= i < |key| ==> IsWordChar(key[i]) || key[i] == '-' || key[i] == '.'
  }

  lemma KeyEnd(key: string, rest: string)
    requires PlainKey(key)
    requires rest != [] && rest[0] in KeyTerminators
    ensures FirstIn(key + rest, KeyTerminators) == |key|
  {
    var line := key + rest;
    assert line[|key|] == rest[0];
    assert forall j :: 0 <= j < |key| ==> line[j] == key[j];
  }

  lemma SkipNoSpace(value: string)
    requires value == "" || value[0] !in PropertySpace
    ensures SkipSpace(value) == value
  {
    assert FirstNotIn(value, PropertySpace) == 0;
  }

  lemma SkipOneSpace(value: string)
    requires value == "" || value[0] !in PropertySpace
    ensures SkipSpace(" " + value) == value
  {
    var t := " " + value;
    assert t[0] == ' ' && t[1..] == value;
    assert FirstNotIn(value, PropertySpace) == 0;
    assert FirstNotIn(t, PropertySpace) == 1;
  }

  /** Every key of the parsed properties comes from a line of the output. */
  lemma {:induction false} ParsedKeysComeFromLines(lines: seq<string>, key: string)
    requires key in ParseProperties(lines)
    ensures exists i :: 0 <= i < |lines| && PropertyOf(lines[i]).Some?
                        && PropertyOf(lines[i]).value.0 == key
  {
    var init := lines[..|lines| - 1];
    var last := lines[|lines| - 1];
    LoadLineKeys(ParseProperties(init), last, key);
    if !(PropertyOf(last).Some? && PropertyOf(last).value.0 == key) {
      ParsedKeysComeFromLines(init, key);
      var i :| 0 <= i < |init| && PropertyOf(init[i]).Some? && PropertyOf(init[i]).value.0 == key;
      assert lines[i] == init[i];
    }
  }

  lemma LoadLineKeys(props: map<string, string>, line: string, key: string)
    requires key in LoadLine(props, line)
    ensures key in props || (PropertyOf(line).Some? && PropertyOf(line).value.0 == key)
  {
  }

  /** The exec `getInfo` runs: `bazel info` with the symlink prefix and no target. */
  function InfoExec(config: Decorated): (r: BazelExec)
    ensures r.command == [config.bazelBin, "info"] + BasicExecArgs + ["--symlink_prefix=" + config.buildOutputDir]
    ensures !r.outputToConsole
  {
    CreateBazelRun(false, config, Some(""), "info", [])
  }

  /** `getInfo`: loads every output line of `bazel info` into properties; if
    * the run fails with an IOException or an InterruptedException the
    * failure is logged and the result is null. Other exceptions of `start`
    * propagate. */
  method GetInfo(config: Decorated, run: ProcessRun) returns (info: Result<Option<map<string, string>>>, log: seq<string>)
    ensures var started := Start(InfoExec(config), run);
      && (started.result.Ok? ==> info == Ok(Some(ParseProperties(SplitLines(run.output)))) && log == [])
      && (started.result.Err? && started.result.error.kind in {IOError, Interrupted} ==>
            info == Ok(None) && |log| == |started.logged| + 1)
      && (started.result.Err? && started.result.error.kind !in {IOError, Interrupted} ==>
            info == Err(started.result.error) && log == started.logged)
  {
    var started := Start(InfoExec(config), run);
    if started.result.Err? {
      if started.result.error.kind !in {IOError, Interrupted} {
        return Err(started.result.error), started.logged;
      }
      return Ok(None), started.logged + ["Failed to get information from Bazel. Error: " + started.result.error.message];
    }
    var lines := started.result.value.executionOutput;
    var props: map<string, string> := map[];
    var i := 0;
    while i < |lines|
      invariant 0 <= i <= |lines|
      invariant props == ParseProperties(lines[..i])
    {
      assert lines[..i + 1][..i] == lines[..i];
      props := LoadLine(props, lines[i]);
      i := i + 1;
    }
    assert lines[..i] == lines;
    return Ok(Some(props)), [];
  }

  /** An empty `bazel info` output gives empty properties. */
  lemma EmptyInfoIsEmpty()
    ensures ParseProperties(SplitLines("")) == map[]
  {
    assert SplitOn("", '\n') == [""];
    assert SplitLines("") == [""];
    assert FirstNotIn("", PropertySpace) == 0;
    assert PropertyOf("") == None;
    assert ParseProperties([""]) == LoadLine(ParseProperties([]), "");
  }

  /** Two assignment lines give exactly those two entries. */
  lemma TwoLinesGiveTwoEntries(k1: string, v1: string, k2: string, v2: string)
    requires k1 != "" && PlainKey(k1) && k2 != "" && PlainKey(k2)
    requires (v1 == "" || v1[0] !in PropertySpace) && (v2 == "" || v2[0] !in PropertySpace)
    ensures ParseProperties([k1 + "=" + v1, k2 + "=" + v2]) == map[k1 := v1, k2 := v2]
  {
    var l1, l2 := k1 + "=" + v1, k2 + "=" + v2;
    OneLine(k1, v1);
    var lines := [l1, l2];
    assert lines[..1] == [l1];
    assert ParseProperties(lines) == LoadLine(map[k1 := v1], l2);
    PropertyLine(k2, "=", v2);
  }

  lemma OneLine(k: string, v: string)
    requires k != "" && PlainKey(k)
    requires v == "" || v[0] !in PropertySpace
    ensures ParseProperties([k + "=" + v]) == map[k := v]
  {
    var l := k + "=" + v;
    assert [l][..0] == [];
    assert ParseProperties([l]) == LoadLine(ParseProperties([]), l);
    PropertyLine(k, "=", v);
  }
}
