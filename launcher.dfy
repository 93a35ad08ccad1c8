/**
 * The part the three launcher scripts (products, users, auth) share: assembling
 * the Robot Framework command line, running it and reading its exit code, the
 * timestamped results directory, and the process exit status.
 *
 * The subprocess is a function from the argument list to its outcome, the clock
 * is the timestamp string, and the two side effects a run has on the outside
 * world (creating the results directory, launching the runner) are recorded as
 * `Effect`s in the order they happen.
 */
module Launcher {

  datatype Option<+T> = None | Some(value: T)

  /** The three API domains; each script is one instantiation of this core. */
  datatype Domain = Products | Users | Auth

  /** The test path used when the caller gives none (or an empty one). */
  function DefaultTestPath(d: Domain): string
  {
    match d
    case Products => "tests/api/products/"
    case Users => "tests/api/users"
    case Auth => "tests/api/auth"
  }

  /** The folder under `results/api` that a domain's runs are written to. */
  function ResultsFolder(d: Domain): string
  {
    match d
    case Products => "products_api"
    case Users => "users_api"
    case Auth => "auth_api"
  }

  /** Stands for `sys.executable`, the interpreter running the script. */
  const PythonExecutable: string := "python"

  const RunnerPrefix: seq<string> := [PythonExecutable, "-m", "robot"]

  /** One entry of a domain's menu of runs. */
  datatype Config = Config(
    description: string,
    testPath: string,
    testName: Option<string>,
    includeTags: Option<seq<string>>,
    excludeTags: Option<seq<string>>)

  /** The keyword arguments of `run_robot_tests`; `None` is an argument left out. */
  datatype RunRequest = RunRequest(
    testPath: Option<string>,
    outputDir: Option<string>,
    testName: Option<string>,
    includeTags: Option<seq<string>>,
    excludeTags: Option<seq<string>>)

  /** The call every `main` makes for a chosen configuration and its results directory. */
  function RequestFor(c: Config, outputDir: string): (r: RunRequest)
    ensures r.outputDir == Some(outputDir)
    ensures Given(r.testPath) <==> c.testPath != ""
    ensures r.testName == c.testName
    ensures Tags(r.includeTags) == Tags(c.includeTags) && Tags(r.excludeTags) == Tags(c.excludeTags)
  {
    RunRequest(Some(c.testPath), Some(outputDir), c.testName, c.includeTags, c.excludeTags)
  }

  /** Python truthiness of an optional string: given and not empty. */
  predicate Given(o: Option<string>)
  {
    o.Some? && o.value != ""
  }

  /** The tags a loop over an optional list visits (none for `None` and for `[]`). */
  function Tags(o: Option<seq<string>>): seq<string>
  {
    if o.Some? then o.value else []
  }

  // ---------------------------------------------------------------------------
  // The command line
  // ---------------------------------------------------------------------------

  /** `flag v` for every value `v`, in order. */
  function FlagPairs(flag: string, values: seq<string>): (r: seq<string>)
    ensures |r| == 2 * |values|
  {
    if values == [] then []
    else FlagPairs(flag, values[..|values| - 1]) + [flag, values[|values| - 1]]
  }

  /** The output directory is always a `pathlib.Path` in the callers, and a path is always truthy. */
  function OutputDirArgs(req: RunRequest): seq<string>
  {
    if req.outputDir.Some? then ["--outputdir", req.outputDir.value] else []
  }

  function TestNameArgs(req: RunRequest): seq<string>
  {
    if Given(req.testName) then ["--test", req.testName.value] else []
  }

  /** The final positional argument: the given path, or the domain's default. */
  function TestPathArg(d: Domain, req: RunRequest): string
  {
    if Given(req.testPath) then req.testPath.value else DefaultTestPath(d)
  }

  /**
   * The argument list `run_robot_tests` hands to the subprocess: it starts with
   * the runner, ends with the test path (or the domain default when none or an
   * empty one is given), and has two more places per flag and value.
   */
  function Command(d: Domain, req: RunRequest): (cmd: seq<string>)
    ensures |cmd| == 4 + (if req.outputDir.Some? then 2 else 0)
                       + (if Given(req.testName) then 2 else 0)
                       + 2 * |Tags(req.includeTags)| + 2 * |Tags(req.excludeTags)|
    ensures cmd[..3] == [PythonExecutable, "-m", "robot"]
    ensures cmd[|cmd| - 1] == if req.testPath.Some? && req.testPath.value != "" then req.testPath.value
                              else DefaultTestPath(d)
  {
    RunnerPrefix + OutputDirArgs(req) + TestNameArgs(req)
    + FlagPairs("--include", Tags(req.includeTags))
    + FlagPairs("--exclude", Tags(req.excludeTags))
    + [TestPathArg(d, req)]
  }

  /** The loop `for tag in tags: cmd.extend([flag, tag])`. */
  method ExtendWithFlags(cmd: seq<string>, flag: string, tags: seq<string>) returns (out: seq<string>)
    ensures out == cmd + FlagPairs(flag, tags)
  {
    out := cmd;
    for i := 0 to |tags|
      invariant out == cmd + FlagPairs(flag, tags[..i])
    {
      assert tags[..i + 1][..i] == tags[..i];
      out := out + [flag, tags[i]];
    }
    assert tags[..|tags|] == tags;
  }

  /** Assembles the command the way the script does, by appending to a list. */
  method BuildCommand(d: Domain, req: RunRequest) returns (cmd: seq<string>)
    ensures cmd == Command(d, req)
  {
    cmd := [PythonExecutable, "-m", "robot"];
    if req.outputDir.Some? {
      cmd := cmd + ["--outputdir", req.outputDir.value];
    }
    if req.testName.Some? && req.testName.value != "" {
      cmd := cmd + ["--test", req.testName.value];
    }
    assert cmd == RunnerPrefix + OutputDirArgs(req) + TestNameArgs(req);
    ghost var head := cmd;
    if req.includeTags.Some? && req.includeTags.value != [] {
      cmd := ExtendWithFlags(cmd, "--include", req.includeTags.value);
    }
    assert cmd == head + FlagPairs("--include", Tags(req.includeTags));
    head := cmd;
    if req.excludeTags.Some? && req.excludeTags.value != [] {
      cmd := ExtendWithFlags(cmd, "--exclude", req.excludeTags.value);
    }
    assert cmd == head + FlagPairs("--exclude", Tags(req.excludeTags));
    if req.testPath.Some? && req.testPath.value != "" {
      cmd := cmd + [req.testPath.value];
    } else {
      cmd := cmd + [DefaultTestPath(d)];
    }
  }

  // Properties of the command line

  /** Value `k` sits right after the `k`-th flag. */
  lemma {:induction false} FlagPairsAt(flag: string, values: seq<string>, k: nat)
    requires k < |values|
    ensures FlagPairs(flag, values)[2 * k] == flag
    ensures FlagPairs(flag, values)[2 * k + 1] == values[k]
  {
    var n := |values| - 1;
    if k < n {
      FlagPairsAt(flag, values[..n], k);
      assert values[..n][k] == values[k];
    }
  }

  /** The flag pairs hold nothing but the flag and the values. */
  lemma {:induction false} FlagPairsMembers(flag: string, values: seq<string>, x: string)
    ensures x in FlagPairs(flag, values) <==> (values != [] && x == flag) || x in values
  {
    if values != [] {
      var n := |values| - 1;
      FlagPairsMembers(flag, values[..n], x);
      assert values == values[..n] + [values[n]];
    }
  }

  /** `--outputdir D` comes right after the runner exactly when an output directory is given. */
  lemma CommandOutputDir(d: Domain, req: RunRequest)
    ensures var cmd := Command(d, req);
      req.outputDir.Some? <==> |cmd| > 4 && cmd[3] == "--outputdir"
    ensures req.outputDir.Some? ==> Command(d, req)[4] == req.outputDir.value
  {
    var cmd := Command(d, req);
    var rest := TestNameArgs(req) + FlagPairs("--include", Tags(req.includeTags))
                + FlagPairs("--exclude", Tags(req.excludeTags)) + [TestPathArg(d, req)];
    assert cmd == RunnerPrefix + OutputDirArgs(req) + rest;
    if req.outputDir.None? && |cmd| > 4 {
      assert cmd[3] == rest[0];
      if !Given(req.testName) {
        if Tags(req.includeTags) != [] {
          FlagPairsAt("--include", Tags(req.includeTags), 0);
        } else {
          FlagPairsAt("--exclude", Tags(req.excludeTags), 0);
        }
      }
    }
  }

  /** `--test NAME` follows the output directory exactly when a non-empty name is given. */
  lemma CommandTestName(d: Domain, req: RunRequest)
    ensures var cmd := Command(d, req);
      var at := 3 + |OutputDirArgs(req)|;
      Given(req.testName) <==> |cmd| > at + 1 && cmd[at] == "--test"
    ensures var at := 3 + |OutputDirArgs(req)|;
      Given(req.testName) ==> Command(d, req)[at + 1] == req.testName.value
  {
    var cmd := Command(d, req);
    var at := 3 + |OutputDirArgs(req)|;
    var rest := FlagPairs("--include", Tags(req.includeTags))
                + FlagPairs("--exclude", Tags(req.excludeTags)) + [TestPathArg(d, req)];
    assert cmd == RunnerPrefix + OutputDirArgs(req) + TestNameArgs(req) + rest;
    if !Given(req.testName) && |cmd| > at + 1 {
      assert cmd[at] == rest[0];
      if Tags(req.includeTags) != [] {
        FlagPairsAt("--include", Tags(req.includeTags), 0);
      } else {
        FlagPairsAt("--exclude", Tags(req.excludeTags), 0);
      }
    }
  }

  /** After the runner, the output directory and the test name come the include tags, each as `--include TAG`, in input order. */
  lemma CommandIncludeFlags(d: Domain, req: RunRequest)
    ensures var cmd := Command(d, req);
      var inc, at := Tags(req.includeTags), 3 + |OutputDirArgs(req)| + |TestNameArgs(req)|;
      forall k :: 0 <= k < |inc| ==> cmd[at + 2 * k] == "--include" && cmd[at + 2 * k + 1] == inc[k]
  {
    var cmd := Command(d, req);
    var inc := Tags(req.includeTags);
    var head := RunnerPrefix + OutputDirArgs(req) + TestNameArgs(req);
    var pairs := FlagPairs("--include", inc);
    var tail := FlagPairs("--exclude", Tags(req.excludeTags)) + [TestPathArg(d, req)];
    assert cmd == head + pairs + tail;
    forall k | 0 <= k < |inc|
      ensures cmd[|head| + 2 * k] == "--include" && cmd[|head| + 2 * k + 1] == inc[k]
    {
      FlagPairsAt("--include", inc, k);
      assert cmd[|head| + 2 * k] == pairs[2 * k];
      assert cmd[|head| + 2 * k + 1] == pairs[2 * k + 1];
    }
  }

  /** The exclude tags follow all include tags, each as `--exclude TAG`, in input order. */
  lemma CommandExcludeFlags(d: Domain, req: RunRequest)
    ensures var cmd := Command(d, req);
      var exc := Tags(req.excludeTags);
      var at := 3 + |OutputDirArgs(req)| + |TestNameArgs(req)| + 2 * |Tags(req.includeTags)|;
      forall k :: 0 <= k < |exc| ==> cmd[at + 2 * k] == "--exclude" && cmd[at + 2 * k + 1] == exc[k]
  {
    var cmd := Command(d, req);
    var exc := Tags(req.excludeTags);
    var head := RunnerPrefix + OutputDirArgs(req) + TestNameArgs(req) + FlagPairs("--include", Tags(req.includeTags));
    var pairs := FlagPairs("--exclude", exc);
    assert cmd == head + pairs + [TestPathArg(d, req)];
    forall k | 0 <= k < |exc|
      ensures cmd[|head| + 2 * k] == "--exclude" && cmd[|head| + 2 * k + 1] == exc[k]
    {
      FlagPairsAt("--exclude", exc, k);
      assert cmd[|head| + 2 * k] == pairs[2 * k];
      assert cmd[|head| + 2 * k + 1] == pairs[2 * k + 1];
    }
  }

  /** Every argument comes from the runner, a flag the request asked for, or a value the request holds. */
  lemma CommandMembers(d: Domain, req: RunRequest, x: string)
    ensures x in Command(d, req) <==>
      || x in RunnerPrefix
      || (req.outputDir.Some? && (x == "--outputdir" || x == req.outputDir.value))
      || (Given(req.testName) && (x == "--test" || x == req.testName.value))
      || (Tags(req.includeTags) != [] && x == "--include") || x in Tags(req.includeTags)
      || (Tags(req.excludeTags) != [] && x == "--exclude") || x in Tags(req.excludeTags)
      || x == TestPathArg(d, req)
  {
    FlagPairsMembers("--include", Tags(req.includeTags), x);
    FlagPairsMembers("--exclude", Tags(req.excludeTags), x);
  }

  // ---------------------------------------------------------------------------
  // Running the command
  // ---------------------------------------------------------------------------

  /** What the subprocess call gives back: an exit code, or an exception raised while launching it. */
  datatype RunnerOutcome = Exited(code: int) | LaunchFailed(error: string)

  /** The two things a run does to the outside world, in the order they happen. */
  datatype Effect = MadeDirectory(path: string) | LaunchedRunner(argv: seq<string>)

  /**
   * Builds the command, hands it to the runner and reports success exactly when the
   * runner exits with code 0; a launch failure is reported as `false`, never raised.
   * `launched` is the argument list given to the subprocess.
   */
  method RunRobotTests(d: Domain, req: RunRequest, runner: seq<string> -> RunnerOutcome)
    returns (launched: seq<string>, success: bool)
    ensures launched == Command(d, req)
    ensures success <==> runner(launched) == Exited(0)
    ensures runner(launched).LaunchFailed? ==> !success
  {
    launched := BuildCommand(d, req);
    var outcome := runner(launched);
    match outcome
    case Exited(code) =>
      success := code == 0;
    case LaunchFailed(_) =>
      success := false;
  }

  // ---------------------------------------------------------------------------
  // The results directory
  // ---------------------------------------------------------------------------

  /**
   * How `pathlib` puts a parent path in front of a relative child: the current
   * directory "." disappears, the root "/" is not doubled, anything else gets a "/".
   */
  function JoinPrefix(base: string): (r: string)
    ensures r == "" <==> base == "" || base == "."
    ensures r == "" || r[|r| - 1] == '/'
    ensures r != "" ==> base <= r && |r| <= |base| + 1
  {
    if base == "" || base == "." then ""
    else if base[|base| - 1] == '/' then base
    else base + "/"
  }

  /** `<script dir>/results/api/<domain>_api/<timestamp>`. */
  function ResultsDirectory(d: Domain, scriptDir: string, timestamp: string): (p: string)
    ensures |p| > |timestamp| && p[|p| - |timestamp|..] == timestamp
    ensures p[|p| - |timestamp| - 1] == '/'
  {
    JoinPrefix(scriptDir) + "results/api/" + ResultsFolder(d) + "/" + timestamp
  }

  /** Two runs of one script in different seconds never share a results directory. */
  lemma ResultsDirectoryPerTimestamp(d: Domain, scriptDir: string, t1: string, t2: string)
    ensures ResultsDirectory(d, scriptDir, t1) == ResultsDirectory(d, scriptDir, t2) <==> t1 == t2
  {
    var p1, p2 := ResultsDirectory(d, scriptDir, t1), ResultsDirectory(d, scriptDir, t2);
    var stem := JoinPrefix(scriptDir) + "results/api/" + ResultsFolder(d) + "/";
    if p1 == p2 {
      assert p1[|stem|..] == t1 && p2[|stem|..] == t2;
    }
  }

  /** Two domains never write into the same directory. */
  lemma ResultsDirectoryPerDomain(d1: Domain, d2: Domain, scriptDir: string, timestamp: string)
    ensures ResultsDirectory(d1, scriptDir, timestamp) == ResultsDirectory(d2, scriptDir, timestamp) <==> d1 == d2
  {
    var p1, p2 := ResultsDirectory(d1, scriptDir, timestamp), ResultsDirectory(d2, scriptDir, timestamp);
    assert |p1| == |JoinPrefix(scriptDir)| + 13 + |ResultsFolder(d1)| + |timestamp|;
    assert |p2| == |JoinPrefix(scriptDir)| + 13 + |ResultsFolder(d2)| + |timestamp|;
  }

  /** A results directory is never one of the runner's flags. */
  lemma ResultsDirectoryIsNoFlag(d: Domain, scriptDir: string, timestamp: string)
    ensures ResultsDirectory(d, scriptDir, timestamp) !in
      {"--outputdir", "--test", "--include", "--exclude"}
  {
    assert |ResultsDirectory(d, scriptDir, timestamp)| >= 21;
  }

  // ---------------------------------------------------------------------------
  // Scripts driven by a table of execution modes (users, auth)
  // ---------------------------------------------------------------------------

  /** No entry of a mode table excludes a tag, and none of its values reads as the exclude flag. */
  predicate ExcludesNothing(modes: map<string, Config>)
  {
    forall m :: m in modes ==>
      && modes[m].excludeTags == None
      && "--exclude" !in Tags(modes[m].includeTags)
      && modes[m].testName != Some("--exclude")
      && modes[m].testPath != "--exclude"
  }

  /** A table that excludes nothing yields commands without `--exclude`. */
  lemma ModeCommandExcludesNothing(d: Domain, modes: map<string, Config>, mode: string,
                                   scriptDir: string, timestamp: string)
    requires ExcludesNothing(modes) && mode in modes
    ensures "--exclude" !in Command(d, RequestFor(modes[mode], ResultsDirectory(d, scriptDir, timestamp)))
  {
    var dir := ResultsDirectory(d, scriptDir, timestamp);
    ResultsDirectoryIsNoFlag(d, scriptDir, timestamp);
    CommandMembers(d, RequestFor(modes[mode], dir), "--exclude");
  }

  /**
   * `main` of a mode-table script: creates the results directory, then rejects
   * a mode outside the table (returning false without running anything) or
   * runs the mode's configuration and returns the runner's verdict.
   */
  method RunMode(d: Domain, modes: map<string, Config>, mode: string, scriptDir: string, timestamp: string,
                 runner: seq<string> -> RunnerOutcome)
    returns (effects: seq<Effect>, success: bool)
    ensures var dir := ResultsDirectory(d, scriptDir, timestamp);
      mode !in modes ==> effects == [MadeDirectory(dir)] && !success
    ensures var dir := ResultsDirectory(d, scriptDir, timestamp);
      mode in modes ==>
        var cmd := Command(d, RequestFor(modes[mode], dir));
        effects == [MadeDirectory(dir), LaunchedRunner(cmd)] && (success <==> runner(cmd) == Exited(0))
    ensures ExcludesNothing(modes) ==>
      forall e :: e in effects && e.LaunchedRunner? ==> "--exclude" !in e.argv
  {
    var dir := ResultsDirectory(d, scriptDir, timestamp);
    effects := [MadeDirectory(dir)];
    if mode !in modes {
      success := false;
      return;
    }
    var launched;
    launched, success := RunRobotTests(d, RequestFor(modes[mode], dir), runner);
    effects := effects + [LaunchedRunner(launched)];
    if ExcludesNothing(modes) {
      ModeCommandExcludesNothing(d, modes, mode, scriptDir, timestamp);
    }
  }

  /**
   * The whole mode-table script with the users script's top level: `main`,
   * then exit status 0 for a successful run and 1 otherwise.
   */
  method RunModeProcess(d: Domain, modes: map<string, Config>, mode: string, scriptDir: string, timestamp: string,
                        runner: seq<string> -> RunnerOutcome)
    returns (effects: seq<Effect>, status: int)
    ensures var dir := ResultsDirectory(d, scriptDir, timestamp);
      mode !in modes ==> effects == [MadeDirectory(dir)] && status == 1
    ensures var dir := ResultsDirectory(d, scriptDir, timestamp);
      mode in modes ==>
        var cmd := Command(d, RequestFor(modes[mode], dir));
        && effects == [MadeDirectory(dir), LaunchedRunner(cmd)]
        && (status == 0 <==> runner(cmd) == Exited(0))
        && (status == 0 || status == 1)
    ensures ExcludesNothing(modes) ==>
      forall e :: e in effects && e.LaunchedRunner? ==> "--exclude" !in e.argv
  {
    var success;
    effects, success := RunMode(d, modes, mode, scriptDir, timestamp, runner);
    status := ExitStatus(Returned(success));
  }

  // ---------------------------------------------------------------------------
  // Process exit status
  // ---------------------------------------------------------------------------

  /** How a script's top level ends: `main` returned, the user pressed Ctrl-C, or anything else was raised. */
  datatype Termination = Returned(success: bool) | Interrupted | Crashed

  /** The exit status: 0 for a successful run, 130 for an interrupt, 1 for everything else. */
  function ExitStatus(t: Termination): (status: int)
    ensures status == 0 <==> t == Returned(true)
    ensures status == 130 <==> t == Interrupted
    ensures status == 1 <==> t == Returned(false) || t == Crashed
  {
    match t
    case Returned(success) => if success then 0 else 1
    case Interrupted => 130
    case Crashed => 1
  }
}
