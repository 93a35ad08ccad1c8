/**
 * The authentication launcher: ten execution modes, run by the shared
 * `RunMode`. Its top level calls `main` and drops the verdict
 * (`RunProcessAsWritten`); `RunProcess` passes it on.
 */
module AuthTests {
  import opened Text
  import opened Launcher

  const SuiteDir: string := "tests/api/auth"
  const LoginSuite: string := "tests/api/auth/auth_login_tests.robot"

  /** The execution modes: description, test path, test name and include tags. */
  const ExecutionModes: map<string, Config> := map[
    "1" := Config("All Auth Tests", SuiteDir, None, None, None),
    "2" := Config("Login Tests Only", LoginSuite, None, None, None),
    "3" := Config("User Info Tests Only", "tests/api/auth/auth_user_info_tests.robot", None, None, None),
    "4" := Config("Token Refresh Tests Only", "tests/api/auth/auth_refresh_token_tests.robot", None, None, None),
    "5" := Config("Integration Tests Only", "tests/api/auth/auth_integration_tests.robot", None, None, None),
    "6" := Config("Smoke Tests Only", SuiteDir, None, Some(["smoke"]), None),
    "7" := Config("Error Tests Only", SuiteDir, None, Some(["error"]), None),
    "8" := Config("Success Tests Only", SuiteDir, None, Some(["success"]), None),
    "9" := Config("Connectivity Test Only", "tests/api/auth/auth_test_suite.robot",
                  Some("Authentication Service Connectivity Test"), None, None),
    "10" := Config("Single Login Test", LoginSuite, Some("Successful Login With Valid Credentials - Emily"), None, None)
  ]

  /** The mode's configuration, or `None` for a mode that is not in the table. */
  function ExecutionMode(mode: string): (r: Option<Config>)
    ensures r.Some? ==> r.value.testPath != "" && r.value.excludeTags == None
  {
    if mode in ExecutionModes then Some(ExecutionModes[mode]) else None
  }

  /** Exactly the modes "1" .. "10" are accepted. */
  lemma ModeKeys(mode: string)
    ensures ExecutionMode(mode).Some? <==> mode in KeyRange(1, 11)
  {
    KeysUpTo20();
    KeyRangePrefix(1, 11, 21);
    assert KeyRange(1, 11) == ["1", "2", "3", "4", "5", "6", "7", "8", "9", "10"];
  }

  /** Modes "6", "7" and "8" run the suite directory with one include tag each and no test name. */
  lemma TagModeCommands(dir: string)
    ensures Command(Auth, RequestFor(ExecutionModes["6"], dir))
         == [PythonExecutable, "-m", "robot", "--outputdir", dir, "--include", "smoke", SuiteDir]
    ensures Command(Auth, RequestFor(ExecutionModes["7"], dir))
         == [PythonExecutable, "-m", "robot", "--outputdir", dir, "--include", "error", SuiteDir]
    ensures Command(Auth, RequestFor(ExecutionModes["8"], dir))
         == [PythonExecutable, "-m", "robot", "--outputdir", dir, "--include", "success", SuiteDir]
  {
  }

  /** Mode "9" runs the connectivity test of the suite file, with no tags. */
  lemma ConnectivityCommand(dir: string)
    ensures Command(Auth, RequestFor(ExecutionModes["9"], dir))
         == [PythonExecutable, "-m", "robot", "--outputdir", dir,
             "--test", "Authentication Service Connectivity Test", "tests/api/auth/auth_test_suite.robot"]
  {
  }

  /** No mode asks for an exclude tag, and none of its names, tags or paths reads as the exclude flag. */
  lemma ModesExcludeNothing()
    ensures ExcludesNothing(ExecutionModes)
  {
  }

  /**
   * The exit status of the script as its top level is written: `main()` is
   * called and its verdict dropped, so every normal return ends with status 0.
   * An interrupt or another exception escapes to the interpreter: an uncaught
   * exception gives status 1, and an uncaught interrupt terminates the process
   * by SIGINT, which a shell reports as 130.
   */
  function ScriptExitStatus(t: Termination): (status: int)
    ensures t.Returned? ==> status == 0
    ensures status == 130 <==> t == Interrupted
  {
    match t
    case Returned(_) => 0
    case Interrupted => 130
    case Crashed => 1
  }

  /**
   * The script as its top level is written: `main` (`RunMode` over this table),
   * whose verdict is then dropped, so the process exits 0 for every mode.
   */
  method RunProcessAsWritten(mode: string, scriptDir: string, timestamp: string,
                             runner: seq<string> -> RunnerOutcome)
    returns (effects: seq<Effect>, status: int)
    ensures status == 0
    ensures mode !in KeyRange(1, 11) ==>
      effects == [MadeDirectory(ResultsDirectory(Auth, scriptDir, timestamp))]
    ensures ExecutionMode(mode).Some? ==>
      var cmd := Command(Auth, RequestFor(ExecutionMode(mode).value, ResultsDirectory(Auth, scriptDir, timestamp)));
      effects == [MadeDirectory(ResultsDirectory(Auth, scriptDir, timestamp)), LaunchedRunner(cmd)]
  {
    ModeKeys(mode);
    var success;
    effects, success := RunMode(Auth, ExecutionModes, mode, scriptDir, timestamp, runner);
    status := ScriptExitStatus(Returned(success));
  }

  /**
   * The invalid mode "99" makes `main` return false, yet the script exits with
   * status 0; the users script's mapping, `ExitStatus`, reports it as 1.
   */
  lemma InvalidModeExitsZero()
    ensures ExecutionMode("99").None?
    ensures ScriptExitStatus(Returned(false)) == 0
    ensures ExitStatus(Returned(false)) == 1
  {
  }

  /**
   * The script with `main`'s verdict passed on, as the users script does: a
   * mode outside "1" .. "10" exits 1, and a known mode exits 0 exactly when
   * its run passes.
   */
  method RunProcess(mode: string, scriptDir: string, timestamp: string, runner: seq<string> -> RunnerOutcome)
    returns (effects: seq<Effect>, status: int)
    ensures mode !in KeyRange(1, 11) ==>
      effects == [MadeDirectory(ResultsDirectory(Auth, scriptDir, timestamp))] && status == 1
    ensures ExecutionMode(mode).Some? ==>
      var cmd := Command(Auth, RequestFor(ExecutionMode(mode).value, ResultsDirectory(Auth, scriptDir, timestamp)));
      && effects == [MadeDirectory(ResultsDirectory(Auth, scriptDir, timestamp)), LaunchedRunner(cmd)]
      && (status == 0 <==> runner(cmd) == Exited(0))
      && (status == 0 || status == 1)
    ensures forall e :: e in effects && e.LaunchedRunner? ==> "--exclude" !in e.argv
  {
    ModeKeys(mode);
    ModesExcludeNothing();
    effects, status := RunModeProcess(Auth, ExecutionModes, mode, scriptDir, timestamp, runner);
  }
}
