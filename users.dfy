/**
 * The users launcher: fourteen execution modes, run by the shared `RunMode`,
 * and the top level that turns `main`'s verdict into the exit status
 * (`RunProcess`).
 */
module UsersTests {
  import opened Text
  import opened Launcher

  const SuiteDir: string := "tests/api/users"
  const LoginSuite: string := "tests/api/users/users_login_tests.robot"

  /** The execution modes: description, test path, test name and include tags. */
  const ExecutionModes: map<string, Config> := map[
    "1" := Config("All Users Tests", SuiteDir, None, None, None),
    "2" := Config("Login Tests Only", LoginSuite, None, None, None),
    "3" := Config("Get All Users Tests Only", "tests/api/users/users_get_all_tests.robot", None, None, None),
    "4" := Config("Get User By ID Tests Only", "tests/api/users/users_get_by_id_tests.robot", None, None, None),
    "5" := Config("Search Users Tests Only", "tests/api/users/users_search_tests.robot", None, None, None),
    "6" := Config("Add User Tests Only", "tests/api/users/users_add_tests.robot", None, None, None),
    "7" := Config("Update User Tests Only", "tests/api/users/users_update_tests.robot", None, None, None),
    "8" := Config("Delete User Tests Only", "tests/api/users/users_delete_tests.robot", None, None, None),
    "9" := Config("Smoke Tests Only", SuiteDir, None, Some(["smoke"]), None),
    "10" := Config("Error Tests Only", SuiteDir, None, Some(["error"]), None),
    "11" := Config("Success Tests Only", SuiteDir, None, Some(["success"]), None),
    "12" := Config("Simulated Tests Only", SuiteDir, None, Some(["simulated"]), None),
    "13" := Config("CRUD Operations Only", SuiteDir, None, Some(["add-user", "update-user", "delete-user"]), None),
    "14" := Config("Single Login Test", LoginSuite, Some("Admin User Emily Can Login Successfully"), None, None)
  ]

  /** The mode's configuration, or `None` for a mode that is not in the table. */
  function ExecutionMode(mode: string): (r: Option<Config>)
    ensures r.Some? ==> r.value.testPath != "" && r.value.excludeTags == None
  {
    if mode in ExecutionModes then Some(ExecutionModes[mode]) else None
  }

  /** Exactly the modes "1" .. "14" are accepted. */
  lemma ModeKeys(mode: string)
    ensures ExecutionMode(mode).Some? <==> mode in KeyRange(1, 15)
  {
    KeysUpTo20();
    KeyRangePrefix(1, 15, 21);
    assert KeyRange(1, 15) == ["1", "2", "3", "4", "5", "6", "7", "8", "9", "10", "11", "12", "13", "14"];
  }

  /** Mode "13" includes the three CRUD tags, in the order add, update, delete. */
  lemma CrudCommand(dir: string)
    ensures Command(Users, RequestFor(ExecutionModes["13"], dir))
         == [PythonExecutable, "-m", "robot", "--outputdir", dir,
             "--include", "add-user", "--include", "update-user", "--include", "delete-user", SuiteDir]
  {
    var tags := ["add-user", "update-user", "delete-user"];
    assert tags[..2] == ["add-user", "update-user"] && tags[..2][..1] == ["add-user"];
    assert FlagPairs("--include", tags)
        == ["--include", "add-user", "--include", "update-user", "--include", "delete-user"];
  }

  /** Mode "14" runs one named test of the login suite. */
  lemma SingleLoginCommand(dir: string)
    ensures Command(Users, RequestFor(ExecutionModes["14"], dir))
         == [PythonExecutable, "-m", "robot", "--outputdir", dir,
             "--test", "Admin User Emily Can Login Successfully", LoginSuite]
  {
  }

  /** No mode asks for an exclude tag, and none of its names, tags or paths reads as the exclude flag. */
  lemma ModesExcludeNothing()
    ensures ExcludesNothing(ExecutionModes)
  {
  }

  /**
   * The script as run: `main` (`RunMode` over this table), then `sys.exit`
   * with 0 for a successful run and 1 otherwise. A mode outside "1" .. "14"
   * creates the results directory, launches nothing and exits 1.
   */
  method RunProcess(mode: string, scriptDir: string, timestamp: string, runner: seq<string> -> RunnerOutcome)
    returns (effects: seq<Effect>, status: int)
    ensures mode !in KeyRange(1, 15) ==>
      effects == [MadeDirectory(ResultsDirectory(Users, scriptDir, timestamp))] && status == 1
    ensures ExecutionMode(mode).Some? ==>
      var cmd := Command(Users, RequestFor(ExecutionMode(mode).value, ResultsDirectory(Users, scriptDir, timestamp)));
      && effects == [MadeDirectory(ResultsDirectory(Users, scriptDir, timestamp)), LaunchedRunner(cmd)]
      && (status == 0 <==> runner(cmd) == Exited(0))
      && (status == 0 || status == 1)
    ensures forall e :: e in effects && e.LaunchedRunner? ==> "--exclude" !in e.argv
  {
    ModeKeys(mode);
    ModesExcludeNothing();
    effects, status := RunModeProcess(Users, ExecutionModes, mode, scriptDir, timestamp, runner);
  }
}

