/**
 * The products launcher: a menu of eighteen predefined runs, two runs built
 * from what the user types (a custom tag, a test name), and `main`, which
 * turns the selected option into at most one runner invocation.
 */
module ProductsTests {
  import opened Text
  import opened Launcher

  const SuiteDir: string := "tests/api/products/"

  /** The `.robot` file `name` of the products suite directory. */
  function SuiteFile(name: string): string
  {
    SuiteDir + name + ".robot"
  }

  /** The predefined runs, keyed by menu option. */
  const Configurations: map<string, Config> := map[
    "1" := Config("All Products API Tests", SuiteDir, None, None, None),
    "2" := Config("Get All Products Tests", SuiteFile("products_get_all_tests"), None, None, None),
    "3" := Config("Get Product By ID Tests", SuiteFile("products_get_by_id_tests"), None, None, None),
    "4" := Config("Search Products Tests", SuiteFile("products_search_tests"), None, None, None),
    "5" := Config("Categories Tests", SuiteFile("products_categories_tests"), None, None, None),
    "6" := Config("Products By Category Tests", SuiteFile("products_by_category_tests"), None, None, None),
    "7" := Config("Add Product Tests", SuiteFile("products_add_tests"), None, None, None),
    "8" := Config("Update Product Tests", SuiteFile("products_update_tests"), None, None, None),
    "9" := Config("Delete Product Tests", SuiteFile("products_delete_tests"), None, None, None),
    "10" := Config("Smoke Tests (Quick Validation)", SuiteDir, None, Some(["smoke"]), None),
    "11" := Config("Error Tests (Error Scenarios)", SuiteDir, None, Some(["error"]), None),
    "12" := Config("Validation Tests (Response Validation)", SuiteDir, None, Some(["validation"]), None),
    "13" := Config("Simulated Tests (CRUD Operations)", SuiteDir, None, Some(["simulated"]), None),
    "14" := Config("Edge Case Tests", SuiteDir, None, Some(["edge-case"]), None),
    "15" := Config("Performance Tests", SuiteDir, None, Some(["performance"]), None),
    "16" := Config("Security Tests", SuiteDir, None, Some(["security"]), None),
    "17" := Config("Integration Tests", SuiteDir, None, Some(["integration"]), None),
    "18" := Config("Business Logic Tests", SuiteDir, None, Some(["business-logic"]), None)
  ]

  /** `get_test_configuration`: the predefined run for an option, or `None`. */
  function TestConfiguration(option: string): (r: Option<Config>)
    ensures r.Some? ==> r.value.testPath != "" && r.value.testName == None && r.value.excludeTags == None
  {
    if option in Configurations then Some(Configurations[option]) else None
  }

  /** Exactly the options "1" .. "18" have a predefined run. */
  lemma ConfigurationKeys(option: string)
    ensures TestConfiguration(option).Some? <==> option in KeyRange(1, 19)
  {
    KeysUpTo20();
    KeyRangePrefix(1, 19, 21);
    assert KeyRange(1, 19) == ["1", "2", "3", "4", "5", "6", "7", "8", "9", "10",
                               "11", "12", "13", "14", "15", "16", "17", "18"];
  }

  /** A `.robot` file inside the products suite directory. */
  predicate IsSuiteFile(path: string)
  {
    |path| > |SuiteDir| + 6 && path[..|SuiteDir|] == SuiteDir && path[|path| - 6..] == ".robot"
  }

  lemma SuiteFileShape(name: string)
    requires name != ""
    ensures IsSuiteFile(SuiteFile(name))
  {
    var p := SuiteFile(name);
    assert p[..|SuiteDir|] == SuiteDir;
    assert p[|p| - 6..] == ".robot";
  }

  /** Options "2" .. "9" each run one suite file, with no test name and no tags. */
  lemma FileSuites(option: string)
    requires option in ["2", "3", "4", "5", "6", "7", "8", "9"]
    ensures TestConfiguration(option).Some?
    ensures var c := TestConfiguration(option).value;
      && IsSuiteFile(c.testPath)
      && c.testName == None && c.includeTags == None && c.excludeTags == None
  {
    var name :=
      if option == "2" then "products_get_all_tests" else if option == "3" then "products_get_by_id_tests"
      else if option == "4" then "products_search_tests" else if option == "5" then "products_categories_tests"
      else if option == "6" then "products_by_category_tests" else if option == "7" then "products_add_tests"
      else if option == "8" then "products_update_tests" else "products_delete_tests";
    assert Configurations[option].testPath == SuiteFile(name);
    SuiteFileShape(name);
  }

  /** Options "10" .. "18" each run the whole suite directory filtered by exactly one include tag. */
  lemma TaggedSuites(option: string)
    requires option in ["10", "11", "12", "13", "14", "15", "16", "17", "18"]
    ensures TestConfiguration(option).Some?
    ensures var c := TestConfiguration(option).value;
      && c.testPath == SuiteDir && c.testName == None && c.excludeTags == None
      && c.includeTags.Some? && |c.includeTags.value| == 1
  {
  }

  /** Where `main` ends up for the selected option. */
  datatype Choice = Quit | NoTagGiven | NoTestNameGiven | InvalidOption(option: string) | Chosen(config: Config)

  /**
   * The option handling of `main`. `option` is the command-line argument or the
   * menu's answer; `line` is what the user types at the prompt that options
   * "19" and "20" show (ignored for every other option).
   */
  function Select(option: string, line: string): (r: Choice)
    ensures r == Quit <==> option == "0"
    ensures r.InvalidOption? <==> option !in {"0", "19", "20"} && TestConfiguration(option).None?
    ensures r.InvalidOption? ==> r.option == option
    ensures r.Chosen? && option != "19" && option != "20" ==> TestConfiguration(option) == Some(r.config)
    ensures r == NoTagGiven || r == NoTestNameGiven ==> Strip(line) == ""
  {
    if option == "0" then Quit
    else if option == "19" then
      var tag := Strip(line);
      if tag == "" then NoTagGiven
      else Chosen(Config("Custom Tag Tests (" + tag + ")", SuiteDir, None, Some([tag]), None))
    else if option == "20" then
      var name := Strip(line);
      if name == "" then NoTestNameGiven
      else Chosen(Config("Specific Test (" + name + ")", SuiteDir, Some(name), None, None))
    else
      match TestConfiguration(option)
      case Some(c) => Chosen(c)
      case None => InvalidOption(option)
  }

  /** A run is chosen exactly for a predefined option, or for "19"/"20" with something typed at the prompt. */
  lemma SelectChosen(option: string, line: string)
    ensures Select(option, line).Chosen? <==>
      option in KeyRange(1, 19) || ((option == "19" || option == "20") && Strip(line) != "")
  {
    ConfigurationKeys(option);
    if option == "0" || option == "19" || option == "20" {
      assert option !in Configurations;
    } else {
      assert Select(option, line).Chosen? <==> option in Configurations;
    }
  }

  /** Option "19" runs the suite directory with the typed tag as its only include tag. */
  lemma CustomTag(line: string)
    ensures Strip(line) == "" ==> Select("19", line) == NoTagGiven
    ensures Strip(line) != "" ==>
      && Select("19", line).Chosen?
      && Select("19", line).config.testPath == SuiteDir
      && Select("19", line).config.includeTags == Some([Strip(line)])
      && Select("19", line).config.testName == None
      && Select("19", line).config.excludeTags == None
  {
  }

  /** Option "20" runs the suite directory restricted to the typed test name, with no tags. */
  lemma CustomTestName(line: string)
    ensures Strip(line) == "" ==> Select("20", line) == NoTestNameGiven
    ensures Strip(line) != "" ==>
      && Select("20", line).Chosen?
      && Select("20", line).config.testPath == SuiteDir
      && Select("20", line).config.testName == Some(Strip(line))
      && Select("20", line).config.includeTags == None
      && Select("20", line).config.excludeTags == None
  {
  }

  /** Every answer the interactive menu lets through ("0" .. "20") either quits or is a known option. */
  lemma MenuAnswersAreKnown(option: string, line: string)
    requires option == "0" || option in KeyRange(1, 21)
    ensures !Select(option, line).InvalidOption?
  {
    KeysUpTo20();
    ConfigurationKeys(option);
    if option != "0" && option != "19" && option != "20" {
      assert option in Configurations;
    }
  }

  /** The command `main` runs for a custom tag, written out. */
  lemma CustomTagCommand(line: string, dir: string)
    requires Strip(line) != ""
    ensures Command(Products, RequestFor(Select("19", line).config, dir))
         == [PythonExecutable, "-m", "robot", "--outputdir", dir, "--include", Strip(line), SuiteDir]
  {
  }

  /**
   * `main`: quits, aborts or rejects the option without touching the file system,
   * or creates the results directory and then runs the chosen configuration.
   * `main` itself returns nothing: `success` is the verdict it prints once the
   * run is over, `None` when nothing ran.
   */
  method RunScript(option: string, line: string, scriptDir: string, timestamp: string,
              runner: seq<string> -> RunnerOutcome)
    returns (choice: Choice, effects: seq<Effect>, success: Option<bool>)
    ensures choice == Select(option, line)
    ensures !choice.Chosen? ==> effects == [] && success == None
    ensures choice.Chosen? ==>
      var dir := ResultsDirectory(Products, scriptDir, timestamp);
      var cmd := Command(Products, RequestFor(choice.config, dir));
      effects == [MadeDirectory(dir), LaunchedRunner(cmd)] && success == Some(runner(cmd) == Exited(0))
  {
    choice := Select(option, line);
    effects, success := [], None;
    if choice.Chosen? {
      var dir := ResultsDirectory(Products, scriptDir, timestamp);
      effects := effects + [MadeDirectory(dir)];
      var launched, ok := RunRobotTests(Products, RequestFor(choice.config, dir), runner);
      effects := effects + [LaunchedRunner(launched)];
      success := Some(ok);
    }
  }
}
