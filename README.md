# Robot Framework API test launchers, modelled in Dafny

The repository ships three near-identical launcher scripts, one per API
domain: products, users and authentication. Each script picks a run
configuration from a fixed menu. It creates a timestamped results directory
`results/api/<domain>_api/<timestamp>` and builds a `python -m robot ...`
command line. It then runs that command as a subprocess and reports success
when the runner exits with code 0. This project models that logic as one
shared core with three domain instantiations, and proves what the command
lines, the menus and the exit statuses look like.

- `text.dfy` (module `Text`): Python's `str(i)`, the key list
  `[str(i) for i in range(lo, hi)]` (`KeyRange`), and `str.strip()`
  (`Strip`, which strips the characters `str.isspace()` accepts).
- `launcher.dfy` (module `Launcher`): the shared core.
  - `Command` is the argument list that `run_robot_tests` builds.
  - `BuildCommand` assembles it by appending to a list, with one loop per tag
    list (`ExtendWithFlags`).
  - `RunRobotTests` hands the command to the runner and reads the outcome.
  - `ResultsDirectory` is the results path.
  - `ExitStatus` maps how a script ends to its exit status.
  - `RunMode` is the `main` of the two mode-table scripts (users, auth), and
    `RunModeProcess` adds the users script's top level.
- `products.dfy` (module `ProductsTests`):
  - `TestConfiguration` is `get_test_configuration`.
  - `Select` is the option handling of `main`: option "0", the custom tag
    option "19", the custom test name option "20", and unknown options.
  - `RunScript` is `main` itself.
- `users.dfy` (module `UsersTests`) and `auth.dfy` (module `AuthTests`): the
  `execution_modes` tables (`ExecutionMode`) and the script as run
  (`RunProcess`). For the auth script, `RunProcessAsWritten` is its top level
  as written and `RunProcess` the one that passes `main`'s verdict on.

How the model treats the outside world:

- The subprocess is a parameter `runner: seq<string> -> RunnerOutcome`. It
  yields an exit code (`Exited`) or an exception raised while launching
  (`LaunchFailed`).
- The clock is the `timestamp` parameter, an opaque string.
- `sys.executable` is the constant `PythonExecutable`.
- The script's own directory is `scriptDir`, the text of
  `Path(__file__).parent`.
- Creating the results directory and launching the runner are recorded, in
  order, as `Effect`s (`MadeDirectory`, `LaunchedRunner`) that each `RunScript`,
  `RunMode` and `RunProcess` returns.

Python truthiness is followed, with one exception for the output directory:

- A test name or test path counts only when given and non-empty (`Given`).
- A tag list that is `None` and one that is empty both add nothing (`Tags`).
- The output directory is a `pathlib.Path` in every caller, and a path is
  always truthy. So a given directory always adds `--outputdir`, even an
  empty string, for which `run_robot_tests` itself would add nothing. No
  `main` passes one.

## Model

| member | source | states |
|---|---|---|
| Launcher.Command | run_products_tests.py:33-57 | the command starts with `[python, "-m", "robot"]` and ends with the test path, or the domain default (`tests/api/products/`, `tests/api/users`, `tests/api/auth`) when the path is missing or empty; its length is 4 + 2·[output dir] + 2·[non-empty name] + 2·(number of include tags) + 2·(number of exclude tags) |
| Launcher.RequestFor | run_products_tests.py:280-286 | `main` passes the results directory as output directory and the entry's test name and tags unchanged; the test path counts exactly when it is not empty |
| Launcher.BuildCommand | run_products_tests.py:33-57 | the list built by appending the runner, `--outputdir`, `--test`, the include and exclude flags and the test path equals the command specification `Command` |
| Launcher.ExtendWithFlags | run_products_tests.py:44-51 | the loop over a tag list appends exactly `flag tag` for every tag, in order |
| Launcher.RunRobotTests | run_products_tests.py:30-68 | the command handed to the runner is `Command`; success holds exactly when the runner exits with code 0; a launch exception gives false and is not raised |
| Launcher.FlagPairsAt | run_products_tests.py:45-47 | in the flag block, position 2k holds the flag and position 2k+1 holds tag k |
| Launcher.FlagPairsMembers | run_products_tests.py:45-51 | the flag block contains only the flag and the tags |
| Launcher.CommandOutputDir | run_products_tests.py:36-38 | `--outputdir D` sits right after the runner prefix exactly when an output directory is given |
| Launcher.CommandTestName | run_products_tests.py:40-42 | `--test NAME` follows the output-directory pair exactly when the name is non-empty, so it comes before every tag flag |
| Launcher.CommandIncludeFlags | run_products_tests.py:44-47 | right after the name come `--include T` pairs, one for each include tag, in input order |
| Launcher.CommandExcludeFlags | run_products_tests.py:49-51 | right after the include pairs come `--exclude T` pairs, one for each exclude tag, in input order |
| Launcher.CommandMembers | run_auth_tests.py:33-57 | an argument is in the command exactly when it is part of the runner prefix, a flag the request asked for, a value the request holds, or the test path |
| Launcher.ResultsDirectory | run_products_tests.py:16-28 | the results path ends with `/` followed by the timestamp |
| Launcher.ResultsDirectoryPerTimestamp | run_products_tests.py:19-23 | for one script and directory, two timestamps give the same results path exactly when they are equal |
| Launcher.ResultsDirectoryPerDomain | run_auth_tests.py:22-23 | two domains never share a results path for the same script directory and timestamp |
| Launcher.ResultsDirectoryIsNoFlag | run_users_tests.py:22-23 | a results path is never one of the runner's flags |
| Launcher.JoinPrefix | run_products_tests.py:22-23 | putting the script directory in front of a relative path adds nothing exactly for "" and "."; otherwise the directory is kept whole and followed by one `/` at most |
| Launcher.ExitStatus | run_users_tests.py:153-162 | the status is 0 exactly when `main` returned true, 130 exactly on a keyboard interrupt, and 1 exactly when `main` returned false or raised |
| Launcher.ModeCommandExcludesNothing | run_users_tests.py:131-136 | a mode table none of whose entries excludes a tag or holds the text `--exclude` yields commands without `--exclude` |
| Launcher.RunMode | run_users_tests.py:70-151 | `main` of the users and auth scripts: the results directory is always created first; a mode outside the table then returns false and launches nothing; a known mode launches its command and returns true exactly when the runner exits 0; no launched command holds `--exclude` when the table excludes nothing |
| Launcher.RunModeProcess | run_users_tests.py:153-162 | `main` followed by the users top level: a mode outside the table exits 1; a known mode exits 0 exactly when the runner exits 0, and 1 otherwise |
| Text.DecimalString | run_products_tests.py:234 | `str(n)` is a non-empty string of decimal digits with no leading zero (unless n is 0) |
| Text.DecimalRoundTrip | run_products_tests.py:234 | `int(str(n)) == n`, so two numbers never give the same menu key |
| Text.KeyRange | run_products_tests.py:234 | `[str(i) for i in range(lo, hi)]` has hi - lo keys |
| Text.KeysUpTo20 | run_products_tests.py:234 | the keys the products menu accepts are "1" to "20", in order |
| Text.IsSpace | run_products_tests.py:242 | space, tab, newline and carriage return are white space; no digit, letter, `-` or `_` is, so a tag or test name keeps its inner characters |
| Text.StripLeading | run_products_tests.py:242 | leading white space is removed: the result is a suffix, everything dropped is white space, and the result does not start with white space |
| Text.StripTrailing | run_products_tests.py:253 | trailing white space is removed: the result is a prefix, everything dropped is white space, and the result does not end with white space |
| Text.Strip | run_products_tests.py:228 | `s.strip()` is the slice of `s` left once the white space at both ends is dropped, and it neither starts nor ends with white space |
| Text.StripIdempotent | run_products_tests.py:242 | stripping a stripped answer again changes nothing |
| Text.StripEmpty | run_products_tests.py:242-245 | a stripped answer is empty exactly when every character typed was white space |
| ProductsTests.TestConfiguration | run_products_tests.py:98-211 | every predefined run has a non-empty test path, no test name and no exclude tags |
| ProductsTests.ConfigurationKeys | run_products_tests.py:98-211 | `get_test_configuration` returns a configuration for exactly the keys "1" to "18" |
| ProductsTests.FileSuites | run_products_tests.py:107-154 | options 2 to 9 run a single `.robot` file inside `tests/api/products/`, with no test name and no include or exclude tags |
| ProductsTests.TaggedSuites | run_products_tests.py:155-208 | options 10 to 18 run `tests/api/products/` with exactly one include tag and no exclude tags |
| ProductsTests.Select | run_products_tests.py:219-269 | option "0" and only it quits; the invalid-option branch is taken exactly for an option that is not "0", "19", "20" or a predefined key; a predefined option runs its configuration; an abort happens only on an empty stripped answer |
| ProductsTests.SelectChosen | run_products_tests.py:240-269 | a run is chosen exactly for keys "1" to "18", or for "19"/"20" when the typed text is not empty after stripping |
| ProductsTests.CustomTag | run_products_tests.py:241-251 | option 19 with an empty stripped tag aborts; otherwise the only include tag is the stripped tag, with no test name |
| ProductsTests.CustomTestName | run_products_tests.py:252-263 | option 20 with an empty stripped name aborts; otherwise the test name is the stripped name, with no tags |
| ProductsTests.MenuAnswersAreKnown | run_products_tests.py:226-269 | every answer the interactive menu accepts ("0" to "20") leads to quitting or to a known option, never to the invalid-option branch |
| ProductsTests.CustomTagCommand | run_products_tests.py:246-286 | the command for a custom tag is the runner, `--outputdir DIR`, `--include TAG` and `tests/api/products/` |
| ProductsTests.RunScript | run_products_tests.py:213-296 | quitting, an empty custom answer or an unknown option does nothing; otherwise the results directory is created and then the chosen command is launched, and the verdict `main` prints is the runner's |
| UsersTests.ExecutionMode | run_users_tests.py:82-97 | every mode has a non-empty test path and no exclude tags |
| UsersTests.ModeKeys | run_users_tests.py:82-116 | a mode is accepted exactly when it is one of "1" to "14" |
| UsersTests.CrudCommand | run_users_tests.py:95 | mode 13 gives three `--include` pairs in the order add-user, update-user, delete-user, on `tests/api/users` |
| UsersTests.SingleLoginCommand | run_users_tests.py:96 | mode 14 gives `--test "Admin User Emily Can Login Successfully"` on `tests/api/users/users_login_tests.robot` |
| UsersTests.ModesExcludeNothing | run_users_tests.py:82-97 | no mode has exclude tags, and no mode's path, name or tag is the text `--exclude` |
| UsersTests.RunProcess | run_users_tests.py:112-116 | the script as run: a mode outside "1" to "14" creates the results directory, launches nothing and exits 1; a known mode launches its command and exits 0 exactly when the runner exits 0, else 1; no launched command holds `--exclude` |
| AuthTests.ExecutionMode | run_auth_tests.py:82-93 | every mode has a non-empty test path and no exclude tags |
| AuthTests.ModeKeys | run_auth_tests.py:82-110 | a mode is accepted exactly when it is one of "1" to "10" |
| AuthTests.TagModeCommands | run_auth_tests.py:88-90 | modes 6, 7 and 8 run `tests/api/auth` with the single include tag smoke, error or success and no test name |
| AuthTests.ConnectivityCommand | run_auth_tests.py:91 | mode 9 gives `--test "Authentication Service Connectivity Test"` on `tests/api/auth/auth_test_suite.robot`, with no tags |
| AuthTests.ModesExcludeNothing | run_auth_tests.py:82-93 | no mode has exclude tags, and no mode's path, name or tag is the text `--exclude` |
| AuthTests.RunProcessAsWritten | run_auth_tests.py:142-143 | the script as written exits 0 for every mode, while still creating the results directory and launching the command of a known mode |
| AuthTests.ScriptExitStatus | run_auth_tests.py:142-143 | as written, every normal return of `main` ends the process with status 0 |
| AuthTests.InvalidModeExitsZero | run_auth_tests.py:106-110 | mode "99" is rejected and `main` returns false, yet the script exits with status 0 where `ExitStatus` gives 1 |
| AuthTests.RunProcess | run_auth_tests.py:106-110 | with `main`'s verdict passed on as the users script does: a mode outside "1" to "10" exits 1; a known mode exits 0 exactly when the runner exits 0, else 1; no launched command holds `--exclude` |

## Left out

- The subprocess call and the Robot Framework runner: only their outcome is
  modelled, as a function of the argument list. The runner's live output and
  its report files are not modelled.
- `datetime.now()` and `strftime`: the timestamp is an opaque string. The
  model takes it to be one plain path segment, which is what
  `%Y%m%d_%H%M%S` produces.
- `Path.mkdir` and the file system: directory creation is the
  `MadeDirectory` effect. `exist_ok` and the other pathlib normalisations
  beyond `JoinPrefix` are not modelled.
- `print`, `show_menu`, the menu listing and the interactive `input()` loop
  of the products script, which asks again until it gets "0" to "20". The
  model takes the answer they produce. `MenuAnswersAreKnown` states what the
  loop guarantees.
- The users and auth scripts strip the interactively typed mode but not the
  command-line argument. `RunMode` receives the mode as produced.
- The unused `tags` parameter of `run_robot_tests`.
- The products script's top level calls `main()`, which returns nothing. Its
  exit status is therefore 0 on every normal return. This is not modelled
  separately from the auth script's, which is.
- `libraries/config_strategy.py` and `libraries/data_factory.py`: each is
  an empty class with a constructor that does nothing.
- AuthTests.ScriptExitStatus: the script sets no status for an escaping
  interrupt or exception. The interpreter gives 1 for an uncaught exception.
  An uncaught interrupt terminates the process by SIGINT, which a shell
  reports as 130; the model writes that as 130.

## Findings

| source | as written | input that shows it | evidently intended | confidence | as-written member | corrected member |
|---|---|---|---|---|---|---|
| run_auth_tests.py:142-143 | the top level calls `main()` and drops the boolean it returns, so the process exits 0 even when the mode is invalid or the tests fail | mode "99": `main` returns False and the process exits 0 | exit 1 when `main` returns False and 0 when it returns True, as run_users_tests.py:153-162 does | medium, not executed | AuthTests.InvalidModeExitsZero | AuthTests.RunProcess |
