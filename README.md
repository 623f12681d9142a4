# hands: result collection and engine selection, modelled in Dafny

`hands` runs one of three test frameworks (pytest, Robot Framework,
behave) and makes them all produce a Robot-style `output.xml`. This
project models the parts of `hands` that decide what ends up in that
report. Each part is one Dafny module:

- `Report` (`report.dfy`) holds what both adapters share.
  - The `TestResult` record and the three-valued `Status`.
  - The 2000-character message bound, and Python's `s[:n]` as `Truncate`.
  - The invariant every record keeps (`WellFormed`): a message only on
    FAIL and within the bound, and never an empty tag list.
  - The report writer `write_robot_output` as a sink, `RobotOutputSink`,
    that records each batch it is handed.
- `PytestRobotXml` (`pytest_robot_xml.dfy`) is the pytest plugin.
  - The `_Store` object is a class with its `starts` map and `results`
    log.
  - The three hooks are methods that change that store, each proved
    against pure functions: status, failure message and the appended
    record.
- `BehaveRobotXml` (`behave_robot_xml.dfy`) is the behave formatter:
  configuration defaults, the status table, failure text, tags and
  naming.
  - The walk in `close()` is two loop methods, over features and over
    scenarios. They are proved against recursive specification
    functions.
  - Lemmas show that the walk yields one record per scenario in
    feature-major order, keeps what was appended before an
    `AttributeError` or `TypeError`, and that the writer is called
    exactly when there is a record.
- `EngineDetector` (`engine_detector.dfy`) is engine detection.
  - Single files are classified by their lower-cased suffix, with
    pathlib's suffix rule.
  - The python-test filter loop and the nested scan over the config
    table with early return are loop methods.
  - The count rule is proved equal to an independent "plurality, ties
    to Robot, then behave" rule.
  - Every path yields one of the three engine names.
- `TestEngines` (`test_engines.dfy`) holds the engine registry and the
  three `run_tests` argument lists.
  - Lemmas show that each argument list gives back the output path and
    suite name it was built with. For pytest the options are read the
    way a store-action option parser reads them: in either the
    `--flag=value` or the `--flag value` form, with the last occurrence
    winning. For Robot and behave they are read as `--flag value` pairs.
  - A host that cannot be imported or raises an `Exception` yields exit
    code 1. An exception outside `Exception`, such as `SystemExit`,
    escapes `run_tests`.
- `Wrappers` (`wrappers.dfy`) holds `Option` and `Result`.

Time is an integer `Instant` passed to each hook as `now`.

Two behaviours of the code that a reader might not expect:

- **Empty results.** `pytest_sessionfinish` has no emptiness guard,
  unlike the behave formatter's `close()`. It hands even an empty log
  to the writer, and `PytestRobotXml.SessionFinish` models that.
- **Store lifetime.** One module-level `_store` serves every session. A
  reused store keeps old start times and records. The model passes the
  store to each hook, so that is what it shows too.

## Model

| member | source | states |
|---|---|---|
| Report.Truncate | src/hands/pytest_robot_xml.py:60 | `s[:n]` is a prefix of `s`, exactly `n` long when `s` is longer, and all of `s` otherwise |
| PytestRobotXml.OutputPath | src/hands/pytest_robot_xml.py:19-25 | `--robot-output` is the given value, else "output.xml" |
| PytestRobotXml.SuiteName | src/hands/pytest_robot_xml.py:26-32 | `--robot-suite-name` is the given value, else "Pytest Suite" |
| PytestRobotXml.StatusOf | src/hands/pytest_robot_xml.py:56 | PASS iff passed, SKIP iff skipped, FAIL iff failed; always one of the three |
| PytestRobotXml.FailureMessage | src/hands/pytest_robot_xml.py:57-60 | a message exists iff the report failed and has a longrepr; it is then a prefix of that text, at most 2000 long and shorter only when the text is |
| PytestRobotXml.ResultFor | src/hands/pytest_robot_xml.py:54-70 | the record is well formed, is named by the node id, has no tags, starts at the recorded start or else now, ends now, and carries the status and message above |
| PytestRobotXml.Store.constructor | src/hands/pytest_robot_xml.py:35-39 | the store starts with no start times and an empty log |
| PytestRobotXml.RuntestProtocol | src/hands/pytest_robot_xml.py:45-47 | the start of the node id becomes now, overwriting any earlier one; other keys and the log are unchanged |
| PytestRobotXml.RuntestLogreport | src/hands/pytest_robot_xml.py:50-70 | a non-call report changes nothing; a call report appends exactly its record at the end; the start map is never touched; the log stays well formed |
| PytestRobotXml.SessionFinish | src/hands/pytest_robot_xml.py:73-80 | the writer is called exactly once with the suite name, the whole log in append order and the path, with no emptiness guard; a writer failure is reported back, not raised |
| BehaveRobotXml.MapStatus | src/hands/behave_robot_xml.py:90-96 | passed gives PASS, skipped or untested give SKIP, failed and every other status give FAIL, each as an iff |
| BehaveRobotXml.ResolveFeatures | src/hands/behave_robot_xml.py:57-64 | features come from the formatter, else its stream, else the config, else an empty list |
| BehaveRobotXml.FailureMessage | src/hands/behave_robot_xml.py:99-104 | text only for a failed scenario: exactly the first 2000 characters of the exception text if there is one, else of `error_message`; no text when `error_message` is missing; slicing an `error_message` that is `None` raises TypeError, and that is the only failure |
| BehaveRobotXml.TagsOf | src/hands/behave_robot_xml.py:107 | no tags iff the list is empty, otherwise the list itself in order |
| BehaveRobotXml.ResultNameSplits | src/hands/behave_robot_xml.py:111 | the name `feature + " :: " + scenario` splits back into both names at its first separator whenever no separator starts inside the feature name part |
| BehaveRobotXml.ColonFreeNamesSplit | src/hands/behave_robot_xml.py:111 | in particular, a feature name without a colon always splits back out |
| BehaveRobotXml.ScenarioResult | src/hands/behave_robot_xml.py:84-117 | the record, or the fault the message raises: well formed, named "feature :: scenario", mapped status, start from the stamp or else now, end now, its message and tags |
| BehaveRobotXml.WalkScenarios | src/hands/behave_robot_xml.py:67-68 | one record per scenario in order, each the scenario's own record, stopping exactly at the first scenario that raises |
| BehaveRobotXml.WalkFeatures | src/hands/behave_robot_xml.py:66-68 | every record the walk produces is well formed |
| BehaveRobotXml.WalkFeaturesOrder | src/hands/behave_robot_xml.py:66-68 | the records are those of a prefix of the feature-major, scenario-minor pairs; a walk that completes read every feature and yields exactly the total scenario count |
| BehaveRobotXml.WalkFeaturesStep | src/hands/behave_robot_xml.py:66-68 | one outer step adds the feature's scenario walk, or raises AttributeError when its scenarios cannot be read |
| BehaveRobotXml.ScenarioFaultPersists | src/hands/behave_robot_xml.py:66-72 | after a scenario raised, the rest of the feature adds nothing |
| BehaveRobotXml.FeatureFaultPersists | src/hands/behave_robot_xml.py:66-72 | after a feature raised, the remaining features add nothing |
| BehaveRobotXml.SuiteNameOf | src/hands/behave_robot_xml.py:23 | `robot_suite_name`, else "Behave Suite" |
| BehaveRobotXml.OutPathOf | src/hands/behave_robot_xml.py:26-29 | `output_file`, else "output.xml"; a truthy `outfile` overrides it (its name for a file object, else the value itself); an empty `outfile` does not |
| BehaveRobotXml.RobotXmlFormatter.constructor | src/hands/behave_robot_xml.py:19-29 | an empty result list, with the suite name and output path above |
| BehaveRobotXml.RobotXmlFormatter.Scenario | src/hands/behave_robot_xml.py:35-37 | the scenario is stamped with now as its start, and nothing else about it changes |
| BehaveRobotXml.RobotXmlFormatter.ProcessScenario | src/hands/behave_robot_xml.py:84-120 | appends exactly the scenario's record, or appends nothing and reports the fault |
| BehaveRobotXml.RobotXmlFormatter.CollectScenarios | src/hands/behave_robot_xml.py:67-68 | the inner loop appends exactly what `WalkScenarios` yields and reports its fault |
| BehaveRobotXml.RobotXmlFormatter.CollectFeatures | src/hands/behave_robot_xml.py:66-72 | the outer loop appends exactly what `WalkFeatures` yields and reports its fault |
| BehaveRobotXml.RobotXmlFormatter.Close | src/hands/behave_robot_xml.py:51-82 | earlier records are kept and the walk's records are appended, faults included; the writer is called once iff the log is non-empty, else not at all |
| EngineDetector.SuffixIsExtension | src/hands/engine_detector.py:56 | a name has a given extension as its suffix iff it ends with it after a non-empty stem |
| EngineDetector.LowerSuffix | src/hands/engine_detector.py:56 | lower-casing the suffix equals the suffix of the lower-cased name |
| EngineDetector.DetectFromFile | src/hands/engine_detector.py:47-81 | file classification is total: always one of the three engine names |
| EngineDetector.DetectFromFileByEnding | src/hands/engine_detector.py:56-81 | robot iff the name ends in ".robot" or ".resource" after a stem, behave iff in ".feature", pytest in every other case |
| EngineDetector.PythonTests | src/hands/engine_detector.py:102-105 | exactly the `.py` files that pass the filter (name contains `test_`, ends `_test.py`, or parent `tests`/`test`) |
| EngineDetector.PythonTestsCounts | src/hands/engine_detector.py:102-105 | each file that passes the filter is kept as often as it was found, and no other file is kept, so the count the decision uses is exact |
| EngineDetector.CollectPythonTests | src/hands/engine_detector.py:99-105 | the append loop computes exactly `PythonTests` |
| EngineDetector.FirstConfig | src/hands/engine_detector.py:130-134 | none iff no entry has a file present; otherwise the first entry that has one |
| EngineDetector.ConfigEngineCases | src/hands/engine_detector.py:124-134 | pytest files first, then Robot, then behave, each as an iff |
| EngineDetector.ScanConfigs | src/hands/engine_detector.py:130-134 | the nested scan with early return agrees with `ConfigEngine` |
| EngineDetector.Decide | src/hands/engine_detector.py:110-138 | the count rule always yields an engine name |
| EngineDetector.DecideIsPlurality | src/hands/engine_detector.py:111-121 | with any file counted, the engine with most files wins, ties to Robot, then behave |
| EngineDetector.DecideWithoutFiles | src/hands/engine_detector.py:123-138 | with nothing counted, the configuration decides, and pytest when none exists |
| EngineDetector.DirectoryEngine | src/hands/engine_detector.py:83-138 | a missing directory gives pytest; every directory yields an engine name |
| EngineDetector.DetectFromDirectory | src/hands/engine_detector.py:83-138 | the method computes `DirectoryEngine` |
| EngineDetector.TargetEngine | src/hands/engine_detector.py:18-45 | files and missing paths by suffix, directories by content; never raises |
| EngineDetector.DetectEngine | src/hands/engine_detector.py:18-45 | the dispatch computes `TargetEngine` |
| TestEngines.ExitCode | src/hands/test_engines.py:72-79 | the host's code when it returns, 1 when it cannot be imported or raises an `Exception`; anything else escapes `run_tests`, and only then is there no code |
| TestEngines.TestEngineFactory.GetAvailableEngines | src/hands/test_engines.py:202-208 | exactly `["pytest", "robot", "behave"]`, the registry's keys in order |
| TestEngines.TestEngineFactory.CreateEngine | src/hands/test_engines.py:183-200 | succeeds iff the name is registered; otherwise the error names it and lists the engines |
| TestEngines.TestEngineFactory.CreateEngineMatchesName | src/hands/test_engines.py:195-200 | each name creates its own engine kind and only that name does |
| TestEngines.TestEngineFactory.UnknownEngineMessage | src/hands/test_engines.py:195-197 | the error text is "Unknown engine '<name>'. Available: pytest, robot, behave" |
| TestEngines.TestEngineFactory.DetectedEnginesAreCreatable | src/hands/test_engines.py:177-181 | every name detection can return creates an engine |
| TestEngines.PytestArgsOutput | src/hands/test_engines.py:64-69 | pytest reads back the output path it was given unless the extra arguments set it, in either the `=` or the separated form |
| TestEngines.PytestArgsSuiteName | src/hands/test_engines.py:64-69 | pytest reads back the suite name it was given unless the extra arguments set it, in either form |
| TestEngines.PytestArgsExtraWins | src/hands/test_engines.py:69 | an option set in the extra arguments, in either form, overrides the engine's own, since they come later |
| TestEngines.RobotArgsRoundTrip | src/hands/test_engines.py:109-114 | Robot reads back the output path and the suite name, and the test path is the last argument |
| TestEngines.BehaveArgsRoundTrip | src/hands/test_engines.py:154-159 | behave reads back the formatter and the output path; no suite name is passed |
| TestEngines.PytestRunTests | src/hands/test_engines.py:60-79 | builds `[path, "--robot-output=" + out, "--robot-suite-name=" + suite] + extra` and returns the exit code above |
| TestEngines.RobotRunTests | src/hands/test_engines.py:105-124 | builds `["--output", out, "--name", suite] + extra + [path]` and returns the exit code above |
| TestEngines.BehaveRunTests | src/hands/test_engines.py:150-169 | builds `[path, "--format", <formatter>, "--outfile", out] + extra` and returns the exit code above |
| TestEngines.RunTests | src/hands/test_engines.py:16-22 | a created engine's `run_tests` builds that engine's argument list |

## Left out

- The XML writer itself (escaping, timestamp formatting, atomic write).
  `src/hands/report_xml.py` is not part of this model. `write_robot_output`
  is a sink that records each call and may fail.
- `datetime.now`: the clock is the `now` parameter of each hook. The two
  reads in one hook are taken as one instant, so a record's end never
  differs from its fallback start.
- BehaveRobotXml.RobotXmlFormatter.Close: one `now` serves the whole
  walk. The code reads the clock twice in every `_process_scenario`
  call, so its records get increasing end times; in the model every
  record of one `close()` ends at the same instant, and so does the
  start of any scenario that was never stamped.
- TestEngines.PytestArgsOutput and TestEngines.PytestArgsSuiteName: the
  option reader takes only the exact option names, in the `=` and the
  separated forms. Abbreviated option names and the parser's
  rejection of malformed argument lists are not modelled.
- The host engines (`pytest.main`, `robot.run_cli`, `behave_main`): only
  the outcome of the call is modelled, as `HostRun`. The engines' logging
  is left out too.
- The host's dynamic objects. A pytest report is given as node id,
  phase, a three-valued outcome and an optional `str(longrepr)`; pytest
  derives `passed`/`skipped`/`failed` from one outcome field, which is
  what makes them exclusive. A behave scenario is given as name, status,
  `str(exception)`, `error_message`, tags and the start stamp. `hasattr`
  probes become `Option` fields.
- BehaveRobotXml.RobotXmlFormatter.Scenario: scenarios are values, so the
  stamp is returned to the caller instead of written into a shared
  scenario object. Aliasing between the object behave keeps and the one
  `close()` later walks is not modelled.
- `feature()`, `result()`, `scenario_outline()` and `eof()` of the
  formatter only store a reference or do nothing; no record depends on
  them.
- Filesystem access in detection (`is_file`, `is_dir`, `exists`, `rglob`).
  A path is given as file, directory or missing. A directory is given as
  its glob match counts, its `.py` files with their parent names, and the
  set of configuration file names present in it. The case-sensitivity of
  glob matching is therefore decided outside the model.
- EngineDetector.Lower: lower-casing covers ASCII letters only; Python's
  full Unicode `str.lower()` is not modelled.
- `session.config.getoption` raising inside `pytest_sessionfinish`: only a
  failing writer is modelled as the caught exception.
- The Robot and behave argument round trips assume no other argument
  equals one of the flags. This is how a `--flag value` parser would
  read them back; it is not a guarantee of the source.
- `src/hands/main.py` (the command-line front end) and `snark/main.py`
  are not part of this model.
- Concurrency: the module-level store has no lock and nothing runs
  concurrently in the modelled code.
