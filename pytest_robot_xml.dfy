/**
  The pytest plugin that collects Robot-style results: a module-level
  store of start times and results, filled by the per-test hooks and
  handed to the report writer when the session finishes.
 */
module PytestRobotXml {
  import opened Wrappers
  import opened Report

  /** The three outcomes a pytest test report carries. */
  datatype Outcome = Passed | Failed | Skipped

  /**
    The parts of a pytest `TestReport` the plugin reads. `when` is the
    phase ("setup", "call" or "teardown"); `longrepr` is `str(longrepr)`
    when the report has that attribute and `None` when it has not.
   */
  datatype TestReport = TestReport(nodeid: string, when: string, outcome: Outcome, longrepr: Option<string>)
  {
    predicate IsPassed() { outcome == Passed }
    predicate IsSkipped() { outcome == Skipped }
    predicate IsFailed() { outcome == Failed }
  }

  /** The command-line options the plugin registers; `None` when not given. */
  datatype Options = Options(robotOutput: Option<string>, robotSuiteName: Option<string>)

  /** `--robot-output`, defaulting to "output.xml". */
  function OutputPath(opts: Options): (path: string)
    ensures opts.robotOutput.None? ==> path == "output.xml"
    ensures opts.robotOutput.Some? ==> path == opts.robotOutput.value
  {
    opts.robotOutput.GetOr("output.xml")
  }

  /** `--robot-suite-name`, defaulting to "Pytest Suite". */
  function SuiteName(opts: Options): (name: string)
    ensures opts.robotSuiteName.None? ==> name == "Pytest Suite"
    ensures opts.robotSuiteName.Some? ==> name == opts.robotSuiteName.value
  {
    opts.robotSuiteName.GetOr("Pytest Suite")
  }

  /** PASS if passed, otherwise SKIP if skipped, otherwise FAIL. */
  function StatusOf(report: TestReport): (s: Status)
    ensures s == PASS <==> report.IsPassed()
    ensures s == SKIP <==> report.IsSkipped()
    ensures s == FAIL <==> report.IsFailed()
  {
    if report.IsPassed() then PASS else if report.IsSkipped() then SKIP else FAIL
  }

  /** The failure text: only for a failed report that has `longrepr`, cut to the bound. */
  function FailureMessage(report: TestReport): (m: Option<string>)
    ensures m.Some? <==> report.IsFailed() && report.longrepr.Some?
    ensures m.Some? ==> IsPrefix(m.value, report.longrepr.value)
    ensures m.Some? ==> |m.value| == if |report.longrepr.value| <= MaxMessageLength
                                     then |report.longrepr.value| else MaxMessageLength
  {
    if report.IsFailed() && report.longrepr.Some? then
      Some(Truncate(report.longrepr.value, MaxMessageLength))
    else
      None
  }

  /** The record a call-phase report produces, given the start map and the current time. */
  function ResultFor(report: TestReport, starts: map<string, Instant>, now: Instant): (r: TestResult)
    ensures WellFormed(r)
    ensures r.name == report.nodeid && r.tags.None?
    ensures r.start == (if report.nodeid in starts then starts[report.nodeid] else now)
    ensures r.end == now
    ensures r.status == StatusOf(report) && r.message == FailureMessage(report)
  {
    var start := if report.nodeid in starts then starts[report.nodeid] else now;
    TestResult(report.nodeid, StatusOf(report), start, now, FailureMessage(report), None)
  }

  /** Per-test timing and results for one session. */
  class Store {
    var starts: map<string, Instant>
    var results: seq<TestResult>

    ghost predicate Valid()
      reads this
    {
      AllWellFormed(results)
    }

    constructor ()
      ensures Valid()
      ensures starts == map[] && results == []
    {
      starts := map[];
      results := [];
    }
  }

  /** `pytest_runtest_protocol`: remember when a test item started (last write wins). */
  method RuntestProtocol(store: Store, nodeid: string, now: Instant)
    requires store.Valid()
    modifies store
    ensures store.Valid()
    ensures store.starts == old(store.starts)[nodeid := now]
    ensures store.results == old(store.results)
  {
    store.starts := store.starts[nodeid := now];
  }

  /**
    `pytest_runtest_logreport`: a setup or teardown report changes
    nothing; a call report appends exactly one record at the end of the
    log and leaves the start map as it was.
   */
  method RuntestLogreport(store: Store, report: TestReport, now: Instant)
    requires store.Valid()
    modifies store
    ensures store.Valid()
    ensures store.starts == old(store.starts)
    ensures report.when != "call" ==> store.results == old(store.results)
    ensures report.when == "call" ==>
      store.results == old(store.results) + [ResultFor(report, old(store.starts), now)]
  {
    if report.when != "call" {
      return;
    }
    var start := if report.nodeid in store.starts then store.starts[report.nodeid] else now;
    var end := now;
    var status := StatusOf(report);
    var message := FailureMessage(report);
    store.results := store.results + [TestResult(report.nodeid, status, start, end, message, None)];
  }

  /**
    `pytest_sessionfinish`: hand the whole log, in append order and even
    when empty, to the writer. A writer failure is only logged (`logged`).
   */
  method SessionFinish(store: Store, opts: Options, sink: RobotOutputSink) returns (logged: bool)
    modifies sink
    ensures sink.calls == old(sink.calls) + [WriteCall(SuiteName(opts), store.results, OutputPath(opts))]
    ensures logged == sink.failing
  {
    var path := OutputPath(opts);
    var suiteName := SuiteName(opts);
    var ok := sink.Write(suiteName, store.results, path);
    logged := !ok;
  }
}
