/**
  The behave formatter that collects Robot-style results. It stamps each
  scenario with its start time while the run goes on, and at `close()`
  walks every feature and scenario once, producing one record per
  scenario, then hands the records to the report writer.
 */
module BehaveRobotXml {
  import opened Wrappers
  import opened Report

  /** behave's native scenario status; `Other` covers every remaining value. */
  datatype BehaveStatus = Untested | Skipped | Passed | Failed | Other(native: string)

  /** The formatter's fixed status table. */
  const StatusMap: map<BehaveStatus, Status> :=
    map[Passed := PASS, Failed := FAIL, Skipped := SKIP, Untested := SKIP]

  /** Table lookup with FAIL for every status the table does not list. */
  function MapStatus(s: BehaveStatus): (r: Status)
    ensures r == PASS <==> s == Passed
    ensures r == SKIP <==> s == Skipped || s == Untested
    ensures r == FAIL <==> s == Failed || s.Other?
  {
    if s in StatusMap then StatusMap[s] else FAIL
  }

  /** What reading `scenario.error_message` gives: no such attribute, `None`, or text. */
  datatype ErrorMessage = NoAttribute | NoneValue | Text(text: string)

  /** The two exception kinds the walk in `close()` catches. */
  datatype Fault = AttributeError | TypeError

  /**
    A behave scenario as the formatter sees it. Everything but the start
    stamp belongs to behave; `exception` is `str(exception)` when the
    scenario holds one. `roboticStart` is the attribute the formatter
    adds to the scenario, `None` until it is stamped.
   */
  datatype BehaveScenario = BehaveScenario(
    name: string,
    status: BehaveStatus,
    exception: Option<string>,
    errorMessage: ErrorMessage,
    tags: seq<string>,
    roboticStart: Option<Instant>)

  /** A feature; `scenarios` is `None` when reading `feature.scenarios` raises AttributeError. */
  datatype Feature = Feature(name: string, scenarios: Option<seq<BehaveScenario>>)

  /** The feature collection found at `close()`, or one that cannot be iterated (TypeError). */
  datatype Features = Iterable(items: seq<Feature>) | NotIterable

  /**
    The three places `close()` looks for features, in order: the
    formatter, its stream, the configuration. `None` where the attribute
    is missing.
   */
  datatype FeatureSources = FeatureSources(own: Option<Features>, stream: Option<Features>, config: Option<Features>)

  /** The first place that has features; an empty list when none has. */
  function ResolveFeatures(src: FeatureSources): (fs: Features)
    ensures src.own.Some? ==> fs == src.own.value
    ensures src.own.None? && src.stream.Some? ==> fs == src.stream.value
    ensures src.own.None? && src.stream.None? ==> fs == src.config.GetOr(Iterable([]))
  {
    if src.own.Some? then src.own.value
    else if src.stream.Some? then src.stream.value
    else src.config.GetOr(Iterable([]))
  }

  /**
    The failure text: only for a FAILED scenario, from the exception when
    there is one, otherwise from `error_message`, cut to the bound.
    Slicing an `error_message` that is `None` raises TypeError.
   */
  function FailureMessage(status: BehaveStatus, exception: Option<string>, errorMessage: ErrorMessage)
    : (r: Result<Option<string>, Fault>)
    ensures r.Failure? <==> status == Failed && exception.None? && errorMessage == NoneValue
    ensures r.Failure? ==> r.error == TypeError
    ensures status != Failed ==> r == Success(None)
    ensures r.Success? && r.value.Some? ==> status == Failed && |r.value.value| <= MaxMessageLength
    ensures status == Failed && exception.Some? ==>
      r == Success(Some(Truncate(exception.value, MaxMessageLength)))
    ensures status == Failed && exception.None? && errorMessage.Text? ==>
      r == Success(Some(Truncate(errorMessage.text, MaxMessageLength)))
    ensures status == Failed && exception.None? && errorMessage == NoAttribute ==> r == Success(None)
  {
    if status != Failed then Success(None)
    else if exception.Some? then Success(Some(Truncate(exception.value, MaxMessageLength)))
    else match errorMessage
      case NoAttribute => Success(None)
      case NoneValue => Failure(TypeError)
      case Text(t) => Success(Some(Truncate(t, MaxMessageLength)))
  }

  /** `list(tags) if tags else None`. */
  function TagsOf(tags: seq<string>): (r: Option<seq<string>>)
    ensures r.None? <==> tags == []
    ensures r.Some? ==> r.value == tags
  {
    if tags == [] then None else Some(tags)
  }

  const Separator: string := " :: "

  /** The record name `"<feature> :: <scenario>"`. */
  function ResultName(featureName: string, scenarioName: string): string {
    featureName + Separator + scenarioName
  }

  /** A separator starts at position `i` of `s`. */
  predicate SeparatorAt(s: string, i: nat) {
    i + |Separator| <= |s| && s[i..i + |Separator|] == Separator
  }

  /** The position of the first separator in `s` at or after `from`. */
  function FindSeparator(s: string, from: nat): (r: Option<nat>)
    requires from <= |s|
    ensures r.Some? ==> from <= r.value && r.value + |Separator| <= |s|
    ensures r.Some? ==> s[r.value..r.value + |Separator|] == Separator
    decreases |s| - from
  {
    if from + |Separator| > |s| then None
    else if SeparatorAt(s, from) then Some(from)
    else FindSeparator(s, from + 1)
  }

  /** Splits a record name at its first separator. */
  function SplitName(n: string): Option<(string, string)> {
    match FindSeparator(n, 0)
    case None => None
    case Some(i) => Some((n[..i], n[i + |Separator|..]))
  }

  /** No separator starts anywhere before `k`. */
  lemma {:induction false} NoSeparatorBefore(s: string, from: nat, k: nat)
    requires from <= k && SeparatorAt(s, k)
    requires forall i :: from <= i < k ==> !SeparatorAt(s, i)
    ensures FindSeparator(s, from) == Some(k)
    decreases k - from
  {
    if from < k {
      NoSeparatorBefore(s, from + 1, k);
    }
  }

  /**
    The record name splits back into the feature and scenario names
    whenever no separator starts inside the feature name part of it.
   */
  lemma ResultNameSplits(featureName: string, scenarioName: string)
    requires forall i :: 0 <= i < |featureName| ==> !SeparatorAt(ResultName(featureName, scenarioName), i)
    ensures SplitName(ResultName(featureName, scenarioName)) == Some((featureName, scenarioName))
  {
    var n := ResultName(featureName, scenarioName);
    var k := |featureName|;
    assert SeparatorAt(n, k);
    NoSeparatorBefore(n, 0, k);
    assert n[..k] == featureName;
    assert n[k + |Separator|..] == scenarioName;
  }

  /** In particular, a feature name without a colon always splits back out of the record name. */
  lemma ColonFreeNamesSplit(featureName: string, scenarioName: string)
    requires forall i :: 0 <= i < |featureName| ==> featureName[i] != ':'
    ensures SplitName(ResultName(featureName, scenarioName)) == Some((featureName, scenarioName))
  {
    var n := ResultName(featureName, scenarioName);
    var k := |featureName|;
    forall i | 0 <= i < k
      ensures !SeparatorAt(n, i)
    {
      if i + 1 < k {
        assert n[i..i + |Separator|][1] == featureName[i + 1];
      } else {
        assert n[i..i + |Separator|][0] == featureName[i];
        assert n[i..i + |Separator|][1] == ' ';
      }
    }
    ResultNameSplits(featureName, scenarioName);
  }

  /**
    `_process_scenario`'s record for one scenario, or the fault it raises.
    A scenario never stamped starts at `now`.
   */
  function ScenarioResult(featureName: string, sc: BehaveScenario, now: Instant): (r: Result<TestResult, Fault>)
    ensures r.Failure? <==> FailureMessage(sc.status, sc.exception, sc.errorMessage).Failure?
    ensures r.Success? ==> WellFormed(r.value)
    ensures r.Success? ==> r.value.name == ResultName(featureName, sc.name)
    ensures r.Success? ==> r.value.status == MapStatus(sc.status)
    ensures r.Success? ==> r.value.start == sc.roboticStart.GetOr(now) && r.value.end == now
    ensures r.Success? ==> r.value.message == FailureMessage(sc.status, sc.exception, sc.errorMessage).value
    ensures r.Success? ==> r.value.tags == TagsOf(sc.tags)
  {
    match FailureMessage(sc.status, sc.exception, sc.errorMessage)
    case Failure(f) => Failure(f)
    case Success(message) =>
      Success(TestResult(ResultName(featureName, sc.name), MapStatus(sc.status),
                         sc.roboticStart.GetOr(now), now, message, TagsOf(sc.tags)))
  }

  /** The records of a walk and the fault that stopped it, if any. */
  datatype Walk = Walk(records: seq<TestResult>, fault: Option<Fault>)

  /**
    The inner loop of `close()` over one feature's scenarios: one record
    per scenario in order, stopping at the first scenario that raises.
   */
  function WalkScenarios(featureName: string, scs: seq<BehaveScenario>, now: Instant): (w: Walk)
    ensures |w.records| <= |scs|
    ensures w.fault.None? ==> |w.records| == |scs|
    ensures w.fault.Some? ==> |w.records| < |scs| && ScenarioResult(featureName, scs[|w.records|], now).Failure?
    ensures forall k :: 0 <= k < |w.records| ==> ScenarioResult(featureName, scs[k], now) == Success(w.records[k])
    decreases |scs|
  {
    if scs == [] then Walk([], None)
    else
      var n := |scs| - 1;
      var w := WalkScenarios(featureName, scs[..n], now);
      if w.fault.Some? then w
      else match ScenarioResult(featureName, scs[n], now)
        case Failure(f) => Walk(w.records, Some(f))
        case Success(r) => Walk(w.records + [r], None)
  }

  /**
    The outer loop of `close()`: the features in order, each walked by
    `WalkScenarios`; a feature whose scenarios cannot be read raises
    AttributeError. The first fault ends the walk.
   */
  function WalkFeatures(fs: seq<Feature>, now: Instant): (w: Walk)
    ensures AllWellFormed(w.records)
    decreases |fs|
  {
    if fs == [] then Walk([], None)
    else
      var n := |fs| - 1;
      var w := WalkFeatures(fs[..n], now);
      if w.fault.Some? then w
      else if fs[n].scenarios.None? then Walk(w.records, Some(AttributeError))
      else
        var v := WalkScenarios(fs[n].name, fs[n].scenarios.value, now);
        Walk(w.records + v.records, v.fault)
  }

  /** The whole walk, including a feature collection that is not iterable. */
  function WalkAll(features: Features, now: Instant): (w: Walk)
  {
    match features
    case NotIterable => Walk([], Some(TypeError))
    case Iterable(fs) => WalkFeatures(fs, now)
  }

  /** Every (feature name, scenario) pair, feature-major and scenario-minor. */
  function FlatPairs(fs: seq<Feature>): seq<(string, BehaveScenario)> {
    if fs == [] then []
    else
      var f := fs[|fs| - 1];
      FlatPairs(fs[..|fs| - 1])
        + (if f.scenarios.Some? then seq(|f.scenarios.value|, i requires 0 <= i < |f.scenarios.value| => (f.name, f.scenarios.value[i])) else [])
  }

  /** The total number of scenarios over all features whose scenarios can be read. */
  function TotalScenarios(fs: seq<Feature>): nat {
    if fs == [] then 0
    else TotalScenarios(fs[..|fs| - 1])
         + (if fs[|fs| - 1].scenarios.Some? then |fs[|fs| - 1].scenarios.value| else 0)
  }

  /** Every feature's scenarios can be read. */
  predicate AllReadable(fs: seq<Feature>) {
    forall i :: 0 <= i < |fs| ==> fs[i].scenarios.Some?
  }

  /**
    The walk produces, in order, the records of a prefix of the flattened
    (feature, scenario) pairs, and all of them when nothing raises; it
    only completes when every feature's scenarios can be read, and then
    yields exactly one record per scenario.
   */
  lemma {:induction false} WalkFeaturesOrder(fs: seq<Feature>, now: Instant)
    ensures |FlatPairs(fs)| == TotalScenarios(fs)
    ensures |WalkFeatures(fs, now).records| <= |FlatPairs(fs)|
    ensures forall k :: 0 <= k < |WalkFeatures(fs, now).records| ==>
      ScenarioResult(FlatPairs(fs)[k].0, FlatPairs(fs)[k].1, now) == Success(WalkFeatures(fs, now).records[k])
    ensures WalkFeatures(fs, now).fault.None? ==>
      AllReadable(fs) && |WalkFeatures(fs, now).records| == TotalScenarios(fs)
    decreases |fs|
  {
    if fs != [] {
      var n := |fs| - 1;
      var pre := fs[..n];
      WalkFeaturesOrder(pre, now);
      var w := WalkFeatures(pre, now);
      var f := fs[n];
      if w.fault.None? && f.scenarios.Some? {
        var scs := f.scenarios.value;
        var v := WalkScenarios(f.name, scs, now);
        var tail := seq(|scs|, i requires 0 <= i < |scs| => (f.name, scs[i]));
        assert FlatPairs(fs) == FlatPairs(pre) + tail;
        var all := WalkFeatures(fs, now).records;
        assert all == w.records + v.records;
        forall k | 0 <= k < |all|
          ensures ScenarioResult(FlatPairs(fs)[k].0, FlatPairs(fs)[k].1, now) == Success(all[k])
        {
          if k >= |w.records| {
            assert FlatPairs(fs)[k] == tail[k - |w.records|];
          } else {
            assert FlatPairs(fs)[k] == FlatPairs(pre)[k];
          }
        }
        if v.fault.None? {
          forall i | 0 <= i < |fs| ensures fs[i].scenarios.Some? {
            if i < n { assert fs[i] == pre[i]; }
          }
        }
      } else {
        var q: seq<(string, BehaveScenario)> :=
          if f.scenarios.Some? then seq(|f.scenarios.value|, i requires 0 <= i < |f.scenarios.value| => (f.name, f.scenarios.value[i])) else [];
        assert FlatPairs(fs) == FlatPairs(pre) + q;
        var all := WalkFeatures(fs, now).records;
        assert all == w.records;
        forall k | 0 <= k < |all|
          ensures ScenarioResult(FlatPairs(fs)[k].0, FlatPairs(fs)[k].1, now) == Success(all[k])
        {
          assert FlatPairs(fs)[k] == FlatPairs(pre)[k];
        }
      }
    }
  }

  /** One step of the outer walk: what feature `i` adds to the records of the features before it. */
  lemma WalkFeaturesStep(fs: seq<Feature>, i: nat, now: Instant)
    requires i < |fs|
    requires WalkFeatures(fs[..i], now).fault.None?
    ensures fs[i].scenarios.None? ==>
      WalkFeatures(fs[..i + 1], now) == Walk(WalkFeatures(fs[..i], now).records, Some(AttributeError))
    ensures fs[i].scenarios.Some? ==>
      WalkFeatures(fs[..i + 1], now).records
        == WalkFeatures(fs[..i], now).records + WalkScenarios(fs[i].name, fs[i].scenarios.value, now).records
    ensures fs[i].scenarios.Some? ==>
      WalkFeatures(fs[..i + 1], now).fault == WalkScenarios(fs[i].name, fs[i].scenarios.value, now).fault
  {
    assert fs[..i + 1][..i] == fs[..i];
  }

  /** Once a prefix of the scenarios has raised, the remaining ones add nothing. */
  lemma {:induction false} ScenarioFaultPersists(featureName: string, scs: seq<BehaveScenario>, i: nat, now: Instant)
    requires i <= |scs|
    requires WalkScenarios(featureName, scs[..i], now).fault.Some?
    ensures WalkScenarios(featureName, scs, now) == WalkScenarios(featureName, scs[..i], now)
    decreases |scs| - i
  {
    if i < |scs| {
      assert scs[..i + 1][..i] == scs[..i];
      ScenarioFaultPersists(featureName, scs, i + 1, now);
    } else {
      assert scs[..i] == scs;
    }
  }

  /** Once a prefix of the features has raised, the remaining ones add nothing. */
  lemma {:induction false} FeatureFaultPersists(fs: seq<Feature>, i: nat, now: Instant)
    requires i <= |fs|
    requires WalkFeatures(fs[..i], now).fault.Some?
    ensures WalkFeatures(fs, now) == WalkFeatures(fs[..i], now)
    decreases |fs| - i
  {
    if i < |fs| {
      assert fs[..i + 1][..i] == fs[..i];
      FeatureFaultPersists(fs, i + 1, now);
    } else {
      assert fs[..i] == fs;
    }
  }

  /** The configuration the formatter reads; `None` where an attribute is missing. */
  datatype OutFile = FileObject(name: string) | PathValue(text: string)
  datatype Config = Config(robotSuiteName: Option<string>, outputFile: Option<string>, outfile: Option<OutFile>)

  /** `robot_suite_name`, defaulting to "Behave Suite". */
  function SuiteNameOf(config: Config): (name: string)
    ensures config.robotSuiteName.None? ==> name == "Behave Suite"
    ensures config.robotSuiteName.Some? ==> name == config.robotSuiteName.value
  {
    config.robotSuiteName.GetOr("Behave Suite")
  }

  /**
    The output path: `output_file`, defaulting to "output.xml", overridden
    by a truthy `outfile` (its `name` when it is a file object, the value
    itself otherwise).
   */
  function OutPathOf(config: Config): (path: string)
    ensures config.outfile.None? && config.outputFile.None? ==> path == "output.xml"
    ensures config.outfile.None? && config.outputFile.Some? ==> path == config.outputFile.value
    ensures config.outfile.Some? && config.outfile.value.FileObject? ==> path == config.outfile.value.name
    ensures config.outfile.Some? && config.outfile.value.PathValue? && config.outfile.value.text != "" ==>
      path == config.outfile.value.text
    ensures config.outfile == Some(PathValue("")) ==> path == config.outputFile.GetOr("output.xml")
  {
    var path := config.outputFile.GetOr("output.xml");
    match config.outfile
    case None => path
    case Some(FileObject(n)) => n
    case Some(PathValue(t)) => if t != "" then t else path
  }

  /** The formatter: the records collected so far and where they go. */
  class RobotXmlFormatter {
    var results: seq<TestResult>
    const suiteName: string
    const outPath: string

    ghost predicate Valid()
      reads this
    {
      AllWellFormed(results)
    }

    constructor (config: Config)
      ensures Valid()
      ensures results == []
      ensures suiteName == SuiteNameOf(config) && outPath == OutPathOf(config)
    {
      results := [];
      suiteName := SuiteNameOf(config);
      outPath := OutPathOf(config);
    }

    /**
      `scenario()`: stamp the scenario with its start time. The stamped
      scenario is handed back to behave, which keeps it until `close()`.
     */
    method Scenario(sc: BehaveScenario, now: Instant) returns (stamped: BehaveScenario)
      ensures stamped.roboticStart == Some(now)
      ensures stamped.(roboticStart := sc.roboticStart) == sc
    {
      stamped := sc.(roboticStart := Some(now));
    }

    /** `_process_scenario`: append the scenario's record, or report the fault it raises. */
    method ProcessScenario(featureName: string, sc: BehaveScenario, now: Instant) returns (fault: Option<Fault>)
      requires Valid()
      modifies this
      ensures Valid()
      ensures ScenarioResult(featureName, sc, now).Success? ==>
        fault.None? && results == old(results) + [ScenarioResult(featureName, sc, now).value]
      ensures ScenarioResult(featureName, sc, now).Failure? ==>
        fault == Some(ScenarioResult(featureName, sc, now).error) && results == old(results)
    {
      var start := sc.roboticStart.GetOr(now);
      var end := now;
      var status := MapStatus(sc.status);
      var message := FailureMessage(sc.status, sc.exception, sc.errorMessage);
      if message.Failure? {
        return Some(message.error);
      }
      var tags := TagsOf(sc.tags);
      results := results + [TestResult(ResultName(featureName, sc.name), status, start, end, message.value, tags)];
      fault := None;
    }

    /** The inner loop of `close()`: one feature's scenarios in order, stopping at the first fault. */
    method CollectScenarios(featureName: string, scs: seq<BehaveScenario>, now: Instant) returns (fault: Option<Fault>)
      requires Valid()
      modifies this
      ensures Valid()
      ensures fault == WalkScenarios(featureName, scs, now).fault
      ensures results == old(results) + WalkScenarios(featureName, scs, now).records
    {
      fault := None;
      var j := 0;
      while j < |scs| && fault.None?
        invariant 0 <= j <= |scs|
        invariant Valid()
        invariant fault == WalkScenarios(featureName, scs[..j], now).fault
        invariant results == old(results) + WalkScenarios(featureName, scs[..j], now).records
      {
        assert scs[..j + 1][..j] == scs[..j];
        fault := ProcessScenario(featureName, scs[j], now);
        j := j + 1;
      }
      if fault.Some? {
        ScenarioFaultPersists(featureName, scs, j, now);
      } else {
        assert scs[..j] == scs;
      }
    }

    /** The outer loop of `close()`: the features in order, stopping at the first fault. */
    method CollectFeatures(fs: seq<Feature>, now: Instant) returns (fault: Option<Fault>)
      requires Valid()
      modifies this
      ensures Valid()
      ensures fault == WalkFeatures(fs, now).fault
      ensures results == old(results) + WalkFeatures(fs, now).records
    {
      fault := None;
      var i := 0;
      while i < |fs| && fault.None?
        invariant 0 <= i <= |fs|
        invariant Valid()
        invariant fault == WalkFeatures(fs[..i], now).fault
        invariant results == old(results) + WalkFeatures(fs[..i], now).records
      {
        WalkFeaturesStep(fs, i, now);
        var f := fs[i];
        match f.scenarios {
          case None =>
            fault := Some(AttributeError);
          case Some(scs) =>
            fault := CollectScenarios(f.name, scs, now);
        }
        i := i + 1;
      }
      if fault.Some? {
        FeatureFaultPersists(fs, i, now);
      } else {
        assert fs[..i] == fs;
      }
    }

    /**
      `close()`: find the features and walk them once, feature by feature
      and scenario by scenario, keeping whatever was appended before an
      AttributeError or TypeError; then call the writer exactly when there
      is at least one record.
     */
    method Close(sources: FeatureSources, sink: RobotOutputSink, now: Instant)
      requires Valid()
      modifies this, sink
      ensures Valid()
      ensures results == old(results) + WalkAll(ResolveFeatures(sources), now).records
      ensures sink.calls == old(sink.calls) + (if results == [] then [] else [WriteCall(suiteName, results, outPath)])
    {
      var features := ResolveFeatures(sources);
      match features {
        case NotIterable =>
        case Iterable(fs) =>
          var fault := CollectFeatures(fs, now);
      }
      if results != [] {
        var ok := sink.Write(suiteName, results, outPath);
      }
    }
  }
}
