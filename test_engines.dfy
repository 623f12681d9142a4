/**
  The engine registry and the three engines' `run_tests`: each builds a
  fixed-order argument list for its host runner and returns the host's
  exit code, or 1 when the host is missing or raises an `Exception`.
 */
module TestEngines {
  import opened Wrappers
  import EngineDetector

  datatype EngineKind = PytestEngine | RobotEngine | BehaveEngine

  /**
    What calling the host runner did: it could not be imported, it raised
    an `Exception`, it raised something outside `Exception` (such as
    `SystemExit` from an argument parser), or it returned a code.
   */
  datatype HostRun = ImportFailed | Raised | Escaped | Returned(code: int)

  /**
    The exit code `run_tests` returns for a host run; `None` when the
    host's exception is not an `Exception` and so escapes `run_tests`.
   */
  function ExitCode(host: HostRun): (code: Option<int>)
    ensures host.Returned? ==> code == Some(host.code)
    ensures host == ImportFailed || host == Raised ==> code == Some(1)
    ensures code.None? <==> host == Escaped
  {
    match host
    case Returned(c) => Some(c)
    case Escaped => None
    case _ => Some(1)
  }

  /** The registry: engine names and kinds, in insertion order. */
  class TestEngineFactory {
    const engines: seq<(string, EngineKind)> :=
      [("pytest", PytestEngine), ("robot", RobotEngine), ("behave", BehaveEngine)]

    /** The registry is fixed when the factory is made. */
    constructor ()
    {
    }

    /** `list(self._engines.keys())`. */
    function GetAvailableEngines(): (names: seq<string>)
      ensures names == ["pytest", "robot", "behave"]
      ensures |names| == |engines| && forall i :: 0 <= i < |engines| ==> names[i] == engines[i].0
    {
      seq(|engines|, i requires 0 <= i < |engines| => engines[i].0)
    }

    /** The kind registered under a name at or after position `from`: the first such entry. */
    function Lookup(name: string, from: nat): (r: Option<EngineKind>)
      requires from <= |engines|
      ensures r.Some? <==> exists i :: from <= i < |engines| && engines[i].0 == name
      decreases |engines| - from
    {
      if from == |engines| then None
      else if engines[from].0 == name then Some(engines[from].1)
      else Lookup(name, from + 1)
    }

    /**
      `create_engine`: the registered kind for a known name; any other
      name is an error naming it and listing the available engines.
     */
    function CreateEngine(name: string): (r: Result<EngineKind, string>)
      ensures r.Success? <==> name in GetAvailableEngines()
      ensures r.Failure? ==> r.error == "Unknown engine '" + name + "'. Available: " + Join(GetAvailableEngines(), ", ")
    {
      assert GetAvailableEngines() == ["pytest", "robot", "behave"];
      match Lookup(name, 0)
      case Some(kind) => Success(kind)
      case None => Failure("Unknown engine '" + name + "'. Available: " + Join(GetAvailableEngines(), ", "))
    }

    /** Each name creates its own engine, and no other name creates anything. */
    lemma CreateEngineMatchesName(name: string)
      ensures CreateEngine(name) == Success(PytestEngine) <==> name == "pytest"
      ensures CreateEngine(name) == Success(RobotEngine) <==> name == "robot"
      ensures CreateEngine(name) == Success(BehaveEngine) <==> name == "behave"
    {
      assert Lookup(name, 2) == if name == "behave" then Some(BehaveEngine) else None;
      assert Lookup(name, 1) == if name == "robot" then Some(RobotEngine) else Lookup(name, 2);
    }

    /** The error names the unknown engine and lists the registry in order. */
    lemma UnknownEngineMessage(name: string)
      requires name !in ["pytest", "robot", "behave"]
      ensures CreateEngine(name) == Failure("Unknown engine '" + name + "'. Available: pytest, robot, behave")
    {
      var names := GetAvailableEngines();
      assert Join(names[2..], ", ") == "behave";
      assert Join(names[1..], ", ") == "robot, behave" by {
        assert names[1..][1..] == names[2..];
      }
      assert Join(names, ", ") == "pytest, robot, behave";
      assert Lookup(name, 0) == None;
      assert "'. Available: " + "pytest, robot, behave" == "'. Available: pytest, robot, behave";
      calc {
        CreateEngine(name).error;
        "Unknown engine '" + name + "'. Available: " + "pytest, robot, behave";
        "Unknown engine '" + name + ("'. Available: " + "pytest, robot, behave");
      }
    }

    /** Every name the detector can return creates an engine. */
    lemma DetectedEnginesAreCreatable(name: string)
      requires EngineDetector.IsEngineName(name)
      ensures CreateEngine(name).Success?
    {
    }
  }

  /** `', '.join(parts)`. */
  function Join(parts: seq<string>, sep: string): string {
    if parts == [] then ""
    else if |parts| == 1 then parts[0]
    else parts[0] + sep + Join(parts[1..], sep)
  }

  const RobotOutputFlag: string := "--robot-output"
  const RobotSuiteNameFlag: string := "--robot-suite-name"
  const FormatterSpec: string := "hands.behave_robot_xml:RobotXmlFormatter"

  /** The pytest argument list: the test path, the two plugin options, then the extra arguments. */
  function PytestArgs(path: string, out: string, suite: string, extra: seq<string>): seq<string> {
    [path, RobotOutputFlag + "=" + out, RobotSuiteNameFlag + "=" + suite] + extra
  }

  /** The Robot argument list: output and name options, the extra arguments, then the test path. */
  function RobotArgs(path: string, out: string, suite: string, extra: seq<string>): seq<string> {
    ["--output", out, "--name", suite] + extra + [path]
  }

  /** The behave argument list: the test path, the formatter and its output file, then the extra arguments. */
  function BehaveArgs(path: string, out: string, extra: seq<string>): seq<string> {
    [path, "--format", FormatterSpec, "--outfile", out] + extra
  }

  predicate StartsWith(s: string, prefix: string) {
    |prefix| <= |s| && s[..|prefix|] == prefix
  }

  /** Argument `k` sets the option to `value`, as `--flag=value` or as `--flag value`. */
  predicate SetsAt(args: seq<string>, flag: string, k: nat, value: string) {
    k < |args| &&
    ((StartsWith(args[k], flag + "=") && value == args[k][|flag + "="|..])
     || (args[k] == flag && k + 1 < |args| && value == args[k + 1]))
  }

  /**
    The value a store-action option parser reads for `flag`, in either
    of its forms `--flag=value` and `--flag value`: the last occurrence
    wins.
   */
  function OptionValue(args: seq<string>, flag: string): (r: Option<string>)
    ensures r.Some? ==> exists k :: SetsAt(args, flag, k, r.value)
  {
    if args == [] then None
    else if StartsWith(args[|args| - 1], flag + "=") then
      var v := args[|args| - 1][|flag + "="|..];
      assert SetsAt(args, flag, |args| - 1, v);
      Some(v)
    else if |args| >= 2 && args[|args| - 2] == flag then
      assert SetsAt(args, flag, |args| - 2, args[|args| - 1]);
      Some(args[|args| - 1])
    else
      var r := OptionValue(args[..|args| - 1], flag);
      assert r.Some? ==> exists k :: SetsAt(args, flag, k, r.value) by {
        if r.Some? {
          var k :| SetsAt(args[..|args| - 1], flag, k, r.value);
          assert SetsAt(args, flag, k, r.value);
        }
      }
      r
  }

  /** The value following the last occurrence of a `--flag value` pair. */
  function FlagValue(args: seq<string>, flag: string): Option<string> {
    if |args| < 2 then None
    else if args[|args| - 2] == flag then Some(args[|args| - 1])
    else FlagValue(args[..|args| - 1], flag)
  }

  /** No argument of the list sets the option, in either form. */
  predicate NeverSets(args: seq<string>, flag: string) {
    forall k :: 0 <= k < |args| ==> args[k] != flag && !StartsWith(args[k], flag + "=")
  }

  /** Trailing arguments that never set the option leave its value unchanged. */
  lemma {:induction false} OptionValueSkips(head: seq<string>, tail: seq<string>, flag: string)
    requires head != [] && head[|head| - 1] != flag
    requires NeverSets(tail, flag)
    ensures OptionValue(head + tail, flag) == OptionValue(head, flag)
    decreases |tail|
  {
    if tail != [] {
      var t := tail[..|tail| - 1];
      var all := head + tail;
      assert all[..|all| - 1] == head + t;
      assert all[|all| - 1] == tail[|tail| - 1];
      if |tail| >= 2 {
        assert all[|all| - 2] == tail[|tail| - 2];
      } else {
        assert all[|all| - 2] == head[|head| - 1];
      }
      OptionValueSkips(head, t, flag);
    } else {
      assert head + tail == head;
    }
  }

  /** A value set in the trailing arguments overrides any value before them. */
  lemma {:induction false} OptionValueLastWins(head: seq<string>, tail: seq<string>, flag: string)
    requires OptionValue(tail, flag).Some?
    ensures OptionValue(head + tail, flag) == OptionValue(tail, flag)
    decreases |tail|
  {
    var t := tail[..|tail| - 1];
    var all := head + tail;
    assert all[..|all| - 1] == head + t;
    assert all[|all| - 1] == tail[|tail| - 1];
    if !StartsWith(tail[|tail| - 1], flag + "=") && |tail| >= 2 {
      assert all[|all| - 2] == tail[|tail| - 2];
      if tail[|tail| - 2] != flag {
        OptionValueLastWins(head, t, flag);
      }
    }
  }

  /** A pytest run reads back the output path it was given when the extra arguments do not set it. */
  lemma PytestArgsOutput(path: string, out: string, suite: string, extra: seq<string>)
    requires NeverSets(extra, RobotOutputFlag)
    ensures OptionValue(PytestArgs(path, out, suite, extra), RobotOutputFlag) == Some(out)
  {
    var o := RobotOutputFlag + "=" + out;
    var n := RobotSuiteNameFlag + "=" + suite;
    var head := [path, o, n];
    assert PytestArgs(path, out, suite, extra) == head + extra;
    assert |n| > |RobotOutputFlag| && |o| > |RobotOutputFlag|;
    OptionValueSkips(head, extra, RobotOutputFlag);
    assert n[8] != (RobotOutputFlag + "=")[8];
    assert o[..|RobotOutputFlag + "="|] == RobotOutputFlag + "=";
    assert o[|RobotOutputFlag + "="|..] == out;
    assert head[..2] == [path, o];
  }

  /** A pytest run reads back the suite name it was given when the extra arguments do not set it. */
  lemma PytestArgsSuiteName(path: string, out: string, suite: string, extra: seq<string>)
    requires NeverSets(extra, RobotSuiteNameFlag)
    ensures OptionValue(PytestArgs(path, out, suite, extra), RobotSuiteNameFlag) == Some(suite)
  {
    var o := RobotOutputFlag + "=" + out;
    var n := RobotSuiteNameFlag + "=" + suite;
    var head := [path, o, n];
    assert PytestArgs(path, out, suite, extra) == head + extra;
    assert |n| > |RobotSuiteNameFlag|;
    OptionValueSkips(head, extra, RobotSuiteNameFlag);
    assert n[..|RobotSuiteNameFlag + "="|] == RobotSuiteNameFlag + "=";
    assert n[|RobotSuiteNameFlag + "="|..] == suite;
  }

  /** An option set in the extra arguments, in either form, overrides the value the engine puts before them. */
  lemma PytestArgsExtraWins(path: string, out: string, suite: string, extra: seq<string>, flag: string)
    requires OptionValue(extra, flag).Some?
    ensures OptionValue(PytestArgs(path, out, suite, extra), flag) == OptionValue(extra, flag)
  {
    var head := [path, RobotOutputFlag + "=" + out, RobotSuiteNameFlag + "=" + suite];
    assert PytestArgs(path, out, suite, extra) == head + extra;
    OptionValueLastWins(head, extra, flag);
  }

  /** Trailing arguments with no occurrence of the flag leave its value unchanged. */
  lemma {:induction false} FlagValueSkips(head: seq<string>, tail: seq<string>, flag: string)
    requires |head| >= 2 && head[|head| - 1] != flag
    requires flag !in tail
    ensures FlagValue(head + tail, flag) == FlagValue(head, flag)
    decreases |tail|
  {
    if tail != [] {
      var t := tail[..|tail| - 1];
      assert (head + tail)[..|head + tail| - 1] == head + t;
      var all := head + tail;
      if |tail| >= 2 {
        assert all[|all| - 2] == tail[|tail| - 2];
      } else {
        assert all[|all| - 2] == head[|head| - 1];
      }
      FlagValueSkips(head, t, flag);
    } else {
      assert head + tail == head;
    }
  }

  /**
    A Robot run reads back the output path and suite name it was given
    when no other argument is one of those flags, and the test path is
    always the last argument.
   */
  lemma RobotArgsRoundTrip(path: string, out: string, suite: string, extra: seq<string>)
    requires "--output" !in extra && "--name" !in extra
    requires path !in ["--output", "--name"] && suite !in ["--output", "--name"] && out != "--output"
    ensures FlagValue(RobotArgs(path, out, suite, extra), "--output") == Some(out)
    ensures FlagValue(RobotArgs(path, out, suite, extra), "--name") == Some(suite)
    ensures RobotArgs(path, out, suite, extra)[|RobotArgs(path, out, suite, extra)| - 1] == path
  {
    var head := ["--output", out, "--name", suite];
    assert RobotArgs(path, out, suite, extra) == head + (extra + [path]);
    assert head[..3] == ["--output", out, "--name"];
    assert head[..3][..2] == ["--output", out];
    assert FlagValue(head[..3], "--output") == Some(out);
    assert FlagValue(head, "--output") == Some(out);
    assert FlagValue(head, "--name") == Some(suite);
    FlagValueSkips(head, extra + [path], "--output");
    FlagValueSkips(head, extra + [path], "--name");
  }

  /**
    A behave run reads back the formatter and output path it was given
    when no other argument is one of those flags; the suite name is not
    part of the list at all.
   */
  lemma BehaveArgsRoundTrip(path: string, out: string, extra: seq<string>)
    requires "--format" !in extra && "--outfile" !in extra
    requires path !in ["--format", "--outfile"] && out !in ["--format", "--outfile"]
    ensures FlagValue(BehaveArgs(path, out, extra), "--outfile") == Some(out)
    ensures FlagValue(BehaveArgs(path, out, extra), "--format") == Some(FormatterSpec)
  {
    var head := [path, "--format", FormatterSpec, "--outfile", out];
    assert BehaveArgs(path, out, extra) == head + extra;
    assert head[..4] == [path, "--format", FormatterSpec, "--outfile"];
    assert head[..4][..3] == [path, "--format", FormatterSpec];
    assert FlagValue(head[..4][..3], "--format") == Some(FormatterSpec);
    assert FlagValue(head[..4], "--format") == Some(FormatterSpec);
    assert FlagValue(head, "--format") == Some(FormatterSpec);
    assert FlagValue(head, "--outfile") == Some(out);
    FlagValueSkips(head, extra, "--outfile");
    FlagValueSkips(head, extra, "--format");
  }

  /** `PytestEngine.run_tests`: build the argument list step by step and run the host. */
  method PytestRunTests(path: string, out: string, suite: string, extra: seq<string>, host: HostRun)
    returns (args: seq<string>, code: Option<int>)
    ensures args == PytestArgs(path, out, suite, extra)
    ensures code == ExitCode(host)
  {
    args := [path, RobotOutputFlag + "=" + out, RobotSuiteNameFlag + "=" + suite];
    args := args + extra;
    code := ExitCode(host);
  }

  /** `RobotEngine.run_tests`: build the argument list step by step and run the host. */
  method RobotRunTests(path: string, out: string, suite: string, extra: seq<string>, host: HostRun)
    returns (args: seq<string>, code: Option<int>)
    ensures args == RobotArgs(path, out, suite, extra)
    ensures code == ExitCode(host)
  {
    args := ["--output", out, "--name", suite];
    args := args + extra;
    args := args + [path];
    code := ExitCode(host);
  }

  /** `BehaveEngine.run_tests`: build the argument list step by step and run the host; the suite name is unused. */
  method BehaveRunTests(path: string, out: string, suite: string, extra: seq<string>, host: HostRun)
    returns (args: seq<string>, code: Option<int>)
    ensures args == BehaveArgs(path, out, extra)
    ensures code == ExitCode(host)
  {
    args := [path, "--format", FormatterSpec, "--outfile", out];
    args := args + extra;
    code := ExitCode(host);
  }

  /** `engine.run_tests(...)` for whichever engine the factory created. */
  method RunTests(kind: EngineKind, path: string, out: string, suite: string, extra: seq<string>, host: HostRun)
    returns (args: seq<string>, code: Option<int>)
    ensures kind == PytestEngine ==> args == PytestArgs(path, out, suite, extra)
    ensures kind == RobotEngine ==> args == RobotArgs(path, out, suite, extra)
    ensures kind == BehaveEngine ==> args == BehaveArgs(path, out, extra)
    ensures code == ExitCode(host)
  {
    match kind {
      case PytestEngine => args, code := PytestRunTests(path, out, suite, extra, host);
      case RobotEngine => args, code := RobotRunTests(path, out, suite, extra, host);
      case BehaveEngine => args, code := BehaveRunTests(path, out, suite, extra, host);
    }
  }
}
