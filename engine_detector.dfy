/**
  Choosing a test engine for a path: by the suffix of a single file, or
  for a directory by counting its Robot, feature and Python test files
  and, when there are none, by the configuration files it holds.
  The result is always one of "pytest", "robot" and "behave".
 */
module EngineDetector {
  import opened Wrappers

  predicate IsEngineName(n: string) {
    n == "pytest" || n == "robot" || n == "behave"
  }

  function LowerChar(c: char): char {
    if 'A' <= c <= 'Z' then (c as int + 32) as char else c
  }

  /** `str.lower()` on ASCII letters. */
  function Lower(s: string): string {
    seq(|s|, i requires 0 <= i < |s| => LowerChar(s[i]))
  }

  predicate EndsWith(s: string, suffix: string) {
    |suffix| <= |s| && s[|s| - |suffix|..] == suffix
  }

  /** Python's `sub in s` on strings. */
  predicate Contains(s: string, sub: string)
    decreases |s|
  {
    |sub| <= |s| && (s[..|sub|] == sub || (|s| > 0 && Contains(s[1..], sub)))
  }

  /** `str.rfind('.')`: the position of the last dot, if any. */
  function LastDot(s: string): (r: Option<nat>)
    ensures r.Some? ==> r.value < |s| && s[r.value] == '.'
    ensures r.Some? ==> forall j :: r.value < j < |s| ==> s[j] != '.'
    ensures r.None? ==> forall j :: 0 <= j < |s| ==> s[j] != '.'
  {
    if s == [] then None
    else if s[|s| - 1] == '.' then Some(|s| - 1)
    else LastDot(s[..|s| - 1])
  }

  /**
    `PurePath.suffix` of a file name: from the last dot on, provided that
    dot is neither the first nor the last character; otherwise empty.
   */
  function Suffix(name: string): string {
    match LastDot(name)
    case None => ""
    case Some(i) => if 0 < i < |name| - 1 then name[i..] else ""
  }

  /** An extension as `Suffix` can return it: a dot, at least one character, no other dot. */
  predicate IsExtension(ext: string) {
    |ext| >= 2 && ext[0] == '.' && forall k :: 1 <= k < |ext| ==> ext[k] != '.'
  }

  /** A name has a given extension as its suffix exactly when it ends with it after a non-empty stem. */
  lemma SuffixIsExtension(name: string, ext: string)
    requires IsExtension(ext)
    ensures Suffix(name) == ext <==> EndsWith(name, ext) && |name| > |ext|
  {
  }

  /** Lower-casing keeps every dot where it was and adds none. */
  lemma LowerKeepsLastDot(s: string)
    ensures LastDot(Lower(s)) == LastDot(s)
  {
    if s != [] {
      assert Lower(s)[..|s| - 1] == Lower(s[..|s| - 1]);
      LowerKeepsLastDot(s[..|s| - 1]);
    }
  }

  /** The suffix of the lower-cased name is the lower-cased suffix. */
  lemma LowerSuffix(name: string)
    ensures Lower(Suffix(name)) == Suffix(Lower(name))
  {
    LowerKeepsLastDot(name);
    match LastDot(name)
    case None =>
    case Some(i) =>
      if 0 < i < |name| - 1 {
        assert Lower(name)[i..] == Lower(name[i..]);
      }
  }

  /** `_detect_from_file`: classify one file by its lower-cased suffix. */
  function DetectFromFile(name: string): (engine: string)
    ensures IsEngineName(engine)
  {
    var suffix := Lower(Suffix(name));
    var lowerName := Lower(name);
    if suffix == ".robot" || suffix == ".resource" then "robot"
    else if suffix == ".feature" then "behave"
    else if suffix == ".py" && (Contains(lowerName, "test_") || EndsWith(lowerName, "_test.py")) then "pytest"
    else if suffix == ".py" then "pytest"
    else "pytest"
  }

  /**
    A file goes to Robot exactly when its lower-cased name ends in
    ".robot" or ".resource" after a non-empty stem, to behave exactly when
    it ends in ".feature" that way, and to pytest in every other case.
   */
  lemma DetectFromFileByEnding(name: string)
    ensures DetectFromFile(name) == "robot" <==>
      (EndsWith(Lower(name), ".robot") && |name| > 6) || (EndsWith(Lower(name), ".resource") && |name| > 9)
    ensures DetectFromFile(name) == "behave" <==> EndsWith(Lower(name), ".feature") && |name| > 8
    ensures DetectFromFile(name) == "pytest" <==>
      DetectFromFile(name) != "robot" && DetectFromFile(name) != "behave"
  {
    LowerSuffix(name);
    assert IsExtension(".robot") && IsExtension(".resource") && IsExtension(".feature");
    SuffixIsExtension(Lower(name), ".robot");
    SuffixIsExtension(Lower(name), ".resource");
    SuffixIsExtension(Lower(name), ".feature");
  }

  /** A `.py` file found under the directory: its name and the name of its parent directory. */
  datatype PyFile = PyFile(name: string, parent: string)

  /** The python-test filter of `_detect_from_directory`. */
  predicate IsPythonTest(f: PyFile) {
    var n := Lower(f.name);
    Contains(n, "test_") || EndsWith(n, "_test.py") || f.parent == "tests" || f.parent == "test"
  }

  /** The `.py` files that pass the filter, in the order they were found. */
  function PythonTests(files: seq<PyFile>): (tests: seq<PyFile>)
    ensures |tests| <= |files|
    ensures forall t :: t in tests ==> t in files && IsPythonTest(t)
    ensures forall f :: f in files && IsPythonTest(f) ==> f in tests
  {
    if files == [] then []
    else
      var last := files[|files| - 1];
      PythonTests(files[..|files| - 1]) + (if IsPythonTest(last) then [last] else [])
  }

  /** Each file passing the filter is kept as often as it was found, and no other file is kept. */
  lemma {:induction false} PythonTestsCounts(files: seq<PyFile>)
    ensures forall f :: multiset(PythonTests(files))[f] == if IsPythonTest(f) then multiset(files)[f] else 0
  {
    if files != [] {
      var pre := files[..|files| - 1];
      var last := files[|files| - 1];
      assert files == pre + [last];
      PythonTestsCounts(pre);
    }
  }

  /** The loop that builds `python_test_files` by appending each file that passes the filter. */
  method CollectPythonTests(files: seq<PyFile>) returns (tests: seq<PyFile>)
    ensures tests == PythonTests(files)
  {
    tests := [];
    var i := 0;
    while i < |files|
      invariant 0 <= i <= |files|
      invariant tests == PythonTests(files[..i])
    {
      assert files[..i + 1][..i] == files[..i];
      if IsPythonTest(files[i]) {
        tests := tests + [files[i]];
      }
      i := i + 1;
    }
    assert files[..i] == files;
  }

  /** The configuration files that decide, per engine, in the order they are checked. */
  const ConfigFiles: seq<(string, seq<string>)> := [
    ("pytest", ["pytest.ini", "pyproject.toml", "setup.cfg", "conftest.py"]),
    ("robot", ["robot.yaml", "robot.yml"]),
    ("behave", ["behave.ini", ".behaverc"])
  ]

  predicate AnyPresent(configs: seq<string>, present: set<string>) {
    exists c :: c in configs && c in present
  }

  /** The engine of the first table entry that has one of its files present. */
  function FirstConfig(table: seq<(string, seq<string>)>, present: set<string>): (r: Option<string>)
    ensures r.None? <==> forall k :: 0 <= k < |table| ==> !AnyPresent(table[k].1, present)
    ensures r.Some? ==> exists k :: 0 <= k < |table| && table[k].0 == r.value && AnyPresent(table[k].1, present)
                                    && forall j :: 0 <= j < k ==> !AnyPresent(table[j].1, present)
  {
    if table == [] then None
    else if AnyPresent(table[0].1, present) then Some(table[0].0)
    else
      var r := FirstConfig(table[1..], present);
      assert forall k :: 1 <= k < |table| ==> table[k] == table[1..][k - 1];
      r
  }

  /** The engine the configuration files of a directory decide, if any. */
  function ConfigEngine(present: set<string>): Option<string> {
    FirstConfig(ConfigFiles, present)
  }

  /** The config fallback, case by case: pytest files first, then Robot, then behave. */
  lemma ConfigEngineCases(present: set<string>)
    ensures ConfigEngine(present) == Some("pytest") <==> AnyPresent(ConfigFiles[0].1, present)
    ensures ConfigEngine(present) == Some("robot") <==>
      !AnyPresent(ConfigFiles[0].1, present) && AnyPresent(ConfigFiles[1].1, present)
    ensures ConfigEngine(present) == Some("behave") <==>
      !AnyPresent(ConfigFiles[0].1, present) && !AnyPresent(ConfigFiles[1].1, present)
      && AnyPresent(ConfigFiles[2].1, present)
    ensures ConfigEngine(present).None? || IsEngineName(ConfigEngine(present).value)
  {
  }

  /** The nested scan over the configuration table, returning at the first file present. */
  method ScanConfigs(present: set<string>) returns (r: Option<string>)
    ensures r == ConfigEngine(present)
  {
    var table := ConfigFiles;
    var i := 0;
    while i < |table|
      invariant 0 <= i <= |table|
      invariant FirstConfig(table, present) == FirstConfig(table[i..], present)
    {
      var (engine, configs) := table[i];
      var j := 0;
      while j < |configs|
        invariant 0 <= j <= |configs|
        invariant forall k :: 0 <= k < j ==> configs[k] !in present
      {
        if configs[j] in present {
          return Some(engine);
        }
        j := j + 1;
      }
      assert !AnyPresent(configs, present);
      assert table[i..][1..] == table[i + 1..];
      i := i + 1;
    }
    r := None;
  }

  /**
    A directory as detection sees it: whether it exists, how many
    `*.robot`, `*.resource` and `*.feature` matches it has, the `.py`
    files under it, and which configuration file names exist in it.
   */
  datatype Directory = Directory(
    onDisk: bool,
    robotMatches: nat,
    resourceMatches: nat,
    featureMatches: nat,
    pyFiles: seq<PyFile>,
    present: set<string>)

  /** The decision over the three counts, falling back to the configuration files. */
  function Decide(robot: nat, feature: nat, pyTests: nat, present: set<string>): (engine: string)
    ensures IsEngineName(engine)
  {
    ConfigEngineCases(present);
    if robot > 0 && robot >= feature && robot >= pyTests then "robot"
    else if feature > 0 && feature >= pyTests then "behave"
    else if pyTests > 0 then "pytest"
    else ConfigEngine(present).GetOr("pytest")
  }

  /** `_detect_from_directory`, as a function of the directory. */
  function DirectoryEngine(d: Directory): (engine: string)
    ensures IsEngineName(engine)
  {
    if !d.onDisk then "pytest"
    else Decide(d.robotMatches + d.resourceMatches, d.featureMatches, |PythonTests(d.pyFiles)|, d.present)
  }

  function Max3(a: nat, b: nat, c: nat): nat {
    if a >= b && a >= c then a else if b >= c then b else c
  }

  /**
    An independent reading of the count rule: the engine with the most
    files wins, ties going to Robot, then behave, then pytest.
   */
  function PluralityWinner(robot: nat, feature: nat, pyTests: nat): string {
    var m := Max3(robot, feature, pyTests);
    if robot == m then "robot" else if feature == m then "behave" else "pytest"
  }

  /** When any file was counted, the directory rule is the plurality rule. */
  lemma DecideIsPlurality(robot: nat, feature: nat, pyTests: nat, present: set<string>)
    requires robot > 0 || feature > 0 || pyTests > 0
    ensures Decide(robot, feature, pyTests, present) == PluralityWinner(robot, feature, pyTests)
  {
  }

  /** When nothing was counted, the configuration files decide, and pytest when none exists. */
  lemma DecideWithoutFiles(present: set<string>)
    ensures Decide(0, 0, 0, present) == ConfigEngine(present).GetOr("pytest")
  {
  }

  /** `_detect_from_directory`: a missing directory means pytest; otherwise count, then decide. */
  method DetectFromDirectory(d: Directory) returns (engine: string)
    ensures engine == DirectoryEngine(d)
    ensures IsEngineName(engine)
  {
    if !d.onDisk {
      return "pytest";
    }
    var robotFiles := d.robotMatches + d.resourceMatches;
    var featureFiles := d.featureMatches;
    var pythonTestFiles := CollectPythonTests(d.pyFiles);
    if robotFiles > 0 && robotFiles >= featureFiles && robotFiles >= |pythonTestFiles| {
      return "robot";
    }
    if featureFiles > 0 && featureFiles >= |pythonTestFiles| {
      return "behave";
    }
    if |pythonTestFiles| > 0 {
      return "pytest";
    }
    var fromConfig := ScanConfigs(d.present);
    if fromConfig.Some? {
      return fromConfig.value;
    }
    return "pytest";
  }

  /** What a path turns out to be: a file, a directory, or nothing on disk. */
  datatype Target = File(name: string) | Dir(dir: Directory) | Missing(name: string)

  /** `detect_engine`, as a function of the target. */
  function TargetEngine(t: Target): (engine: string)
    ensures IsEngineName(engine)
  {
    match t
    case File(n) => DetectFromFile(n)
    case Dir(d) => DirectoryEngine(d)
    case Missing(n) => DetectFromFile(n)
  }

  /** `detect_engine`: files and missing paths by suffix, directories by their contents. */
  method DetectEngine(t: Target) returns (engine: string)
    ensures engine == TargetEngine(t)
    ensures IsEngineName(engine)
  {
    match t {
      case File(n) => engine := DetectFromFile(n);
      case Dir(d) => engine := DetectFromDirectory(d);
      case Missing(n) => engine := DetectFromFile(n);
    }
  }
}
