/** Command probes (`check_command`) and the two tool checks built on them
    (`check_basic_tools`, `check_compiler_tools`). */
module Probes {
  import opened Host
  import opened Text
  import opened Log

  const VersionFlag := "--version"

  /** The version check_command reports: the first line of the trimmed output. */
  function Version(stdout: string): (v: string)
    ensures '\n' !in v
    ensures v != [] ==> !IsSpace(v[0])
    ensures |v| <= |Strip(stdout)| && v == Strip(stdout)[..|v|]
    ensures |v| < |Strip(stdout)| ==> Strip(stdout)[|v|] == '\n'
    ensures v == [] <==> forall j :: 0 <= j < |stdout| ==> IsSpace(stdout[j])
  {
    var stripped := Strip(stdout);
    var v := FirstLine(stripped);
    assert IsSpace('\n');
    assert stripped != [] ==> v != [];
    v
  }

  /** The one entry check_command logs for `command` when its probe gives `outcome`. */
  function CommandLog(command: string, outcome: Outcome): (e: Entries)
    ensures e.Count() == 1 && e.warnings == []
    ensures e.successes != [] <==> outcome.Ok?
    ensures outcome.Ok? ==> e.successes == ["OK " + command + " found: " + Version(outcome.stdout)]
    ensures outcome.NonZero? ==> e.issues == ["FAIL " + command + " not working properly"]
    ensures outcome.Raised? ==> e.issues == ["FAIL " + command + " not found"]
  {
    match outcome
    case Ok(stdout) =>
      assert "OK " + (command + " found: " + Version(stdout)) == "OK " + command + " found: " + Version(stdout);
      Success(command + " found: " + Version(stdout))
    case NonZero =>
      assert "FAIL " + (command + " not working properly") == "FAIL " + command + " not working properly";
      Issue(command + " not working properly")
    case Raised =>
      assert "FAIL " + (command + " not found") == "FAIL " + command + " not found";
      Issue(command + " not found")
  }

  predicate Works(w: World, command: string)
  {
    w.Run([command, VersionFlag]).Ok?
  }

  function Probe(w: World, command: string): Entries
  {
    CommandLog(command, w.Run([command, VersionFlag]))
  }

  /** Probing every command of `commands` in order. */
  function ProbeEach(w: World, commands: seq<string>): (e: Entries)
    ensures e.Count() == |commands| && e.warnings == []
    ensures e.issues == [] <==> AllWork(w, commands)
  {
    if commands == [] then NoEntries
    else
      var last := commands[|commands| - 1];
      var init := commands[..|commands| - 1];
      assert AllWork(w, commands) <==> AllWork(w, init) && Works(w, last) by {
        assert forall i :: 0 <= i < |init| ==> init[i] == commands[i];
        assert commands == init + [last];
      }
      ProbeEach(w, init).Then(Probe(w, last))
  }

  predicate AllWork(w: World, commands: seq<string>)
  {
    forall i :: 0 <= i < |commands| ==> Works(w, commands[i])
  }

  /** One more probe extends the prefix already probed. */
  lemma ProbeEachSnoc(w: World, commands: seq<string>, i: nat)
    requires i < |commands|
    ensures ProbeEach(w, commands[..i + 1]) == ProbeEach(w, commands[..i]).Then(Probe(w, commands[i]))
    ensures AllWork(w, commands[..i + 1]) <==> AllWork(w, commands[..i]) && Works(w, commands[i])
  {
    assert commands[..i + 1][..i] == commands[..i];
    assert forall j :: 0 <= j < i ==> commands[..i + 1][j] == commands[..i][j];
  }

  predicate AnyWorks(w: World, commands: seq<string>)
  {
    exists i :: 0 <= i < |commands| && Works(w, commands[i])
  }

  /** Probing `commands` in order until one works: the search for Python. */
  function ProbeUntilFound(w: World, commands: seq<string>): (e: Entries)
    ensures e.warnings == [] && |e.successes| <= 1 && e.Count() <= |commands|
    ensures commands != [] ==> e.Count() >= 1
    ensures e.issues == [] <==> commands == [] || Works(w, commands[0])
    ensures e.successes != [] <==> AnyWorks(w, commands)
  {
    if commands == [] then NoEntries
    else
      assert AnyWorks(w, commands) <==> Works(w, commands[0]) || AnyWorks(w, commands[1..]) by {
        assert forall i :: 1 <= i < |commands| ==> commands[1..][i - 1] == commands[i];
      }
      Probe(w, commands[0]).Then(if Works(w, commands[0]) then NoEntries else ProbeUntilFound(w, commands[1..]))
  }

  lemma {:induction false} ProbeEachCons(w: World, c: string, rest: seq<string>)
    ensures ProbeEach(w, [c] + rest) == Probe(w, c).Then(ProbeEach(w, rest))
    decreases |rest|
  {
    if rest == [] {
      assert [c] + rest == [c];
      assert [c][..0] == [];
      ThenNoEntries(Probe(w, c));
    } else {
      var init := rest[..|rest| - 1];
      var last := rest[|rest| - 1];
      assert ([c] + rest)[..|rest|] == [c] + init;
      ProbeEachCons(w, c, init);
      ThenAssociative(Probe(w, c), ProbeEach(w, init), Probe(w, last));
    }
  }

  /** The search stops at the first command that works: nothing after it is probed. */
  lemma {:induction false} ProbeUntilFoundStopsAtFirst(w: World, commands: seq<string>, k: nat)
    requires k < |commands| && Works(w, commands[k])
    requires forall j :: 0 <= j < k ==> !Works(w, commands[j])
    ensures ProbeUntilFound(w, commands) == ProbeEach(w, commands[..k + 1])
  {
    var c := commands[0];
    var rest := commands[1..];
    if k == 0 {
      assert commands[..1] == [c] + [];
      ProbeEachCons(w, c, []);
      ThenNoEntries(Probe(w, c));
    } else {
      assert forall j :: 0 <= j < k - 1 ==> rest[j] == commands[j + 1];
      ProbeUntilFoundStopsAtFirst(w, rest, k - 1);
      assert commands[..k + 1] == [c] + rest[..k];
      ProbeEachCons(w, c, rest[..k]);
      assert !Works(w, c);
    }
  }

  /** When nothing works, the search probes every command. */
  lemma {:induction false} ProbeUntilFoundNoneWork(w: World, commands: seq<string>)
    requires forall j :: 0 <= j < |commands| ==> !Works(w, commands[j])
    ensures ProbeUntilFound(w, commands) == ProbeEach(w, commands)
  {
    if commands == [] {
    } else {
      ProbeUntilFoundNoneWork(w, commands[1..]);
      assert commands == [commands[0]] + commands[1..];
      ProbeEachCons(w, commands[0], commands[1..]);
    }
  }

  // check_basic_tools

  const RequiredTools := ["cmake", "git"]
  const PythonCommands := ["python3", "python"]
  const PythonMissing := "Python not found (needed for scripts)"

  function BasicToolsLog(w: World): Entries
  {
    ProbeEach(w, RequiredTools)
      .Then(ProbeUntilFound(w, PythonCommands))
      .Then(if AnyWorks(w, PythonCommands) then NoEntries else Issue(PythonMissing))
  }

  function BasicToolsOk(w: World): bool
  {
    AllWork(w, RequiredTools) && AnyWorks(w, PythonCommands)
  }

  /** Which Python probes are logged: `python` only when `python3` fails. */
  lemma PythonSearch(w: World)
    ensures Works(w, "python3") ==> ProbeUntilFound(w, PythonCommands) == Probe(w, "python3")
    ensures !Works(w, "python3") ==>
      ProbeUntilFound(w, PythonCommands) == Probe(w, "python3").Then(Probe(w, "python"))
  {
    assert PythonCommands[1..] == ["python"];
    assert PythonCommands[1..][1..] == [];
    ThenNoEntries(Probe(w, "python3"));
    ThenNoEntries(Probe(w, "python"));
    assert ProbeUntilFound(w, ["python"]) == Probe(w, "python");
  }

  /** A probe's issue is at most "FAIL " plus the command plus " not working
      properly" (26 characters besides the command), which is shorter than
      the missing-Python issue; PythonMissingIff relies on this. */
  lemma ProbeIssueLength(w: World, c: string)
    ensures forall s :: s in Probe(w, c).issues ==> |s| <= |c| + 26
  {
  }

  /** "Python not found" is logged exactly when both `python3` and `python` fail. */
  lemma PythonMissingIff(w: World)
    ensures ("FAIL " + PythonMissing in BasicToolsLog(w).issues) <==> !Works(w, "python3") && !Works(w, "python")
  {
    PythonSearch(w);
    var required := ProbeEach(w, RequiredTools);
    var search := ProbeUntilFound(w, PythonCommands);
    var missing := "FAIL " + PythonMissing;
    assert AnyWorks(w, PythonCommands) <==> Works(w, "python3") || Works(w, "python") by {
      assert PythonCommands[0] == "python3" && PythonCommands[1] == "python";
    }
    assert RequiredTools == ["cmake"] + ["git"] && ["git"] == ["git"] + [];
    ProbeEachCons(w, "cmake", ["git"]);
    ProbeEachCons(w, "git", []);
    ThenNoEntries(Probe(w, "git"));
    assert required.issues == Probe(w, "cmake").issues + Probe(w, "git").issues;
    ProbeIssueLength(w, "cmake");
    ProbeIssueLength(w, "git");
    ProbeIssueLength(w, "python3");
    ProbeIssueLength(w, "python");
    assert missing !in required.issues;
    assert missing !in search.issues;
  }

  /** A failing `python3` is logged as an issue even when `python` is found,
      although check_basic_tools then returns true. */
  lemma PythonFallbackStillLogsIssue(w: World)
    requires AllWork(w, RequiredTools) && !Works(w, "python3") && Works(w, "python")
    ensures BasicToolsOk(w)
    ensures |BasicToolsLog(w).issues| == 1
  {
    PythonSearch(w);
    assert PythonCommands[1] == "python";
  }

  // check_compiler_tools

  const DarwinCompilers := ["clang", "clang++"]
  const LinuxCompilers := ["clang", "clang++", "arm-linux-gnueabihf-gcc"]
  const HomebrewLlvmPaths := ["/opt/homebrew/opt/llvm/bin", "/usr/local/opt/llvm/bin"]

  /** The Homebrew LLVM search: one entry, never an issue; a success naming
      the first location that exists, a warning when neither does. */
  function LlvmLog(fs: FileSystem): (e: Entries)
    ensures e.Count() == 1 && e.issues == []
    ensures e.successes != [] <==> fs.Exists(HomebrewLlvmPaths[0]) || fs.Exists(HomebrewLlvmPaths[1])
    ensures fs.Exists(HomebrewLlvmPaths[0]) ==> e == Success("LLVM tools found at " + HomebrewLlvmPaths[0])
    ensures !fs.Exists(HomebrewLlvmPaths[0]) && fs.Exists(HomebrewLlvmPaths[1]) ==>
      e == Success("LLVM tools found at " + HomebrewLlvmPaths[1])
  {
    match fs.FirstExisting(HomebrewLlvmPaths)
    case Some(k) => Success("LLVM tools found at " + HomebrewLlvmPaths[k])
    case None => Warning("Homebrew LLVM not found. Install with: brew install llvm")
  }

  function CompilerToolsLog(w: World): Entries
  {
    match w.system
    case Windows => Issue("Windows is not supported for cross-compilation")
    case Darwin => ProbeEach(w, DarwinCompilers).Then(LlvmLog(w.fs))
    case Linux => ProbeEach(w, LinuxCompilers)
    case OtherSystem => NoEntries
  }

  function CompilerToolsOk(w: World): bool
  {
    match w.system
    case Windows => false
    case Darwin => AllWork(w, DarwinCompilers)
    case Linux => AllWork(w, LinuxCompilers)
    case OtherSystem => true
  }

  /** check_compiler_tools returns true exactly when it logs no issue: a
      missing Homebrew LLVM is only a warning. */
  lemma CompilerToolsOkIffNoIssue(w: World)
    ensures CompilerToolsOk(w) <==> CompilerToolsLog(w).issues == []
  {
    assert LlvmLog(w.fs).issues == [];
  }
}
