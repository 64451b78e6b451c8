/** `EnvironmentChecker`: the object whose checks append to three buckets,
    and the run that ties them together. */
module Checker {
  import opened Host
  import opened Log
  import opened Probes
  import opened Buildroots
  import opened Structure
  import opened Discovery
  import opened Guidance

  /** Everything one run appends, check by check, in the order `run` calls them. */
  function RunLog(w: World): Entries
  {
    BasicToolsLog(w)
      .Then(CompilerToolsLog(w))
      .Then(EnvironmentLog(w))
      .Then(StructureLog(w))
      .Then(ModulesLog(Discover(w.fs, ModulesDir(w.projectRoot))))
  }

  /** The process exit status main derives from the result of `run`. */
  function ExitStatus(ok: bool): (status: int)
    ensures status == 0 || status == 1
    ensures status == 0 <==> ok
  {
    if ok then 0 else 1
  }

  class EnvironmentChecker {
    const world: World
    var successes: seq<string>
    var warnings: seq<string>
    var issues: seq<string>

    /** The three buckets as one value. */
    function Logged(): Entries
      reads this
    {
      Entries(successes, warnings, issues)
    }

    constructor (world: World)
      ensures this.world == world
      ensures successes == [] && warnings == [] && issues == []
    {
      this.world := world;
      successes, warnings, issues := [], [], [];
    }

    method LogSuccess(message: string)
      modifies this
      ensures Logged() == old(Logged()).Then(Success(message))
      ensures successes == old(successes) + ["OK " + message]
      ensures warnings == old(warnings) && issues == old(issues)
    {
      successes := successes + ["OK " + message];
    }

    method LogWarning(message: string)
      modifies this
      ensures Logged() == old(Logged()).Then(Warning(message))
      ensures warnings == old(warnings) + ["WARN " + message]
      ensures successes == old(successes) && issues == old(issues)
    {
      warnings := warnings + ["WARN " + message];
    }

    method LogIssue(message: string)
      modifies this
      ensures Logged() == old(Logged()).Then(Issue(message))
      ensures issues == old(issues) + ["FAIL " + message]
      ensures successes == old(successes) && warnings == old(warnings)
    {
      issues := issues + ["FAIL " + message];
    }

    method CheckCommand(command: string, versionArg: string) returns (found: bool)
      modifies this
      ensures found <==> world.Run([command, versionArg]).Ok?
      ensures Logged() == old(Logged()).Then(CommandLog(command, world.Run([command, versionArg])))
    {
      var result := world.Run([command, versionArg]);
      match result {
        case Ok(stdout) =>
          var version := Version(stdout);
          LogSuccess(command + " found: " + version);
          found := true;
        case NonZero =>
          LogIssue(command + " not working properly");
          found := false;
        case Raised =>
          LogIssue(command + " not found");
          found := false;
      }
    }

    /** The loop `for tool in tools: if not self.check_command(tool): all_good = False`. */
    method CheckEach(tools: seq<string>) returns (allGood: bool)
      modifies this
      ensures allGood <==> AllWork(world, tools)
      ensures Logged() == old(Logged()).Then(ProbeEach(world, tools))
    {
      allGood := true;
      for i := 0 to |tools|
        invariant allGood <==> AllWork(world, tools[..i])
        invariant Logged() == old(Logged()).Then(ProbeEach(world, tools[..i]))
      {
        var ok := CheckCommand(tools[i], VersionFlag);
        if !ok {
          allGood := false;
        }
        ProbeEachSnoc(world, tools, i);
        ThenAssociative(old(Logged()), ProbeEach(world, tools[..i]), Probe(world, tools[i]));
      }
      assert tools[..|tools|] == tools;
    }

    /** The loop over the Python interpreters: stop at the first that answers. */
    method CheckFirstWorking(commands: seq<string>) returns (found: bool)
      modifies this
      ensures found <==> AnyWorks(world, commands)
      ensures Logged() == old(Logged()).Then(ProbeUntilFound(world, commands))
    {
      found := false;
      var j := 0;
      while j < |commands|
        invariant 0 <= j <= |commands|
        invariant forall k :: 0 <= k < j ==> !Works(world, commands[k])
        invariant Logged().Then(ProbeUntilFound(world, commands[j..])) == old(Logged()).Then(ProbeUntilFound(world, commands))
      {
        ghost var before := Logged();
        var ok := CheckCommand(commands[j], VersionFlag);
        assert commands[j..][1..] == commands[j + 1..];
        ThenAssociative(before, Probe(world, commands[j]),
          if ok then NoEntries else ProbeUntilFound(world, commands[j + 1..]));
        if ok {
          ThenNoEntries(Logged());
          found := true;
          return;
        }
        j := j + 1;
      }
      ThenNoEntries(Logged());
    }

    method CheckBasicTools() returns (allGood: bool)
      modifies this
      ensures allGood <==> AllWork(world, RequiredTools) && (Works(world, "python3") || Works(world, "python"))
      ensures Logged() == old(Logged()).Then(BasicToolsLog(world))
    {
      allGood := CheckEach(RequiredTools);
      var pythonFound := CheckFirstWorking(PythonCommands);
      assert AnyWorks(world, PythonCommands) <==> Works(world, "python3") || Works(world, "python") by {
        assert PythonCommands[0] == "python3" && PythonCommands[1] == "python";
      }
      ghost var afterPython := Logged();
      if !pythonFound {
        LogIssue(PythonMissing);
        allGood := false;
      } else {
        ThenNoEntries(afterPython);
      }
      ThenAssociative(old(Logged()), ProbeEach(world, RequiredTools), ProbeUntilFound(world, PythonCommands));
      ThenAssociative(old(Logged()), ProbeEach(world, RequiredTools).Then(ProbeUntilFound(world, PythonCommands)),
        if AnyWorks(world, PythonCommands) then NoEntries else Issue(PythonMissing));
    }

    /** The first-match search over the Homebrew LLVM locations. */
    method CheckHomebrewLlvm()
      modifies this
      ensures Logged() == old(Logged()).Then(LlvmLog(world.fs))
    {
      var homebrewPaths := HomebrewLlvmPaths;
      var llvmFound := false;
      var j := 0;
      while j < |homebrewPaths|
        invariant 0 <= j <= |homebrewPaths|
        invariant !llvmFound && Logged() == old(Logged())
        invariant forall k :: 0 <= k < j ==> !world.fs.Exists(homebrewPaths[k])
      {
        if world.fs.Exists(homebrewPaths[j]) {
          LogSuccess("LLVM tools found at " + homebrewPaths[j]);
          llvmFound := true;
          assert world.fs.FirstExisting(homebrewPaths) == Some(j);
          break;
        }
        j := j + 1;
      }
      if !llvmFound {
        LogWarning("Homebrew LLVM not found. Install with: brew install llvm");
      }
    }

    method CheckCompilerTools() returns (allGood: bool)
      modifies this
      ensures allGood == CompilerToolsOk(world)
      ensures Logged() == old(Logged()).Then(CompilerToolsLog(world))
    {
      if world.system == Windows {
        LogIssue("Windows is not supported for cross-compilation");
        return false;
      }
      allGood := true;
      if world.system == Darwin {
        allGood := CheckEach(DarwinCompilers);
        CheckHomebrewLlvm();
        ThenAssociative(old(Logged()), ProbeEach(world, DarwinCompilers), LlvmLog(world.fs));
      } else if world.system == Linux {
        allGood := CheckEach(LinuxCompilers);
      } else {
        ThenNoEntries(Logged());
      }
    }

    /** The test of a buildroot variable set to `root`, shared by both variables. */
    method CheckSetRoot(name: string, root: Path, triple: string)
      modifies this
      ensures Logged() == old(Logged()).Then(SetRootLog(world.fs, name, root, triple))
    {
      if world.fs.Exists(root) {
        var expected := [Join(Join(root, triple), "sysroot"), Join(Join(Join(root, "lib"), "gcc"), triple)];
        if world.fs.Exists(expected[0]) && world.fs.Exists(expected[1]) {
          LogSuccess(name + " valid: " + root);
        } else {
          LogWarning(name + " path exists but missing expected subdirectories: " + root);
        }
      } else {
        LogIssue(name + " path does not exist: " + root);
      }
    }

    method CheckSspBuildroot()
      modifies this
      ensures Logged() == old(Logged()).Then(SspLog(world))
    {
      var sspBuildroot := world.Getenv(SspVariable);
      if sspBuildroot.Some? && sspBuildroot.value != "" {
        CheckSetRoot(SspVariable, sspBuildroot.value, SspTriple);
      } else {
        var defaultPath := SspDefault(world.home);
        if world.fs.Exists(defaultPath) {
          LogSuccess("Default SSP buildroot found: " + defaultPath);
          LogWarning("Consider setting SSP_BUILDROOT environment variable");
          ThenAssociative(old(Logged()), Success("Default SSP buildroot found: " + defaultPath),
            Warning("Consider setting SSP_BUILDROOT environment variable"));
        } else {
          LogIssue("SSP_BUILDROOT not set and default location not found");
          LogIssue("Download from: " + SspDownload);
          ThenAssociative(old(Logged()), Issue("SSP_BUILDROOT not set and default location not found"),
            Issue("Download from: " + SspDownload));
        }
      }
    }

    method CheckXmxBuildroot()
      modifies this
      ensures Logged() == old(Logged()).Then(XmxLog(world))
    {
      var xmxBuildroot := world.Getenv(XmxVariable);
      if xmxBuildroot.Some? && xmxBuildroot.value != "" {
        CheckSetRoot(XmxVariable, xmxBuildroot.value, XmxTriple);
      } else {
        LogWarning("XMX_BUILDROOT not set (only needed for XMX builds)");
      }
    }

    method CheckEnvironmentVariables()
      modifies this
      ensures Logged() == old(Logged()).Then(EnvironmentLog(world))
    {
      CheckSspBuildroot();
      CheckXmxBuildroot();
      ThenAssociative(old(Logged()), SspLog(world), XmxLog(world));
    }

    /** One key path: found with the expected kind, or missing. */
    method CheckKeyPath(key: KeyPath) returns (present: bool)
      modifies this
      ensures present == Present(world.fs, world.projectRoot, key)
      ensures Logged() == old(Logged()).Then(KeyPathLog(world.fs, world.projectRoot, key))
    {
      var path := Join(world.projectRoot, key.path);
      present := true;
      if key.kind == RegularFile && world.fs.IsFile(path) {
        LogSuccess("Found " + key.path);
      } else if key.kind == Directory && world.fs.IsDir(path) {
        LogSuccess("Found " + key.path + "/");
      } else {
        LogIssue("Missing " + key.path);
        present := false;
      }
    }

    method CheckKeyPaths(keys: seq<KeyPath>) returns (allGood: bool)
      modifies this
      ensures allGood <==> forall k :: 0 <= k < |keys| ==> Present(world.fs, world.projectRoot, keys[k])
      ensures Logged() == old(Logged()).Then(KeyPathsLog(world.fs, world.projectRoot, keys))
    {
      allGood := true;
      for i := 0 to |keys|
        invariant allGood <==> forall k :: 0 <= k < i ==> Present(world.fs, world.projectRoot, keys[k])
        invariant Logged() == old(Logged()).Then(KeyPathsLog(world.fs, world.projectRoot, keys[..i]))
      {
        var present := CheckKeyPath(keys[i]);
        if !present {
          allGood := false;
        }
        KeyPathsSnoc(world.fs, world.projectRoot, keys, i);
        ThenAssociative(old(Logged()), KeyPathsLog(world.fs, world.projectRoot, keys[..i]),
          KeyPathLog(world.fs, world.projectRoot, keys[i]));
      }
      assert keys[..|keys|] == keys;
    }

    method CheckProjectStructure() returns (allGood: bool)
      modifies this
      ensures allGood == StructureOk(world)
      ensures Logged() == old(Logged()).Then(StructureLog(world))
    {
      var root := world.projectRoot;
      allGood := CheckKeyPaths(KeyPaths);
      var juceCMake := Join(Join(root, "juce"), "CMakeLists.txt");
      if world.fs.Exists(juceCMake) {
        LogSuccess("JUCE submodule initialized");
      } else {
        LogIssue("JUCE submodule not initialized");
        LogIssue("Run: git submodule update --init --recursive");
        allGood := false;
      }
      ThenAssociative(old(Logged()), KeyPathsLog(world.fs, root, KeyPaths), JuceLog(world.fs, root));
    }

    /** The record find_modules builds for the module directory `item`. */
    method InspectModule(item: Path, name: string) returns (info: ModuleInfo)
      ensures info == Classify(world.fs, item, name)
    {
      var hasSource := false;
      var hasRnboExport := false;
      var rnboExportPath: Option<Path> := None;
      var missingFiles: seq<string> := [];

      if world.fs.Exists(Join(item, "Source")) {
        hasSource := true;
      } else {
        missingFiles := missingFiles + ["Source/"];
      }

      var possibleRnboDirs := ExportCandidates(item, name);
      var k := 0;
      while k < |possibleRnboDirs|
        invariant 0 <= k <= |possibleRnboDirs|
        invariant rnboExportPath == None && !hasRnboExport
        invariant forall j :: 0 <= j < k ==> !world.fs.Exists(possibleRnboDirs[j])
      {
        var rnboDir := possibleRnboDirs[k];
        if world.fs.Exists(rnboDir) {
          rnboExportPath := Some(rnboDir);
          if HoldsRnboFiles(world.fs, rnboDir) {
            hasRnboExport := true;
          }
          assert world.fs.FirstExisting(possibleRnboDirs) == Some(k);
          break;
        }
        k := k + 1;
      }
      assert rnboExportPath == ExportDir(world.fs, item, name);
      assert hasRnboExport <==> rnboExportPath.Some? && HoldsRnboFiles(world.fs, rnboExportPath.value);

      if !hasRnboExport {
        missingFiles := missingFiles + [MissingExportNote(name)];
      }
      info := ModuleInfo(name, item, hasSource, hasRnboExport, rnboExportPath, missingFiles);
    }

    /** find_modules, with `modules` checked for being a directory rather than for existing. */
    method FindModules() returns (modules: seq<ModuleInfo>)
      ensures modules == Discover(world.fs, ModulesDir(world.projectRoot))
    {
      var modulesDir := ModulesDir(world.projectRoot);
      modules := [];
      if !world.fs.IsDir(modulesDir) {
        return;
      }
      var items := world.fs.Entries(modulesDir);
      for i := 0 to |items|
        invariant modules == DiscoverIn(world.fs, modulesDir, items[..i])
      {
        var name := items[i];
        var item := Join(modulesDir, name);
        DiscoverInSnoc(world.fs, modulesDir, items, i);
        if world.fs.IsDir(item) && name !in Reserved {
          var info := InspectModule(item, name);
          modules := modules + [info];
        }
      }
      assert items[..|items|] == items;
    }

    /** The one entry logged for a discovered module. */
    method CheckModule(m: ModuleInfo)
      modifies this
      ensures Logged() == old(Logged()).Then(ModuleLog(m))
    {
      if m.hasSource && m.hasRnboExport {
        LogSuccess("Module " + m.name + " is complete");
      } else if m.hasSource {
        LogWarning("Module " + m.name + " missing RNBO export");
      } else {
        LogIssue("Module " + m.name + " incomplete: missing " + Text.JoinWith(", ", m.missingFiles));
      }
    }

    /** The loop of check_modules over the discovered modules. */
    method CheckEachModule(modules: seq<ModuleInfo>)
      modifies this
      ensures Logged() == old(Logged()).Then(EachModuleLog(modules))
    {
      for i := 0 to |modules|
        invariant Logged() == old(Logged()).Then(EachModuleLog(modules[..i]))
      {
        CheckModule(modules[i]);
        EachModuleLogSnoc(modules, i);
        ThenAssociative(old(Logged()), EachModuleLog(modules[..i]), ModuleLog(modules[i]));
      }
      assert modules[..|modules|] == modules;
    }

    method CheckModules()
      modifies this
      ensures Logged() == old(Logged()).Then(ModulesLog(Discover(world.fs, ModulesDir(world.projectRoot))))
    {
      var modules := FindModules();
      if modules == [] {
        LogWarning("No modules found");
      } else {
        CheckEachModule(modules);
      }
    }

    /** suggest_next_steps: any logged issue cuts out every other recommendation. */
    method SuggestNextSteps() returns (advice: Advice)
      ensures advice == NextSteps(issues, warnings, Discover(world.fs, ModulesDir(world.projectRoot)))
      ensures issues != [] ==> advice == FixIssuesFirst(issues)
      ensures issues == [] ==> advice.Proceed? && advice.warnings == warnings
    {
      var modules := FindModules();
      if issues != [] {
        return FixIssuesFirst(issues);
      }
      if modules == [] {
        return Proceed(warnings, StartWithDemo);
      }
      var incompleteModules := IncompleteModules(modules);
      var completeModules := CompleteModules(modules);
      advice := Proceed(warnings, ModuleGuidance(ExportTargets(incompleteModules), Names(completeModules)));
    }

    /** run: every check in order, then the advice; true iff no issue was logged. */
    method Run() returns (ok: bool, advice: Advice)
      modifies this
      ensures Logged() == old(Logged()).Then(RunLog(world))
      ensures ok <==> issues == []
      ensures advice == NextSteps(issues, warnings, Discover(world.fs, ModulesDir(world.projectRoot)))
    {
      ghost var start := Logged();
      var basicOk := CheckBasicTools();
      var compilerOk := CheckCompilerTools();
      CheckEnvironmentVariables();
      var structureOk := CheckProjectStructure();
      CheckModules();
      var ms := Discover(world.fs, ModulesDir(world.projectRoot));
      ThenAssociative(start, BasicToolsLog(world), CompilerToolsLog(world));
      ThenAssociative(start, BasicToolsLog(world).Then(CompilerToolsLog(world)), EnvironmentLog(world));
      ThenAssociative(start, BasicToolsLog(world).Then(CompilerToolsLog(world)).Then(EnvironmentLog(world)), StructureLog(world));
      ThenAssociative(start, BasicToolsLog(world).Then(CompilerToolsLog(world)).Then(EnvironmentLog(world)).Then(StructureLog(world)), ModulesLog(ms));
      advice := SuggestNextSteps();
      ok := |issues| == 0;
    }
  }

  /** main: a fresh checker's run, and the exit status derived from it. */
  method CheckEnvironment(w: World) returns (status: int, advice: Advice)
    ensures status == ExitStatus(RunLog(w).issues == [])
    ensures advice == NextSteps(RunLog(w).issues, RunLog(w).warnings, Discover(w.fs, ModulesDir(w.projectRoot)))
  {
    var checker := new EnvironmentChecker(w);
    assert checker.Logged() == NoEntries;
    var ok;
    ok, advice := checker.Run();
    ThenNoEntries(RunLog(w));
    assert checker.issues == RunLog(w).issues && checker.warnings == RunLog(w).warnings;
    status := ExitStatus(ok);
  }

  /** A run from a fresh checker recommends module work only when nothing
      anywhere logged an issue, and then every incomplete module gets an
      export target and every complete one is listed as ready to build. */
  lemma CleanRunCoversEveryModule(w: World)
    ensures RunLog(w).issues == [] ==>
      var ms := Discover(w.fs, ModulesDir(w.projectRoot));
      var advice := NextSteps(RunLog(w).issues, RunLog(w).warnings, ms);
      advice.Proceed? &&
      (ms == [] ==> advice.plan == StartWithDemo) &&
      (ms != [] ==> advice.plan == ModuleGuidance(Names(IncompleteModules(ms)), Names(CompleteModules(ms))))
  {
    var ms := Discover(w.fs, ModulesDir(w.projectRoot));
    if RunLog(w).issues == [] && ms != [] {
      assert ModulesLog(ms).issues == [];
      GuidanceCoversEveryModule(RunLog(w).warnings, ms);
    }
  }

  /** A discovered module without a source tree always blocks every recommendation. */
  lemma ModuleWithoutSourceBlocksAdvice(w: World, m: ModuleInfo)
    requires m in Discover(w.fs, ModulesDir(w.projectRoot)) && !m.hasSource
    ensures NextSteps(RunLog(w).issues, RunLog(w).warnings, Discover(w.fs, ModulesDir(w.projectRoot))).FixIssuesFirst?
  {
    var ms := Discover(w.fs, ModulesDir(w.projectRoot));
    var i :| 0 <= i < |ms| && ms[i] == m;
    assert ModulesLog(ms).issues != [];
  }

  /** Without a `modules` directory the structure check logs "Missing
      modules", so the run never reaches the demo recommendation. */
  lemma NoModulesDirBlocksDemo(w: World)
    requires !w.fs.IsDir(ModulesDir(w.projectRoot))
    ensures NextSteps(RunLog(w).issues, RunLog(w).warnings, Discover(w.fs, ModulesDir(w.projectRoot))).FixIssuesFirst?
  {
    assert !Present(w.fs, w.projectRoot, KeyPaths[3]);
    assert KeyPathsLog(w.fs, w.projectRoot, KeyPaths).issues != [];
    assert StructureLog(w).issues != [];
  }
}
