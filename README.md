# Percussa RNBO environment checker — a Dafny model

`scripts/check.py` is the setup checker of the Percussa RNBO module project.
An `EnvironmentChecker` object runs five checks in a fixed order:

1. the basic tools (`cmake`, `git`, then `python3` or `python`);
2. the platform's compilers and, on macOS, a Homebrew LLVM;
3. the two cross-compilation roots `SSP_BUILDROOT` and `XMX_BUILDROOT`;
4. the fixed project layout, including the JUCE submodule;
5. the modules below `modules/`, each classified by its `Source` tree and
   its RNBO export directory.

Each check appends messages to one of three buckets: successes (`OK `),
warnings (`WARN `) and issues (`FAIL `). The run then makes its
recommendation: fix the issues first, start with the demo, or complete and
build the modules. The process exits with 0 exactly when no issue was logged.

The model keeps this shape:

- Everything the script reads from outside is one value, `Host.World`
  (`host.dfy`). It holds the platform, the project root, the home directory,
  the environment, the outcome of each command line, and the filesystem as a
  map from paths to files and directories. A directory records its entries in
  `iterdir` order.
- `Checker.EnvironmentChecker` (`checker.dfy`) is a class with the three
  buckets as `seq<string>` fields. Its methods follow the Python methods
  branch for branch and loop for loop, including the `break`s of the Python
  and LLVM searches and of the export-directory search. The one exception is
  `FindModules`, which models the corrected behaviour (see "## Findings").
- Every method is proved against a function of the world. What one check
  appends is a `Log.Entries` value, and each method ensures
  `Logged() == old(Logged()).Then(<what the check logs>(world))`.
  These specification functions live in `probes.dfy`, `buildroots.dfy`,
  `structure.dfy`, `discovery.dfy` and `guidance.dfy`. The lemmas about them
  state what the script promises: which messages appear, when a check
  returns true, the priority order of the export-directory names, and what
  the recommendation says.

The recommendation is not modelled as text. `Guidance.Advice` records the
section chosen, the warnings repeated, the modules told to export a patch
and the modules listed as ready to build.

Some behaviours of the code are easy to misread:

- A set root that exists but lacks one or both expected subdirectories gives
  a warning in both cases. The code never logs an issue because both are
  missing.
- The default location of the SSP root is only checked for existence. Its
  subdirectories are not checked.
- `XMX_BUILDROOT` has no default location: when it is unset, only a warning
  is logged.
- A module counts as exported only through the first export directory that
  exists. A qualifying export under a later naming convention is ignored
  when an earlier directory exists without `*.cpp.h` files
  (`Discovery.EmptyFirstExportShadowsLater`).
- When `python3` fails (missing or not working), an issue is logged even if
  `python` then works. `check_basic_tools` still returns true, but the run
  fails (`Probes.PythonFallbackStillLogsIssue`).
- The demo is never recommended when `modules` is missing: the structure
  check then logs "Missing modules", and any issue selects the fix-first
  section. The demo is recommended only when `modules` is a directory
  without module subdirectories (`Checker.NoModulesDirBlocksDemo`).

## Model

| member | source | states |
|---|---|---|
| Checker.EnvironmentChecker.constructor | scripts/check.py:23-31 | a new checker observes the given world and starts with three empty buckets |
| Checker.EnvironmentChecker.LogSuccess | scripts/check.py:33-35 | appends exactly "OK " + message to the successes and leaves the other buckets alone |
| Checker.EnvironmentChecker.LogWarning | scripts/check.py:37-39 | appends exactly "WARN " + message to the warnings and leaves the other buckets alone |
| Checker.EnvironmentChecker.LogIssue | scripts/check.py:41-43 | appends exactly "FAIL " + message to the issues and leaves the other buckets alone |
| Probes.Version | scripts/check.py:51 | the reported version is the first line of the stripped output: a prefix of it, holding no newline, followed by a newline or its end; it does not start with whitespace, and is empty exactly when the output is all whitespace |
| Text.Strip | scripts/check.py:51 | a slice of the text with only whitespace before and after it, starting and ending with a non-space character; empty exactly when the text is all whitespace |
| Text.TrimStart | scripts/check.py:51 | drops exactly the leading whitespace: a suffix, everything dropped is whitespace, and what remains does not start with whitespace |
| Text.TrimEnd | scripts/check.py:51 | drops exactly the trailing whitespace: a prefix, everything dropped is whitespace, and what remains does not end with whitespace |
| Text.FirstLine | scripts/check.py:51 | the text before the first newline: a prefix, holding no newline, followed by a newline or the end of the text |
| Probes.CommandLog | scripts/check.py:47-59 | one entry per probe, never a warning; a success exactly when the command exits with 0, with the version in it; otherwise the "not working properly" or "not found" issue |
| Checker.EnvironmentChecker.CheckCommand | scripts/check.py:45-59 | returns true exactly when the probe exits with 0, and appends what CommandLog says |
| Probes.ProbeEach | scripts/check.py:69-71 | probing a list logs one entry per command, no warnings, and no issue exactly when every command works |
| Probes.ProbeUntilFound | scripts/check.py:75-78 | the search logs no warning and at most one success; it logs no issue exactly when the first command works, and a success exactly when some command works |
| Checker.EnvironmentChecker.CheckEach | scripts/check.py:68-71 | the loop returns true exactly when every tool works, and appends the probes of all of them in order |
| Probes.ProbeUntilFoundStopsAtFirst | scripts/check.py:75-78 | the Python search probes exactly the commands up to and including the first one that works |
| Probes.ProbeUntilFoundNoneWork | scripts/check.py:75-78 | when no command works, the search probes every one of them |
| Checker.EnvironmentChecker.CheckFirstWorking | scripts/check.py:74-78 | returns true exactly when some interpreter works, and appends the probes the search makes |
| Checker.EnvironmentChecker.CheckBasicTools | scripts/check.py:61-84 | returns true exactly when cmake and git both work and python3 or python works, and appends the required probes, the Python search and, when nothing was found, the missing-Python issue |
| Probes.PythonSearch | scripts/check.py:75-78 | python is probed only when python3 does not work |
| Probes.PythonMissingIff | scripts/check.py:80-82 | the missing-Python issue is logged exactly when both python3 and python fail |
| Probes.PythonFallbackStillLogsIssue | scripts/check.py:61-84 | with working cmake and git, a failing python3 and a working python, the check returns true yet logs exactly one issue |
| Probes.LlvmLog | scripts/check.py:104-113 | one entry and never an issue; a success exactly when a Homebrew location exists, naming the first one that does; otherwise the install warning |
| Checker.EnvironmentChecker.CheckHomebrewLlvm | scripts/check.py:104-113 | the first-match loop appends what LlvmLog says |
| Probes.CompilerToolsOkIffNoIssue | scripts/check.py:86-122 | check_compiler_tools returns true exactly when it logs no issue; a missing LLVM is only a warning |
| Checker.EnvironmentChecker.CheckCompilerTools | scripts/check.py:86-122 | the result is the same as CompilerToolsOk, and the log is Windows' issue, the macOS probes with the LLVM search, the Linux probes, or nothing on any other platform |
| Buildroots.SetRootLog | scripts/check.py:130-143 | one entry for a set root: a success exactly when it exists with both subdirectories, a warning exactly when it exists without them, an issue exactly when it does not exist |
| Checker.EnvironmentChecker.CheckSetRoot | scripts/check.py:131-143 | appends what SetRootLog says for the variable's value |
| Buildroots.SspLog | scripts/check.py:128-152 | set means one entry chosen by SetRootLog; unset with the default present means one success and one warning and no issue; unset without it means two issues and nothing else |
| Checker.EnvironmentChecker.CheckSspBuildroot | scripts/check.py:128-152 | appends what SspLog says |
| Buildroots.XmxLog | scripts/check.py:154-170 | always one entry; unset means a warning and never an issue; set means the entry SetRootLog chooses |
| Checker.EnvironmentChecker.CheckXmxBuildroot | scripts/check.py:154-170 | appends what XmxLog says |
| Buildroots.EmptyValueIsUnset | scripts/check.py:129-130 | a variable set to the empty string is handled exactly like an unset one |
| Checker.EnvironmentChecker.CheckEnvironmentVariables | scripts/check.py:124-170 | appends the SSP part, then the XMX part |
| Structure.KeyPathsLog | scripts/check.py:177-196 | one entry per key path, no warnings, and no issue exactly when every key path is present with the expected kind |
| Structure.KeyPathLog | scripts/check.py:189-196 | one entry for a key path: "Found <path>" (with a trailing "/" for a directory) exactly when it is there with the expected kind, otherwise the "Missing <path>" issue |
| Checker.EnvironmentChecker.CheckKeyPath | scripts/check.py:189-196 | returns true exactly when the path is there with the expected kind, and appends the entry for it |
| Checker.EnvironmentChecker.CheckKeyPaths | scripts/check.py:187-196 | the loop returns true exactly when every key path is present, and appends the entries in order |
| Structure.JuceLog | scripts/check.py:198-205 | the "JUCE submodule initialized" success when `juce/CMakeLists.txt` exists; otherwise exactly the two issues, the second naming the `git submodule` command |
| Structure.StructureOkIffNoIssue | scripts/check.py:172-207 | check_project_structure returns true exactly when it logs no issue |
| Checker.EnvironmentChecker.CheckProjectStructure | scripts/check.py:172-207 | the result is the same as StructureOk, and the log is the key-path entries followed by the JUCE entry or entries |
| Host.FileSystem.FirstExisting | scripts/check.py:243-250 | the first candidate that exists, with none before it existing; none exactly when no candidate exists |
| Discovery.ExportDir | scripts/check.py:236-250 | the export directory is the first of the four naming conventions that exists, or none exactly when none exists |
| Discovery.Classify | scripts/check.py:219-253 | a module has a source exactly when `Source` exists and an export exactly when its first existing export directory holds a `*.cpp.h` file; `missing_files` lists "Source/" and the export note exactly for what is absent, "Source/" first |
| Checker.EnvironmentChecker.InspectModule | scripts/check.py:219-253 | the record built step by step, with the search that stops at the first existing directory, equals Classify |
| Discovery.DiscoverIn | scripts/check.py:217-255 | every record comes from an entry that is a non-reserved subdirectory and is that entry's classification |
| Discovery.DiscoverInCoversEvery | scripts/check.py:217-218 | every entry that is a non-reserved subdirectory gets a record |
| Discovery.DiscoverInDistinct | scripts/check.py:217-255 | distinct directory entries give records with distinct names |
| Discovery.Discover | scripts/check.py:211-216 | no `modules` directory means no modules |
| Checker.EnvironmentChecker.FindModules | scripts/check.py:209-257 | the loop over the entries returns exactly Discover, with `modules` checked for being a directory |
| Discovery.FindModulesAsWritten | scripts/check.py:214-217 | the code as written fails exactly when `modules` is a regular file |
| Discovery.ModulesFileAborts | scripts/check.py:214-217 | a regular file named `modules` makes the code as written fail, while the corrected discovery reports no modules |
| Discovery.DiscoverAgreesWhereAsWrittenReturns | scripts/check.py:209-257 | wherever the code as written returns, its result is the corrected discovery's |
| Discovery.LaterCandidatesIrrelevant | scripts/check.py:243-250 | once a candidate exists, the later candidates do not affect the record |
| Discovery.EmptyFirstExportShadowsLater | scripts/check.py:243-252 | an existing first export directory without `*.cpp.h` files leaves the module without an export, even though a later candidate holds one |
| Guidance.ModuleLog | scripts/check.py:270-275 | one entry per module: a success exactly when it is complete, a warning exactly when it has a source but no export, an issue exactly when it has no source |
| Guidance.IncompleteModuleMessage | scripts/check.py:270-275 | a module without `Source` logs one issue listing "Source/" and, when it has no export either, the export note after ", " |
| Text.JoinWith | scripts/check.py:275 | the joined text is as long as the parts plus one separator between each two, starts with the first part, and puts the separator right after it |
| Text.JoinWithSnoc | scripts/check.py:275 | joining one more part appends the separator and that part |
| Checker.EnvironmentChecker.CheckModule | scripts/check.py:270-275 | appends what ModuleLog says |
| Guidance.EachModuleLog | scripts/check.py:269-275 | one entry per module, and no issue exactly when every module has a source |
| Checker.EnvironmentChecker.CheckEachModule | scripts/check.py:269-275 | the loop appends the module entries in order |
| Guidance.ModulesLog | scripts/check.py:263-275 | no modules means exactly one warning and nothing else; otherwise one entry per module |
| Checker.EnvironmentChecker.CheckModules | scripts/check.py:259-275 | appends what ModulesLog says of the discovered modules |
| Guidance.CompleteModules | scripts/check.py:305 | every module kept is complete |
| Guidance.IncompleteModules | scripts/check.py:304 | every module kept is incomplete |
| Guidance.CompleteModulesAppend | scripts/check.py:305 | the complete modules keep their order: filtering two runs of modules gives the two filtered runs one after the other |
| Guidance.IncompleteModulesAppend | scripts/check.py:304 | the incomplete modules keep their order in the same way |
| Guidance.PartitionIsExact | scripts/check.py:304-305 | together the two lists hold every discovered module exactly once (as multisets) |
| Guidance.SuccessesMatchPartition | scripts/check.py:269-275 | the loop of check_modules over the modules logs as many successes as there are complete modules, and as many warnings and issues together as there are incomplete ones |
| Guidance.NextSteps | scripts/check.py:277-328 | any issue selects the fix-first section and repeats exactly the issues; otherwise the warnings are repeated; the demo is recommended exactly when there are no modules; the ready list names the complete modules |
| Guidance.ExportTargets | scripts/check.py:307-312 | at most one name per incomplete module; every name when no module has an export, none when every module has one |
| Guidance.ExportTargetsAppend | scripts/check.py:307-312 | the names follow the modules' order: the names of two runs of modules are the names of the first run, then those of the second |
| Guidance.ExportTargetsComplete | scripts/check.py:307-312 | every incomplete module without an export is told to export |
| Guidance.ExportTargetsSound | scripts/check.py:307-312 | every module told to export is an incomplete module without an export |
| Guidance.IncompleteWithSourceLackExport | scripts/check.py:307-312 | when every module has a source, the export guidance names every incomplete module |
| Guidance.GuidanceCoversEveryModule | scripts/check.py:297-317 | with modules and no issue logged by any check, every incomplete module is told to export and every complete one is listed as ready |
| Checker.EnvironmentChecker.SuggestNextSteps | scripts/check.py:277-328 | the advice is NextSteps of the logged issues and warnings and of the discovered modules; with an issue logged it repeats exactly the issues |
| Checker.EnvironmentChecker.Run | scripts/check.py:330-362 | the buckets grow by the five checks' logs in order; the result is true exactly when no issue was logged; the advice is NextSteps of the final buckets |
| Checker.ExitStatus | scripts/check.py:369 | the status is 0 or 1, and 0 exactly on success |
| Checker.CheckEnvironment | scripts/check.py:365-369 | a fresh checker's run exits with 0 exactly when the whole run logs no issue, and advises as NextSteps says of that run |
| Checker.CleanRunCoversEveryModule | scripts/check.py:283-317 | a run without issues proceeds, with the demo when there are no modules, and otherwise with export guidance for every incomplete module and a ready list of the complete ones |
| Checker.NoModulesDirBlocksDemo | scripts/check.py:172-288 | without a `modules` directory the structure check logs "Missing modules", so the fix-first section is chosen and the demo is never recommended |
| Checker.ModuleWithoutSourceBlocksAdvice | scripts/check.py:259-288 | one discovered module without a `Source` tree is enough to select the fix-first section |

## Left out

- Printing: the headings, the summary counts and the fixed command lines the
  script prints are not modelled. `Guidance.Advice` records only the choices
  that determine them.
- Subprocesses: a command's outcome is an input (`Host.World.commands`).
  The 10-second timeout, `TimeoutExpired` and `SubprocessError` all become
  the `Raised` outcome, and so does a command that cannot be found.
  Newline translation under `text=True` is not modelled.
- Probes.CommandLog: `check_command` catches only `TimeoutExpired`,
  `FileNotFoundError` and `SubprocessError`. A `PermissionError` or other
  `OSError` from `subprocess.run` (a file that is not executable, or not a
  valid executable), or a `UnicodeDecodeError` when decoding output under
  `text=True`, escapes and ends the run with a traceback. The model assumes
  `subprocess.run` raises nothing else, so `Outcome` has no value for these.
- The platform, the home directory and `Path(__file__).parent.parent` are
  fields of the world. `platform.system()` values other than Darwin, Linux
  and Windows are one case.
- Buildroots.SspLog: when `SSP_BUILDROOT` is unset or empty, `scripts/check.py:146`
  calls `Path.home()`. That call raises when `HOME` is unset and the user
  has no password-database entry: `RuntimeError` on Python 3.10 and later,
  `KeyError` from `pwd.getpwuid` on earlier versions. Nothing catches it, so
  the run would end with a traceback before the XMX check, the summary and
  the advice. The model assumes the home directory always resolves
  (`Host.World.home` is always a path), and so do the contracts of
  `Buildroots.SspLog` and `Checker.CheckEnvironment`.
- Paths are joined with "/" without normalisation. Symbolic links,
  permission errors and case-insensitive filesystems are not modelled.
- The filesystem is fixed for the whole run. In particular, the second call
  to `find_modules` from `suggest_next_steps` sees the same modules as the
  first.
- `iterdir` order is whatever the world's directory entries list; Python
  does not fix that order.
- `Path.glob("*.cpp.h")` is taken as a file-name suffix test over a
  directory's entries. Hidden files and the kind of the matched entry are
  not distinguished.

## Findings

| source | as written | input that shows it | evidently intended | confidence | as-written member | corrected member |
|---|---|---|---|---|---|---|
| scripts/check.py:214-217 | `find_modules` tests `modules_dir.exists()` and then calls `iterdir()` without catching anything | a project whose `modules` is a regular file: `iterdir` raises NotADirectoryError, and `check_modules` and the whole run end with a traceback | treat a `modules` that is not a directory like a missing one: no modules, and the "No modules found" warning | not executed | Discovery.ModulesFileAborts | Checker.EnvironmentChecker.FindModules |
