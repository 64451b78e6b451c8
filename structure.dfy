/** `check_project_structure`: fixed files and directories below the project root. */
module Structure {
  import opened Host
  import opened Log

  datatype Kind = RegularFile | Directory

  datatype KeyPath = KeyPath(path: string, kind: Kind)

  const KeyPaths := [
    KeyPath("CMakeLists.txt", RegularFile),
    KeyPath("juce", Directory),
    KeyPath("ssp-sdk", Directory),
    KeyPath("modules", Directory),
    KeyPath("template/module", Directory),
    KeyPath("scripts/createModule.py", RegularFile),
    KeyPath("scripts/addDemo.py", RegularFile)
  ]

  /** The path is there and is of the expected kind. */
  predicate Present(fs: FileSystem, root: Path, key: KeyPath)
  {
    match key.kind
    case RegularFile => fs.IsFile(Join(root, key.path))
    case Directory => fs.IsDir(Join(root, key.path))
  }

  /** One entry per key path: a success naming it (with a trailing "/" for
      a directory) when it is present, otherwise the "Missing" issue. */
  function KeyPathLog(fs: FileSystem, root: Path, key: KeyPath): (e: Entries)
    ensures e.Count() == 1 && e.warnings == []
    ensures e.successes != [] <==> Present(fs, root, key)
    ensures !Present(fs, root, key) ==> e.issues == ["FAIL " + ("Missing " + key.path)]
    ensures Present(fs, root, key) && key.kind == RegularFile ==> e.successes == ["OK " + ("Found " + key.path)]
    ensures Present(fs, root, key) && key.kind == Directory ==> e.successes == ["OK " + ("Found " + key.path + "/")]
  {
    if key.kind == RegularFile && fs.IsFile(Join(root, key.path)) then Success("Found " + key.path)
    else if key.kind == Directory && fs.IsDir(Join(root, key.path)) then Success("Found " + key.path + "/")
    else Issue("Missing " + key.path)
  }

  /** The loop over the key paths: one entry per path, an issue exactly for each missing one. */
  function KeyPathsLog(fs: FileSystem, root: Path, keys: seq<KeyPath>): (e: Entries)
    ensures e.Count() == |keys| && e.warnings == []
    ensures |e.issues| == |keys| - |e.successes|
    ensures e.issues == [] <==> forall i :: 0 <= i < |keys| ==> Present(fs, root, keys[i])
  {
    if keys == [] then NoEntries
    else
      var init := keys[..|keys| - 1];
      var last := keys[|keys| - 1];
      assert (forall i :: 0 <= i < |keys| ==> Present(fs, root, keys[i])) <==>
        (forall i :: 0 <= i < |init| ==> Present(fs, root, init[i])) && Present(fs, root, last) by {
        assert forall i :: 0 <= i < |init| ==> init[i] == keys[i];
      }
      KeyPathsLog(fs, root, init).Then(KeyPathLog(fs, root, last))
  }

  lemma KeyPathsSnoc(fs: FileSystem, root: Path, keys: seq<KeyPath>, i: nat)
    requires i < |keys|
    ensures KeyPathsLog(fs, root, keys[..i + 1]) == KeyPathsLog(fs, root, keys[..i]).Then(KeyPathLog(fs, root, keys[i]))
  {
    assert keys[..i + 1][..i] == keys[..i];
  }

  /** `project_root / "juce" / "CMakeLists.txt"` */
  function JuceCMake(root: Path): Path
  {
    Join(Join(root, "juce"), "CMakeLists.txt")
  }

  /** An initialised JUCE submodule gives one success; otherwise two issues,
      the second saying how to initialise it. */
  function JuceLog(fs: FileSystem, root: Path): (e: Entries)
    ensures e.warnings == []
    ensures fs.Exists(JuceCMake(root)) ==>
      e.successes == ["OK " + "JUCE submodule initialized"] && e.issues == []
    ensures !fs.Exists(JuceCMake(root)) ==>
      e.successes == [] &&
      e.issues == ["FAIL " + "JUCE submodule not initialized", "FAIL " + "Run: git submodule update --init --recursive"]
  {
    if fs.Exists(JuceCMake(root)) then Success("JUCE submodule initialized")
    else
      var e := Issue("JUCE submodule not initialized").Then(Issue("Run: git submodule update --init --recursive"));
      assert e.issues == ["FAIL " + "JUCE submodule not initialized"] + ["FAIL " + "Run: git submodule update --init --recursive"];
      e
  }

  function StructureLog(w: World): Entries
  {
    KeyPathsLog(w.fs, w.projectRoot, KeyPaths).Then(JuceLog(w.fs, w.projectRoot))
  }

  function StructureOk(w: World): bool
  {
    (forall i :: 0 <= i < |KeyPaths| ==> Present(w.fs, w.projectRoot, KeyPaths[i])) &&
    w.fs.Exists(JuceCMake(w.projectRoot))
  }

  /** check_project_structure returns true exactly when it logs no issue. */
  lemma StructureOkIffNoIssue(w: World)
    ensures StructureOk(w) <==> StructureLog(w).issues == []
  {
  }
}
