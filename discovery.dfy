/** `find_modules`: enumerating the module directories and classifying each
    by its source subtree and its RNBO export. */
module Discovery {
  import opened Host
  import opened Text

  /** The record find_modules builds for one module directory. */
  datatype ModuleInfo = ModuleInfo(
    name: string,
    path: Path,
    hasSource: bool,
    hasRnboExport: bool,
    rnboExportPath: Option<Path>,
    missingFiles: seq<string>)

  /** Names below `modules` that are never modules. */
  const Reserved := ["common", "inc", ".gitignore"]

  function ModulesDir(root: Path): Path
  {
    Join(root, "modules")
  }

  /** The export directory names tried, in priority order. */
  function ExportCandidates(item: Path, name: string): (c: seq<Path>)
    ensures |c| == 4
  {
    [Join(item, name + "-rnbo"), Join(item, name + "-export"), Join(item, "rnbo-export"), Join(item, "export")]
  }

  /** A name the glob `*.cpp.h` matches. */
  predicate IsRnboFile(name: string)
  {
    EndsWith(name, ".cpp.h")
  }

  /** `list(dir.glob("*.cpp.h"))` is non-empty. */
  predicate HoldsRnboFiles(fs: FileSystem, dir: Path)
  {
    exists i :: 0 <= i < |fs.Entries(dir)| && IsRnboFile(fs.Entries(dir)[i])
  }

  function MissingExportNote(name: string): string
  {
    name + "-rnbo/ (with .cpp.h files)"
  }

  /** The export directory of a module: the first candidate that exists,
      whether or not it holds any generated files. */
  function ExportDir(fs: FileSystem, item: Path, name: string): (d: Option<Path>)
    ensures d.None? <==> forall j :: 0 <= j < 4 ==> !fs.Exists(ExportCandidates(item, name)[j])
    ensures d.Some? ==> exists k :: (0 <= k < 4 && d.value == ExportCandidates(item, name)[k] &&
      fs.Exists(ExportCandidates(item, name)[k]) &&
      forall j :: 0 <= j < k ==> !fs.Exists(ExportCandidates(item, name)[j]))
  {
    var candidates := ExportCandidates(item, name);
    match fs.FirstExisting(candidates)
    case Some(k) => Some(candidates[k])
    case None => None
  }

  /** The record for the module directory `item` named `name`. */
  function Classify(fs: FileSystem, item: Path, name: string): (m: ModuleInfo)
    ensures m.name == name && m.path == item
    ensures m.hasSource <==> fs.Exists(Join(item, "Source"))
    ensures m.rnboExportPath == ExportDir(fs, item, name)
    ensures m.hasRnboExport <==> m.rnboExportPath.Some? && HoldsRnboFiles(fs, m.rnboExportPath.value)
    ensures "Source/" in m.missingFiles <==> !m.hasSource
    ensures MissingExportNote(name) in m.missingFiles <==> !m.hasRnboExport
    ensures |m.missingFiles| == (if m.hasSource then 0 else 1) + (if m.hasRnboExport then 0 else 1)
    ensures !m.hasSource ==> m.missingFiles[0] == "Source/"
  {
    var hasSource := fs.Exists(Join(item, "Source"));
    var exportDir := ExportDir(fs, item, name);
    var hasExport := exportDir.Some? && HoldsRnboFiles(fs, exportDir.value);
    assert |MissingExportNote(name)| > |"Source/"|;
    ModuleInfo(name, item, hasSource, hasExport, exportDir,
      (if hasSource then [] else ["Source/"]) + (if hasExport then [] else [MissingExportNote(name)]))
  }

  /** An entry of `dir` that find_modules turns into a record. */
  predicate IsModuleEntry(fs: FileSystem, dir: Path, name: string)
  {
    fs.IsDir(Join(dir, name)) && name !in Reserved
  }

  predicate Distinct(names: seq<string>)
  {
    forall i, j :: 0 <= i < j < |names| ==> names[i] != names[j]
  }

  /** The records for the entries `names` of `dir`, in the order listed. */
  function DiscoverIn(fs: FileSystem, dir: Path, names: seq<string>): (ms: seq<ModuleInfo>)
    ensures |ms| <= |names|
    ensures forall i :: 0 <= i < |ms| ==>
      ms[i].name in names && IsModuleEntry(fs, dir, ms[i].name) &&
      ms[i] == Classify(fs, Join(dir, ms[i].name), ms[i].name)
  {
    if names == [] then []
    else
      var init := names[..|names| - 1];
      var last := names[|names| - 1];
      var rest := DiscoverIn(fs, dir, init);
      assert forall c :: c in init ==> c in names;
      rest + (if IsModuleEntry(fs, dir, last) then [Classify(fs, Join(dir, last), last)] else [])
  }

  /** Every entry that is a module directory gets a record. */
  lemma {:induction false} DiscoverInCoversEvery(fs: FileSystem, dir: Path, names: seq<string>, c: string)
    requires c in names && IsModuleEntry(fs, dir, c)
    ensures exists i :: 0 <= i < |DiscoverIn(fs, dir, names)| && DiscoverIn(fs, dir, names)[i].name == c
  {
    var init := names[..|names| - 1];
    var last := names[|names| - 1];
    var rest := DiscoverIn(fs, dir, init);
    var ms := DiscoverIn(fs, dir, names);
    assert names == init + [last];
    if c == last {
      assert ms[|rest|].name == c;
    } else {
      assert c in init;
      DiscoverInCoversEvery(fs, dir, init, c);
      var i :| 0 <= i < |rest| && rest[i].name == c;
      assert ms[i] == rest[i];
    }
  }

  function Names(ms: seq<ModuleInfo>): (r: seq<string>)
    ensures |r| == |ms|
    ensures forall i :: 0 <= i < |ms| ==> r[i] == ms[i].name
  {
    if ms == [] then [] else Names(ms[..|ms| - 1]) + [ms[|ms| - 1].name]
  }

  /** Distinct entries give records with distinct names. */
  lemma {:induction false} DiscoverInDistinct(fs: FileSystem, dir: Path, names: seq<string>)
    requires Distinct(names)
    ensures Distinct(Names(DiscoverIn(fs, dir, names)))
  {
    if names != [] {
      var init := names[..|names| - 1];
      var last := names[|names| - 1];
      var rest := DiscoverIn(fs, dir, init);
      var ms := DiscoverIn(fs, dir, names);
      assert Distinct(init) by {
        assert forall i :: 0 <= i < |init| ==> init[i] == names[i];
      }
      DiscoverInDistinct(fs, dir, init);
      if IsModuleEntry(fs, dir, last) {
        assert ms == rest + [Classify(fs, Join(dir, last), last)];
        var before, after := Names(rest), Names(ms);
        forall i, j | 0 <= i < j < |after|
          ensures after[i] != after[j]
        {
          assert after[i] == before[i];
          if j < |rest| {
            assert after[j] == before[j];
          } else {
            var k :| 0 <= k < |init| && init[k] == rest[i].name;
            assert init[k] == names[k];
          }
        }
      } else {
        assert ms == rest;
      }
    }
  }

  lemma DiscoverInSnoc(fs: FileSystem, dir: Path, names: seq<string>, i: nat)
    requires i < |names|
    ensures DiscoverIn(fs, dir, names[..i + 1]) == DiscoverIn(fs, dir, names[..i]) +
      (if IsModuleEntry(fs, dir, names[i]) then [Classify(fs, Join(dir, names[i]), names[i])] else [])
  {
    assert names[..i + 1][..i] == names[..i];
  }

  /** What find_modules returns: one record per subdirectory of `dir` that
      is not reserved, and none when `dir` is not a directory. */
  function Discover(fs: FileSystem, dir: Path): (ms: seq<ModuleInfo>)
    ensures !fs.IsDir(dir) ==> ms == []
  {
    DiscoverIn(fs, dir, fs.Entries(dir))
  }

  /** find_modules as written: `modules` is checked with `exists()` before
      `iterdir()`, so a regular file named `modules` makes `iterdir` raise
      NotADirectoryError, which nothing catches (None). */
  function FindModulesAsWritten(fs: FileSystem, dir: Path): (r: Option<seq<ModuleInfo>>)
    ensures r.None? <==> fs.IsFile(dir)
  {
    if !fs.Exists(dir) then Some([])
    else if fs.IsDir(dir) then Some(DiscoverIn(fs, dir, fs.Entries(dir)))
    else None
  }

  /** A project whose `modules` is a regular file stops find_modules as
      written; the corrected discovery reports no modules. */
  lemma ModulesFileAborts(root: Path)
    ensures var fs := FileSystem(map[ModulesDir(root) := File]);
      FindModulesAsWritten(fs, ModulesDir(root)).None? && Discover(fs, ModulesDir(root)) == []
  {
  }

  /** Wherever the code as written returns, the corrected discovery agrees with it. */
  lemma DiscoverAgreesWhereAsWrittenReturns(fs: FileSystem, dir: Path)
    ensures FindModulesAsWritten(fs, dir).Some? ==> FindModulesAsWritten(fs, dir).value == Discover(fs, dir)
  {
  }

  /** Once a candidate exists, the candidates after it do not matter: a
      filesystem that agrees on the candidates up to the first existing one,
      on that one's generated files and on `Source` gives the same record. */
  lemma LaterCandidatesIrrelevant(fs: FileSystem, fs': FileSystem, item: Path, name: string, k: nat)
    requires fs.FirstExisting(ExportCandidates(item, name)) == Some(k)
    requires forall j :: 0 <= j <= k ==>
      (fs'.Exists(ExportCandidates(item, name)[j]) <==> fs.Exists(ExportCandidates(item, name)[j]))
    requires HoldsRnboFiles(fs', ExportCandidates(item, name)[k]) == HoldsRnboFiles(fs, ExportCandidates(item, name)[k])
    requires fs'.Exists(Join(item, "Source")) == fs.Exists(Join(item, "Source"))
    ensures Classify(fs', item, name) == Classify(fs, item, name)
  {
  }

  /** An existing export directory without generated files is not an
      export, even when a later candidate holds such files. */
  lemma EmptyFirstExportShadowsLater()
    ensures var fs := FileSystem(map[
        "modules/mod/mod-rnbo" := Dir([]),
        "modules/mod/export" := Dir(["mod.cpp.h"])]);
      var m := Classify(fs, "modules/mod", "mod");
      HoldsRnboFiles(fs, "modules/mod/export") &&
      !m.hasRnboExport && m.rnboExportPath == Some("modules/mod/mod-rnbo")
  {
    var fs := FileSystem(map[
        "modules/mod/mod-rnbo" := Dir([]),
        "modules/mod/export" := Dir(["mod.cpp.h"])]);
    var c := ExportCandidates("modules/mod", "mod");
    assert c[0] == "modules/mod/mod-rnbo";
    assert fs.FirstExisting(c) == Some(0);
    assert fs.Entries(c[0]) == [];
    assert fs.Entries("modules/mod/export") == ["mod.cpp.h"];
    assert IsRnboFile(fs.Entries("modules/mod/export")[0]);
  }
}
