/** `check_environment_variables`: the two cross-compilation roots. */
module Buildroots {
  import opened Host
  import opened Log

  /** Python truthiness of `os.environ.get(name)`: an empty value counts as unset. */
  predicate IsSet(w: World, name: string)
  {
    w.Getenv(name).Some? && w.Getenv(name).value != ""
  }

  /** Both subdirectories a buildroot for `triple` is expected to hold. */
  predicate HasLayout(fs: FileSystem, root: Path, triple: string)
  {
    fs.Exists(Join(Join(root, triple), "sysroot")) &&
    fs.Exists(Join(Join(Join(root, "lib"), "gcc"), triple))
  }

  /** The entry logged for variable `name` when it is set to `root`. */
  function SetRootLog(fs: FileSystem, name: string, root: Path, triple: string): (e: Entries)
    ensures e.Count() == 1
    ensures e.successes != [] <==> fs.Exists(root) && HasLayout(fs, root, triple)
    ensures e.warnings != [] <==> fs.Exists(root) && !HasLayout(fs, root, triple)
    ensures e.issues != [] <==> !fs.Exists(root)
  {
    if fs.Exists(root) then
      if HasLayout(fs, root, triple) then Success(name + " valid: " + root)
      else Warning(name + " path exists but missing expected subdirectories: " + root)
    else Issue(name + " path does not exist: " + root)
  }

  const SspVariable := "SSP_BUILDROOT"
  const SspTriple := "arm-rockchip-linux-gnueabihf"
  const SspDownload := "https://sw13072022.s3.us-west-1.amazonaws.com/arm-rockchip-linux-gnueabihf_sdk-buildroot.tar.gz"

  /** `Path.home() / "buildroot" / "arm-rockchip-linux-gnueabihf_sdk-buildroot"` */
  function SspDefault(home: Path): Path
  {
    Join(Join(home, "buildroot"), "arm-rockchip-linux-gnueabihf_sdk-buildroot")
  }

  /** What the SSP_BUILDROOT part of the check logs. */
  function SspLog(w: World): (e: Entries)
    ensures IsSet(w, SspVariable) ==> e.Count() == 1
    ensures IsSet(w, SspVariable) ==>
      var root := w.Getenv(SspVariable).value;
      (e.successes != [] <==> w.fs.Exists(root) && HasLayout(w.fs, root, SspTriple)) &&
      (e.warnings != [] <==> w.fs.Exists(root) && !HasLayout(w.fs, root, SspTriple)) &&
      (e.issues != [] <==> !w.fs.Exists(root))
    ensures !IsSet(w, SspVariable) && w.fs.Exists(SspDefault(w.home)) ==>
      |e.successes| == 1 && |e.warnings| == 1 && e.issues == []
    ensures !IsSet(w, SspVariable) && !w.fs.Exists(SspDefault(w.home)) ==>
      e.successes == [] && e.warnings == [] && |e.issues| == 2
  {
    if IsSet(w, SspVariable) then
      SetRootLog(w.fs, SspVariable, w.Getenv(SspVariable).value, SspTriple)
    else if w.fs.Exists(SspDefault(w.home)) then
      Success("Default SSP buildroot found: " + SspDefault(w.home))
        .Then(Warning("Consider setting SSP_BUILDROOT environment variable"))
    else
      Issue("SSP_BUILDROOT not set and default location not found")
        .Then(Issue("Download from: " + SspDownload))
  }

  const XmxVariable := "XMX_BUILDROOT"
  const XmxTriple := "aarch64-rockchip-linux-gnu"

  /** What the XMX_BUILDROOT part of the check logs; the variable is optional. */
  function XmxLog(w: World): (e: Entries)
    ensures e.Count() == 1
    ensures IsSet(w, XmxVariable) ==>
      var root := w.Getenv(XmxVariable).value;
      (e.successes != [] <==> w.fs.Exists(root) && HasLayout(w.fs, root, XmxTriple)) &&
      (e.warnings != [] <==> w.fs.Exists(root) && !HasLayout(w.fs, root, XmxTriple)) &&
      (e.issues != [] <==> !w.fs.Exists(root))
    ensures !IsSet(w, XmxVariable) ==> e.successes == [] && |e.warnings| == 1 && e.issues == []
  {
    if IsSet(w, XmxVariable) then
      SetRootLog(w.fs, XmxVariable, w.Getenv(XmxVariable).value, XmxTriple)
    else
      Warning("XMX_BUILDROOT not set (only needed for XMX builds)")
  }

  function EnvironmentLog(w: World): Entries
  {
    SspLog(w).Then(XmxLog(w))
  }

  /** A variable set to the empty string is handled exactly like an unset one. */
  lemma EmptyValueIsUnset(w: World)
    ensures w.Getenv(SspVariable) == Some("") ==> SspLog(w) == SspLog(w.(environ := w.environ - {SspVariable}))
    ensures w.Getenv(XmxVariable) == Some("") ==> XmxLog(w) == XmxLog(w.(environ := w.environ - {XmxVariable}))
  {
  }
}
