/** `check_modules` (one severity per module) and the recommendation logic
    of `suggest_next_steps`. */
module Guidance {
  import opened Host
  import opened Text
  import opened Log
  import opened Discovery

  /** The one completeness test, shared by check_modules and suggest_next_steps. */
  predicate IsComplete(m: ModuleInfo)
  {
    m.hasSource && m.hasRnboExport
  }

  /** The one entry check_modules logs for a module. */
  function ModuleLog(m: ModuleInfo): (e: Entries)
    ensures e.Count() == 1
    ensures e.successes != [] <==> IsComplete(m)
    ensures e.warnings != [] <==> m.hasSource && !m.hasRnboExport
    ensures e.issues != [] <==> !m.hasSource
  {
    if IsComplete(m) then Success("Module " + m.name + " is complete")
    else if m.hasSource then Warning("Module " + m.name + " missing RNBO export")
    else Issue("Module " + m.name + " incomplete: missing " + JoinWith(", ", m.missingFiles))
  }

  /** The issue for a module without a source tree names "Source/" and,
      when it also lacks an export, the expected export directory after ", ". */
  lemma IncompleteModuleMessage(fs: FileSystem, item: Path, name: string)
    requires !fs.Exists(Join(item, "Source"))
    ensures var m := Classify(fs, item, name);
      ModuleLog(m).issues == ["FAIL " + ("Module " + name + " incomplete: missing " +
        (if m.hasRnboExport then "Source/" else "Source/" + ", " + MissingExportNote(name)))]
  {
    var m := Classify(fs, item, name);
    if m.hasRnboExport {
      assert m.missingFiles == ["Source/"];
    } else {
      var note := MissingExportNote(name);
      assert |note| > |"Source/"|;
      assert m.missingFiles == ["Source/", note];
      assert ["Source/", note][1..] == [note];
      assert JoinWith(", ", m.missingFiles) == "Source/" + ", " + note;
    }
  }

  /** The loop over the modules: one entry each, an issue exactly for those without a source tree. */
  function EachModuleLog(ms: seq<ModuleInfo>): (e: Entries)
    ensures e.Count() == |ms|
    ensures e.issues == [] <==> forall i :: 0 <= i < |ms| ==> ms[i].hasSource
  {
    if ms == [] then NoEntries
    else
      var init := ms[..|ms| - 1];
      var last := ms[|ms| - 1];
      assert (forall i :: 0 <= i < |ms| ==> ms[i].hasSource) <==>
        (forall i :: 0 <= i < |init| ==> init[i].hasSource) && last.hasSource by {
        assert forall i :: 0 <= i < |init| ==> init[i] == ms[i];
      }
      EachModuleLog(init).Then(ModuleLog(last))
  }

  lemma EachModuleLogSnoc(ms: seq<ModuleInfo>, i: nat)
    requires i < |ms|
    ensures EachModuleLog(ms[..i + 1]) == EachModuleLog(ms[..i]).Then(ModuleLog(ms[i]))
  {
    assert ms[..i + 1][..i] == ms[..i];
  }

  /** What check_modules logs for the discovered modules `ms`. */
  function ModulesLog(ms: seq<ModuleInfo>): (e: Entries)
    ensures ms == [] ==> e.successes == [] && |e.warnings| == 1 && e.issues == []
    ensures ms != [] ==> e.Count() == |ms|
  {
    if ms == [] then Warning("No modules found") else EachModuleLog(ms)
  }

  /** `[m for m in ms if m["has_source"] and m["has_rnbo_export"]]` */
  function CompleteModules(ms: seq<ModuleInfo>): (r: seq<ModuleInfo>)
    ensures forall i :: 0 <= i < |r| ==> IsComplete(r[i])
  {
    if ms == [] then []
    else
      var last := ms[|ms| - 1];
      CompleteModules(ms[..|ms| - 1]) + (if IsComplete(last) then [last] else [])
  }

  /** `[m for m in ms if not (m["has_source"] and m["has_rnbo_export"])]` */
  function IncompleteModules(ms: seq<ModuleInfo>): (r: seq<ModuleInfo>)
    ensures forall i :: 0 <= i < |r| ==> !IsComplete(r[i])
  {
    if ms == [] then []
    else
      var last := ms[|ms| - 1];
      IncompleteModules(ms[..|ms| - 1]) + (if IsComplete(last) then [] else [last])
  }

  /** `CompleteModules` keeps the modules' order: filtering two runs of
      modules one after the other gives the two filtered runs one after
      the other. */
  lemma {:induction false} CompleteModulesAppend(a: seq<ModuleInfo>, b: seq<ModuleInfo>)
    ensures CompleteModules(a + b) == CompleteModules(a) + CompleteModules(b)
    decreases |b|
  {
    if b == [] {
      assert a + b == a;
    } else {
      var init := b[..|b| - 1];
      assert (a + b)[..|a + b| - 1] == a + init;
      assert (a + b)[|a + b| - 1] == b[|b| - 1];
      CompleteModulesAppend(a, init);
    }
  }

  /** `IncompleteModules` keeps the modules' order in the same way. */
  lemma {:induction false} IncompleteModulesAppend(a: seq<ModuleInfo>, b: seq<ModuleInfo>)
    ensures IncompleteModules(a + b) == IncompleteModules(a) + IncompleteModules(b)
    decreases |b|
  {
    if b == [] {
      assert a + b == a;
    } else {
      var init := b[..|b| - 1];
      assert (a + b)[..|a + b| - 1] == a + init;
      assert (a + b)[|a + b| - 1] == b[|b| - 1];
      IncompleteModulesAppend(a, init);
    }
  }

  /** The two partitions together hold every module exactly once. */
  lemma {:induction false} PartitionIsExact(ms: seq<ModuleInfo>)
    ensures multiset(CompleteModules(ms)) + multiset(IncompleteModules(ms)) == multiset(ms)
  {
    if ms != [] {
      var init := ms[..|ms| - 1];
      var last := ms[|ms| - 1];
      var complete, incomplete := CompleteModules(init), IncompleteModules(init);
      PartitionIsExact(init);
      assert ms == init + [last];
      assert multiset(ms) == multiset(init) + multiset{last};
      if IsComplete(last) {
        assert CompleteModules(ms) == complete + [last];
        assert multiset(complete + [last]) == multiset(complete) + multiset{last};
        assert IncompleteModules(ms) == incomplete;
      } else {
        assert CompleteModules(ms) == complete;
        assert IncompleteModules(ms) == incomplete + [last];
        assert multiset(incomplete + [last]) == multiset(incomplete) + multiset{last};
      }
    }
  }

  /** check_modules reports a success for exactly the modules of the
      complete partition, and a warning or an issue for the others. */
  lemma {:induction false} SuccessesMatchPartition(ms: seq<ModuleInfo>)
    ensures |EachModuleLog(ms).successes| == |CompleteModules(ms)|
    ensures |EachModuleLog(ms).warnings| + |EachModuleLog(ms).issues| == |IncompleteModules(ms)|
  {
    if ms != [] {
      SuccessesMatchPartition(ms[..|ms| - 1]);
    }
  }

  /** Names of the modules that get an "Export RNBO patch to <name>-rnbo/"
      line: those of `incomplete` without an export, in order. */
  function ExportTargets(incomplete: seq<ModuleInfo>): (r: seq<string>)
    ensures |r| <= |incomplete|
    ensures (forall k :: 0 <= k < |incomplete| ==> !incomplete[k].hasRnboExport) ==> r == Names(incomplete)
    ensures (forall k :: 0 <= k < |incomplete| ==> incomplete[k].hasRnboExport) ==> r == []
  {
    if incomplete == [] then []
    else
      var init := incomplete[..|incomplete| - 1];
      var last := incomplete[|incomplete| - 1];
      assert (forall k :: 0 <= k < |incomplete| ==> !incomplete[k].hasRnboExport) ==>
        forall k :: 0 <= k < |init| ==> !init[k].hasRnboExport;
      assert (forall k :: 0 <= k < |incomplete| ==> incomplete[k].hasRnboExport) ==>
        forall k :: 0 <= k < |init| ==> init[k].hasRnboExport;
      ExportTargets(init) + (if last.hasRnboExport then [] else [last.name])
  }

  /** The names keep the modules' order: listing two runs of modules one
      after the other lists their names one after the other. */
  lemma {:induction false} ExportTargetsAppend(a: seq<ModuleInfo>, b: seq<ModuleInfo>)
    ensures ExportTargets(a + b) == ExportTargets(a) + ExportTargets(b)
    decreases |b|
  {
    if b == [] {
      assert a + b == a;
    } else {
      var init := b[..|b| - 1];
      var last := b[|b| - 1];
      assert (a + b)[..|a + b| - 1] == a + init;
      assert (a + b)[|a + b| - 1] == last;
      ExportTargetsAppend(a, init);
    }
  }

  /** Every module of `incomplete` without an export is named. */
  lemma {:induction false} ExportTargetsComplete(incomplete: seq<ModuleInfo>, k: nat)
    requires k < |incomplete| && !incomplete[k].hasRnboExport
    ensures incomplete[k].name in ExportTargets(incomplete)
  {
    var init := incomplete[..|incomplete| - 1];
    if k < |init| {
      assert init[k] == incomplete[k];
      ExportTargetsComplete(init, k);
    }
  }

  /** Every name listed belongs to a module of `incomplete` without an export. */
  lemma {:induction false} ExportTargetsSound(incomplete: seq<ModuleInfo>, i: nat)
    requires i < |ExportTargets(incomplete)|
    ensures exists k :: (0 <= k < |incomplete| && !incomplete[k].hasRnboExport &&
      incomplete[k].name == ExportTargets(incomplete)[i])
  {
    var init := incomplete[..|incomplete| - 1];
    var last := incomplete[|incomplete| - 1];
    var rest := ExportTargets(init);
    if i < |rest| {
      ExportTargetsSound(init, i);
      var k :| 0 <= k < |init| && !init[k].hasRnboExport && init[k].name == rest[i];
      assert incomplete[k] == init[k];
    } else {
      assert !incomplete[|incomplete| - 1].hasRnboExport;
    }
  }

  /** What the module part of the advice recommends. */
  datatype Plan =
    | StartWithDemo
    | ModuleGuidance(exportTargets: seq<string>, buildReady: seq<string>)

  /** What suggest_next_steps prints, by section. */
  datatype Advice =
    | FixIssuesFirst(issues: seq<string>)
    | Proceed(warnings: seq<string>, plan: Plan)

  /** suggest_next_steps over the logged issues and warnings and the discovered modules. */
  function NextSteps(issues: seq<string>, warnings: seq<string>, ms: seq<ModuleInfo>): (a: Advice)
    ensures a.FixIssuesFirst? <==> issues != []
    ensures a.FixIssuesFirst? ==> a.issues == issues
    ensures a.Proceed? ==> a.warnings == warnings && (a.plan.StartWithDemo? <==> ms == [])
    ensures a.Proceed? && a.plan.ModuleGuidance? ==>
      |a.plan.exportTargets| <= |IncompleteModules(ms)| && a.plan.buildReady == Names(CompleteModules(ms))
  {
    if issues != [] then FixIssuesFirst(issues)
    else if ms == [] then Proceed(warnings, StartWithDemo)
    else Proceed(warnings, ModuleGuidance(ExportTargets(IncompleteModules(ms)), Names(CompleteModules(ms))))
  }

  lemma {:induction false} IncompleteWithSourceLackExport(ms: seq<ModuleInfo>)
    requires forall i :: 0 <= i < |ms| ==> ms[i].hasSource
    ensures ExportTargets(IncompleteModules(ms)) == Names(IncompleteModules(ms))
  {
    if ms != [] {
      var init := ms[..|ms| - 1];
      var last := ms[|ms| - 1];
      IncompleteWithSourceLackExport(init);
      if !IsComplete(last) {
        var r := IncompleteModules(init) + [last];
        assert r[..|r| - 1] == IncompleteModules(init);
        assert !last.hasRnboExport;
        assert ExportTargets(r) == ExportTargets(IncompleteModules(init)) + [last.name];
        assert Names(r) == Names(IncompleteModules(init)) + [last.name];
      } else {
        assert IncompleteModules(ms) == IncompleteModules(init);
      }
    }
  }

  /** When no check logged an issue (so check_modules logged none either),
      every incomplete module is offered an export target and every
      complete one is listed as ready. */
  lemma GuidanceCoversEveryModule(warnings: seq<string>, ms: seq<ModuleInfo>)
    requires ms != [] && ModulesLog(ms).issues == []
    ensures NextSteps([], warnings, ms) ==
      Proceed(warnings, ModuleGuidance(Names(IncompleteModules(ms)), Names(CompleteModules(ms))))
  {
    IncompleteWithSourceLackExport(ms);
  }
}
