/** The three append-only message buckets of a run, as a value: what a
    check adds, or everything a run has logged so far. */
module Log {

  datatype Entries = Entries(successes: seq<string>, warnings: seq<string>, issues: seq<string>) {

    /** These entries followed by `later`, bucket by bucket. */
    function Then(later: Entries): Entries
    {
      Entries(successes + later.successes, warnings + later.warnings, issues + later.issues)
    }

    function Count(): nat
    {
      |successes| + |warnings| + |issues|
    }
  }

  const NoEntries := Entries([], [], [])

  /** What `log_success(message)` adds. */
  function Success(message: string): Entries
  {
    Entries(["OK " + message], [], [])
  }

  /** What `log_warning(message)` adds. */
  function Warning(message: string): Entries
  {
    Entries([], ["WARN " + message], [])
  }

  /** What `log_issue(message)` adds. */
  function Issue(message: string): Entries
  {
    Entries([], [], ["FAIL " + message])
  }

  lemma ThenAssociative(a: Entries, b: Entries, c: Entries)
    ensures a.Then(b).Then(c) == a.Then(b.Then(c))
  {
    assert a.successes + b.successes + c.successes == a.successes + (b.successes + c.successes);
    assert a.warnings + b.warnings + c.warnings == a.warnings + (b.warnings + c.warnings);
    assert a.issues + b.issues + c.issues == a.issues + (b.issues + c.issues);
  }

  lemma ThenNoEntries(a: Entries)
    ensures a.Then(NoEntries) == a && NoEntries.Then(a) == a
  {
    assert a.successes + [] == a.successes;
    assert a.warnings + [] == a.warnings;
    assert a.issues + [] == a.issues;
  }
}
