/** What the gate's verdicts mean: with arbitrarily flaky commands, and with commands that depend only on the tree. */
module GateRules {
  import opened Options
  import opened Text
  import opened UnhandledErrors
  import opened Gate

  // ------------------------------------------------------------ flaky commands

  function NewOf(v: Verdict): seq<string> {
    if v.Rejected? then v.novel else []
  }

  function FlakyOf(v: Verdict): seq<string> {
    if v.Threw? then [] else v.flaky
  }

  function PreexistingOf(v: Verdict): seq<string> {
    if v.Threw? then [] else v.preexisting
  }

  predicate Apart(a: seq<string>, b: seq<string>) {
    forall id :: id in a ==> id !in b
  }

  /** Three lists that share no id and together hold `all`, with multiplicities. */
  predicate SortedInto(flaky: seq<string>, pre: seq<string>, novel: seq<string>, all: multiset<string>) {
    && multiset(flaky) + multiset(pre) + multiset(novel) == all
    && Apart(flaky, pre) && Apart(flaky, novel) && Apart(pre, novel)
  }

  predicate Subset(a: seq<string>, b: seq<string>) {
    forall id :: id in a ==> id in b
  }

  lemma SplitFacts(s: seq<string>, other: seq<string>)
    ensures Subset(Within(s, other), s) && Subset(Without(s, other), s)
    ensures Apart(Without(s, other), other) && Apart(Within(s, other), Without(s, other))
    ensures multiset(Within(s, other)) + multiset(Without(s, other)) == multiset(s)
  {
    WithinFacts(s, other);
    WithoutFacts(s, other);
    WithinWithout(s, other);
  }

  lemma ApartSubset(a: seq<string>, b: seq<string>, c: seq<string>)
    requires Apart(a, b) && Subset(c, b)
    ensures Apart(a, c) && Apart(c, a)
  {
  }

  lemma ApartSum(a: seq<string>, b: seq<string>, c: seq<string>)
    requires Apart(a, c) && Apart(b, c)
    ensures Apart(a + b, c)
  {
  }

  lemma Sorting(failures: seq<string>, still: seq<string>, onBase: seq<string>, confirmed: seq<string>)
    ensures var gone, pre, novel := Without(failures, still), Within(still, onBase), Without(still, onBase);
            SortedInto(gone + Without(novel, confirmed), pre, Within(novel, confirmed), multiset(gone) + multiset(still))
  {
    var gone, pre, novel := Without(failures, still), Within(still, onBase), Without(still, onBase);
    var extra, blamed := Without(novel, confirmed), Within(novel, confirmed);
    SplitFacts(failures, still);
    SplitFacts(still, onBase);
    SplitFacts(novel, confirmed);
    ApartSubset(gone, still, pre);
    ApartSubset(pre, novel, extra);
    ApartSum(gone, extra, pre);
    ApartSubset(gone, still, novel);
    ApartSubset(gone, novel, blamed);
    ApartSubset(blamed, extra, extra);
    ApartSum(gone, extra, blamed);
    ApartSubset(pre, novel, blamed);
  }

  lemma SortingRerun(failures: seq<string>, still: seq<string>)
    ensures var gone := Without(failures, still); SortedInto(gone, [], still, multiset(gone) + multiset(still))
  {
    SplitFacts(failures, still);
  }

  lemma SortingKnown(failures: seq<string>, still: seq<string>, onBase: seq<string>)
    requires Without(still, onBase) == []
    ensures var gone := Without(failures, still); SortedInto(gone, Within(still, onBase), [], multiset(gone) + multiset(still))
  {
    SplitFacts(failures, still);
    SplitFacts(still, onBase);
    ApartSubset(Without(failures, still), still, Within(still, onBase));
  }

  /**
   * Conservation under any flakiness: the failures that the first run showed
   * and the rerun did not, and those of the rerun, are sorted into flaky,
   * pre-existing and new: none lost, none invented, none in two groups.
   */
  lemma FailuresAreSorted(lab: Lab, n: nat, tree: string, base: Option<string>, step: Step,
                          selected: Option<seq<string>>, failures: seq<string>)
    requires !JudgeTests(lab, n, tree, base, step, selected, failures).0.Threw?
    ensures var v := JudgeTests(lab, n, tree, base, step, selected, failures).0;
            var rerun := RunStep(lab, n, tree, step, RerunScope(lab.prefix, failures, selected));
            && rerun.Some?
            && var still := FailuresOr(rerun.value, failures);
            SortedInto(FlakyOf(v), PreexistingOf(v), NewOf(v), multiset(Without(failures, still)) + multiset(still))
  {
    var still := FailuresOr(RunStep(lab, n, tree, step, RerunScope(lab.prefix, failures, selected)).value, failures);
    if still == [] || base.None? {
      SortingRerun(failures, still);
    } else {
      var onBase := FailuresOr(RunStep(lab, n + 2, base.value, step, RerunScope(lab.prefix, still, selected)).value, still);
      var novel := Without(still, onBase);
      if novel == [] {
        SortingKnown(failures, still, onBase);
      } else {
        var confirm := RunStep(lab, n + 3, tree, step, RerunScope(lab.prefix, novel, selected)).value;
        Sorting(failures, still, onBase, FailuresOr(confirm, novel));
        ConfirmedGroups(lab, n, tree, base.value, step, selected, failures, still, onBase, FailuresOr(confirm, novel));
      }
    }
  }

  /** The three groups when all four runs were needed. */
  lemma ConfirmedGroups(lab: Lab, n: nat, tree: string, base: string, step: Step, selected: Option<seq<string>>,
                        failures: seq<string>, still: seq<string>, onBase: seq<string>, confirmed: seq<string>)
    requires !JudgeTests(lab, n, tree, Some(base), step, selected, failures).0.Threw?
    requires var rerun := RunStep(lab, n, tree, step, RerunScope(lab.prefix, failures, selected));
             rerun.Some? && still == FailuresOr(rerun.value, failures) && still != []
    requires var run := RunStep(lab, n + 2, base, step, RerunScope(lab.prefix, still, selected));
             run.Some? && onBase == FailuresOr(run.value, still) && Without(still, onBase) != []
    requires var novel := Without(still, onBase);
             var confirm := RunStep(lab, n + 3, tree, step, RerunScope(lab.prefix, novel, selected));
             confirm.Some? && confirmed == FailuresOr(confirm.value, novel)
    ensures var v := JudgeTests(lab, n, tree, Some(base), step, selected, failures).0;
            var novel := Without(still, onBase);
            && FlakyOf(v) == Without(failures, still) + Without(novel, confirmed)
            && PreexistingOf(v) == Within(still, onBase) && NewOf(v) == Within(novel, confirmed)
  {
  }

  /** The id failed in the rerun, did not fail on the base, and failed in the confirm run. */
  predicate FailedThrice(lab: Lab, n: nat, tree: string, base: string, step: Step, selected: Option<seq<string>>,
                         failures: seq<string>, id: string)
  {
    var rerun := RunStep(lab, n, tree, step, RerunScope(lab.prefix, failures, selected));
    && rerun.Some?
    && var still := FailuresOr(rerun.value, failures);
    var onBase := RunStep(lab, n + 2, base, step, RerunScope(lab.prefix, still, selected));
    && Fails(rerun.value, failures, id) && onBase.Some? && !Fails(onBase.value, still, id)
    && var novel := Without(still, FailuresOr(onBase.value, still));
    var confirm := RunStep(lab, n + 3, tree, step, RerunScope(lab.prefix, novel, selected));
    && confirm.Some? && Fails(confirm.value, novel, id)
  }

  /** The run reports this failure; or it has no readable report, failed, and was given tests with this failure. */
  predicate Fails(r: StepResult, given: seq<string>, id: string) {
    match r.failures
    case Some(ids) => id in ids
    case None => !r.ok && id in given
  }

  /**
   * A failure is blamed on the change only if it failed again on the rerun, was
   * not among the base's failures, and failed once more on the confirm run. A
   * run without a readable report counts as failing like the runs before it.
   */
  lemma BlameNeedsThreeRuns(lab: Lab, n: nat, tree: string, base: string, step: Step,
                            selected: Option<seq<string>>, failures: seq<string>, id: string)
    requires id in NewOf(JudgeTests(lab, n, tree, Some(base), step, selected, failures).0)
    ensures FailedThrice(lab, n, tree, base, step, selected, failures, id)
  {
    var still := FailuresOr(RunStep(lab, n, tree, step, RerunScope(lab.prefix, failures, selected)).value, failures);
    var onBase := FailuresOr(RunStep(lab, n + 2, base, step, RerunScope(lab.prefix, still, selected)).value, still);
    var novel := Without(still, onBase);
    if novel != [] {
      var confirm := RunStep(lab, n + 3, tree, step, RerunScope(lab.prefix, novel, selected)).value;
      WithoutFacts(still, onBase);
      WithinFacts(novel, FailuresOr(confirm, novel));
    }
  }

  // ------------------------------------------------------------ what is rerun

  lemma NoSeparator(file: string)
    requires '>' !in file
    ensures IndexOf(file + SEPARATOR, SEPARATOR) == |file|
  {
    var s := file + SEPARATOR;
    var i := IndexOf(s, SEPARATOR);
    assert s[|file|..|file| + 3] == SEPARATOR && At(s, SEPARATOR, |file|);
    AtChar(s, SEPARATOR, i, 1);
  }

  /** The file of a printed id is recovered exactly when no separator starts inside it or across its end. */
  lemma FileRecovered(file: string, name: string)
    ensures FileOf(file + SEPARATOR + name) == file <==> IndexOf(file + SEPARATOR, SEPARATOR) == |file|
    ensures '>' !in file ==> FileOf(file + SEPARATOR + name) == file
  {
    FirstPart(file, SEPARATOR, name);
    if '>' !in file { NoSeparator(file); }
  }

  /** A separator inside a test's name does no harm, but one inside a path does. */
  lemma SeparatorInPath()
    ensures FileOf("a" + SEPARATOR + ("b" + SEPARATOR + "c")) == "a"
    ensures FileOf(("a" + SEPARATOR + "b") + SEPARATOR + "c") != "a" + SEPARATOR + "b"
  {
    FileRecovered("a", "b" + SEPARATOR + "c");
    FileRecovered("a" + SEPARATOR + "b", "c");
    var s := ("a" + SEPARATOR + "b") + SEPARATOR;
    assert s[1..4] == SEPARATOR;
    assert At(s, SEPARATOR, 1);
  }

  /** The blamed file of an unhandled error is recovered too. */
  lemma ThrownFile(f: Format, file: string, message: string)
    requires '>' !in file
    ensures FileOf(IdFor(f, Some(file), message)) == file
  {
    FileRecovered(file, f.prefix + HashDigits(if message == "" then f.unknown else message));
  }

  /** What an error's id keeps of its message: everything but the digits of its numbers. */
  function Told(f: Format, message: string): string {
    HashDigits(if message == "" then f.unknown else message)
  }

  /** Two errors have the same id exactly when they blame the same file and say the same, up to numbers. */
  lemma IdsTellApart(f: Format, file1: Option<string>, message1: string, file2: Option<string>, message2: string)
    requires file1.Some? ==> PlainPath(f.prefix, file1.value)
    requires file2.Some? ==> PlainPath(f.prefix, file2.value)
    ensures IdFor(f, file1, message1) == IdFor(f, file2, message2) <==>
              file1 == file2 && Told(f, message1) == Told(f, message2)
  {
    var rest1, rest2 := f.prefix + Told(f, message1), f.prefix + Told(f, message2);
    assert rest1 == rest2 <==> Told(f, message1) == Told(f, message2) by {
      assert rest1[|f.prefix|..] == Told(f, message1) && rest2[|f.prefix|..] == Told(f, message2);
    }
    if file1.Some? {
      ThrownFile(f, file1.value, message1);
      assert IdFor(f, file1, message1)[|file1.value + SEPARATOR|..] == rest1;
      assert !Unattributed(f.prefix, file1.value + SEPARATOR + rest1);
    }
    if file2.Some? {
      ThrownFile(f, file2.value, message2);
      assert IdFor(f, file2, message2)[|file2.value + SEPARATOR|..] == rest2;
      assert !Unattributed(f.prefix, file2.value + SEPARATOR + rest2);
    }
  }

  /** Some failure leads back to `file`. */
  predicate LeadsTo(ids: seq<string>, file: string) {
    exists k :: 0 <= k < |ids| && FileOf(ids[k]) == file
  }

  lemma LeadsToEither(a: seq<string>, b: seq<string>, file: string)
    ensures LeadsTo(a + b, file) <==> LeadsTo(a, file) || LeadsTo(b, file)
  {
    if k :| 0 <= k < |a| && FileOf(a[k]) == file { assert (a + b)[k] == a[k]; }
    if k :| 0 <= k < |b| && FileOf(b[k]) == file { assert (a + b)[|a| + k] == b[k]; }
  }

  /** A path that ids lead back to, and that does not look like an error without a file. */
  ghost predicate PlainPath(prefix: string, file: string) {
    '>' !in file && forall name :: !Unattributed(prefix, file + SEPARATOR + name)
  }

  lemma FileFailures(prefix: string, f: TestFile, file: string)
    requires PlainPath(prefix, f.name)
    ensures LeadsTo(FailuresIn(f), file) <==> file == f.name && FailuresIn(f) != []
    ensures forall k :: 0 <= k < |FailuresIn(f)| ==> !Unattributed(prefix, FailuresIn(f)[k])
  {
    var ids := FailuresIn(f);
    forall k | 0 <= k < |ids| ensures FileOf(ids[k]) == f.name && !Unattributed(prefix, ids[k]) {
      FileRecovered(f.name, if f.tests == [] && f.failed then "(file)" else f.tests[k]);
    }
    if ids != [] { assert FileOf(ids[0]) == f.name; }
  }

  predicate FailedIn(files: seq<TestFile>, file: string) {
    exists k :: 0 <= k < |files| && files[k].name == file && (files[k].tests != [] || files[k].failed)
  }

  ghost predicate AllPlain(prefix: string, files: seq<TestFile>) {
    forall k :: 0 <= k < |files| ==> PlainPath(prefix, files[k].name)
  }

  lemma {:induction false} ReportLeadsTo(prefix: string, files: seq<TestFile>, file: string)
    requires AllPlain(prefix, files)
    ensures LeadsTo(ReportFailures(files), file) <==> FailedIn(files, file)
    ensures !SomeUnattributed(prefix, ReportFailures(files))
  {
    if files != [] {
      var rest := files[1..];
      ReportLeadsTo(prefix, rest, file);
      FileFailures(prefix, files[0], file);
      LeadsToEither(FailuresIn(files[0]), ReportFailures(rest), file);
      PlainTogether(prefix, FailuresIn(files[0]), ReportFailures(rest));
      if k :| 0 <= k < |rest| && rest[k].name == file && (rest[k].tests != [] || rest[k].failed) {
        assert files[k + 1] == rest[k];
      }
      if k :| 0 <= k < |files| && files[k].name == file && (files[k].tests != [] || files[k].failed) {
        if k > 0 { assert rest[k - 1] == files[k]; }
      }
    }
  }

  predicate ThrownIn(es: seq<Thrown>, file: string) {
    exists k :: 0 <= k < |es| && es[k].file == Some(file)
  }

  predicate AllAttributed(es: seq<Thrown>) {
    forall k :: 0 <= k < |es| ==> es[k].file.Some?
  }

  ghost predicate AllFromPlain(prefix: string, es: seq<Thrown>) {
    forall k :: 0 <= k < |es| && es[k].file.Some? ==> PlainPath(prefix, es[k].file.value)
  }

  lemma {:induction false} ThrownLeadsTo(f: Format, es: seq<Thrown>, file: string)
    requires AllFromPlain(f.prefix, es) && AllAttributed(es)
    ensures LeadsTo(ThrownIds(f, es), file) <==> ThrownIn(es, file)
    ensures !SomeUnattributed(f.prefix, ThrownIds(f, es))
  {
    if es != [] {
      var rest := es[1..];
      ThrownLeadsTo(f, rest, file);
      var id := IdFor(f, es[0].file, Trim(es[0].message));
      ThrownFile(f, es[0].file.value, Trim(es[0].message));
      LeadsToEither([id], ThrownIds(f, rest), file);
      PlainTogether(f.prefix, [id], ThrownIds(f, rest));
      assert LeadsTo([id], file) <==> es[0].file == Some(file) by { assert [id][0] == id; }
      if k :| 0 <= k < |rest| && rest[k].file == Some(file) { assert es[k + 1] == rest[k]; }
      if k :| 0 <= k < |es| && es[k].file == Some(file) {
        if k > 0 { assert rest[k - 1] == es[k]; }
      }
    }
  }

  lemma {:induction false} UnattributedThrown(f: Format, es: seq<Thrown>)
    requires !AllAttributed(es)
    ensures SomeUnattributed(f.prefix, ThrownIds(f, es))
  {
    if es[0].file.None? {
      assert Unattributed(f.prefix, ThrownIds(f, es)[0]);
    } else {
      assert !AllAttributed(es[1..]) by {
        var k :| 0 <= k < |es| && es[k].file.None?;
        assert es[1..][k - 1] == es[k];
      }
      UnattributedThrown(f, es[1..]);
      var k :| 0 <= k < |ThrownIds(f, es[1..])| && Unattributed(f.prefix, ThrownIds(f, es[1..])[k]);
      assert ThrownIds(f, es)[k + 1] == ThrownIds(f, es[1..])[k];
    }
  }

  /** Naming an error once or often leads to the same files. */
  lemma LeadsToDistinct(ids: seq<string>, file: string)
    ensures LeadsTo(Distinct(ids), file) <==> LeadsTo(ids, file)
  {
    DistinctFacts(ids);
    if k :| 0 <= k < |ids| && FileOf(ids[k]) == file { assert ids[k] in Distinct(ids); }
    if k :| 0 <= k < |Distinct(ids)| && FileOf(Distinct(ids)[k]) == file { assert Distinct(ids)[k] in ids; }
  }

  lemma {:induction false} AllFilesMember(ids: seq<string>, file: string)
    ensures file in AllFiles(ids) <==> LeadsTo(ids, file)
  {
    if ids != [] {
      AllFilesMember(ids[1..], file);
      if k :| 0 <= k < |ids[1..]| && FileOf(ids[1..][k]) == file { assert ids[k + 1] == ids[1..][k]; }
      if k :| 0 <= k < |ids| && FileOf(ids[k]) == file {
        if k > 0 { assert ids[1..][k - 1] == ids[k]; }
      }
    }
  }

  /** The files of some failures are exactly those a failure leads back to. */
  lemma FilesMember(ids: seq<string>, file: string)
    ensures file in FilesOf(ids) <==> LeadsTo(ids, file)
  {
    AllFilesMember(ids, file);
    DistinctFacts(AllFiles(ids));
  }

  lemma PlainTogether(prefix: string, a: seq<string>, b: seq<string>)
    ensures SomeUnattributed(prefix, a + b) <==> SomeUnattributed(prefix, a) || SomeUnattributed(prefix, b)
  {
    if k :| 0 <= k < |a| && Unattributed(prefix, a[k]) { assert (a + b)[k] == a[k]; }
    if k :| 0 <= k < |b| && Unattributed(prefix, b[k]) { assert (a + b)[|a| + k] == b[k]; }
  }

  lemma PlainDistinct(prefix: string, ids: seq<string>)
    ensures SomeUnattributed(prefix, Distinct(ids)) <==> SomeUnattributed(prefix, ids)
  {
    DistinctFacts(ids);
    if k :| 0 <= k < |ids| && Unattributed(prefix, ids[k]) { assert ids[k] in Distinct(ids); }
    if k :| 0 <= k < |Distinct(ids)| && Unattributed(prefix, Distinct(ids)[k]) { assert Distinct(ids)[k] in ids; }
  }

  /**
   * From what failed to what is rerun: the rerun of a report's failures and of
   * unhandled errors runs exactly the files with a failing test or an error
   * from them. An error that names no file makes it the whole step or selection.
   */
  lemma RerunIsExact(f: Format, files: seq<TestFile>, es: seq<Thrown>, selected: Option<seq<string>>, file: string)
    requires AllPlain(f.prefix, files) && AllFromPlain(f.prefix, es)
    ensures var scope := RerunScope(f.prefix, ReportFailures(files) + Distinct(ThrownIds(f, es)), selected);
            if AllAttributed(es) then scope.Some? && (file in scope.value <==> FailedIn(files, file) || ThrownIn(es, file))
            else scope == selected
  {
    var a, b := ReportFailures(files), Distinct(ThrownIds(f, es));
    ReportLeadsTo(f.prefix, files, file);
    PlainTogether(f.prefix, a, b);
    PlainDistinct(f.prefix, ThrownIds(f, es));
    if AllAttributed(es) {
      ThrownLeadsTo(f, es, file);
      LeadsToDistinct(ThrownIds(f, es), file);
      LeadsToEither(a, b, file);
      FilesMember(a + b, file);
    } else {
      UnattributedThrown(f, es);
    }
  }

  /**
   * The same from end to end: a test run leaves a report and prints its
   * unhandled errors amid other output, and what the gate reruns for its
   * failures is exactly the files behind them.
   */
  lemma RunIsRerunExactly(f: Format, fails: nat -> bool, run: (nat, string, Step, Option<seq<string>>) -> Raw, n: nat,
                          tree: string, step: Step, selected: Option<seq<string>>, es: seq<Thrown>, rest: seq<string>,
                          file: string)
    requires Sound(f) && step.vitest && !fails(n) && AllPrintable(f, es) && Noise(f, rest) && AllClosed(f, es, rest)
    requires var raw := run(n, tree, step, selected);
             && !raw.ok && raw.report.Some? && raw.output == Printed(f, es, rest)
             && AllPlain(f.prefix, raw.report.value) && AllFromPlain(f.prefix, es)
    ensures var files := run(n, tree, step, selected).report.value;
            var r := RunStep(LabOf(f, fails, run), n, tree, step, selected);
            && r.Some? && r.value.failures.Some?
            && var scope := RerunScope(f.prefix, r.value.failures.value, selected);
            if AllAttributed(es) then scope.Some? && (file in scope.value <==> FailedIn(files, file) || ThrownIn(es, file))
            else scope == selected
  {
    ReadsWhatIsPrinted(f, es, rest);
    RerunIsExact(f, run(n, tree, step, selected).report.value, es, selected, file);
  }

  // -------------------------------------------- commands that depend on the tree

  /** What a step's command does depends only on the tree and the files it is given. Any call may still fail. */
  ghost predicate Steady(lab: Lab, step: Step) {
    forall n, t, f :: lab.run(n, t, step, f) == lab.run(0, t, step, f)
  }

  /** That result. */
  function Out(lab: Lab, tree: string, step: Step, files: Option<seq<string>>): StepResult {
    lab.run(0, tree, step, files)
  }

  lemma SteadyRun(lab: Lab, n: nat, tree: string, step: Step, files: Option<seq<string>>)
    requires Steady(lab, step)
    ensures RunStep(lab, n, tree, step, files) == if lab.fails(n) then None else Some(Out(lab, tree, step, files))
  {
  }

  /**
   * Reports on this tree are readable, and running some files agrees with the
   * whole run: it shows no other failures, and it shows those the whole run has
   * in these files.
   */
  ghost predicate Scoped(lab: Lab, t: string, step: Step, selected: Option<seq<string>>) {
    Out(lab, t, step, selected).failures.Some? && forall files :: PartOfRun(lab, t, step, selected, files)
  }

  ghost predicate PartOfRun(lab: Lab, t: string, step: Step, selected: Option<seq<string>>, files: seq<string>) {
    var part := Out(lab, t, step, Some(files)).failures;
    Some(files) != selected ==>
      && part.Some?
      && (forall id :: id in part.value ==> id in FailuresOn(lab, t, step, selected))
      && (forall id :: id in FailuresOn(lab, t, step, selected) && !Unattributed(lab.prefix, id) && FileOf(id) in files ==>
            id in part.value)
  }

  /** The failures of a step on a tree. */
  function FailuresOn(lab: Lab, t: string, step: Step, selected: Option<seq<string>>): seq<string> {
    Lines(Out(lab, t, step, selected).failures)
  }

  /** Rerunning the scope of some failures shows exactly which of them the tree has. */
  lemma ScopeShows(lab: Lab, t: string, step: Step, selected: Option<seq<string>>, ids: seq<string>)
    requires Scoped(lab, t, step, selected)
    ensures var r := Out(lab, t, step, RerunScope(lab.prefix, ids, selected)).failures;
            && r.Some?
            && (forall id :: id in r.value ==> id in FailuresOn(lab, t, step, selected))
            && (forall id :: id in ids ==> (id in r.value <==> id in FailuresOn(lab, t, step, selected)))
  {
    var scope := RerunScope(lab.prefix, ids, selected);
    if scope != selected {
      assert PartOfRun(lab, t, step, selected, scope.value);
      forall id | id in ids ensures !Unattributed(lab.prefix, id) && FileOf(id) in scope.value {
        var k :| 0 <= k < |ids| && ids[k] == id;
        FilesMember(ids, FileOf(id));
      }
    }
  }

  /** `ids` are exactly the failures the change has and the base has not. */
  ghost predicate ExactlyNew(lab: Lab, tree: string, base: string, step: Step, selected: Option<seq<string>>, ids: seq<string>) {
    forall id :: id in ids <==> id in FailuresOn(lab, tree, step, selected) && id !in FailuresOn(lab, base, step, selected)
  }

  /** The step failed and named the failing tests. */
  predicate NamesTests(r: StepResult, step: Step) {
    step.vitest && !r.ok && Lines(r.failures) != []
  }

  /** The selected paths match no test file. */
  predicate NoFiles(r: StepResult, selected: Option<seq<string>>) {
    selected.Some? && r.testFiles == Some(0)
  }

  /** The step fails on the change in a way it does not fail on the base. */
  ghost predicate NewlyFails(lab: Lab, tree: string, base: string, step: Step, selected: Option<seq<string>>) {
    var a, b := Out(lab, tree, step, selected), Out(lab, base, step, selected);
    if NoFiles(a, selected) then true
    else if a.ok then false
    else if NamesTests(a, step) then
      HasNew(FailuresOn(lab, tree, step, selected), FailuresOn(lab, base, step, selected))
    else b.ok || HasNew(a.lines, b.lines)
  }

  /** Something is in `a` and not in `b`. */
  predicate HasNew(a: seq<string>, b: seq<string>) {
    exists x :: x in a && x !in b
  }

  lemma LeftOver(a: seq<string>, b: seq<string>)
    ensures Without(a, b) != [] <==> HasNew(a, b)
  {
    WithoutFacts(a, b);
    if Without(a, b) != [] { assert Without(a, b)[0] in Without(a, b); }
  }

  lemma NothingGone(a: seq<string>, b: seq<string>)
    requires Subset(a, b)
    ensures Without(a, b) == [] && (a != [] ==> b != [])
  {
    LeftOver(a, b);
    if a != [] { assert a[0] in a; }
  }

  /** What each run reports, when the runs depend only on the tree, and what is left to blame. */
  lemma SteadyRuns(lab: Lab, tree: string, base: string, step: Step, selected: Option<seq<string>>)
    returns (still: seq<string>, onBase: seq<string>, novel: seq<string>, confirmed: seq<string>)
    requires Scoped(lab, tree, step, selected) && Scoped(lab, base, step, selected)
    requires FailuresOn(lab, tree, step, selected) != []
    ensures var failures := FailuresOn(lab, tree, step, selected);
            && Out(lab, tree, step, RerunScope(lab.prefix, failures, selected)).failures == Some(still)
            && Out(lab, base, step, RerunScope(lab.prefix, still, selected)).failures == Some(onBase)
            && novel == Without(still, onBase)
            && Out(lab, tree, step, RerunScope(lab.prefix, novel, selected)).failures == Some(confirmed)
            && still != [] && Without(failures, still) == [] && Without(novel, confirmed) == []
            && ExactlyNew(lab, tree, base, step, selected, Within(novel, confirmed))
  {
    var failures := FailuresOn(lab, tree, step, selected);
    ScopeShows(lab, tree, step, selected, failures);
    still := Out(lab, tree, step, RerunScope(lab.prefix, failures, selected)).failures.value;
    ScopeShows(lab, base, step, selected, still);
    onBase := Out(lab, base, step, RerunScope(lab.prefix, still, selected)).failures.value;
    novel := Without(still, onBase);
    ScopeShows(lab, tree, step, selected, novel);
    confirmed := Out(lab, tree, step, RerunScope(lab.prefix, novel, selected)).failures.value;
    WithoutFacts(still, onBase);
    NothingGone(failures, still);
    NothingGone(novel, confirmed);
    WithinFacts(novel, confirmed);
  }

  /** When the step does not throw, the calls that it needs have not failed. */
  lemma TestsAnswered(lab: Lab, n: nat, tree: string, base: string, step: Step, selected: Option<seq<string>>,
                      failures: seq<string>, still: seq<string>, onBase: seq<string>)
    requires !JudgeTests(lab, n, tree, Some(base), step, selected, failures).0.Threw?
    requires lab.run(n, tree, step, RerunScope(lab.prefix, failures, selected)).failures == Some(still) && still != []
    requires lab.run(n + 2, base, step, RerunScope(lab.prefix, still, selected)).failures == Some(onBase)
    ensures !lab.fails(n) && !lab.fails(n + 1) && !lab.fails(n + 2)
    ensures Without(still, onBase) != [] ==> !lab.fails(n + 3)
  {
  }

  /** When the base shows all that is left, nothing is blamed. */
  lemma KnownVerdict(lab: Lab, n: nat, tree: string, base: string, step: Step, selected: Option<seq<string>>,
                     failures: seq<string>, still: seq<string>, onBase: seq<string>)
    requires !lab.fails(n) && !lab.fails(n + 1) && !lab.fails(n + 2)
    requires lab.run(n, tree, step, RerunScope(lab.prefix, failures, selected)).failures == Some(still)
    requires lab.run(n + 2, base, step, RerunScope(lab.prefix, still, selected)).failures == Some(onBase)
    requires still != [] && Without(failures, still) == [] && Without(still, onBase) == []
    ensures JudgeTests(lab, n, tree, Some(base), step, selected, failures).0 == Accepted([], Within(still, onBase))
  {
  }

  /** Otherwise what the confirm run reports too is blamed, and nothing is flaky when that is all of it. */
  lemma BlamedVerdict(lab: Lab, n: nat, tree: string, base: string, step: Step, selected: Option<seq<string>>,
                      failures: seq<string>, still: seq<string>, onBase: seq<string>, confirmed: seq<string>)
    requires !lab.fails(n) && !lab.fails(n + 1) && !lab.fails(n + 2) && !lab.fails(n + 3)
    requires lab.run(n, tree, step, RerunScope(lab.prefix, failures, selected)).failures == Some(still)
    requires lab.run(n + 2, base, step, RerunScope(lab.prefix, still, selected)).failures == Some(onBase)
    requires var novel := Without(still, onBase);
             && lab.run(n + 3, tree, step, RerunScope(lab.prefix, novel, selected)).failures == Some(confirmed)
             && still != [] && Without(failures, still) == [] && novel != [] && Without(novel, confirmed) == []
    ensures var pre, blamed := Within(still, onBase), Within(Without(still, onBase), confirmed);
            var probe := Probe(step, RerunScope(lab.prefix, blamed, selected), Some(blamed), None);
            JudgeTests(lab, n, tree, Some(base), step, selected, failures).0 ==
              if blamed == [] then Accepted([], pre) else Rejected([], pre, blamed, probe)
  {
  }

  /**
   * Tests that depend only on the tree: unless a run throws, nothing is flaky and
   * exactly the failures the base lacks are blamed.
   */
  lemma SteadyTests(lab: Lab, n: nat, tree: string, base: string, step: Step, selected: Option<seq<string>>)
    requires Steady(lab, step) && Scoped(lab, tree, step, selected) && Scoped(lab, base, step, selected)
    requires FailuresOn(lab, tree, step, selected) != []
    ensures var failures := FailuresOn(lab, tree, step, selected);
            var v := JudgeTests(lab, n, tree, Some(base), step, selected, failures).0;
            || v.Threw?
            || (&& FlakyOf(v) == []
                && ExactlyNew(lab, tree, base, step, selected, NewOf(v)) && (v.Rejected? <==> NewOf(v) != [])
                && (v.Rejected? ==>
                      v.probe == Probe(step, RerunScope(lab.prefix, NewOf(v), selected), Some(NewOf(v)), None)))
  {
    var failures := FailuresOn(lab, tree, step, selected);
    if !JudgeTests(lab, n, tree, Some(base), step, selected, failures).0.Threw? {
      var still, onBase, novel, confirmed := SteadyRuns(lab, tree, base, step, selected);
      TestsAnswered(lab, n, tree, base, step, selected, failures, still, onBase);
      if novel == [] {
        KnownVerdict(lab, n, tree, base, step, selected, failures, still, onBase);
      } else {
        BlamedVerdict(lab, n, tree, base, step, selected, failures, still, onBase, confirmed);
      }
    }
  }

  /** A test step has reports that are readable and consistent, on the change and on the base. */
  ghost predicate Readable(lab: Lab, tree: string, base: string, step: Step, selected: Option<seq<string>>) {
    step.vitest ==> Scoped(lab, tree, step, selected) && Scoped(lab, base, step, selected)
  }

  lemma SteadyOutput(lab: Lab, n: nat, tree: string, base: string, step: Step, selected: Option<seq<string>>)
    requires Steady(lab, step)
    ensures var a, b := Out(lab, tree, step, selected), Out(lab, base, step, selected);
            JudgeOutput(lab, n, tree, Some(base), step, selected, a).0 ==
              if lab.fails(n) || lab.fails(n + 1) then Threw
              else if b.ok || Without(a.lines, b.lines) != []
              then Rejected([], [], [step.name], Probe(step, None, None, Some(if b.ok then [] else b.lines)))
              else Accepted([], [SameOutput(step)])
  {
    SteadyRun(lab, n + 1, base, step, selected);
  }

  /** A first run that names failing tests is judged by them. */
  lemma JudgedByTests(lab: Lab, n: nat, tree: string, base: Option<string>, step: Step, selected: Option<seq<string>>,
                      first: StepResult)
    requires RunStep(lab, n, tree, step, selected) == Some(first) && !NoFiles(first, selected) && NamesTests(first, step)
    ensures Judge(lab, n, tree, base, step, selected)
         == JudgeTests(lab, n + 1, tree, base, step, selected, first.failures.value)
  {
  }

  /** A first run that fails without naming tests is judged by its output, after a rerun when a report was read. */
  lemma JudgedByOutput(lab: Lab, n: nat, tree: string, base: Option<string>, step: Step, selected: Option<seq<string>>,
                       first: StepResult)
    requires RunStep(lab, n, tree, step, selected) == Some(first) && !NoFiles(first, selected)
    requires !first.ok && !NamesTests(first, step)
    requires step.vitest ==> first.failures.Some?
    requires step.vitest ==> var again := RunStep(lab, n + 1, tree, step, selected); again.Some? && !again.value.ok
    ensures Judge(lab, n, tree, base, step, selected)
         == JudgeOutput(lab, if step.vitest then n + 2 else n + 1, tree, base, step, selected, first)
  {
  }

  /** When the step names its failing tests, these are exactly the ones the base does not have. */
  ghost predicate NewNamed(lab: Lab, tree: string, base: string, step: Step, selected: Option<seq<string>>, ids: seq<string>) {
    var a := Out(lab, tree, step, selected);
    NamesTests(a, step) && !NoFiles(a, selected) ==> ExactlyNew(lab, tree, base, step, selected, ids)
  }

  /** What a verdict of a step means when its results depend only on the tree: unless the step throws, it is the right one. */
  ghost predicate SoundVerdict(lab: Lab, tree: string, base: string, step: Step, selected: Option<seq<string>>, v: Verdict) {
    || v.Threw?
    || (&& FlakyOf(v) == [] && (v.Rejected? <==> NewlyFails(lab, tree, base, step, selected))
        && (v.Rejected? ==> NewNamed(lab, tree, base, step, selected, NewOf(v))))
  }

  lemma SteadyNamed(lab: Lab, n: nat, tree: string, base: string, step: Step, selected: Option<seq<string>>)
    requires Steady(lab, step) && Scoped(lab, tree, step, selected) && Scoped(lab, base, step, selected)
    requires var a := Out(lab, tree, step, selected); !NoFiles(a, selected) && NamesTests(a, step)
    ensures SoundVerdict(lab, tree, base, step, selected,
                         JudgeTests(lab, n, tree, Some(base), step, selected, FailuresOn(lab, tree, step, selected)).0)
  {
    SteadyTests(lab, n, tree, base, step, selected);
    var v := JudgeTests(lab, n, tree, Some(base), step, selected, FailuresOn(lab, tree, step, selected)).0;
    if !v.Threw? { NewIsSome(lab, tree, base, step, selected, NewOf(v)); }
  }

  lemma NewIsSome(lab: Lab, tree: string, base: string, step: Step, selected: Option<seq<string>>, ids: seq<string>)
    requires ExactlyNew(lab, tree, base, step, selected, ids)
    ensures ids != [] <==> HasNew(FailuresOn(lab, tree, step, selected), FailuresOn(lab, base, step, selected))
  {
    if ids != [] { assert ids[0] in ids; }
  }

  lemma SteadyUnnamed(lab: Lab, n: nat, tree: string, base: string, step: Step, selected: Option<seq<string>>)
    requires Steady(lab, step)
    requires var a := Out(lab, tree, step, selected); !NoFiles(a, selected) && !a.ok && !NamesTests(a, step)
    ensures SoundVerdict(lab, tree, base, step, selected,
                         JudgeOutput(lab, n, tree, Some(base), step, selected, Out(lab, tree, step, selected)).0)
  {
    SteadyOutput(lab, n, tree, base, step, selected);
    LeftOver(Out(lab, tree, step, selected).lines, Out(lab, base, step, selected).lines);
  }

  /** One step, when its results depend only on the tree. */
  lemma SteadyStep(lab: Lab, n: nat, tree: string, base: string, step: Step, selected: Option<seq<string>>)
    requires Steady(lab, step) && Readable(lab, tree, base, step, selected)
    ensures SoundVerdict(lab, tree, base, step, selected, Judge(lab, n, tree, Some(base), step, selected).0)
  {
    var a := Out(lab, tree, step, selected);
    SteadyRun(lab, n, tree, step, selected);
    if lab.fails(n) || NoFiles(a, selected) || a.ok {
    } else if NamesTests(a, step) {
      JudgedByTests(lab, n, tree, Some(base), step, selected, a);
      SteadyNamed(lab, n + 1, tree, base, step, selected);
    } else {
      if step.vitest { SteadyRun(lab, n + 1, tree, step, selected); }
      if !(step.vitest && lab.fails(n + 1)) {
        JudgedByOutput(lab, n, tree, Some(base), step, selected, a);
        SteadyUnnamed(lab, if step.vitest then n + 2 else n + 1, tree, base, step, selected);
      }
    }
  }

  /** The first step that runs and newly fails. */
  ghost function FirstNew(lab: Lab, tree: string, base: string, steps: seq<Step>, selection: Option<Selection>): Option<Step> {
    if steps == [] then None
    else if !Skips(selection, steps[0]) && NewlyFails(lab, tree, base, steps[0], SelectedFor(selection, steps[0]))
    then Some(steps[0])
    else FirstNew(lab, tree, base, steps[1..], selection)
  }

  /** Every step that runs depends only on the tree, and its reports on the change and on the base are readable. */
  ghost predicate AllSteady(lab: Lab, tree: string, base: string, steps: seq<Step>, selection: Option<Selection>) {
    forall k :: 0 <= k < |steps| && !Skips(selection, steps[k]) ==>
      Steady(lab, steps[k]) && Readable(lab, tree, base, steps[k], SelectedFor(selection, steps[k]))
  }

  /** The gate accepted, or named this step, which is the first that newly fails, and its exact new failures. */
  ghost predicate SoundGate(lab: Lab, tree: string, base: string, first: Option<Step>, selection: Option<Selection>,
                            r: GateResult)
  {
    && r.ok == first.None?
    && (first.Some? ==>
          && r.failedStep == Some(first.value.name)
          && NewNamed(lab, tree, base, first.value, SelectedFor(selection, first.value), r.newFailures))
  }

  /**
   * The gate accepts exactly when no step fails on the change in a way it does
   * not fail on the base. Otherwise it names the first such step and, when that
   * step names its failing tests, blames exactly those the base does not have.
   * Nothing is called flaky. All this unless the gate throws, which it does
   * only when its last call fails.
   */
  lemma {:induction false} SteadySteps(lab: Lab, n: nat, tree: string, base: string, steps: seq<Step>,
                                       selection: Option<Selection>, flaky: seq<string>, pre: seq<string>)
    requires AllSteady(lab, tree, base, steps, selection)
    ensures var r := GateSteps(lab, n, tree, Some(base), steps, selection, flaky, pre).0;
            var first := FirstNew(lab, tree, base, steps, selection);
            || r.None?
            || (r.value.flaky == flaky && SoundGate(lab, tree, base, first, selection, r.value))
    decreases |steps|
  {
    if steps != [] {
      assert AllSteady(lab, tree, base, steps[1..], selection);
      if Skips(selection, steps[0]) {
        SteadySteps(lab, n, tree, base, steps[1..], selection, flaky, pre);
      } else {
        SteadyStep(lab, n, tree, base, steps[0], SelectedFor(selection, steps[0]));
        var (v, m) := Judge(lab, n, tree, Some(base), steps[0], SelectedFor(selection, steps[0]));
        if v.Accepted? {
          SteadySteps(lab, m, tree, base, steps[1..], selection, flaky + v.flaky, pre + v.preexisting);
        }
      }
    }
  }

  /** The whole gate, install included, when its steps depend only on the tree. */
  lemma SteadyGate(lab: Lab, n: nat, tree: string, base: string, config: Config, selection: Option<Selection>)
    requires AllSteady(lab, tree, base, config.steps, selection)
    ensures var r := GateOn(lab, n, tree, Some(base), config, selection).0;
            var first := FirstNew(lab, tree, base, config.steps, selection);
            || r.None?
            || (r.value.flaky == [] && SoundGate(lab, tree, base, first, selection, r.value))
  {
    SteadySteps(lab, if config.install then n + 1 else n, tree, base, config.steps, selection, [], []);
  }

  // ----------------------------------------------------------------- the probe

  /** On this tree a run that reports failing tests also fails. */
  ghost predicate Honest(lab: Lab, t: string, step: Step) {
    forall files :: Out(lab, t, step, files).ok ==> Lines(Out(lab, t, step, files).failures) == []
  }

  /** The step depends only on the tree, and its reports on the change and on the base are readable and honest. */
  ghost predicate Dependable(lab: Lab, tree: string, base: string, step: Step) {
    && Steady(lab, step) && Readable(lab, tree, base, step, None)
    && Honest(lab, tree, step) && Honest(lab, base, step)
  }

  /** The same machine when no call fails. */
  function Calm(lab: Lab): Lab {
    Lab(lab.prefix, (n: nat) => false, lab.run)
  }

  /** What a probe shows on a tree. */
  predicate Shows(lab: Lab, tree: string, probe: Probe) {
    ProbeFails(Calm(lab), 0, tree, probe) == Some(true)
  }

  /** With steady commands a probe shows the same at every call that does not fail. */
  lemma ProbeAnswers(lab: Lab, n: nat, tree: string, probe: Probe)
    requires Steady(lab, probe.step)
    ensures ProbeFails(lab, n, tree, probe) == if lab.fails(n) then None else Some(Shows(lab, tree, probe))
  {
    SteadyRun(lab, n, tree, probe.step, probe.files);
  }

  lemma ProbeOfTests(lab: Lab, t: string, step: Step, ids: seq<string>)
    requires Scoped(lab, t, step, None) && Honest(lab, t, step)
    ensures Shows(lab, t, Probe(step, RerunScope(lab.prefix, ids, None), Some(ids), None))
       <==> Share(ids, FailuresOn(lab, t, step, None))
  {
    var scope := RerunScope(lab.prefix, ids, None);
    ScopeShows(lab, t, step, None, ids);
    InBoth(Out(lab, t, step, scope).failures.value, ids);
  }

  /** Something is in both. */
  predicate Share(a: seq<string>, b: seq<string>) {
    exists x :: x in a && x in b
  }

  lemma InBoth(a: seq<string>, b: seq<string>)
    ensures Within(a, b) != [] <==> Share(a, b)
  {
    WithinFacts(a, b);
    if Within(a, b) != [] { assert Within(a, b)[0] in Within(a, b); }
  }

  /** The step failed without naming tests, printed nothing, and passes on the base. */
  predicate Silent(lab: Lab, tree: string, base: string, step: Step) {
    var a := Out(lab, tree, step, None);
    !NamesTests(a, step) && a.lines == [] && Out(lab, base, step, None).ok
  }

  /**
   * The probe of a rejected step tells the base from the change: it is false on
   * the base, and it is true on the change exactly unless the failing command
   * printed nothing while the base passes.
   */
  lemma ProbeSeparates(lab: Lab, n: nat, tree: string, base: string, step: Step)
    requires Dependable(lab, tree, base, step)
    requires Judge(lab, n, tree, Some(base), step, None).0.Rejected?
    ensures var probe := Judge(lab, n, tree, Some(base), step, None).0.probe;
            !Shows(lab, base, probe) && (Shows(lab, tree, probe) <==> !Silent(lab, tree, base, step))
  {
    var a := Out(lab, tree, step, None);
    SteadyRun(lab, n, tree, step, None);
    if NamesTests(a, step) {
      JudgedByTests(lab, n, tree, Some(base), step, None, a);
      TestsSeparate(lab, n + 1, tree, base, step);
    } else {
      var k := if step.vitest then n + 2 else n + 1;
      if step.vitest { SteadyRun(lab, n + 1, tree, step, None); }
      JudgedByOutput(lab, n, tree, Some(base), step, None, a);
      OutputSeparates(lab, k, tree, base, step);
    }
  }

  lemma TestsSeparate(lab: Lab, n: nat, tree: string, base: string, step: Step)
    requires Dependable(lab, tree, base, step) && NamesTests(Out(lab, tree, step, None), step)
    requires JudgeTests(lab, n, tree, Some(base), step, None, FailuresOn(lab, tree, step, None)).0.Rejected?
    ensures var probe := JudgeTests(lab, n, tree, Some(base), step, None, FailuresOn(lab, tree, step, None)).0.probe;
            !Shows(lab, base, probe) && Shows(lab, tree, probe)
  {
    SteadyTests(lab, n, tree, base, step, None);
    var ids := NewOf(JudgeTests(lab, n, tree, Some(base), step, None, FailuresOn(lab, tree, step, None)).0);
    ProbeOfTests(lab, base, step, ids);
    ProbeOfTests(lab, tree, step, ids);
    NewSeparates(lab, tree, base, step, ids);
  }

  lemma NewSeparates(lab: Lab, tree: string, base: string, step: Step, ids: seq<string>)
    requires ExactlyNew(lab, tree, base, step, None, ids) && ids != []
    ensures !Share(ids, FailuresOn(lab, base, step, None)) && Share(ids, FailuresOn(lab, tree, step, None))
  {
    assert ids[0] in ids;
  }

  lemma OutputSeparates(lab: Lab, n: nat, tree: string, base: string, step: Step)
    requires Steady(lab, step) && !Out(lab, tree, step, None).ok && !NamesTests(Out(lab, tree, step, None), step)
    requires JudgeOutput(lab, n, tree, Some(base), step, None, Out(lab, tree, step, None)).0.Rejected?
    ensures var probe := JudgeOutput(lab, n, tree, Some(base), step, None, Out(lab, tree, step, None)).0.probe;
            !Shows(lab, base, probe) && (Shows(lab, tree, probe) <==> !Silent(lab, tree, base, step))
  {
    var a, b := Out(lab, tree, step, None), Out(lab, base, step, None);
    SteadyOutput(lab, n, tree, base, step, None);
    NothingGone(b.lines, b.lines);
    WithoutNothing(a.lines);
  }

  lemma {:induction false} WithoutNothing(s: seq<string>)
    ensures Without(s, []) == s
  {
    if s != [] { WithoutNothing(s[1..]); }
  }

  /** Without a readable report the probe may well be true on the base: it is there whenever the base fails with output. */
  lemma ProbeWithoutReport(lab: Lab, n: nat, tree: string, base: string, step: Step)
    requires Steady(lab, step) && step.vitest && !Out(lab, tree, step, None).ok && Out(lab, tree, step, None).failures.None?
    ensures var v := Judge(lab, n, tree, Some(base), step, None).0;
            var a, b := Out(lab, tree, step, None), Out(lab, base, step, None);
            if lab.fails(n) then v.Threw?
            else && v.Rejected? && (Shows(lab, tree, v.probe) <==> a.lines != [])
                 && (Shows(lab, base, v.probe) <==> !b.ok && b.lines != [])
  {
    SteadyRun(lab, n, tree, step, None);
    WithoutNothing(Out(lab, tree, step, None).lines);
    WithoutNothing(Out(lab, base, step, None).lines);
  }

  /** The gate's answer `r` comes from rejecting `step`, judged from the call `at` on. */
  predicate RejectedBy(lab: Lab, at: nat, tree: string, base: string, step: Step, r: GateResult) {
    var v := Judge(lab, at, tree, Some(base), step, None).0;
    v.Rejected? && r.probe == Some(v.probe) && r.newFailures == v.novel && r.failedStep == Some(step.name)
  }

  /** A gate that fails fails by one of its steps, whose probe it hands out. */
  lemma {:induction false} RejectingStep(lab: Lab, n: nat, tree: string, base: string, steps: seq<Step>,
                                         flaky: seq<string>, pre: seq<string>)
    requires var r := GateSteps(lab, n, tree, Some(base), steps, None, flaky, pre).0; r.Some? && !r.value.ok
    ensures exists k: nat, at: nat :: k < |steps| && RejectedBy(lab, at, tree, base, steps[k],
              GateSteps(lab, n, tree, Some(base), steps, None, flaky, pre).0.value)
    decreases |steps|
  {
    var r := GateSteps(lab, n, tree, Some(base), steps, None, flaky, pre).0.value;
    assert SelectedFor(None, steps[0]) == None;
    var (v, m) := Judge(lab, n, tree, Some(base), steps[0], None);
    if v.Rejected? {
      assert RejectedBy(lab, n, tree, base, steps[0], r);
    } else {
      RejectingStep(lab, m, tree, base, steps[1..], flaky + v.flaky, pre + v.preexisting);
      var k: nat, at: nat :| k < |steps[1..]| && RejectedBy(lab, at, tree, base, steps[1..][k],
        GateSteps(lab, m, tree, Some(base), steps[1..], None, flaky + v.flaky, pre + v.preexisting).0.value);
      assert RejectedBy(lab, at, tree, base, steps[k + 1], r);
    }
  }
}
