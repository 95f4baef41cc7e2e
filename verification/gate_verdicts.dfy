/** What the gate's verdicts mean whatever its commands do: flaky or steady, with or without a base, calls failing or not. */
module GateVerdicts {
  import opened Options
  import opened Text
  import opened UnhandledErrors
  import opened Gate
  import opened GateRules

  // --------------------------------------------------------------------- a run

  lemma {:induction false} HashedLines(lines: seq<string>)
    ensures |HashAll(lines)| == |lines| && forall k :: 0 <= k < |lines| ==> HashAll(lines)[k] == HashDigits(lines[k])
  {
    if lines != [] { HashedLines(lines[1..]); }
  }

  lemma {:induction false} NonBlankMember(lines: seq<string>, line: string)
    ensures line in NonBlank(lines) <==> line in lines && line != ""
  {
    if lines != [] { NonBlankMember(lines[1..], line); }
  }

  /** Some of these lines reads so with its numbers hashed and without the space around it. */
  predicate ReadsAs(lines: seq<string>, text: string) {
    exists k :: 0 <= k < |lines| && Trim(HashDigits(lines[k])) == text
  }

  lemma HashedMember(lines: seq<string>, text: string)
    ensures text in TrimAll(HashAll(lines)) <==> ReadsAs(lines, text)
  {
    HashedLines(lines);
    var trimmed := TrimAll(HashAll(lines));
    if ReadsAs(lines, text) {
      var k :| 0 <= k < |lines| && Trim(HashDigits(lines[k])) == text;
      assert trimmed[k] == text;
    }
    if text in trimmed {
      var k :| 0 <= k < |trimmed| && trimmed[k] == text;
      assert Trim(HashDigits(lines[k])) == text;
    }
  }

  /** The output is compared by its lines: with numbers hashed, without the space around them, and only those with text. */
  lemma NormalizeMember(output: string, text: string)
    ensures text in Normalize(output) <==> text != "" && ReadsAs(Split(output, "\n"), text)
  {
    HashedMember(Split(output, "\n"), text);
    NonBlankMember(TrimAll(HashAll(Split(output, "\n"))), text);
  }

  /** What is taken from a run: output lines and unhandled errors only when it failed, a report only of test steps. */
  lemma RunIsRead(f: Format, step: Step, raw: Raw, x: string)
    ensures var r := ResultOf(f, step, raw);
            && r.ok == raw.ok && (x in r.lines <==> !raw.ok && x in Normalize(raw.output))
            && (r.failures.Some? <==> step.vitest && raw.report.Some?)
            && r.testFiles == (if r.failures.Some? then Some(|raw.report.value|) else None)
            && (r.failures.Some? ==>
                  (x in r.failures.value <==> x in ReportFailures(raw.report.value) || (!raw.ok && x in IdsOf(f, raw.output))))
  {
  }

  /** A test of a report fails exactly by its own id, and a file that failed without a failing test by the file's. */
  lemma {:induction false} ReportedMember(files: seq<TestFile>, id: string)
    ensures id in ReportFailures(files) <==>
              exists k :: 0 <= k < |files| && id in FailuresIn(files[k])
  {
    if files != [] {
      ReportedMember(files[1..], id);
      if k :| 0 <= k < |files[1..]| && id in FailuresIn(files[1..][k]) { assert files[k + 1] == files[1..][k]; }
      if k :| 0 <= k < |files| && id in FailuresIn(files[k]) { if k > 0 { assert files[1..][k - 1] == files[k]; } }
    }
  }

  lemma FileFails(f: TestFile, id: string)
    ensures id in FailuresIn(f) <==>
              || (exists k :: 0 <= k < |f.tests| && id == f.name + " > " + f.tests[k])
              || (f.tests == [] && f.failed && id == f.name + " > (file)")
  {
    assert f.name + SEPARATOR + "(file)" == f.name + " > (file)";
    if f.tests != [] {
      var ids := TestIds(f.name, f.tests);
      if id in ids { var k :| 0 <= k < |ids| && ids[k] == id; assert id == f.name + " > " + f.tests[k]; }
      if k :| 0 <= k < |f.tests| && id == f.name + " > " + f.tests[k] { assert ids[k] == id; }
    }
  }

  /** Whether a probe sees its failure in a run, whatever the command does. */
  lemma ProbeSees(lab: Lab, n: nat, tree: string, probe: Probe)
    ensures var r := lab.run(n, tree, probe.step, probe.files);
            ProbeFails(lab, n, tree, probe) ==
              if lab.fails(n) then None
              else Some(!r.ok && if probe.ids.Some? then exists id :: id in probe.ids.value && Fails(r, probe.ids.value, id)
                                 else HasNew(r.lines, Lines(probe.baseLines)))
  {
    var r := lab.run(n, tree, probe.step, probe.files);
    if probe.ids.Some? {
      InBoth(FailuresOr(r, probe.ids.value), probe.ids.value);
    } else {
      LeftOver(r.lines, Lines(probe.baseLines));
    }
  }

  // ------------------------------------------------------------------- a step

  /** A verdict that blames something is a rejection, and a rejection blames something. */
  predicate RejectsOrNot(v: Verdict) {
    v.Threw? || (v.Rejected? <==> NewOf(v) != [])
  }

  lemma TestsRejectOrNot(lab: Lab, n: nat, tree: string, base: Option<string>, step: Step,
                         selected: Option<seq<string>>, failures: seq<string>)
    ensures RejectsOrNot(JudgeTests(lab, n, tree, base, step, selected, failures).0)
  {
  }

  /** Failing tests that the rerun does not show are flaky, and the step is passed over. */
  lemma GoneIsFlaky(lab: Lab, n: nat, tree: string, base: Option<string>, step: Step,
                    selected: Option<seq<string>>, failures: seq<string>)
    requires !lab.fails(n)
    requires var rerun := lab.run(n, tree, step, RerunScope(lab.prefix, failures, selected));
             rerun.failures == Some([]) || (rerun.failures.None? && rerun.ok)
    ensures JudgeTests(lab, n, tree, base, step, selected, failures) == (Accepted(failures, []), n + 1)
  {
    WithoutNothing(failures);
  }

  /** Without a base everything that the rerun shows is blamed, and looked for again in just its files. */
  lemma NoBaseBlamesAll(lab: Lab, n: nat, tree: string, step: Step, selected: Option<seq<string>>, failures: seq<string>,
                        id: string)
    requires !lab.fails(n)
    ensures var rerun := lab.run(n, tree, step, RerunScope(lab.prefix, failures, selected));
            var v := JudgeTests(lab, n, tree, None, step, selected, failures).0;
            && !v.Threw?
            && (id in NewOf(v) <==> Fails(rerun, failures, id))
            && (id in FlakyOf(v) <==> id in failures && !Fails(rerun, failures, id))
            && (v.Rejected? ==> v.probe == Probe(step, RerunScope(lab.prefix, NewOf(v), selected), Some(NewOf(v)), None))
  {
    WithoutFacts(failures, FailuresOr(lab.run(n, tree, step, RerunScope(lab.prefix, failures, selected)), failures));
  }

  /** What the base has to show for a failure without test names to be excused. */
  predicate Excused(lab: Lab, n: nat, base: Option<string>, step: Step, selected: Option<seq<string>>, first: StepResult) {
    base.Some? && var onBase := lab.run(n, base.value, step, selected); !onBase.ok && Subset(first.lines, onBase.lines)
  }

  /**
   * A step that failed without naming tests is rejected exactly unless the base
   * fails too and printed every line that it printed. Its probe then looks for
   * lines that the base did not print.
   */
  lemma OutputVerdict(lab: Lab, n: nat, tree: string, base: Option<string>, step: Step, selected: Option<seq<string>>,
                      first: StepResult)
    ensures var v := JudgeOutput(lab, n, tree, base, step, selected, first).0;
            if base.Some? && (lab.fails(n) || lab.fails(n + 1)) then v.Threw?
            else if Excused(lab, n + 1, base, step, selected, first) then v == Accepted([], [SameOutput(step)])
            else && v.Rejected? && v.flaky == [] && v.preexisting == [] && v.novel == [step.name]
                 && v.probe.step == step && v.probe.files == None && v.probe.ids == None
                 && v.probe.baseLines.Some?
                 && forall x :: x in v.probe.baseLines.value <==>
                      base.Some? && !lab.run(n + 1, base.value, step, selected).ok
                      && x in lab.run(n + 1, base.value, step, selected).lines
  {
    if base.Some? {
      var onBase := lab.run(n + 1, base.value, step, selected);
      LeftOver(first.lines, onBase.lines);
    }
  }

  /** What the first run alone decides. */
  lemma FirstRunDecides(lab: Lab, n: nat, tree: string, base: Option<string>, step: Step, selected: Option<seq<string>>)
    ensures var first, v := lab.run(n, tree, step, selected), Judge(lab, n, tree, base, step, selected).0;
            if lab.fails(n) then v.Threw?
            else if NoFiles(first, selected) then
              v == Rejected([], [], [NoMatch(step, selected.value)], Probe(step, None, None, None))
            else if first.ok then v == Accepted([], [])
            else if step.vitest && first.failures.None? then
              v == Rejected([], [], [NoReport(step)], Probe(step, None, None, None))
            else true
  {
  }

  /** A test step that failed without a failing test is flaky when its rerun passes; otherwise its output is judged. */
  lemma WholeStepRerun(lab: Lab, n: nat, tree: string, base: Option<string>, step: Step, selected: Option<seq<string>>)
    requires step.vitest && !lab.fails(n)
    requires var first := lab.run(n, tree, step, selected);
             !NoFiles(first, selected) && !first.ok && first.failures == Some([])
    ensures var first, rerun := lab.run(n, tree, step, selected), lab.run(n + 1, tree, step, selected);
            Judge(lab, n, tree, base, step, selected) ==
              if lab.fails(n + 1) then (Threw, n + 2)
              else if rerun.ok then (Accepted([WholeStep(step)], []), n + 2)
              else JudgeOutput(lab, n + 2, tree, base, step, selected, first)
  {
  }

  /** Whatever the commands do, a step is rejected if and only if something is blamed. */
  lemma StepRejectsOrNot(lab: Lab, n: nat, tree: string, base: Option<string>, step: Step, selected: Option<seq<string>>)
    ensures RejectsOrNot(Judge(lab, n, tree, base, step, selected).0)
  {
    var first := lab.run(n, tree, step, selected);
    if !lab.fails(n) && !NoFiles(first, selected) && !first.ok {
      if NamesTests(first, step) {
        JudgedByTests(lab, n, tree, base, step, selected, first);
        TestsRejectOrNot(lab, n + 1, tree, base, step, selected, first.failures.value);
      } else if step.vitest && first.failures == Some([]) {
        WholeStepRerun(lab, n, tree, base, step, selected);
        OutputVerdict(lab, n + 2, tree, base, step, selected, first);
      } else if !step.vitest {
        JudgedByOutput(lab, n, tree, base, step, selected, first);
        OutputVerdict(lab, n + 1, tree, base, step, selected, first);
      }
    }
  }

  /** None of these calls fails. */
  predicate Unfailed(lab: Lab, from: nat, to: nat) {
    forall k :: from <= k < to ==> !lab.fails(k)
  }

  lemma UnfailedUpTo(lab: Lab, n: nat, m: nat)
    requires n <= m <= n + 4
    ensures Unfailed(lab, n, m) <==>
              && (m > n ==> !lab.fails(n)) && (m > n + 1 ==> !lab.fails(n + 1))
              && (m > n + 2 ==> !lab.fails(n + 2)) && (m > n + 3 ==> !lab.fails(n + 3))
  {
  }

  lemma TestsThrowIff(lab: Lab, n: nat, tree: string, base: Option<string>, step: Step,
                      selected: Option<seq<string>>, failures: seq<string>)
    ensures var (v, m) := JudgeTests(lab, n, tree, base, step, selected, failures); v.Threw? <==> !Unfailed(lab, n, m)
  {
    var (v, m) := JudgeTests(lab, n, tree, base, step, selected, failures);
    UnfailedUpTo(lab, n, m);
  }

  /** A step throws if and only if one of its calls fails. */
  lemma StepThrowsIff(lab: Lab, n: nat, tree: string, base: Option<string>, step: Step, selected: Option<seq<string>>)
    ensures var (v, m) := Judge(lab, n, tree, base, step, selected); v.Threw? <==> !Unfailed(lab, n, m)
  {
    var first := lab.run(n, tree, step, selected);
    if !lab.fails(n) && !NoFiles(first, selected) && !first.ok {
      if NamesTests(first, step) {
        JudgedByTests(lab, n, tree, base, step, selected, first);
        TestsThrowIff(lab, n + 1, tree, base, step, selected, first.failures.value);
      } else {
        OutputThrowsIff(lab, if step.vitest then n + 2 else n + 1, tree, base, step, selected, first);
      }
    }
  }

  lemma OutputThrowsIff(lab: Lab, n: nat, tree: string, base: Option<string>, step: Step, selected: Option<seq<string>>,
                        first: StepResult)
    ensures var (v, m) := JudgeOutput(lab, n, tree, base, step, selected, first); v.Threw? <==> !Unfailed(lab, n, m)
  {
  }

  // ----------------------------------------------------------------- the gate

  lemma {:induction false} StepsThrowIff(lab: Lab, n: nat, tree: string, base: Option<string>, steps: seq<Step>,
                                         selection: Option<Selection>, flaky: seq<string>, pre: seq<string>)
    ensures var (r, m) := GateSteps(lab, n, tree, base, steps, selection, flaky, pre); r.None? <==> !Unfailed(lab, n, m)
    decreases |steps|
  {
    if steps != [] {
      if Skips(selection, steps[0]) {
        StepsThrowIff(lab, n, tree, base, steps[1..], selection, flaky, pre);
      } else {
        StepThrowsIff(lab, n, tree, base, steps[0], SelectedFor(selection, steps[0]));
        var (v, m) := Judge(lab, n, tree, base, steps[0], SelectedFor(selection, steps[0]));
        if v.Accepted? {
          StepsThrowIff(lab, m, tree, base, steps[1..], selection, flaky + v.flaky, pre + v.preexisting);
        }
      }
    }
  }

  /** A gate has no answer if and only if one of its calls fails, its install included. */
  lemma GateThrowsIff(lab: Lab, n: nat, tree: string, base: Option<string>, config: Config, selection: Option<Selection>)
    ensures var (r, m) := GateOn(lab, n, tree, base, config, selection);
            && (r.None? <==> !Unfailed(lab, n, m)) && (config.install ==> m > n)
  {
    StepsThrowIff(lab, if config.install then n + 1 else n, tree, base, config.steps, selection, [], []);
  }

  /** The verdicts of the steps that run, one after the other, up to the first that does not accept. */
  function StepVerdicts(lab: Lab, n: nat, tree: string, base: Option<string>, steps: seq<Step>,
                        selection: Option<Selection>): seq<Verdict>
    decreases |steps|
  {
    if steps == [] then []
    else if Skips(selection, steps[0]) then StepVerdicts(lab, n, tree, base, steps[1..], selection)
    else
      var (v, m) := Judge(lab, n, tree, base, steps[0], SelectedFor(selection, steps[0]));
      [v] + if v.Accepted? then StepVerdicts(lab, m, tree, base, steps[1..], selection) else []
  }

  function AllFlaky(vs: seq<Verdict>): seq<string> {
    if vs == [] then [] else FlakyOf(vs[0]) + AllFlaky(vs[1..])
  }

  function AllPreexisting(vs: seq<Verdict>): seq<string> {
    if vs == [] then [] else PreexistingOf(vs[0]) + AllPreexisting(vs[1..])
  }

  /** What a list of verdicts comes to. */
  predicate SumsUp(vs: seq<Verdict>, flaky: seq<string>, pre: seq<string>, r: Option<GateResult>) {
    if vs != [] && vs[|vs| - 1].Threw? then r.None?
    else && r.Some? && r.value.flaky == flaky + AllFlaky(vs) && r.value.preexisting == pre + AllPreexisting(vs)
         && (r.value.ok <==> vs == [] || vs[|vs| - 1].Accepted?)
         && r.value.newFailures == (if r.value.ok then [] else NewOf(vs[|vs| - 1]))
  }

  lemma SumsUpNext(v: Verdict, vs: seq<Verdict>, flaky: seq<string>, pre: seq<string>, r: Option<GateResult>)
    requires v.Accepted? && SumsUp(vs, flaky + v.flaky, pre + v.preexisting, r)
    ensures SumsUp([v] + vs, flaky, pre, r)
  {
    assert ([v] + vs)[1..] == vs;
  }

  /** The gate throws when its last step does; otherwise it fails exactly by its last step, and lists what all steps found. */
  lemma {:induction false} GateSumsUp(lab: Lab, n: nat, tree: string, base: Option<string>, steps: seq<Step>,
                                      selection: Option<Selection>, flaky: seq<string>, pre: seq<string>)
    ensures SumsUp(StepVerdicts(lab, n, tree, base, steps, selection), flaky, pre,
                   GateSteps(lab, n, tree, base, steps, selection, flaky, pre).0)
    decreases |steps|
  {
    if steps == [] {
    } else if Skips(selection, steps[0]) {
      GateSumsUp(lab, n, tree, base, steps[1..], selection, flaky, pre);
    } else {
      var (v, m) := Judge(lab, n, tree, base, steps[0], SelectedFor(selection, steps[0]));
      if v.Accepted? {
        GateSumsUp(lab, m, tree, base, steps[1..], selection, flaky + v.flaky, pre + v.preexisting);
        SumsUpNext(v, StepVerdicts(lab, m, tree, base, steps[1..], selection), flaky, pre,
                   GateSteps(lab, n, tree, base, steps, selection, flaky, pre).0);
      } else {
        assert [v] + [] == [v] && [v][1..] == [];
      }
    }
  }

  /** Whatever the commands do, the gate fails if and only if it blames something. */
  lemma {:induction false} GateFailsOrNot(lab: Lab, n: nat, tree: string, base: Option<string>, steps: seq<Step>,
                                          selection: Option<Selection>, flaky: seq<string>, pre: seq<string>)
    ensures var r := GateSteps(lab, n, tree, base, steps, selection, flaky, pre).0;
            r.Some? ==> (r.value.ok <==> r.value.newFailures == [])
    decreases |steps|
  {
    if steps != [] {
      if Skips(selection, steps[0]) {
        GateFailsOrNot(lab, n, tree, base, steps[1..], selection, flaky, pre);
      } else {
        StepRejectsOrNot(lab, n, tree, base, steps[0], SelectedFor(selection, steps[0]));
        var (v, m) := Judge(lab, n, tree, base, steps[0], SelectedFor(selection, steps[0]));
        if v.Accepted? {
          GateFailsOrNot(lab, m, tree, base, steps[1..], selection, flaky + v.flaky, pre + v.preexisting);
        }
      }
    }
  }

  /**
   * A rejected step blames something. When its first run named failing tests,
   * everything that is blamed failed in that run's rerun, did not fail on the
   * base, and failed once more in the confirm run.
   */
  lemma RejectedIsBlamed(lab: Lab, at: nat, tree: string, base: string, step: Step, r: GateResult)
    requires RejectedBy(lab, at, tree, base, step, r)
    ensures r.newFailures != []
    ensures var first := lab.run(at, tree, step, None);
            NamesTests(first, step) ==>
              forall id :: id in r.newFailures ==> FailedThrice(lab, at + 1, tree, base, step, None, first.failures.value, id)
  {
    StepRejectsOrNot(lab, at, tree, Some(base), step, None);
    var first := lab.run(at, tree, step, None);
    if NamesTests(first, step) {
      JudgedByTests(lab, at, tree, Some(base), step, None, first);
      forall id | id in r.newFailures ensures FailedThrice(lab, at + 1, tree, base, step, None, first.failures.value, id) {
        BlameNeedsThreeRuns(lab, at + 1, tree, base, step, None, first.failures.value, id);
      }
    }
  }
}
