/**
 * The landing gate: every step of a repository's verification, with failing
 * tests rerun once, compared with the base commit and confirmed before they
 * count. `Judge` says what one step comes to and `Gate` what all of them do;
 * `RunGate` is the gate itself.
 */
module Gate {
  import opened Options
  import opened Text
  import opened UnhandledErrors

  datatype Step = Step(name: string, vitest: bool)

  datatype Config = Config(install: bool, steps: seq<Step>)

  /** One test file of a Vitest report: its path, whether it failed, and its failing tests. */
  datatype TestFile = TestFile(name: string, failed: bool, tests: seq<string>)

  /** What one run of a step's command leaves: exit status zero or not, output, and a report if readable. */
  datatype Raw = Raw(ok: bool, output: string, report: Option<seq<TestFile>>)

  datatype StepResult = StepResult(ok: bool, lines: seq<string>, failures: Option<seq<string>>, testFiles: Option<nat>)

  /**
   * The machine the gate runs on. The n-th call out of the program fails or
   * not, and a step run at the n-th call on some tree gives some result: the
   * same step may well come out differently each time.
   */
  datatype Lab = Lab(
    prefix: string,
    fails: nat -> bool,
    run: (nat, string, Step, Option<seq<string>>) -> StepResult)

  // ------------------------------------------------------------ one step run

  function TestIds(file: string, tests: seq<string>): (r: seq<string>)
    ensures |r| == |tests| && forall k :: 0 <= k < |r| ==> r[k] == file + SEPARATOR + tests[k]
  {
    if tests == [] then [] else TestIds(file, tests[..|tests| - 1]) + [file + SEPARATOR + tests[|tests| - 1]]
  }

  function FailuresIn(f: TestFile): seq<string> {
    if f.tests == [] && f.failed then [f.name + SEPARATOR + "(file)"] else TestIds(f.name, f.tests)
  }

  function ReportFailures(files: seq<TestFile>): seq<string> {
    if files == [] then [] else FailuresIn(files[0]) + ReportFailures(files[1..])
  }

  function NonBlank(lines: seq<string>): seq<string> {
    if lines == [] then [] else if lines[0] == "" then NonBlank(lines[1..]) else [lines[0]] + NonBlank(lines[1..])
  }

  function HashAll(lines: seq<string>): seq<string> {
    if lines == [] then [] else [HashDigits(lines[0])] + HashAll(lines[1..])
  }

  /** Output lines as they are compared: numbers hashed, trimmed, blank lines dropped. */
  function Normalize(output: string): seq<string> {
    NonBlank(TrimAll(HashAll(Split(output, "\n"))))
  }

  function ResultOf(f: Format, step: Step, raw: Raw): StepResult {
    var lines := if raw.ok then [] else Normalize(raw.output);
    if !step.vitest || raw.report.None? then StepResult(raw.ok, lines, None, None)
    else
      var unhandled := if raw.ok then [] else IdsOf(f, raw.output);
      StepResult(raw.ok, lines, Some(ReportFailures(raw.report.value) + unhandled), Some(|raw.report.value|))
  }

  /** A machine seen through its commands' exit status, output and report. */
  function LabOf(f: Format, fails: nat -> bool, run: (nat, string, Step, Option<seq<string>>) -> Raw): Lab {
    Lab(f.prefix, fails,
        (n: nat, tree: string, step: Step, files: Option<seq<string>>) => ResultOf(f, step, run(n, tree, step, files)))
  }

  /** Run a step at the n-th call; `None` when that throws. */
  function RunStep(lab: Lab, n: nat, tree: string, step: Step, files: Option<seq<string>>): Option<StepResult> {
    if lab.fails(n) then None else Some(lab.run(n, tree, step, files))
  }

  // ------------------------------------------------------------ what to rerun

  function FileOf(id: string): string {
    Split(id, SEPARATOR)[0]
  }

  function FilesOf(ids: seq<string>): seq<string> {
    Distinct(AllFiles(ids))
  }

  function AllFiles(ids: seq<string>): seq<string> {
    if ids == [] then [] else [FileOf(ids[0])] + AllFiles(ids[1..])
  }

  predicate Unattributed(prefix: string, id: string) { prefix <= id }

  /** Some failure is an error that names no file. */
  predicate SomeUnattributed(prefix: string, ids: seq<string>) {
    exists k :: 0 <= k < |ids| && Unattributed(prefix, ids[k])
  }

  /** What is run again after failures: the files behind them, or all that was selected when some failure has no file. */
  function RerunScope(prefix: string, ids: seq<string>, selected: Option<seq<string>>): Option<seq<string>> {
    if SomeUnattributed(prefix, ids) then selected else Some(FilesOf(ids))
  }

  // --------------------------------------------------------------- one verdict

  datatype Probe = Probe(step: Step, files: Option<seq<string>>, ids: Option<seq<string>>, baseLines: Option<seq<string>>)

  datatype Verdict =
    | Threw
    | Accepted(flaky: seq<string>, preexisting: seq<string>)
    | Rejected(flaky: seq<string>, preexisting: seq<string>, novel: seq<string>, probe: Probe)

  /** The reported failures; without a readable report a failed run counts as failing like `assumed`. */
  function FailuresOr(r: StepResult, assumed: seq<string>): seq<string> {
    if r.failures.Some? then r.failures.value else if r.ok then [] else assumed
  }

  function NoMatch(step: Step, selected: seq<string>): string {
    step.name + " (no test files match " + Join(selected, ", ") + ")"
  }

  function NoReport(step: Step): string { step.name + " (no test report)" }

  function WholeStep(step: Step): string { step.name + " (whole step)" }

  function SameOutput(step: Step): string { step.name + " (same failure output on the baseline)" }

  function Lines(o: Option<seq<string>>): seq<string> {
    if o.Some? then o.value else []
  }

  /** Run the probe on a tree: true when the failure shows there too, `None` when the run throws. */
  function ProbeFails(lab: Lab, n: nat, tree: string, probe: Probe): Option<bool> {
    match RunStep(lab, n, tree, probe.step, probe.files)
    case None => None
    case Some(r) =>
      if r.ok then Some(false)
      else if probe.ids.Some? then Some(Within(FailuresOr(r, probe.ids.value), probe.ids.value) != [])
      else Some(Without(r.lines, Lines(probe.baseLines)) != [])
  }

  /** A step whose first run reported failing tests: rerun them, compare with the base, confirm. */
  function JudgeTests(lab: Lab, n: nat, tree: string, base: Option<string>, step: Step,
                      selected: Option<seq<string>>, failures: seq<string>): (r: (Verdict, nat))
    ensures r.1 > n && (r.0.Threw? ==> lab.fails(r.1 - 1))
  {
    var rerun := RunStep(lab, n, tree, step, RerunScope(lab.prefix, failures, selected));
    if rerun.None? then (Threw, n + 1) else
    var still := FailuresOr(rerun.value, failures);
    var flaky := Without(failures, still);
    var scope := RerunScope(lab.prefix, still, selected);
    if still == [] then (Accepted(flaky, []), n + 1)
    else if base.None? then (Rejected(flaky, [], still, Probe(step, scope, Some(still), None)), n + 1)
    else if lab.fails(n + 1) then (Threw, n + 2)
    else
      var onBase := RunStep(lab, n + 2, base.value, step, scope);
      if onBase.None? then (Threw, n + 3) else
      var baseFailures := FailuresOr(onBase.value, still);
      var pre, novel := Within(still, baseFailures), Without(still, baseFailures);
      if novel == [] then (Accepted(flaky, pre), n + 3) else
      var confirm := RunStep(lab, n + 3, tree, step, RerunScope(lab.prefix, novel, selected));
      if confirm.None? then (Threw, n + 4) else
      var confirmed := FailuresOr(confirm.value, novel);
      var blamed := Within(novel, confirmed);
      var flaky' := flaky + Without(novel, confirmed);
      if blamed == [] then (Accepted(flaky', pre), n + 4)
      else (Rejected(flaky', pre, blamed, Probe(step, RerunScope(lab.prefix, blamed, selected), Some(blamed), None)), n + 4)
  }

  /** A step that failed without naming tests: compare its output with the base's. */
  function JudgeOutput(lab: Lab, n: nat, tree: string, base: Option<string>, step: Step,
                       selected: Option<seq<string>>, first: StepResult): (r: (Verdict, nat))
    ensures r.1 >= n && (r.0.Threw? ==> r.1 > n && lab.fails(r.1 - 1))
  {
    if base.None? then (Rejected([], [], [step.name], Probe(step, None, None, Some([]))), n)
    else if lab.fails(n) then (Threw, n + 1)
    else
      var onBase := RunStep(lab, n + 1, base.value, step, selected);
      if onBase.None? then (Threw, n + 2)
      else if !onBase.value.ok && Without(first.lines, onBase.value.lines) == [] then
        (Accepted([], [SameOutput(step)]), n + 2)
      else
        (Rejected([], [], [step.name], Probe(step, None, None, Some(if onBase.value.ok then [] else onBase.value.lines))), n + 2)
  }

  /**
   * What one step comes to, when the next call out is the n-th; also the number
   * of the call after it. A step throws only when its last call fails.
   */
  function Judge(lab: Lab, n: nat, tree: string, base: Option<string>, step: Step, selected: Option<seq<string>>)
    : (r: (Verdict, nat))
    ensures r.1 > n && (r.0.Threw? ==> lab.fails(r.1 - 1))
  {
    var run := RunStep(lab, n, tree, step, selected);
    if run.None? then (Threw, n + 1) else
    var first := run.value;
    if selected.Some? && first.testFiles == Some(0) then
      (Rejected([], [], [NoMatch(step, selected.value)], Probe(step, None, None, None)), n + 1)
    else if first.ok then (Accepted([], []), n + 1)
    else if step.vitest && Lines(first.failures) != [] then
      JudgeTests(lab, n + 1, tree, base, step, selected, first.failures.value)
    else if step.vitest && first.failures.None? then
      (Rejected([], [], [NoReport(step)], Probe(step, None, None, None)), n + 1)
    else if step.vitest then
      var rerun := RunStep(lab, n + 1, tree, step, selected);
      if rerun.None? then (Threw, n + 2)
      else if rerun.value.ok then (Accepted([WholeStep(step)], []), n + 2)
      else JudgeOutput(lab, n + 2, tree, base, step, selected, first)
    else JudgeOutput(lab, n + 1, tree, base, step, selected, first)
  }

  // ------------------------------------------------------------------ the gate

  /** Test paths per step name, for a focused run. */
  type Selection = map<string, seq<string>>

  /** The paths a focused run names for a step; `None` runs it whole. */
  function SelectedFor(selection: Option<Selection>, step: Step): Option<seq<string>> {
    if selection.None? || !step.vitest then None
    else Some(if step.name in selection.value then selection.value[step.name] else [])
  }

  /** A focused run skips the test steps it names no path for. */
  predicate Skips(selection: Option<Selection>, step: Step) {
    SelectedFor(selection, step) == Some([])
  }

  datatype GateResult = GateResult(
    ok: bool, failedStep: Option<string>, newFailures: seq<string>,
    flaky: seq<string>, preexisting: seq<string>, probe: Option<Probe>)

  /** The steps from the first on, with the tests found flaky or failing on the base so far. */
  function GateSteps(lab: Lab, n: nat, tree: string, base: Option<string>, steps: seq<Step>,
                     selection: Option<Selection>, flaky: seq<string>, pre: seq<string>): (r: (Option<GateResult>, nat))
    ensures r.1 >= n && (r.0.None? ==> r.1 > n && lab.fails(r.1 - 1))
    decreases |steps|
  {
    if steps == [] then (Some(GateResult(true, None, [], flaky, pre, None)), n)
    else if Skips(selection, steps[0]) then GateSteps(lab, n, tree, base, steps[1..], selection, flaky, pre)
    else
      match Judge(lab, n, tree, base, steps[0], SelectedFor(selection, steps[0]))
      case (Threw, m) => (None, m)
      case (Accepted(f, p), m) => GateSteps(lab, m, tree, base, steps[1..], selection, flaky + f, pre + p)
      case (Rejected(f, p, novel, probe), m) =>
        (Some(GateResult(false, Some(steps[0].name), novel, flaky + f, pre + p, Some(probe))), m)
  }

  /** The whole gate on `tree`, started at the n-th call out; `None` when it throws, and then its last call failed. */
  function GateOn(lab: Lab, n: nat, tree: string, base: Option<string>, config: Config,
                  selection: Option<Selection>): (r: (Option<GateResult>, nat))
    ensures r.1 >= n && (r.0.None? ==> r.1 > n && lab.fails(r.1 - 1))
  {
    if config.install && lab.fails(n) then (None, n + 1)
    else GateSteps(lab, if config.install then n + 1 else n, tree, base, config.steps, selection, [], [])
  }

  /** The gate as it runs: one record updated step by step. */
  method RunGate(lab: Lab, start: nat, tree: string, base: Option<string>, config: Config, selection: Option<Selection>)
    returns (result: Option<GateResult>, n: nat)
    ensures (result, n) == GateOn(lab, start, tree, base, config, selection)
  {
    n := start;
    if config.install {
      n := n + 1;
      if lab.fails(start) { return None, n; }
    }
    var flaky: seq<string>, pre: seq<string> := [], [];
    var i := 0;
    assert config.steps[0..] == config.steps;
    while i < |config.steps|
      invariant 0 <= i <= |config.steps|
      invariant GateSteps(lab, n, tree, base, config.steps[i..], selection, flaky, pre)
                == GateOn(lab, start, tree, base, config, selection)
    {
      var step := config.steps[i];
      assert config.steps[i..][0] == step && config.steps[i..][1..] == config.steps[i + 1..];
      i := i + 1;
      var selected := SelectedFor(selection, step);
      if selected == Some([]) { continue; }
      var verdict;
      verdict, n := RunOneStep(lab, n, tree, base, step, selected);
      match verdict
      case Threw => return None, n;
      case Accepted(f, p) => flaky, pre := flaky + f, pre + p;
      case Rejected(f, p, novel, probe) =>
        return Some(GateResult(false, Some(step.name), novel, flaky + f, pre + p, Some(probe))), n;
    }
    result := Some(GateResult(true, None, [], flaky, pre, None));
  }

  /** One step as it runs: every run is one call out, and each decides whether there is a next. */
  method RunOneStep(lab: Lab, start: nat, tree: string, base: Option<string>, step: Step, selected: Option<seq<string>>)
    returns (verdict: Verdict, n: nat)
    ensures (verdict, n) == Judge(lab, start, tree, base, step, selected)
  {
    n := start + 1;
    var run := RunStep(lab, start, tree, step, selected);
    if run.None? { return Threw, n; }
    var first := run.value;
    if selected.Some? && first.testFiles == Some(0) {
      return Rejected([], [], [NoMatch(step, selected.value)], Probe(step, None, None, None)), n;
    }
    if first.ok { return Accepted([], []), n; }
    if step.vitest && first.failures.Some? && first.failures.value != [] {
      verdict, n := CompareTests(lab, n, tree, base, step, selected, first.failures.value);
      return;
    }
    if step.vitest && first.failures.None? {
      return Rejected([], [], [NoReport(step)], Probe(step, None, None, None)), n;
    }
    if step.vitest {
      var rerun := RunStep(lab, n, tree, step, selected);
      n := n + 1;
      if rerun.None? { return Threw, n; }
      if rerun.value.ok { return Accepted([WholeStep(step)], []), n; }
    }
    if base.None? { return Rejected([], [], [step.name], Probe(step, None, None, Some([]))), n; }
    n := n + 1;
    if lab.fails(n - 1) { return Threw, n; }
    var onBase := RunStep(lab, n, base.value, step, selected);
    n := n + 1;
    if onBase.None? { return Threw, n; }
    var novel := if onBase.value.ok then first.lines else Without(first.lines, onBase.value.lines);
    if !onBase.value.ok && novel == [] {
      return Accepted([], [SameOutput(step)]), n;
    }
    return Rejected([], [], [step.name],
                    Probe(step, None, None, Some(if onBase.value.ok then [] else onBase.value.lines))), n;
  }

  /** The rerun, baseline and confirm runs of a step with failing tests. */
  method CompareTests(lab: Lab, start: nat, tree: string, base: Option<string>, step: Step,
                      selected: Option<seq<string>>, failures: seq<string>)
    returns (verdict: Verdict, n: nat)
    ensures (verdict, n) == JudgeTests(lab, start, tree, base, step, selected, failures)
  {
    n := start + 1;
    var rerun := RunStep(lab, start, tree, step, RerunScope(lab.prefix, failures, selected));
    if rerun.None? { return Threw, n; }
    var still := FailuresOr(rerun.value, failures);
    var flaky := Without(failures, still);
    if still == [] { return Accepted(flaky, []), n; }
    var scope := RerunScope(lab.prefix, still, selected);
    if base.None? { return Rejected(flaky, [], still, Probe(step, scope, Some(still), None)), n; }
    n := n + 1;
    if lab.fails(n - 1) { return Threw, n; }
    var onBase := RunStep(lab, n, base.value, step, scope);
    n := n + 1;
    if onBase.None? { return Threw, n; }
    var baseFailures := FailuresOr(onBase.value, still);
    var pre := Within(still, baseFailures);
    var novel := Without(still, baseFailures);
    if novel != [] {
      var confirm := RunStep(lab, n, tree, step, RerunScope(lab.prefix, novel, selected));
      n := n + 1;
      if confirm.None? { return Threw, n; }
      var confirmed := FailuresOr(confirm.value, novel);
      flaky := flaky + Without(novel, confirmed);
      novel := Within(novel, confirmed);
    }
    if novel == [] { return Accepted(flaky, pre), n; }
    return Rejected(flaky, pre, novel, Probe(step, RerunScope(lab.prefix, novel, selected), Some(novel), None)), n;
  }
}
