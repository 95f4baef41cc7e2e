/** When a landing run blames an entry, and what it pushes, in terms of the gate's steps. */
module LandingCulprit {
  import opened Options
  import opened Git
  import opened Gate
  import opened GateRules
  import opened GateVerdicts
  import opened LandingCheckout
  import opened LandingRun
  import Queue

  /** The step that the failed gate of a blame names, and its probe. */
  lemma BlamedStep(env: Env, base: Commit, config: Config, entries: seq<Git.Entry>, b: Blame, checks: set<Check>)
    returns (step: Step, at: nat)
    requires BlameOk(env, base, config, entries, b, checks)
    ensures step in config.steps && RejectedBy(env.lab, at, Tip(base, b.stack).tree, base.tree, step, b.gate)
  {
    var n := if config.install then b.gated.from + 1 else b.gated.from;
    RejectingStep(env.lab, n, Tip(base, b.stack).tree, base.tree, config.steps, [], []);
    var k: nat, m: nat :| k < |config.steps| && RejectedBy(env.lab, m, Tip(base, b.stack).tree, base.tree, config.steps[k],
      GateSteps(env.lab, n, Tip(base, b.stack).tree, Some(base.tree), config.steps, None, [], []).0.value);
    step, at := config.steps[k], m;
  }

  /** Under steady commands, what the search saw at some call is what the probe shows on that tree. */
  lemma SeenIsShown(env: Env, base: Commit, stack: seq<Git.Stacked>, k: nat, probe: Probe, b: bool, t: Trail)
    requires k <= |stack| && Steady(env.lab, probe.step) && Probed(env, base, stack, k, probe, b, t)
    ensures Shows(env.lab, PrefixTree(base, stack, k), probe) == b
  {
    var n :| t.span.from <= n < t.span.to && ProbeMade(env, n, PrefixTree(base, stack, k), probe, b, t.checks);
    ProbeAnswers(env.lab, n, PrefixTree(base, stack, k), probe);
  }

  /** The probe is false on the base and, unless the failing command is silent, true on the whole stack. */
  predicate ProbeTells(lab: Lab, base: Commit, stack: seq<Git.Stacked>, probe: Probe) {
    && !Shows(lab, base.tree, probe)
    && (Shows(lab, Tip(base, stack).tree, probe) <==> !Silent(lab, Tip(base, stack).tree, base.tree, probe.step))
  }

  /**
   * The check passes on the stack before this entry. It fails with the entry,
   * except when that is the last one and the failing command is silent.
   */
  predicate IsCulprit(lab: Lab, base: Commit, stack: seq<Git.Stacked>, probe: Probe, culprit: nat) {
    && culprit < |stack|
    && !Shows(lab, PrefixTree(base, stack, culprit), probe)
    && (Shows(lab, PrefixTree(base, stack, culprit + 1), probe) <==>
        !(culprit + 1 == |stack| && Silent(lab, Tip(base, stack).tree, base.tree, probe.step)))
  }

  /** The probe of a failed gate, on the base and on the whole stack. */
  lemma BlamedProbe(env: Env, base: Commit, config: Config, entries: seq<Git.Entry>, b: Blame,
                    checks: set<Check>)
    requires BlameOk(env, base, config, entries, b, checks)
    requires Dependable(env.lab, Tip(base, b.stack).tree, base.tree, b.gate.probe.value.step)
    ensures ProbeTells(env.lab, base, b.stack, b.gate.probe.value)
  {
    var step, at := BlamedStep(env, base, config, entries, b, checks);
    ProbeNamesStep(env.lab, at, Tip(base, b.stack).tree, Some(base.tree), step, None);
    ProbeSeparates(env.lab, at, Tip(base, b.stack).tree, base.tree, step);
  }

  /**
   * The bounced entry is a real culprit. When the step that failed depends only
   * on the tree and its reports on the base and on the stack can be read, the
   * batch without the bounced entry, and without those after it, passes the
   * failing check, and the batch with it fails it, whatever other steps do and
   * whatever calls of the run fail.
   * The one exception is a command that fails without printing anything on the
   * whole stack and passes on the base, when the search ends at the last entry.
   * No monotonicity of the check along the stack is needed.
   */
  lemma BouncedEntryIsCulprit(env: Env, base: Commit, config: Config, entries: seq<Git.Entry>, b: Blame,
                              checks: set<Check>)
    requires BlameOk(env, base, config, entries, b, checks)
    requires Dependable(env.lab, Tip(base, b.stack).tree, base.tree, b.gate.probe.value.step)
    ensures IsCulprit(env.lab, base, b.stack, b.gate.probe.value, b.culprit)
  {
    BlamedProbe(env, base, config, entries, b, checks);
    FoundAgain(env, base, b.stack, b.gate.probe.value, b.culprit, Trail(b.search, checks));
  }

  /** What the search saw next to the entry it ended at, and what holds at the ends it does not probe. */
  lemma FoundAgain(env: Env, base: Commit, stack: seq<Git.Stacked>, probe: Probe, culprit: nat, t: Trail)
    requires Steady(env.lab, probe.step) && Found(env, base, stack, probe, culprit, t)
    requires ProbeTells(env.lab, base, stack, probe)
    ensures IsCulprit(env.lab, base, stack, probe, culprit)
  {
    assert stack[..0] == [] && stack[..|stack|] == stack;
    if culprit > 0 { SeenIsShown(env, base, stack, culprit, probe, false, t); }
    if culprit + 1 < |stack| { SeenIsShown(env, base, stack, culprit + 1, probe, true, t); }
  }

  lemma {:induction false} BlameFor(env: Env, base: Commit, config: Config, entries: seq<Git.Entry>, blames: seq<Blame>,
                                    t: Trail, e: Git.Entry, o: Queue.Outcome)
    returns (b: Blame)
    requires BlamesOk(env, base, config, entries, blames, t) && HasBlame(blames, e, o)
    ensures BlameOk(env, base, config, entries, b, t.checks) && Justifies(b, e, o) && BlamedIn(b, t.span)
  {
    if Justifies(Last(blames), e, o) {
      b := Last(blames);
    } else {
      b := BlameFor(env, base, config, entries, Init(blames), t, e, o);
    }
  }

  /**
   * From the report back to the cause: an entry that a run reports as having
   * broken the gate was bounced after this run's gate failed on a stack of its
   * claimed entries; when the failed step is dependable, the part of that stack
   * before it passes the very check the report names, and with it the check fails.
   */
  lemma ReportedCulprit(env: Env, l: Queue.Local, rec: Record, k: nat) returns (b: Blame)
    requires l.Job? && l.reported.Some? && RunSound(env, l, rec) && ReportSound(env, l, rec) && k < |l.entries|
    requires var o := l.reported.value.0.outcomes[k].1; o.Bounced? && o.reason.GateFailed?
    ensures rec.config.Some? && BlameOk(env, l.ref, rec.config.value, l.entries, b, rec.trail.checks)
    ensures GateRead(env, rec.config, rec.trail) && BlamedIn(b, rec.trail.span)
    ensures Justifies(b, l.entries[k], l.reported.value.0.outcomes[k].1)
    ensures Dependable(env.lab, Tip(l.ref, b.stack).tree, l.ref.tree, b.gate.probe.value.step) ==>
              IsCulprit(env.lab, l.ref, b.stack, b.gate.probe.value, b.culprit)
  {
    var o := l.reported.value.0.outcomes[k].1;
    assert OutcomeSound(env, l.ref, l.entries, l.stage, rec, l.entries[k], o);
    b := BlameFor(env, l.ref, rec.config.value, l.entries, rec.blames, rec.trail, l.entries[k], o);
    if Dependable(env.lab, Tip(l.ref, b.stack).tree, l.ref.tree, b.gate.probe.value.step) {
      BouncedEntryIsCulprit(env, l.ref, rec.config.value, l.entries, b, rec.trail.checks);
    }
  }

  /**
   * What the owner of a bounced entry is told: the name of the step that failed,
   * the first of its new failures, thirty at most, and whether the entry was
   * alone. When the step named tests, each failure it is told showed when they
   * were rerun on the stack, did not show on the base, and showed once more.
   */
  predicate TellsWhy(lab: Lab, at: nat, tree: string, base: string, step: Step, b: Blame, reason: Queue.Reason)
    requires reason.GateFailed?
  {
    var first, told := lab.run(at, tree, step, None), reason.failures;
    && reason.step == step.name && (reason.alone <==> |b.stack| == 1)
    && told != [] && told <= b.gate.newFailures && (told == b.gate.newFailures || |told| == 30) && |told| <= 30
    && (NamesTests(first, step) ==>
          forall id :: id in told ==> FailedThrice(lab, at + 1, tree, base, step, None, first.failures.value, id))
  }

  lemma ReasonTells(lab: Lab, at: nat, tree: string, base: string, step: Step, b: Blame)
    requires RejectedBy(lab, at, tree, base, step, b.gate)
    ensures TellsWhy(lab, at, tree, base, step, b, ReasonOf(b.stack, b.gate))
  {
    RejectedIsBlamed(lab, at, tree, base, step, b.gate);
    assert forall id :: id in Take30(b.gate.newFailures) ==> id in b.gate.newFailures;
  }

  lemma ReportedReason(env: Env, l: Queue.Local, rec: Record, k: nat) returns (b: Blame, step: Step, at: nat)
    requires l.Job? && l.reported.Some? && RunSound(env, l, rec) && ReportSound(env, l, rec) && k < |l.entries|
    requires var o := l.reported.value.0.outcomes[k].1; o.Bounced? && o.reason.GateFailed?
    ensures rec.config.Some? && BlameOk(env, l.ref, rec.config.value, l.entries, b, rec.trail.checks)
    ensures b.culprit < |b.stack| && b.stack[b.culprit].entry == l.entries[k]
    ensures step in rec.config.value.steps && RejectedBy(env.lab, at, Tip(l.ref, b.stack).tree, l.ref.tree, step, b.gate)
    ensures TellsWhy(env.lab, at, Tip(l.ref, b.stack).tree, l.ref.tree, step, b, l.reported.value.0.outcomes[k].1.reason)
  {
    b := ReportedCulprit(env, l, rec, k);
    step, at := BlamedStep(env, l.ref, rec.config.value, l.entries, b, rec.trail.checks);
    ReasonTells(env.lab, at, Tip(l.ref, b.stack).tree, l.ref.tree, step, b);
  }

  lemma TestsProbeStep(lab: Lab, n: nat, tree: string, base: Option<string>, step: Step, selected: Option<seq<string>>,
                       failures: seq<string>)
    requires JudgeTests(lab, n, tree, base, step, selected, failures).0.Rejected?
    ensures JudgeTests(lab, n, tree, base, step, selected, failures).0.probe.step == step
  {
  }

  lemma OutputProbeStep(lab: Lab, n: nat, tree: string, base: Option<string>, step: Step, selected: Option<seq<string>>,
                        first: StepResult)
    requires JudgeOutput(lab, n, tree, base, step, selected, first).0.Rejected?
    ensures JudgeOutput(lab, n, tree, base, step, selected, first).0.probe.step == step
  {
  }

  lemma ProbeNamesStep(lab: Lab, n: nat, tree: string, base: Option<string>, step: Step, selected: Option<seq<string>>)
    requires Judge(lab, n, tree, base, step, selected).0.Rejected?
    ensures Judge(lab, n, tree, base, step, selected).0.probe.step == step
  {
    var first := lab.run(n, tree, step, selected);
    if step.vitest && Lines(first.failures) != [] {
      if JudgeTests(lab, n + 1, tree, base, step, selected, first.failures.value).0.Rejected? {
        TestsProbeStep(lab, n + 1, tree, base, step, selected, first.failures.value);
      }
    } else {
      var m := if step.vitest then n + 2 else n + 1;
      if JudgeOutput(lab, m, tree, base, step, selected, first).0.Rejected? {
        OutputProbeStep(lab, m, tree, base, step, selected, first);
      }
    }
  }

  /** A command that never prints anything, whether it passes or fails. */
  ghost predicate NeverPrints(lab: Lab, step: Step) {
    !step.vitest && forall t :: Out(lab, t, step, None).failures.None? && Out(lab, t, step, None).lines == []
  }

  /** When such a command fails the gate, the batch bounces its last entry, whichever entry broke the check. */
  lemma SilentFailureBlamesLast(env: Env, base: Commit, config: Config, entries: seq<Git.Entry>, b: Blame,
                                checks: set<Check>)
    requires BlameOk(env, base, config, entries, b, checks)
    requires var step := b.gate.probe.value.step; Steady(env.lab, step) && NeverPrints(env.lab, step)
    ensures b.culprit == |b.stack| - 1
  {
    BlamedSilent(env, base, config, entries, b, checks);
    if b.culprit + 1 < |b.stack| { NeverSeen(env, base, b.stack, b.culprit + 1, b.gate.probe.value, Trail(b.search, checks)); }
  }

  lemma BlamedSilent(env: Env, base: Commit, config: Config, entries: seq<Git.Entry>, b: Blame,
                     checks: set<Check>)
    requires BlameOk(env, base, config, entries, b, checks)
    requires var step := b.gate.probe.value.step; Steady(env.lab, step) && NeverPrints(env.lab, step)
    ensures b.gate.probe.value.files == None && b.gate.probe.value.ids == None
  {
    var step, at := BlamedStep(env, base, config, entries, b, checks);
    ProbeNamesStep(env.lab, at, Tip(base, b.stack).tree, Some(base.tree), step, None);
    SilentProbe(env.lab, at, Tip(base, b.stack).tree, base.tree, step);
  }

  lemma NeverSeen(env: Env, base: Commit, stack: seq<Git.Stacked>, k: nat, probe: Probe, t: Trail)
    requires Steady(env.lab, probe.step) && NeverPrints(env.lab, probe.step)
    requires probe.files == None && probe.ids == None && k <= |stack|
    ensures !Probed(env, base, stack, k, probe, true, t)
  {
    SilentNeverFails(env.lab, PrefixTree(base, stack, k), probe);
    if Probed(env, base, stack, k, probe, true, t) { SeenIsShown(env, base, stack, k, probe, true, t); }
  }

  /** The search never sees such a command fail. */
  lemma SilentNeverFails(lab: Lab, tree: string, probe: Probe)
    requires NeverPrints(lab, probe.step) && probe.files == None && probe.ids == None
    ensures !Shows(lab, tree, probe)
  {
    assert Out(lab, tree, probe.step, None).lines == [];
  }

  lemma SilentProbe(lab: Lab, n: nat, tree: string, base: string, step: Step)
    requires Steady(lab, step) && NeverPrints(lab, step) && Judge(lab, n, tree, Some(base), step, None).0.Rejected?
    ensures var probe := Judge(lab, n, tree, Some(base), step, None).0.probe;
            probe.step == step && probe.files == None && probe.ids == None
  {
    SteadyRun(lab, n, tree, step, None);
    SteadyOutput(lab, n + 1, tree, base, step, None);
  }

  /** A check that fails on every tree, the base included, leaves the search with the first entry. */
  lemma EverywhereFailureBlamesFirst(env: Env, base: Commit, config: Config, entries: seq<Git.Entry>, b: Blame,
                                     checks: set<Check>)
    requires BlameOk(env, base, config, entries, b, checks) && Steady(env.lab, b.gate.probe.value.step)
    requires forall t :: Shows(env.lab, t, b.gate.probe.value)
    ensures b.culprit == 0
  {
    if b.culprit > 0 {
      SeenIsShown(env, base, b.stack, b.culprit, b.gate.probe.value, false, Trail(b.search, checks));
    }
  }

  /** A test runner that cannot start anywhere: its step fails with output and without a report on every tree. */
  ghost predicate CannotStart(lab: Lab, step: Step) {
    && step.vitest
    && forall t :: !Out(lab, t, step, None).ok && Out(lab, t, step, None).failures.None? && Out(lab, t, step, None).lines != []
  }

  /** So a batch whose gate fails with a runner that cannot start, not even on the base, bounces its first entry. */
  lemma CannotStartBlamesFirst(env: Env, base: Commit, config: Config, entries: seq<Git.Entry>, b: Blame,
                               checks: set<Check>)
    requires BlameOk(env, base, config, entries, b, checks)
    requires var step := b.gate.probe.value.step; Steady(env.lab, step) && CannotStart(env.lab, step)
    ensures b.culprit == 0
  {
    var step, at := BlamedStep(env, base, config, entries, b, checks);
    var probe := b.gate.probe.value;
    ProbeNamesStep(env.lab, at, Tip(base, b.stack).tree, Some(base.tree), step, None);
    ProbeWithoutReport(env.lab, at, Tip(base, b.stack).tree, base.tree, step);
    NoReportProbe(env.lab, at, Tip(base, b.stack).tree, Some(base.tree), step);
    forall t ensures Shows(env.lab, t, probe) {
      WithoutNothing(Out(env.lab, t, step, None).lines);
    }
    EverywhereFailureBlamesFirst(env, base, config, entries, b, checks);
  }

  lemma NoReportProbe(lab: Lab, n: nat, tree: string, base: Option<string>, step: Step)
    requires Steady(lab, step) && step.vitest && !Out(lab, tree, step, None).ok && Out(lab, tree, step, None).failures.None?
    requires !lab.fails(n)
    ensures Judge(lab, n, tree, base, step, None).0 == Rejected([], [], [NoReport(step)], Probe(step, None, None, None))
  {
    SteadyRun(lab, n, tree, step, None);
  }

  /**
   * No step that depends only on the tree, and whose reports on both trees are
   * readable, fails on the first tree in a way it does not fail on the second.
   */
  ghost predicate BreaksNothing(lab: Lab, tree: string, base: string, steps: seq<Step>) {
    forall k :: 0 <= k < |steps| && Steady(lab, steps[k]) && Readable(lab, tree, base, steps[k], None) ==>
      !NewlyFails(lab, tree, base, steps[k], None)
  }

  /**
   * What is pushed breaks no such step that the base does not break, unless its
   * single entry was tested before on that very tree.
   */
  lemma PushedTreeIsSound(env: Env, base: Commit, config: Config, stack: seq<Git.Stacked>, t: Trail)
    requires Cleared(env, base, config, stack, t)
    ensures var tree := Tip(base, stack).tree;
            || (|stack| == 1 && stack[0].entry.preSubmit == Passed(tree))
            || BreaksNothing(env.lab, tree, base.tree, config.steps)
  {
    var tree := Tip(base, stack).tree;
    if !(|stack| == 1 && stack[0].entry.preSubmit == Passed(tree)) {
      var at :| Inside(at, t.span) && GatePassed(env, base, config, tree, at, t.checks);
      GatePassedMeansSound(env, base, config, tree, at, t.checks);
    }
  }

  lemma GatePassedMeansSound(env: Env, base: Commit, config: Config, tree: string, at: Span, checks: set<Check>)
    requires GatePassed(env, base, config, tree, at, checks)
    ensures BreaksNothing(env.lab, tree, base.tree, config.steps)
  {
    var gate :| GateMade(env, base, config, tree, at, gate, checks) && gate.ok;
    PassedMeansSound(env.lab, if config.install then at.from + 1 else at.from, tree, base.tree, config.steps, [], []);
  }

  /** A gate that passes accepted each of its steps, so each of those that are dependable is sound. */
  lemma {:induction false} PassedMeansSound(lab: Lab, n: nat, tree: string, base: string, steps: seq<Step>,
                                            flaky: seq<string>, pre: seq<string>)
    requires var r := GateSteps(lab, n, tree, Some(base), steps, None, flaky, pre).0; r.Some? && r.value.ok
    ensures BreaksNothing(lab, tree, base, steps)
    decreases |steps|
  {
    if steps != [] {
      assert SelectedFor(None, steps[0]) == None;
      var (v, m) := Judge(lab, n, tree, Some(base), steps[0], None);
      PassedMeansSound(lab, m, tree, base, steps[1..], flaky + v.flaky, pre + v.preexisting);
      if Steady(lab, steps[0]) && Readable(lab, tree, base, steps[0], None) {
        SteadyStep(lab, n, tree, base, steps[0], None);
      }
      RestBreaksNothing(lab, tree, base, steps);
    }
  }

  lemma RestBreaksNothing(lab: Lab, tree: string, base: string, steps: seq<Step>)
    requires steps != [] && BreaksNothing(lab, tree, base, steps[1..])
    requires Steady(lab, steps[0]) && Readable(lab, tree, base, steps[0], None) ==> !NewlyFails(lab, tree, base, steps[0], None)
    ensures BreaksNothing(lab, tree, base, steps)
  {
    forall k | 0 <= k < |steps| && Steady(lab, steps[k]) && Readable(lab, tree, base, steps[k], None)
      ensures !NewlyFails(lab, tree, base, steps[k], None)
    {
      if k > 0 { assert steps[1..][k - 1] == steps[k]; }
    }
  }
}
