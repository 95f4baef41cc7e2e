/**
 * One landing run: claim the waiting entries (settling interrupted runs first),
 * stack them, gate the stack, bounce what conflicts or breaks the gate and try
 * the rest again, record a plan, push, and report one outcome per entry.
 */
module LandingRun {
  import opened Options
  import opened Git
  import opened Gate
  import opened Queue
  import opened LandingCheckout
  import opened LandingBatch
  import opened LandingRounds
  import QueueSafety

  // ------------------------------------------------- what the run tells others

  /** The run has so far only done what a runner may do. */
  ghost predicate Legal(site: Site)
    reads site`events
  {
    Play(site.env.git, site.env.me, site.events).Some?
  }

  ghost function Now(site: Site): Local
    requires Legal(site)
    reads site`events
  {
    Play(site.env.git, site.env.me, site.events).value
  }

  /** Tell the server or the remote something; a runner must be allowed to. */
  ghost method Log(site: Site, e: Event)
    requires Legal(site) && LocalStep(site.env.git, site.env.me, Now(site), e).Some?
    modifies site`events
    ensures site.events == old(site.events) + [e]
    ensures Legal(site) && Some(Now(site)) == old(LocalStep(site.env.git, site.env.me, Now(site), e))
  {
    ghost var before := site.events;
    site.events := before + [e];
    assert Init(site.events) == before;
  }

  // ------------------------------------------------------------- the batch loop

  /** The run from its `from`-th call until now. */
  ghost function Since(site: Site, from: nat): Trail
    reads site`clock, site`checks
  {
    Trail(Span(from, site.clock), site.checks)
  }

  /**
   * One gate that failed: the stack, the calls of the gate, those of the search
   * after it, the gate's answer, and the position of the entry that was bounced.
   */
  datatype Blame = Blame(stack: seq<Stacked>, gated: Span, search: Span, gate: GateResult, culprit: nat)

  predicate BlamedIn(b: Blame, span: Span) {
    Inside(b.gated, span) && Inside(b.search, span)
  }

  /** The run ran the gate on this tree in exactly these calls, and it answered this. */
  predicate GateMade(env: Env, base: Commit, config: Config, tree: string, span: Span, gate: GateResult, checks: set<Check>) {
    && GateCheck(span, base.tree, config, tree, gate) in checks
    && GateOn(env.lab, span.from, tree, Some(base.tree), config, None) == (Some(gate), span.to)
  }

  /** The gate failed on a stack of claimed entries, and the search after it ended at the bounced one. */
  ghost predicate BlameOk(env: Env, base: Commit, config: Config, entries: seq<Entry>, b: Blame, checks: set<Check>) {
    && b.stack != [] && StackOk(env.git, env.me, base, b.stack) && IsSub(EntriesOf(b.stack), entries)
    && GateMade(env, base, config, Tip(base, b.stack).tree, b.gated, b.gate, checks)
    && !b.gate.ok && b.gate.probe.Some? && b.gated.to <= b.search.from
    && Found(env, base, b.stack, b.gate.probe.value, b.culprit, Trail(b.search, checks))
  }

  lemma BlameWidens(env: Env, base: Commit, config: Config, entries: seq<Entry>, b: Blame, checks: set<Check>, more: set<Check>)
    requires BlameOk(env, base, config, entries, b, checks) && checks <= more
    ensures BlameOk(env, base, config, entries, b, more)
  {
    FoundWidens(env, base, b.stack, b.gate.probe.value, b.culprit, Trail(b.search, checks), Trail(b.search, more));
  }

  ghost predicate BlamesOk(env: Env, base: Commit, config: Config, entries: seq<Entry>, blames: seq<Blame>, t: Trail) {
    blames == [] ||
    (&& BlameOk(env, base, config, entries, Last(blames), t.checks) && BlamedIn(Last(blames), t.span)
     && BlamesOk(env, base, config, entries, Init(blames), t))
  }

  lemma FoundWidens(env: Env, base: Commit, stack: seq<Stacked>, probe: Probe, culprit: nat, t: Trail, wider: Trail)
    requires Found(env, base, stack, probe, culprit, t) && Part(t, wider)
    ensures Found(env, base, stack, probe, culprit, wider)
  {
    if culprit > 0 { ProbedWidens(env, base, stack, culprit, probe, false, t, wider); }
    if culprit + 1 < |stack| { ProbedWidens(env, base, stack, culprit + 1, probe, true, t, wider); }
  }

  lemma {:induction false} BlamesWiden(env: Env, base: Commit, config: Config, entries: seq<Entry>, blames: seq<Blame>,
                                       t: Trail, wider: Trail)
    requires BlamesOk(env, base, config, entries, blames, t) && Part(t, wider)
    ensures BlamesOk(env, base, config, entries, blames, wider)
  {
    if blames != [] {
      BlameWidens(env, base, config, entries, Last(blames), t.checks, wider.checks);
      BlamesWiden(env, base, config, entries, Init(blames), t, wider);
    }
  }

  function Take30(ids: seq<string>): seq<string> {
    if |ids| <= 30 then ids else ids[..30]
  }

  /** What the bounced entry is told: the failed step, its new failures, and whether it was alone in the stack. */
  function ReasonOf(stack: seq<Stacked>, gate: GateResult): Reason {
    GateFailed(if gate.failedStep.Some? then gate.failedStep.value else "", Take30(gate.newFailures), |stack| == 1)
  }

  predicate Justifies(b: Blame, e: Entry, o: Outcome) {
    b.culprit < |b.stack| && b.stack[b.culprit].entry == e && o == Bounced(ReasonOf(b.stack, b.gate))
  }

  /** Some blame of the list is for entry `e` and says what its outcome says. */
  predicate HasBlame(blames: seq<Blame>, e: Entry, o: Outcome) {
    blames != [] && (Justifies(Last(blames), e, o) || HasBlame(Init(blames), e, o))
  }

  // ------------------------------------------------------- why something bounces

  /** The run read this tip back from the entry's bundle at one of these calls. */
  ghost predicate TipRead(env: Env, e: Entry, tip: Commit, t: Trail) {
    exists n :: t.span.from <= n < t.span.to && TipCheck(n, e, tip) in t.checks && env.bundleTip(n, e) == tip
  }

  /** The run asked for the saved gate at one of these calls and got this. */
  ghost predicate GateRead(env: Env, saved: Option<Config>, t: Trail) {
    exists n :: t.span.from <= n < t.span.to && ConfigCheck(n, saved) in t.checks && env.gate(n) == saved
  }

  /** What is wrong with an entry that is refused for this reason. */
  ghost predicate RefusedFor(env: Env, e: Entry, ref: Commit, reason: Reason, t: Trail) {
    match reason
    case AlreadyLanded => IsAncestor(e.tip, ref)
    case WrongTip => exists tip :: TipRead(env, e, tip, t) && tip != e.tip
    case BadBase => !IsAncestor(e.base, ref) || CallFailed(env, t.span)
    case FetchFailed => CallFailed(env, t.span)
    case _ => false
  }

  /** A bounce has the cause that its reason names, in what this stretch of the run saw. */
  ghost predicate Founded(env: Env, base: Commit, entries: seq<Entry>, e: Entry, o: Outcome, blames: seq<Blame>, t: Trail) {
    o.Bounced? ==>
      match o.reason
      case GateFailed(_, _, _) => HasBlame(blames, e, o)
      case Conflict => Conflicts(env, base, entries, e, t.span)
      case NoGate => GateRead(env, None, t)
      case GateUnreadable => CallFailed(env, t.span)
      case _ => RefusedFor(env, e, base, o.reason, t)
  }

  ghost predicate AllFounded(env: Env, base: Commit, entries: seq<Entry>, outcomes: Outcomes, blames: seq<Blame>, t: Trail) {
    forall k :: 0 <= k < |entries| && entries[k].id in outcomes ==>
      Founded(env, base, entries, entries[k], outcomes[entries[k].id], blames, t)
  }

  lemma TipReadWidens(env: Env, e: Entry, tip: Commit, t: Trail, wider: Trail)
    requires TipRead(env, e, tip, t) && Part(t, wider)
    ensures TipRead(env, e, tip, wider)
  {
    var n :| t.span.from <= n < t.span.to && TipCheck(n, e, tip) in t.checks && env.bundleTip(n, e) == tip;
    assert TipCheck(n, e, tip) in wider.checks;
  }

  lemma GateReadWidens(env: Env, saved: Option<Config>, t: Trail, wider: Trail)
    requires GateRead(env, saved, t) && Part(t, wider)
    ensures GateRead(env, saved, wider)
  {
    var n :| t.span.from <= n < t.span.to && ConfigCheck(n, saved) in t.checks && env.gate(n) == saved;
    assert ConfigCheck(n, saved) in wider.checks;
  }

  lemma RefusedWidens(env: Env, e: Entry, ref: Commit, reason: Reason, t: Trail, wider: Trail)
    requires RefusedFor(env, e, ref, reason, t) && Part(t, wider)
    ensures RefusedFor(env, e, ref, reason, wider)
  {
    if reason.WrongTip? {
      var tip :| TipRead(env, e, tip, t) && tip != e.tip;
      TipReadWidens(env, e, tip, t, wider);
    }
  }

  lemma FoundedWidens(env: Env, base: Commit, entries: seq<Entry>, e: Entry, o: Outcome, blames: seq<Blame>, more: seq<Blame>,
                      t: Trail, wider: Trail)
    requires Founded(env, base, entries, e, o, blames, t) && Part(t, wider)
    requires HasBlame(blames, e, o) ==> HasBlame(more, e, o)
    ensures Founded(env, base, entries, e, o, more, wider)
  {
    if o.Bounced? {
      if o.reason.Conflict? {
        SubRefl(entries);
        ConflictsWidens(env, base, entries, entries, e, t.span, wider.span);
      } else if o.reason.NoGate? {
        GateReadWidens(env, None, t, wider);
      } else if RefusedFor(env, e, base, o.reason, t) {
        RefusedWidens(env, e, base, o.reason, t, wider);
      }
    }
  }

  lemma AllFoundedWidens(env: Env, base: Commit, entries: seq<Entry>, outcomes: Outcomes, blames: seq<Blame>,
                         t: Trail, wider: Trail)
    requires AllFounded(env, base, entries, outcomes, blames, t) && Part(t, wider)
    ensures AllFounded(env, base, entries, outcomes, blames, wider)
  {
    forall k | 0 <= k < |entries| && entries[k].id in outcomes
      ensures Founded(env, base, entries, entries[k], outcomes[entries[k].id], blames, wider)
    {
      FoundedWidens(env, base, entries, entries[k], outcomes[entries[k].id], blames, blames, t, wider);
    }
  }

  /** The run ran the gate on this tree in exactly these calls, and it passed. */
  ghost predicate GatePassed(env: Env, base: Commit, config: Config, tree: string, span: Span, checks: set<Check>) {
    exists gate :: GateMade(env, base, config, tree, span, gate, checks) && gate.ok
  }

  /** The run's gate passed on exactly the tree of the tip, or the only entry was fully tested on that tree. */
  ghost predicate Cleared(env: Env, base: Commit, config: Config, stack: seq<Stacked>, t: Trail) {
    && stack != [] && StackOk(env.git, env.me, base, stack)
    && var tree := Tip(base, stack).tree;
    || (|stack| == 1 && stack[0].entry.preSubmit == Passed(tree))
    || exists at :: Inside(at, t.span) && GatePassed(env, base, config, tree, at, t.checks)
  }

  lemma PassedWidens(env: Env, base: Commit, config: Config, tree: string, span: Span, checks: set<Check>, more: set<Check>)
    requires GatePassed(env, base, config, tree, span, checks) && checks <= more
    ensures GatePassed(env, base, config, tree, span, more)
  {
    var gate :| GateMade(env, base, config, tree, span, gate, checks) && gate.ok;
    assert GateMade(env, base, config, tree, span, gate, more);
  }

  lemma ClearedWidens(env: Env, base: Commit, config: Config, stack: seq<Stacked>, t: Trail, wider: Trail)
    requires Cleared(env, base, config, stack, t) && Part(t, wider)
    ensures Cleared(env, base, config, stack, wider)
  {
    var tree := Tip(base, stack).tree;
    if !(|stack| == 1 && stack[0].entry.preSubmit == Passed(tree)) {
      var at :| Inside(at, t.span) && GatePassed(env, base, config, tree, at, t.checks);
      PassedWidens(env, base, config, tree, at, t.checks, wider.checks);
    }
  }

  /** A gate that fails always hands out a probe. */
  lemma {:induction false} FailureHasProbe(lab: Lab, n: nat, tree: string, base: Option<string>, steps: seq<Gate.Step>,
                                           selection: Option<Selection>, flaky: seq<string>, pre: seq<string>)
    requires var r := GateSteps(lab, n, tree, base, steps, selection, flaky, pre).0; r.Some? && !r.value.ok
    ensures var r := GateSteps(lab, n, tree, base, steps, selection, flaky, pre).0.value;
            r.probe.Some? && r.failedStep.Some?
    decreases |steps|
  {
    if Skips(selection, steps[0]) {
      FailureHasProbe(lab, n, tree, base, steps[1..], selection, flaky, pre);
    } else {
      var (v, m) := Judge(lab, n, tree, base, steps[0], SelectedFor(selection, steps[0]));
      if v.Accepted? {
        FailureHasProbe(lab, m, tree, base, steps[1..], selection, flaky + v.flaky, pre + v.preexisting);
      }
    }
  }

  lemma FailedGate(lab: Lab, n: nat, tree: string, base: string, config: Config)
    requires var r := GateOn(lab, n, tree, Some(base), config, None).0; r.Some? && !r.value.ok
    ensures var r := GateOn(lab, n, tree, Some(base), config, None).0; r.value.failedStep.Some? && r.value.probe.Some?
  {
    FailureHasProbe(lab, if config.install then n + 1 else n, tree, Some(base), config.steps, None, [], []);
  }

  /** Run the gate on the tree that is checked out. */
  method GateTree(site: Site, base: Commit, config: Config) returns (threw: bool, gate: GateResult)
    modifies site`clock, site`checks
    ensures site.clock >= old(site.clock)
    ensures var span := Span(old(site.clock), site.clock);
            if threw then site.checks == old(site.checks) && CallFailed(site.env, span)
            else && site.checks == old(site.checks) + {GateCheck(span, base.tree, config, site.tree, gate)}
                 && GateMade(site.env, base, config, site.tree, span, gate, site.checks)
    ensures |GatesIn(site.checks)| <= |GatesIn(old(site.checks))| + 1
    ensures !threw && !gate.ok ==> gate.failedStep.Some? && gate.probe.Some?
  {
    ghost var from := site.clock;
    var result, n := RunGate(site.env.lab, site.clock, site.tree, Some(base.tree), config, None);
    site.clock := n;
    threw := result.None?;
    gate := if result.Some? then result.value else GateResult(false, None, [], [], [], None);
    if !threw && !gate.ok { FailedGate(site.env.lab, from, site.tree, base.tree, config); }
    if !threw {
      OneMoreGate(site.checks, GateCheck(Span(from, n), base.tree, config, site.tree, gate));
      site.checks := site.checks + {GateCheck(Span(from, n), base.tree, config, site.tree, gate)};
    }
  }

  /** Gate the stack that is checked out; when it fails, search for the entry to bounce in the calls after the gate's. */
  method GateStack(site: Site, base: Commit, config: Config, stack: seq<Stacked>)
    returns (threw: bool, gate: GateResult, culprit: nat, ghost gated: nat)
    requires stack != [] && StackOk(site.env.git, site.env.me, base, stack)
    requires site.head == Tip(base, stack) && site.Clean()
    modifies site`clock, site`head, site`tree, site`checks
    ensures old(site.clock) <= gated <= site.clock && old(site.checks) <= site.checks
    ensures |GatesIn(site.checks)| <= |GatesIn(old(site.checks))| + 1
    ensures !threw ==>
              GateMade(site.env, base, config, Tip(base, stack).tree, Span(old(site.clock), gated), gate, site.checks)
    ensures !threw && gate.ok ==> site.clock == gated
    ensures !threw && !gate.ok ==>
              && gate.failedStep.Some? && gate.probe.Some?
              && Found(site.env, base, stack, gate.probe.value, culprit, Since(site, gated))
    ensures threw ==> CallFailed(site.env, Span(old(site.clock), site.clock))
  {
    culprit := 0;
    threw, gate := GateTree(site, base, config);
    gated := site.clock;
    if threw || gate.ok || |stack| == 1 { return; }
    var ok;
    ghost var probes;
    ok, culprit, probes := site.FindCulprit(base, stack, config, gate.probe.value);
    threw := !ok;
  }

  /** What holds between the passes over the batch. */
  ghost predicate Progress(env: Env, base: Commit, config: Config, entries: seq<Entry>,
                           outcomes: Outcomes, remaining: seq<Entry>, blames: seq<Blame>, t: Trail) {
    && Batch(entries, outcomes, remaining) && AllFounded(env, base, entries, outcomes, blames, t)
    && BlamesOk(env, base, config, entries, blames, t)
  }

  lemma ProgressWidens(env: Env, base: Commit, config: Config, entries: seq<Entry>, outcomes: Outcomes,
                       remaining: seq<Entry>, blames: seq<Blame>, t: Trail, wider: Trail)
    requires Progress(env, base, config, entries, outcomes, remaining, blames, t) && Part(t, wider)
    ensures Progress(env, base, config, entries, outcomes, remaining, blames, wider)
  {
    AllFoundedWidens(env, base, entries, outcomes, blames, t, wider);
    BlamesWiden(env, base, config, entries, blames, t, wider);
  }

  /** No outcome is changed or dropped. */
  predicate KeepsOutcomes(before: Outcomes, after: Outcomes) {
    forall id :: id in before ==> id in after && after[id] == before[id]
  }

  lemma BounceAllKeeps(outcomes: Outcomes, entries: seq<Entry>, remaining: seq<Entry>, conflicts: seq<Entry>, stacked: seq<Entry>)
    requires DistinctIds(entries) && Batch(entries, outcomes, remaining) && IsMerge(conflicts, stacked, remaining)
    ensures KeepsOutcomes(outcomes, BounceAll(outcomes, conflicts, Conflict))
  {
    MergeFacts(conflicts, stacked, remaining);
    forall id | id in outcomes ensures BounceAll(outcomes, conflicts, Conflict)[id] == outcomes[id] {
      forall k | 0 <= k < |conflicts| ensures conflicts[k].id != id {
        assert conflicts[k] in remaining;
        BlamedIsClaimed(entries, outcomes, remaining, conflicts[k]);
      }
      BounceElse(outcomes, conflicts, Conflict, id);
    }
  }

  /** An entry that is bounced as a conflict does not apply on what was stacked before it. */
  lemma ConflictsFounded(env: Env, base: Commit, entries: seq<Entry>, outcomes: Outcomes, remaining: seq<Entry>,
                         blames: seq<Blame>, conflicts: seq<Entry>, stacked: seq<Entry>, t: Trail)
    requires DistinctIds(entries) && Batch(entries, outcomes, remaining) && IsMerge(conflicts, stacked, remaining)
    requires AllFounded(env, base, entries, outcomes, blames, t) && AllConflict(env, base, remaining, conflicts, t.span)
    ensures AllFounded(env, base, entries, BounceAll(outcomes, conflicts, Conflict), blames, t)
  {
    var after := BounceAll(outcomes, conflicts, Conflict);
    BounceAllKeeps(outcomes, entries, remaining, conflicts, stacked);
    MergeFacts(conflicts, stacked, remaining);
    MergeApart(conflicts, stacked, remaining);
    forall k | 0 <= k < |entries| && entries[k].id in after
      ensures Founded(env, base, entries, entries[k], after[entries[k].id], blames, t)
    {
      var e := entries[k];
      assert Fated(outcomes, remaining, e);
      if e in stacked {
        BounceOnly(outcomes, conflicts, Conflict, e.id);
      } else if e in conflicts {
        ConflictOf(env, base, remaining, conflicts, t.span, e);
        ConflictsWidens(env, base, remaining, entries, e, t.span, t.span);
      }
    }
  }

  lemma ProgressAfterConflicts(env: Env, base: Commit, config: Config, entries: seq<Entry>, outcomes: Outcomes,
                               remaining: seq<Entry>, blames: seq<Blame>, conflicts: seq<Entry>, stacked: seq<Entry>, t: Trail)
    requires DistinctIds(entries) && Progress(env, base, config, entries, outcomes, remaining, blames, t)
    requires IsMerge(conflicts, stacked, remaining) && AllConflict(env, base, remaining, conflicts, t.span)
    ensures Progress(env, base, config, entries, BounceAll(outcomes, conflicts, Conflict), stacked, blames, t)
  {
    BatchAfterConflicts(entries, outcomes, remaining, conflicts, stacked, Conflict);
    ConflictsFounded(env, base, entries, outcomes, remaining, blames, conflicts, stacked, t);
  }

  lemma BlameCovers(env: Env, base: Commit, entries: seq<Entry>, outcomes: Outcomes, blames: seq<Blame>, b: Blame, t: Trail)
    requires DistinctIds(entries) && AllFounded(env, base, entries, outcomes, blames, t)
    requires b.culprit < |b.stack| && b.stack[b.culprit].entry in entries
    ensures AllFounded(env, base, entries, outcomes[b.stack[b.culprit].entry.id := Bounced(ReasonOf(b.stack, b.gate))],
                       blames + [b], t)
  {
    var after := outcomes[b.stack[b.culprit].entry.id := Bounced(ReasonOf(b.stack, b.gate))];
    assert Init(blames + [b]) == blames;
    forall k | 0 <= k < |entries| && entries[k].id in after
      ensures Founded(env, base, entries, entries[k], after[entries[k].id], blames + [b], t)
    {
      if entries[k].id != b.stack[b.culprit].entry.id {
        FoundedWidens(env, base, entries, entries[k], outcomes[entries[k].id], blames, blames + [b], t, t);
      }
    }
  }

  lemma BlamedIsClaimed(entries: seq<Entry>, outcomes: Outcomes, remaining: seq<Entry>, e: Entry)
    requires Batch(entries, outcomes, remaining) && DistinctIds(entries) && e in remaining
    ensures e in entries && e.id !in outcomes
  {
    SubDistinct(remaining, entries);
    var k :| 0 <= k < |entries| && entries[k] == e;
    assert Fated(outcomes, remaining, entries[k]);
  }

  lemma ProgressAfterBlame(env: Env, base: Commit, config: Config, entries: seq<Entry>, outcomes: Outcomes,
                           remaining: seq<Entry>, blames: seq<Blame>, b: Blame, t: Trail)
    requires DistinctIds(entries) && Progress(env, base, config, entries, outcomes, remaining, blames, t)
    requires BlameOk(env, base, config, entries, b, t.checks) && BlamedIn(b, t.span) && EntriesOf(b.stack) == remaining
    ensures var id := b.stack[b.culprit].entry.id;
            && Progress(env, base, config, entries, outcomes[id := Bounced(ReasonOf(b.stack, b.gate))],
                        WithoutEntry(remaining, id), blames + [b], t)
            && |WithoutEntry(remaining, id)| < |remaining| && id !in outcomes
  {
    var entry := b.stack[b.culprit].entry;
    assert remaining[b.culprit] == entry;
    BatchAfterBounce(entries, outcomes, remaining, entry, ReasonOf(b.stack, b.gate));
    BlamedIsClaimed(entries, outcomes, remaining, entry);
    BlameCovers(env, base, entries, outcomes, blames, b, t);
    assert Init(blames + [b]) == blames;
  }

  datatype PassResult = PassThrew | PassLanded | PassBounced

  /** One entry of the stack, which had no outcome, was bounced for the gate's answer; everything else is as it was. */
  predicate OneBounced(stacked: seq<Stacked>, outcomes0: Outcomes, outcomes: Outcomes, remaining: seq<Entry>,
                       blames0: seq<Blame>, blames: seq<Blame>) {
    && blames != [] && Init(blames) == blames0
    && var b := Last(blames);
    && b.stack == stacked && b.culprit < |stacked|
    && var id := stacked[b.culprit].entry.id;
    && id !in outcomes0 && outcomes == outcomes0[id := Bounced(ReasonOf(stacked, b.gate))]
    && remaining == WithoutEntry(EntriesOf(stacked), id) && |remaining| < |stacked|
  }

  /** Gate the stack that is checked out: it lands, or one entry is bounced. */
  method GatePass(site: Site, base: Commit, config: Config, entries: seq<Entry>,
                  outcomes0: Outcomes, stacked: seq<Stacked>, ghost blames0: seq<Blame>, ghost from: nat)
    returns (r: PassResult, outcomes: Outcomes, remaining: seq<Entry>, ghost blames: seq<Blame>)
    requires from <= site.clock && DistinctIds(entries)
    requires Progress(site.env, base, config, entries, outcomes0, EntriesOf(stacked), blames0, Since(site, from))
    requires stacked != [] && StackOk(site.env.git, site.env.me, base, stacked)
    requires site.head == Tip(base, stacked) && site.Clean()
    modifies site`clock, site`head, site`tree, site`checks
    ensures site.clock >= old(site.clock) && site.checks >= old(site.checks)
    ensures |GatesIn(site.checks)| <= |GatesIn(old(site.checks))| + 1
    ensures Progress(site.env, base, config, entries, outcomes, remaining, blames, Since(site, from))
    ensures r.PassLanded? ==>
              GatePassed(site.env, base, config, Tip(base, stacked).tree, Span(old(site.clock), site.clock), site.checks)
    ensures if r.PassBounced? then OneBounced(stacked, outcomes0, outcomes, remaining, blames0, blames)
            else outcomes == outcomes0 && remaining == EntriesOf(stacked) && blames == blames0
    ensures r.PassThrew? ==> CallFailed(site.env, Span(old(site.clock), site.clock))
  {
    outcomes, remaining, blames := outcomes0, EntriesOf(stacked), blames0;
    ghost var start, before := site.clock, Since(site, from);
    ghost var gated;
    var threw, gate, culprit;
    threw, gate, culprit, gated := GateStack(site, base, config, stacked);
    ProgressWidens(site.env, base, config, entries, outcomes, remaining, blames, before, Since(site, from));
    if threw { return PassThrew, outcomes, remaining, blames; }
    if gate.ok { return PassLanded, outcomes, remaining, blames; }
    var reason := GateFailed(gate.failedStep.value, Take30(gate.newFailures), |stacked| == 1);
    ghost var b := Blame(stacked, Span(start, gated), Span(gated, site.clock), gate, culprit);
    ProgressAfterBlame(site.env, base, config, entries, outcomes, remaining, blames, b, Since(site, from));
    outcomes := outcomes[stacked[culprit].entry.id := Bounced(reason)];
    remaining := WithoutEntry(remaining, stacked[culprit].entry.id);
    assert Init(blames + [b]) == blames && Last(blames + [b]) == b;
    return PassBounced, outcomes, remaining, blames + [b];
  }

  lemma TestedIsCleared(env: Env, base: Commit, config: Config, stack: seq<Stacked>, t: Trail)
    requires StackOk(env.git, env.me, base, stack) && |stack| == 1 && stack[0].entry.preSubmit == Passed(stack[0].tip.tree)
    ensures Cleared(env, base, config, stack, t)
  {
  }

  lemma GatedIsCleared(env: Env, base: Commit, config: Config, stack: seq<Stacked>, at: Span, t: Trail)
    requires stack != [] && StackOk(env.git, env.me, base, stack) && Inside(at, t.span)
    requires GatePassed(env, base, config, Tip(base, stack).tree, at, t.checks)
    ensures Cleared(env, base, config, stack, t)
  {
  }

  lemma SubCount(a: seq<Entry>, b: seq<Entry>, c: seq<Entry>)
    requires IsMerge(a, b, c)
    ensures IsSub(b, c) && |b| <= |c| && (b == [] && c != [] ==> |b| < |c|)
  {
    MergeFacts(a, b, c);
  }

  /** Stack what remains; what conflicts is bounced. */
  method Restack(site: Site, base: Commit, config: Config, entries: seq<Entry>,
                 outcomes0: Outcomes, remaining: seq<Entry>, ghost blames: seq<Blame>, ghost from: nat)
    returns (ok: bool, outcomes: Outcomes, stacked: seq<Stacked>)
    requires from <= site.clock && DistinctIds(entries)
    requires Progress(site.env, base, config, entries, outcomes0, remaining, blames, Since(site, from))
    modifies site`clock, site`head, site`tree
    ensures site.clock >= old(site.clock)
    ensures if ok then Progress(site.env, base, config, entries, outcomes, EntriesOf(stacked), blames, Since(site, from))
            else outcomes == outcomes0
    ensures ok ==> StackOk(site.env.git, site.env.me, base, stacked) && site.head == Tip(base, stacked) && site.Clean()
    ensures ok ==> IsSub(EntriesOf(stacked), remaining)
    ensures ok ==> |stacked| <= |remaining| && (stacked == [] && remaining != [] ==> |stacked| < |remaining|)
    ensures KeepsOutcomes(outcomes0, outcomes)
    ensures forall id :: id in outcomes && id !in outcomes0 ==> outcomes[id] == Bounced(Conflict)
    ensures || CallFailed(site.env, Span(old(site.clock), site.clock))
            || (ok && EntriesOf(stacked) == Admit(site.env.git, base.tree, remaining).0)
  {
    var conflicts;
    outcomes := outcomes0;
    ghost var start, before := site.clock, Since(site, from);
    ok, stacked, conflicts := site.BuildStack(base, remaining);
    if ok {
      ghost var now := Since(site, from);
      SubCount(conflicts, EntriesOf(stacked), remaining);
      SubRefl(remaining);
      AllConflictWidens(site.env, base, remaining, remaining, conflicts, Span(start, site.clock), now.span);
      ProgressWidens(site.env, base, config, entries, outcomes, remaining, blames, before, now);
      ProgressAfterConflicts(site.env, base, config, entries, outcomes, remaining, blames, conflicts, EntriesOf(stacked), now);
      BounceAllKeeps(outcomes, entries, remaining, conflicts, EntriesOf(stacked));
      outcomes := BounceAll(outcomes, conflicts, Conflict);
    }
  }

  /** The stack that is checked out lands, or one entry is bounced; a stack that was fully tested before needs no gate. */
  method ClearOrGate(site: Site, base: Commit, config: Config, entries: seq<Entry>,
                     outcomes0: Outcomes, stacked: seq<Stacked>, ghost blames0: seq<Blame>, ghost from: nat)
    returns (r: PassResult, outcomes: Outcomes, remaining: seq<Entry>, ghost blames: seq<Blame>)
    requires from <= site.clock && DistinctIds(entries)
    requires Progress(site.env, base, config, entries, outcomes0, EntriesOf(stacked), blames0, Since(site, from))
    requires stacked != [] && StackOk(site.env.git, site.env.me, base, stacked)
    requires site.head == Tip(base, stacked) && site.Clean()
    modifies site`clock, site`head, site`tree, site`checks
    ensures site.clock >= old(site.clock) && site.checks >= old(site.checks)
    ensures |GatesIn(site.checks)| <= |GatesIn(old(site.checks))| + 1
    ensures Progress(site.env, base, config, entries, outcomes, remaining, blames, Since(site, from))
    ensures r.PassLanded? ==> Cleared(site.env, base, config, stacked, Since(site, old(site.clock)))
    ensures if r.PassBounced? then OneBounced(stacked, outcomes0, outcomes, remaining, blames0, blames)
            else outcomes == outcomes0 && remaining == EntriesOf(stacked) && blames == blames0
    ensures r.PassThrew? ==> CallFailed(site.env, Span(old(site.clock), site.clock))
  {
    outcomes, remaining, blames := outcomes0, EntriesOf(stacked), blames0;
    ghost var start, before := site.clock, Since(site, from);
    var ok := site.Call();
    ProgressWidens(site.env, base, config, entries, outcomes, remaining, blames, before, Since(site, from));
    if !ok { return PassThrew, outcomes, remaining, blames; }
    var tree := stacked[|stacked| - 1].tip.tree;
    if |stacked| == 1 && stacked[0].entry.preSubmit == Passed(tree) {
      TestedIsCleared(site.env, base, config, stacked, Since(site, start));
      return PassLanded, outcomes, remaining, blames;
    }
    ghost var at := site.clock;
    r, outcomes, remaining, blames := GatePass(site, base, config, entries, outcomes, stacked, blames, from);
    if r.PassLanded? { GatedIsCleared(site.env, base, config, stacked, Span(at, site.clock), Since(site, start)); }
  }

  /** One pass: stack what remains, and gate it unless its only entry was already tested on that tree. */
  method Pass(site: Site, base: Commit, config: Config, entries: seq<Entry>,
              outcomes0: Outcomes, remaining0: seq<Entry>, ghost blames0: seq<Blame>, ghost from: nat)
    returns (r: PassResult, outcomes: Outcomes, remaining: seq<Entry>, landed: seq<Stacked>, ghost blames: seq<Blame>)
    requires from <= site.clock && DistinctIds(entries) && remaining0 != []
    requires Progress(site.env, base, config, entries, outcomes0, remaining0, blames0, Since(site, from))
    modifies site`clock, site`head, site`tree, site`checks
    ensures site.clock >= old(site.clock) && site.checks >= old(site.checks)
    ensures |GatesIn(site.checks)| <= |GatesIn(old(site.checks))| + 1
    ensures Progress(site.env, base, config, entries, outcomes, remaining, blames, Since(site, from))
    ensures KeepsOutcomes(outcomes0, outcomes) && IsSub(remaining, remaining0)
    ensures r.PassLanded? ==>
              remaining == EntriesOf(landed) && Cleared(site.env, base, config, landed, Since(site, old(site.clock)))
    ensures r.PassBounced? ==> |remaining| < |remaining0|
    ensures !r.PassLanded? ==> landed == []
    ensures r.PassThrew? ==> CallFailed(site.env, Span(old(site.clock), site.clock))
  {
    remaining, landed, blames := remaining0, [], blames0;
    ghost var start, before := site.clock, Since(site, from);
    SubRefl(remaining);
    var ok, stacked;
    ok, outcomes, stacked := Restack(site, base, config, entries, outcomes0, remaining, blames, from);
    if !ok {
      ProgressWidens(site.env, base, config, entries, outcomes0, remaining, blames, before, Since(site, from));
      return PassThrew, outcomes, remaining, [], blames;
    }
    remaining := EntriesOf(stacked);
    if stacked == [] { return PassBounced, outcomes, remaining, [], blames; }
    ghost var outcomes1, gated := outcomes, site.clock;
    r, outcomes, remaining, blames := ClearOrGate(site, base, config, entries, outcomes, stacked, blames, from);
    landed := if r.PassLanded? then stacked else [];
    if r.PassLanded? { ClearedWidens(site.env, base, config, stacked, Since(site, gated), Since(site, start)); }
    if r.PassBounced? { BouncedFurther(remaining0, stacked, outcomes0, outcomes1, outcomes, remaining, blames0, blames); }
  }

  lemma BouncedFurther(remaining0: seq<Entry>, stacked: seq<Stacked>, outcomes0: Outcomes, outcomes1: Outcomes,
                       outcomes: Outcomes, remaining: seq<Entry>, blames0: seq<Blame>, blames: seq<Blame>)
    requires IsSub(EntriesOf(stacked), remaining0) && KeepsOutcomes(outcomes0, outcomes1)
    requires OneBounced(stacked, outcomes1, outcomes, remaining, blames0, blames)
    ensures KeepsOutcomes(outcomes0, outcomes) && IsSub(remaining, remaining0)
  {
    var id := stacked[Last(blames).culprit].entry.id;
    WithoutEntrySub(EntriesOf(stacked), id);
    SubTransitive(remaining, EntriesOf(stacked), remaining0);
  }

  /**
   * Stack what remains, gate it, and bounce until a stack passes or nothing is
   * left. Each failing pass bounces an entry that had no outcome yet, so there
   * are at most as many passes, and so gates, as entries.
   */
  method LandBatch(site: Site, base: Commit, config: Config, entries: seq<Entry>, admitted: seq<Entry>, refused: Outcomes,
                   ghost from: nat)
    returns (threw: bool, outcomes: Outcomes, landed: seq<Stacked>, ghost blames: seq<Blame>, ghost passes: nat)
    requires from <= site.clock && DistinctIds(entries) && Batch(entries, refused, admitted)
    requires AllFounded(site.env, base, entries, refused, [], Since(site, from))
    modifies site`clock, site`head, site`tree, site`checks
    ensures site.clock >= old(site.clock) && site.checks >= old(site.checks)
    ensures passes <= |admitted| <= |entries| && |GatesIn(site.checks)| <= |GatesIn(old(site.checks))| + passes
    ensures AllBounced(outcomes) && AllFounded(site.env, base, entries, outcomes, blames, Since(site, from))
    ensures BlamesOk(site.env, base, config, entries, blames, Since(site, from))
    ensures KeepsOutcomes(refused, outcomes) && IsSub(EntriesOf(landed), admitted)
    ensures threw ==> landed == []
    ensures !threw ==> Batch(entries, outcomes, EntriesOf(landed))
    ensures !threw && landed != [] ==> Cleared(site.env, base, config, landed, Since(site, old(site.clock)))
    ensures threw ==> CallFailed(site.env, Span(old(site.clock), site.clock))
  {
    ghost var start := site.clock;
    var remaining := admitted;
    outcomes, landed := refused, [];
    blames, passes := [], 0;
    SubDistinct(admitted, entries);
    SubRefl(admitted);
    while remaining != []
      invariant site.clock >= old(site.clock) && site.checks >= old(site.checks)
      invariant Progress(site.env, base, config, entries, outcomes, remaining, blames, Since(site, from))
      invariant KeepsOutcomes(refused, outcomes) && IsSub(remaining, admitted)
      invariant passes + |remaining| <= |admitted| && |GatesIn(site.checks)| <= |GatesIn(old(site.checks))| + passes
      decreases |remaining|
    {
      ghost var last, before := remaining, site.clock;
      var result;
      passes := passes + 1;
      result, outcomes, remaining, landed, blames := Pass(site, base, config, entries, outcomes, remaining, blames, from);
      SubTransitive(remaining, last, admitted);
      match result
      case PassThrew => return true, outcomes, landed, blames, passes;
      case PassLanded =>
        ClearedWidens(site.env, base, config, landed, Since(site, before), Since(site, start));
        return false, outcomes, landed, blames, passes;
      case PassBounced =>
    }
    return false, outcomes, [], blames, passes;
  }

  // ----------------------------------------------------------------- admission

  /** Fetch an entry's bundle and check it; the reason when it cannot land. */
  method FetchEntry(site: Site, entry: Entry, ref: Commit) returns (threw: bool, problem: Option<Reason>)
    modifies site`clock, site`checks
    ensures site.clock > old(site.clock) && site.checks >= old(site.checks)
    ensures GatesIn(site.checks) == GatesIn(old(site.checks))
    ensures problem.None? ==> IsAncestor(entry.base, ref) && TipRead(site.env, entry, entry.tip, Since(site, old(site.clock)))
    ensures || CallFailed(site.env, Span(old(site.clock), site.clock))
            || (!threw && (problem.None? <==> Landable(site.env, entry, ref, old(site.clock) + 4)))
    ensures problem.Some? ==> RefusedFor(site.env, entry, ref, problem.value, Since(site, old(site.clock)))
  {
    ghost var start := site.clock;
    problem := CheckEntry(site, entry, ref);
    ghost var before := Since(site, start);
    var ok := site.Call();
    if problem.Some? {
      RefusedWidens(site.env, entry, ref, problem.value, before, Since(site, start));
    } else {
      TipReadWidens(site.env, entry, entry.tip, before, Since(site, start));
    }
    threw := !ok;
  }

  /** Based on the branch, not yet on it, and its bundle read at the n-th call ends at the submitted tip. */
  predicate Landable(env: Env, entry: Entry, ref: Commit, n: nat) {
    IsAncestor(entry.base, ref) && !IsAncestor(entry.tip, ref) && env.bundleTip(n, entry) == entry.tip
  }

  /**
   * The bundle's tip is read back in the fifth of this method's calls. Every
   * refusal has its reason in these calls, and unless one of them fails the
   * entry is refused exactly when it cannot land.
   */
  method CheckEntry(site: Site, entry: Entry, ref: Commit) returns (problem: Option<Reason>)
    modifies site`clock, site`checks
    ensures site.clock > old(site.clock)
    ensures var n := old(site.clock) + 4;
            || site.checks == old(site.checks)
            || site.checks == old(site.checks) + {TipCheck(n, entry, site.env.bundleTip(n, entry))}
    ensures GatesIn(site.checks) == GatesIn(old(site.checks))
    ensures problem.None? ==> IsAncestor(entry.base, ref) && TipRead(site.env, entry, entry.tip, Since(site, old(site.clock)))
    ensures || CallFailed(site.env, Span(old(site.clock), site.clock))
            || (problem.None? <==> Landable(site.env, entry, ref, old(site.clock) + 4))
    ensures problem.Some? ==> RefusedFor(site.env, entry, ref, problem.value, Since(site, old(site.clock)))
  {
    ghost var start := site.clock;
    var ok := site.Call();
    if !ok { return Some(FetchFailed); }
    ok := site.Call();
    if !(ok && IsAncestor(entry.base, ref)) { return Some(BadBase); }
    ok := site.Call();
    if !ok { return Some(FetchFailed); }
    ok := site.Call();
    if !ok { return Some(FetchFailed); }
    var asked := site.clock;
    ok := site.Call();
    if !ok { return Some(FetchFailed); }
    var tip := site.env.bundleTip(asked, entry);
    NoMoreGates(site.checks, TipCheck(asked, entry, tip));
    site.checks := site.checks + {TipCheck(asked, entry, tip)};
    assert TipRead(site.env, entry, tip, Since(site, start));
    if tip != entry.tip { return Some(WrongTip); }
    ok := site.Call();
    assert TipRead(site.env, entry, tip, Since(site, start));
    if ok && IsAncestor(entry.tip, ref) { return Some(AlreadyLanded); }
    return None;
  }

  /** Only the first `i` entries have an outcome yet. */
  predicate OnlyFirst(entries: seq<Entry>, i: nat, outcomes: Outcomes)
    requires i <= |entries|
  {
    forall id :: id in outcomes ==> exists k :: 0 <= k < i && entries[k].id == id
  }

  predicate AllBelow(entries: seq<Entry>, ref: Commit) {
    forall k :: 0 <= k < |entries| ==> IsAncestor(entries[k].base, ref)
  }

  /** The batch after the first `i` entries were fetched. */
  ghost predicate Admitting(env: Env, entries: seq<Entry>, i: nat, outcomes: Outcomes, admitted: seq<Entry>, ref: Commit,
                            t: Trail)
    requires i <= |entries|
  {
    && Batch(entries[..i], outcomes, admitted) && AllFounded(env, ref, entries, outcomes, [], t)
    && OnlyFirst(entries, i, outcomes) && AllBelow(admitted, ref)
  }

  /** Fetch every claimed entry; those that cannot land are bounced, each for its reason, the rest are the batch. */
  method FetchAll(site: Site, ref: Commit, entries: seq<Entry>, ghost from: nat)
    returns (threw: bool, outcomes: Outcomes, admitted: seq<Entry>)
    requires from <= site.clock && DistinctIds(entries)
    modifies site`clock, site`checks
    ensures site.clock >= old(site.clock) && site.checks >= old(site.checks)
    ensures GatesIn(site.checks) == GatesIn(old(site.checks))
    ensures AllBounced(outcomes) && AllFounded(site.env, ref, entries, outcomes, [], Since(site, from))
    ensures !threw ==> Batch(entries, outcomes, admitted)
    ensures !threw ==> AllBelow(admitted, ref)
    ensures threw ==> CallFailed(site.env, Span(old(site.clock), site.clock))
  {
    outcomes, admitted, threw := map[], [], false;
    var i := 0;
    while i < |entries|
      invariant 0 <= i <= |entries| && site.clock >= old(site.clock) && site.checks >= old(site.checks)
      invariant GatesIn(site.checks) == GatesIn(old(site.checks))
      invariant Admitting(site.env, entries, i, outcomes, admitted, ref, Since(site, from))
    {
      var entry := entries[i];
      ghost var start, before := site.clock, Since(site, from);
      var problem;
      threw, problem := FetchEntry(site, entry, ref);
      ghost var now := Since(site, from);
      AllFoundedWidens(site.env, ref, entries, outcomes, [], before, now);
      if threw { return; }
      if problem.Some? {
        RefusedWidens(site.env, entry, ref, problem.value, Since(site, start), now);
        BatchRefuses(site.env, entries, i, outcomes, admitted, ref, problem.value, now);
        outcomes := outcomes[entry.id := Bounced(problem.value)];
      } else {
        BatchAdmits(site.env, entries, i, outcomes, admitted, ref, now);
        admitted := admitted + [entry];
      }
      i := i + 1;
    }
    assert entries[..i] == entries;
  }

  lemma BatchRefuses(env: Env, entries: seq<Entry>, i: nat, outcomes: Outcomes, admitted: seq<Entry>, ref: Commit,
                     problem: Reason, t: Trail)
    requires i < |entries| && DistinctIds(entries) && Admitting(env, entries, i, outcomes, admitted, ref, t)
    requires RefusedFor(env, entries[i], ref, problem, t)
    ensures Admitting(env, entries, i + 1, outcomes[entries[i].id := Bounced(problem)], admitted, ref, t)
  {
    var entry := entries[i];
    var upTo := entries[..i + 1];
    assert Init(upTo) == entries[..i];
    SubDistinct(admitted, entries[..i]);
    NotYet(entries, i, admitted);
    var after := outcomes[entry.id := Bounced(problem)];
    forall k | 0 <= k < |upTo| ensures Fated(after, admitted, upTo[k]) {
      if k < i { assert Fated(outcomes, admitted, entries[..i][k]); }
    }
    RefusalFounded(env, entries, i, outcomes, ref, problem, t);
  }

  lemma RefusalFounded(env: Env, entries: seq<Entry>, i: nat, outcomes: Outcomes, ref: Commit, problem: Reason, t: Trail)
    requires i < |entries| && DistinctIds(entries) && AllFounded(env, ref, entries, outcomes, [], t)
    requires RefusedFor(env, entries[i], ref, problem, t)
    ensures AllFounded(env, ref, entries, outcomes[entries[i].id := Bounced(problem)], [], t)
  {
    var after := outcomes[entries[i].id := Bounced(problem)];
    forall k | 0 <= k < |entries| && entries[k].id in after
      ensures Founded(env, ref, entries, entries[k], after[entries[k].id], [], t)
    {
      if k != i { assert entries[k].id != entries[i].id; }
    }
  }

  lemma BatchAdmits(env: Env, entries: seq<Entry>, i: nat, outcomes: Outcomes, admitted: seq<Entry>, ref: Commit, t: Trail)
    requires i < |entries| && DistinctIds(entries) && Admitting(env, entries, i, outcomes, admitted, ref, t)
    requires IsAncestor(entries[i].base, ref)
    ensures Admitting(env, entries, i + 1, outcomes, admitted + [entries[i]], ref, t)
  {
    EntryJoins(entries, i, outcomes, admitted);
  }

  lemma EntryJoins(entries: seq<Entry>, i: nat, outcomes: Outcomes, admitted: seq<Entry>)
    requires i < |entries| && DistinctIds(entries) && Batch(entries[..i], outcomes, admitted) && OnlyFirst(entries, i, outcomes)
    ensures Batch(entries[..i + 1], outcomes, admitted + [entries[i]])
  {
    var upTo, more := entries[..i + 1], admitted + [entries[i]];
    assert upTo == entries[..i] + [entries[i]];
    SubGrows(admitted, entries[..i], entries[i]);
    MoreDistinct(entries, i, admitted);
    forall k | 0 <= k < |upTo| ensures Fated(outcomes, more, upTo[k]) {
      FatedNext(entries, i, outcomes, admitted, k);
    }
  }

  lemma MoreDistinct(entries: seq<Entry>, i: nat, admitted: seq<Entry>)
    requires i < |entries| && DistinctIds(entries) && IsSub(admitted, entries[..i]) && DistinctIds(admitted)
    ensures DistinctIds(admitted + [entries[i]])
  {
    SubDistinct(admitted, entries[..i]);
    NotYet(entries, i, admitted);
  }

  lemma FatedNext(entries: seq<Entry>, i: nat, outcomes: Outcomes, admitted: seq<Entry>, k: nat)
    requires k <= i < |entries| && DistinctIds(entries) && Batch(entries[..i], outcomes, admitted)
    requires OnlyFirst(entries, i, outcomes)
    ensures Fated(outcomes, admitted + [entries[i]], entries[k])
  {
    if k < i {
      assert Fated(outcomes, admitted, entries[..i][k]);
      assert entries[k] != entries[i];
    }
  }

  lemma NotYet(entries: seq<Entry>, i: nat, admitted: seq<Entry>)
    requires i < |entries| && DistinctIds(entries) && forall e :: e in admitted ==> e in entries[..i]
    ensures forall k :: 0 <= k < |admitted| ==> admitted[k].id != entries[i].id
  {
    forall k | 0 <= k < |admitted| ensures admitted[k].id != entries[i].id {
      assert admitted[k] in entries[..i];
    }
  }

  // ---------------------------------------------------------------- the report

  /**
   * What was found before the push: the gate's configuration, the failed gates,
   * the passes over the batch, and the stretch of the run in which all that was
   * found. `whole` is the stretch up to the report.
   */
  datatype Record = Record(config: Option<Config>, blames: seq<Blame>, passes: nat, trail: Trail, whole: Trail)

  /**
   * The run pushed this tip at its n-th call, after the server had taken its
   * plan and the lease was renewed, and the remote's answer was this.
   */
  predicate PushedAt(env: Env, n: nat, tip: Commit, accepted: bool, checks: set<Check>) {
    && n >= 2 && PushCheck(n, tip, accepted) in checks
    && !env.lab.fails(n - 2) && !env.leaseLost(n - 1) && !env.lab.fails(n - 1)
    && accepted == (!env.lab.fails(n) && env.accepts(n))
  }

  ghost predicate PushMade(env: Env, tip: Commit, accepted: bool, t: Trail) {
    exists n :: t.span.from + 2 <= n < t.span.to && PushedAt(env, n, tip, accepted, t.checks)
  }

  lemma PushMadeWidens(env: Env, tip: Commit, accepted: bool, t: Trail, wider: Trail)
    requires PushMade(env, tip, accepted, t) && Part(t, wider)
    ensures PushMade(env, tip, accepted, wider)
  {
    var n :| t.span.from + 2 <= n < t.span.to && PushedAt(env, n, tip, accepted, t.checks);
    assert PushedAt(env, n, tip, accepted, wider.checks);
  }

  /** What the push leaves for one entry. */
  predicate PushDecides(stage: Stage, id: string, o: Outcome) {
    if !stage.Pushed? then o.Bounced? || o == Requeue(RunFailed)
    else if Lookup(stage.plan.stack, id).None? then o.Bounced?
    else if stage.accepted then o.Landed? else o == Requeue(PushRejected)
  }

  /** An outcome follows from the push, and a bounce, or a requeue by a run that failed, has the cause it names. */
  ghost predicate OutcomeSound(env: Env, base: Commit, entries: seq<Entry>, stage: Stage, rec: Record, e: Entry, o: Outcome) {
    && PushDecides(stage, e.id, o) && Founded(env, base, entries, e, o, rec.blames, rec.trail)
    && (o == Requeue(RunFailed) ==> Troubled(env, rec.whole.span))
  }

  ghost predicate OutcomesSound(env: Env, base: Commit, entries: seq<Entry>, stage: Stage, rec: Record, outcomes: Outcomes) {
    forall k :: 0 <= k < |entries| && entries[k].id in outcomes ==>
      OutcomeSound(env, base, entries, stage, rec, entries[k], outcomes[entries[k].id])
  }

  /** What a run has established. */
  ghost predicate RunSound(env: Env, l: Local, rec: Record)
    requires l.Job?
  {
    && |GatesIn(rec.trail.checks)| <= rec.passes <= |l.entries|
    && (rec.blames != [] ==> rec.config.Some?)
    && (rec.config.Some? ==>
          && GateRead(env, rec.config, rec.trail)
          && BlamesOk(env, l.ref, rec.config.value, l.entries, rec.blames, rec.trail))
    && (l.stage.Planned? || l.stage.Pushed? ==>
          && rec.config.Some? && l.stage.plan.base == l.ref
          && Cleared(env, l.ref, rec.config.value, l.stage.plan.stack, rec.trail)
          && IsSub(EntriesOf(l.stage.plan.stack), l.entries))
    && (l.stage.Pushed? ==> PushMade(env, l.stage.plan.tip(), l.stage.accepted, rec.whole))
  }

  /** The report names an outcome for every entry, and each is sound. */
  ghost predicate ReportSound(env: Env, l: Local, rec: Record)
    requires l.Job?
  {
    l.reported.Some? ==>
      && |l.reported.value.0.outcomes| == |l.entries|
      && forall k :: 0 <= k < |l.entries| ==>
           OutcomeSound(env, l.ref, l.entries, l.stage, rec, l.entries[k], l.reported.value.0.outcomes[k].1)
  }

  /** Report the outcomes; false when the call fails. */
  method Report(site: Site, entries: seq<Entry>, outcomes: Outcomes, pushedTip: Option<Commit>, ghost rec: Record)
    returns (ok: bool)
    requires Legal(site) && Now(site).Job? && Now(site).entries == entries
    requires var l := Now(site);
             && OutcomesFit(entries, outcomes, PushedPlan(l)) && pushedTip == TipOf(PushedPlan(l))
             && (l.reported.None? || l.reported == Some((MakeReport(entries, outcomes, pushedTip), false)))
             && Complete(entries, outcomes) && OutcomesSound(site.env, l.ref, entries, l.stage, rec, outcomes)
    modifies site`clock, site`events
    ensures Legal(site)
    ensures Now(site) == old(Now(site)).(reported := Some((MakeReport(entries, outcomes, pushedTip), ok)))
    ensures ReportSound(site.env, Now(site), rec)
    ensures site.clock == old(site.clock) + 1 && ok == !site.env.lab.fails(old(site.clock))
    ensures site.events == old(site.events) + [Finish(MakeReport(entries, outcomes, pushedTip), ok)]
  {
    var report := MakeReport(entries, outcomes, pushedTip);
    ok := site.Call();
    ReportFits(entries, outcomes, PushedPlan(Now(site)));
    Log(site, Finish(report, ok));
  }

  // ------------------------------------------------------------------ the push

  lemma MappedHasItem(stack: seq<Stacked>, id: string)
    ensures Lookup(stack, id).Some? <==> exists i :: 0 <= i < |stack| && EntriesOf(stack)[i].id == id
  {
    QueueSafety.LookupItem(stack, id);
    if i :| 0 <= i < |stack| && stack[i].entry.id == id { assert EntriesOf(stack)[i].id == id; }
  }

  lemma SameIdSame(entries: seq<Entry>, a: Entry, b: Entry)
    requires DistinctIds(entries) && a in entries && b in entries && a.id == b.id
    ensures a == b
  {
  }

  /** An entry of a stack is mapped by it, and nothing else is. */
  lemma MappedEntries(stack: seq<Stacked>, entries: seq<Entry>, k: nat)
    requires k < |entries| && DistinctIds(entries) && IsSub(EntriesOf(stack), entries)
    ensures entries[k] in EntriesOf(stack) <==> Lookup(stack, entries[k].id).Some?
  {
    var stacked := EntriesOf(stack);
    MappedHasItem(stack, entries[k].id);
    SubDistinct(stacked, entries);
    if i :| 0 <= i < |stacked| && stacked[i].id == entries[k].id {
      assert stacked[i] in stacked;
      SameIdSame(entries, stacked[i], entries[k]);
    }
  }

  /** Before the push every outcome is a bounce, and the stack's entries have none. */
  lemma BeforePush(entries: seq<Entry>, outcomes: Outcomes, landed: seq<Stacked>)
    requires DistinctIds(entries) && Batch(entries, outcomes, EntriesOf(landed))
    ensures forall k :: 0 <= k < |entries| && Lookup(landed, entries[k].id).None? ==>
              entries[k].id in outcomes && outcomes[entries[k].id].Bounced?
  {
    forall k | 0 <= k < |entries| && Lookup(landed, entries[k].id).None?
      ensures entries[k].id in outcomes && outcomes[entries[k].id].Bounced?
    {
      MappedEntries(landed, entries, k);
      assert Fated(outcomes, EntriesOf(landed), entries[k]);
    }
  }

  lemma AfterAccepted(env: Env, entries: seq<Entry>, outcomes: Outcomes, plan: PushPlan, rec: Record)
    requires DistinctIds(entries) && Batch(entries, outcomes, EntriesOf(plan.stack))
    requires AllFounded(env, plan.base, entries, outcomes, rec.blames, rec.trail)
    ensures var after := LandAll(outcomes, plan.stack);
            && OutcomesFit(entries, after, Some(plan)) && Complete(entries, after)
            && OutcomesSound(env, plan.base, entries, Pushed(plan, true), rec, after)
  {
    BeforePush(entries, outcomes, plan.stack);
    forall k | 0 <= k < |entries|
      ensures var after := LandAll(outcomes, plan.stack);
              var id := entries[k].id;
              && id in after
              && after[id] == if Lookup(plan.stack, id).Some? then Landed(Lookup(plan.stack, id).value) else outcomes[id]
    {
      LandAllFacts(outcomes, plan.stack, entries[k].id);
    }
  }

  lemma AfterRejected(env: Env, entries: seq<Entry>, outcomes: Outcomes, plan: PushPlan, rec: Record)
    requires DistinctIds(entries) && Batch(entries, outcomes, EntriesOf(plan.stack))
    requires AllFounded(env, plan.base, entries, outcomes, rec.blames, rec.trail)
    ensures var after := RequeueAll(outcomes, plan.stack, PushRejected);
            && OutcomesFit(entries, after, None) && Complete(entries, after)
            && OutcomesSound(env, plan.base, entries, Pushed(plan, false), rec, after)
  {
    BeforePush(entries, outcomes, plan.stack);
    forall k | 0 <= k < |entries|
      ensures var after := RequeueAll(outcomes, plan.stack, PushRejected);
              var id := entries[k].id;
              id in after && after[id] == if Lookup(plan.stack, id).Some? then Requeue(PushRejected) else outcomes[id]
    {
      RequeueAllFacts(outcomes, plan.stack, PushRejected, entries[k].id);
    }
  }

  /**
   * The calls of a push: the plan is recorded, the lease is renewed, the tip is
   * pushed. It is not pushed if the plan or the renewal fails or the lease is lost.
   */
  predicate Tried(env: Env, span: Span, threw: bool, pushed: bool) {
    var n := span.from;
    if env.lab.fails(n) || env.leaseLost(n + 1) then threw && !pushed && span.to == n + 1
    else if env.lab.fails(n + 1) then threw && !pushed && span.to == n + 2
    else !threw && span.to == n + 3 && (pushed <==> !env.lab.fails(n + 2) && env.accepts(n + 2))
  }

  /** Record the plan, make sure of the lease, and push. */
  method TryPush(site: Site, ref: Commit, run: string, entries: seq<Entry>, stack: seq<Stacked>)
    returns (threw: bool, pushed: bool, ghost stage: Stage)
    requires Legal(site) && Now(site) == Job(ref, run, entries, Open, None)
    requires PlanOk(site.env.git, site.env.me, entries, PushPlan(ref, stack))
    modifies site`clock, site`events, site`checks
    ensures Legal(site) && Now(site) == Job(ref, run, entries, stage, None)
    ensures old(site.events) <= site.events
    ensures stage.Planned? || stage.Pushed? ==> stage.plan == PushPlan(ref, stack)
    ensures if threw then !stage.Pushed? && !pushed && site.checks == old(site.checks)
            else && stage == Pushed(PushPlan(ref, stack), pushed)
                 && site.checks == old(site.checks) + {PushCheck(old(site.clock) + 2, PushPlan(ref, stack).tip(), pushed)}
    ensures GatesIn(site.checks) == GatesIn(old(site.checks))
    ensures Tried(site.env, Span(old(site.clock), site.clock), threw, pushed)
  {
    pushed := false;
    ghost var plan := PushPlan(ref, stack);
    var acked := site.Call();
    Log(site, Plan(plan, acked));
    stage := Now(site).stage;
    if !acked || site.env.leaseLost(site.clock) { return true, false, stage; }
    var renewed := site.Call();
    if !renewed { return true, false, stage; }
    var asked := site.clock;
    var answered := site.Call();
    pushed := answered && site.env.accepts(asked);
    NoMoreGates(site.checks, PushCheck(asked, plan.tip(), pushed));
    site.checks := site.checks + {PushCheck(asked, plan.tip(), pushed)};
    Log(site, Push(plan.tip(), pushed));
    return false, pushed, Now(site).stage;
  }

  lemma MayPlan(env: Env, ref: Commit, entries: seq<Entry>, outcomes: Outcomes, stack: seq<Stacked>)
    requires stack != [] && StackOk(env.git, env.me, ref, stack) && Batch(entries, outcomes, EntriesOf(stack))
    requires DistinctIds(entries)
    ensures PlanOk(env.git, env.me, entries, PushPlan(ref, stack))
  {
    SubDistinct(EntriesOf(stack), entries);
    assert forall i :: 0 <= i < |stack| ==> EntriesOf(stack)[i] in entries;
  }

  lemma TryFailed(env: Env, span: Span)
    requires Tried(env, span, true, false)
    ensures Troubled(env, span) && span.to > span.from
  {
  }

  lemma TryMade(env: Env, span: Span, tip: Commit, accepted: bool, checks: set<Check>)
    requires Tried(env, span, false, accepted) && PushCheck(span.from + 2, tip, accepted) in checks
    ensures PushMade(env, tip, accepted, Trail(span, checks)) && span.to > span.from
  {
    assert PushedAt(env, span.from + 2, tip, accepted, checks);
  }

  /** Push the stack, and after an accepted push try to bring the base checkout up to it. */
  method PushAndSync(site: Site, ref: Commit, run: string, entries: seq<Entry>, stack: seq<Stacked>)
    returns (threw: bool, pushed: bool, ghost stage: Stage)
    requires Legal(site) && Now(site) == Job(ref, run, entries, Open, None)
    requires PlanOk(site.env.git, site.env.me, entries, PushPlan(ref, stack))
    modifies site`clock, site`events, site`checks
    ensures Legal(site) && Now(site) == Job(ref, run, entries, stage, None)
    ensures old(site.events) <= site.events && old(site.checks) <= site.checks && site.clock > old(site.clock)
    ensures GatesIn(site.checks) == GatesIn(old(site.checks))
    ensures stage.Planned? || stage.Pushed? ==> stage.plan == PushPlan(ref, stack)
    ensures if threw then !stage.Pushed? && !pushed && Troubled(site.env, Span(old(site.clock), site.clock))
            else && stage == Pushed(PushPlan(ref, stack), pushed)
                 && PushMade(site.env, PushPlan(ref, stack).tip(), pushed, Since(site, old(site.clock)))
  {
    ghost var start := site.clock;
    threw, pushed, stage := TryPush(site, ref, run, entries, stack);
    ghost var made := Since(site, start);
    if threw {
      TryFailed(site.env, made.span);
    } else {
      TryMade(site.env, made.span, PushPlan(ref, stack).tip(), pushed, made.checks);
    }
    if pushed {
      var _ := site.Call();
      PushMadeWidens(site.env, PushPlan(ref, stack).tip(), pushed, made, Since(site, start));
    }
  }

  /** What the entries' outcomes are once the push has been tried. */
  ghost predicate Concluded(env: Env, entries: seq<Entry>, outcomes: Outcomes, plan: PushPlan, pushed: bool, rec: Record) {
    && Complete(entries, outcomes) && OutcomesSound(env, plan.base, entries, Pushed(plan, pushed), rec, outcomes)
    && OutcomesFit(entries, outcomes, if pushed then Some(plan) else None)
  }

  lemma PushConcludes(env: Env, entries: seq<Entry>, outcomes: Outcomes, plan: PushPlan, pushed: bool, rec: Record)
    requires DistinctIds(entries) && Batch(entries, outcomes, EntriesOf(plan.stack))
    requires AllFounded(env, plan.base, entries, outcomes, rec.blames, rec.trail)
    ensures var after := if pushed then LandAll(outcomes, plan.stack) else RequeueAll(outcomes, plan.stack, PushRejected);
            Concluded(env, entries, after, plan, pushed, rec)
  {
    if pushed { AfterAccepted(env, entries, outcomes, plan, rec); } else { AfterRejected(env, entries, outcomes, plan, rec); }
  }

  /** Push, and give the stacked entries their outcomes. */
  method PushBatch(site: Site, ref: Commit, run: string, entries: seq<Entry>, outcomes0: Outcomes, stack: seq<Stacked>,
                   ghost rec: Record)
    returns (threw: bool, outcomes: Outcomes, pushed: bool, ghost stage: Stage)
    requires Legal(site) && Now(site) == Job(ref, run, entries, Open, None)
    requires stack != [] && StackOk(site.env.git, site.env.me, ref, stack) && DistinctIds(entries)
    requires Batch(entries, outcomes0, EntriesOf(stack))
    requires AllFounded(site.env, ref, entries, outcomes0, rec.blames, rec.trail)
    modifies site`clock, site`events, site`checks
    ensures Legal(site) && Now(site) == Job(ref, run, entries, stage, None)
    ensures old(site.events) <= site.events && old(site.checks) <= site.checks && site.clock > old(site.clock)
    ensures GatesIn(site.checks) == GatesIn(old(site.checks))
    ensures stage.Planned? || stage.Pushed? ==> stage.plan == PushPlan(ref, stack)
    ensures if threw then && outcomes == outcomes0 && !stage.Pushed? && !pushed
                          && Troubled(site.env, Span(old(site.clock), site.clock))
            else && stage == Pushed(PushPlan(ref, stack), pushed)
                 && Concluded(site.env, entries, outcomes, PushPlan(ref, stack), pushed, rec)
                 && PushMade(site.env, PushPlan(ref, stack).tip(), pushed, Since(site, old(site.clock)))
  {
    outcomes := outcomes0;
    MayPlan(site.env, ref, entries, outcomes, stack);
    threw, pushed, stage := PushAndSync(site, ref, run, entries, stack);
    if threw { return; }
    PushConcludes(site.env, entries, outcomes, PushPlan(ref, stack), pushed, rec);
    outcomes := if pushed then LandAll(outcomes, stack) else RequeueAll(outcomes, stack, PushRejected);
  }

  // ------------------------------------------------------------------- the run

  /** Outcomes of a run that has not pushed: bounces only. */
  lemma BouncesFit(env: Env, base: Commit, entries: seq<Entry>, outcomes: Outcomes, stage: Stage, rec: Record)
    requires AllBounced(outcomes) && AllFounded(env, base, entries, outcomes, rec.blames, rec.trail) && !stage.Pushed?
    ensures OutcomesFit(entries, outcomes, None) && OutcomesSound(env, base, entries, stage, rec, outcomes)
  {
  }

  /** Everything is bounced because there is no gate, or because it could not be read. */
  ghost predicate GateMissing(env: Env, entries: seq<Entry>, outcomes: Outcomes, t: Trail) {
    || (AllBouncedFor(entries, outcomes, NoGate) && GateRead(env, None, t))
    || (AllBouncedFor(entries, outcomes, GateUnreadable) && CallFailed(env, t.span))
  }

  predicate AllBouncedFor(entries: seq<Entry>, outcomes: Outcomes, reason: Reason) {
    forall e :: e in entries ==> e.id in outcomes && outcomes[e.id] == Bounced(reason)
  }

  lemma MissingFounded(env: Env, base: Commit, entries: seq<Entry>, outcomes: Outcomes, t: Trail)
    requires GateMissing(env, entries, outcomes, t)
    ensures AllFounded(env, base, entries, outcomes, [], t)
  {
    forall k | 0 <= k < |entries| && entries[k].id in outcomes
      ensures Founded(env, base, entries, entries[k], outcomes[entries[k].id], [], t)
    {
      assert entries[k] in entries;
    }
  }

  /** What is known when everything before the push is done. */
  ghost predicate Prepared(env: Env, ref: Commit, entries: seq<Entry>, outcomes: Outcomes, stack: seq<Stacked>, threw: bool,
                           rec: Record) {
    && DistinctIds(entries) && AllBounced(outcomes) && AllFounded(env, ref, entries, outcomes, rec.blames, rec.trail)
    && rec.passes <= |entries| && (rec.blames != [] ==> rec.config.Some?)
    && (rec.config.Some? ==>
          && GateRead(env, rec.config, rec.trail)
          && BlamesOk(env, ref, rec.config.value, entries, rec.blames, rec.trail))
    && (if threw then stack == [] && CallFailed(env, rec.trail.span) else Batch(entries, outcomes, EntriesOf(stack)))
    && (stack != [] ==> rec.config.Some? && Cleared(env, ref, rec.config.value, stack, rec.trail))
  }

  /** Prepare the checkout, read the gate, fetch the entries and land what passes: everything before the push. */
  method Prepare(site: Site, ref: Commit, entries: seq<Entry>)
    returns (threw: bool, outcomes: Outcomes, stack: seq<Stacked>, ghost rec: Record)
    requires DistinctIds(entries)
    modifies site`clock, site`head, site`tree, site`checks
    ensures site.clock > old(site.clock) && rec.trail == Since(site, old(site.clock)) && Part(rec.whole, rec.trail)
    ensures Prepared(site.env, ref, entries, outcomes, stack, threw, rec)
    ensures |GatesIn(site.checks)| <= |GatesIn(old(site.checks))| + rec.passes
    ensures !threw && rec.config.None? ==> GateMissing(site.env, entries, outcomes, rec.trail)
  {
    ghost var from := site.clock;
    outcomes, stack, threw := map[], [], true;
    var ok := PrepareCheckout(site, ref);
    rec := Record(None, [], 0, Since(site, from), Since(site, from));
    if !ok { return; }
    ghost var asked := site.clock;
    var saved;
    ok, saved := ReadGate(site);
    rec := rec.(trail := Since(site, from));
    if !ok || saved.None? {
      outcomes := BounceAll(outcomes, entries, if ok then NoGate else GateUnreadable);
      AllOut(entries, outcomes);
      if ok { GateReadWidens(site.env, None, Since(site, asked), rec.trail); }
      MissingFounded(site.env, ref, entries, outcomes, rec.trail);
      return false, outcomes, [], rec;
    }
    ghost var before := Since(site, asked);
    ok := site.Call();
    rec := rec.(trail := Since(site, from));
    if !ok { return; }
    threw, outcomes, stack, rec := FetchAndLand(site, ref, saved.value, entries, from);
    GateReadWidens(site.env, saved, before, rec.trail);
  }

  /** Bring the checkout to the fetched commit, with nothing else in it. */
  method PrepareCheckout(site: Site, ref: Commit) returns (ok: bool)
    modifies site`clock, site`head, site`tree
    ensures site.clock > old(site.clock)
    ensures if ok then site.head == ref && site.Clean() else CallFailed(site.env, Span(old(site.clock), site.clock))
  {
    ok := site.Call();
    if !ok { return; }
    ok := site.Call();
    if !ok { return; }
    ok := site.Checkout(ref);
    if !ok { return; }
    ok := site.Call();
  }

  /** Ask the server for the saved gate. */
  method ReadGate(site: Site) returns (ok: bool, saved: Option<Config>)
    modifies site`clock, site`checks
    ensures site.clock == old(site.clock) + 1 && ok == !site.env.lab.fails(old(site.clock))
    ensures if ok then && site.checks == old(site.checks) + {ConfigCheck(old(site.clock), saved)}
                       && GateRead(site.env, saved, Since(site, old(site.clock)))
            else site.checks == old(site.checks)
    ensures GatesIn(site.checks) == GatesIn(old(site.checks))
  {
    ghost var start := site.clock;
    saved := site.env.gate(site.clock);
    ok := site.Call();
    if ok {
      NoMoreGates(site.checks, ConfigCheck(start, saved));
      site.checks := site.checks + {ConfigCheck(start, saved)};
      assert ConfigCheck(start, saved) in Since(site, start).checks;
    }
  }

  /** Fetch the entries and land what passes. */
  method FetchAndLand(site: Site, ref: Commit, config: Config, entries: seq<Entry>, ghost from: nat)
    returns (threw: bool, outcomes: Outcomes, stack: seq<Stacked>, ghost rec: Record)
    requires from <= site.clock && DistinctIds(entries)
    modifies site`clock, site`head, site`tree, site`checks
    ensures site.clock >= old(site.clock) && site.checks >= old(site.checks)
    ensures rec.trail == rec.whole == Since(site, from) && rec.passes <= |entries|
    ensures |GatesIn(site.checks)| <= |GatesIn(old(site.checks))| + rec.passes
    ensures AllBounced(outcomes) && AllFounded(site.env, ref, entries, outcomes, rec.blames, rec.trail)
    ensures rec.config == Some(config) && BlamesOk(site.env, ref, config, entries, rec.blames, rec.trail)
    ensures threw ==> stack == []
    ensures !threw ==> Batch(entries, outcomes, EntriesOf(stack))
    ensures !threw && stack != [] ==> Cleared(site.env, ref, config, stack, rec.trail)
    ensures threw ==> CallFailed(site.env, Span(old(site.clock), site.clock))
  {
    var admitted;
    stack := [];
    threw, outcomes, admitted := FetchAll(site, ref, entries, from);
    rec := Record(Some(config), [], 0, Since(site, from), Since(site, from));
    if threw { return; }
    ghost var blames, passes, start := [], 0, site.clock;
    threw, outcomes, stack, blames, passes := LandBatch(site, ref, config, entries, admitted, outcomes, from);
    rec := Record(Some(config), blames, passes, Since(site, from), Since(site, from));
    if !threw && stack != [] { ClearedWidens(site.env, ref, config, stack, Since(site, start), rec.trail); }
  }

  lemma AllOut(entries: seq<Entry>, outcomes: Outcomes)
    requires AllBounced(outcomes) && forall e :: e in entries ==> e.id in outcomes
    ensures Batch(entries, outcomes, [])
  {
    forall k | 0 <= k < |entries| ensures Fated(outcomes, [], entries[k]) { assert entries[k] in entries; }
  }

  lemma EmptyComplete(entries: seq<Entry>, outcomes: Outcomes)
    requires Batch(entries, outcomes, [])
    ensures Complete(entries, outcomes)
  {
    forall k | 0 <= k < |entries| ensures entries[k].id in outcomes { assert Fated(outcomes, [], entries[k]); }
  }

  /** Filling in the missing outcomes of a run that failed before pushing. */
  lemma FilledIn(env: Env, base: Commit, entries: seq<Entry>, outcomes: Outcomes, stage: Stage, rec: Record)
    requires AllBounced(outcomes) && AllFounded(env, base, entries, outcomes, rec.blames, rec.trail) && !stage.Pushed?
    requires Troubled(env, rec.whole.span)
    ensures var after := FillMissing(outcomes, entries, []);
            && Complete(entries, after) && OutcomesFit(entries, after, None)
            && OutcomesSound(env, base, entries, stage, rec, after)
  {
    FillMissingFacts(outcomes, entries, []);
  }

  /**
   * Land the claimed entries. Whatever fails on the way, one report is made:
   * if the first attempt to send it fails, the second sends the same report.
   */
  method LandClaimed(site: Site, ref: Commit, run: string, entries: seq<Entry>)
    returns (reported: bool, ghost rec: Record)
    requires Legal(site) && Now(site) == Job(ref, run, entries, Open, None) && DistinctIds(entries)
    requires site.checks == {}
    modifies site
    ensures Legal(site) && Now(site).Job? && Now(site).run == run && Now(site).entries == entries && Now(site).ref == ref
    ensures old(site.events) <= site.events
    ensures Now(site).reported.Some? && Now(site).reported.value.1 == reported
    ensures RunSound(site.env, Now(site), rec) && ReportSound(site.env, Now(site), rec)
    ensures site.clock > old(site.clock) && Part(rec.trail, rec.whole) && Part(rec.whole, Since(site, old(site.clock)))
    ensures reported || LostReport(site.env, Span(old(site.clock), site.clock))
  {
    ghost var start := site.clock;
    var threw, outcomes, stack, landed;
    threw, outcomes, stack, rec := Prepare(site, ref, entries);
    threw, outcomes, landed, rec := PushCleared(site, ref, run, entries, outcomes, stack, threw, rec, start);
    ghost var pushed := site.clock;
    reported := ReportAll(site, entries, outcomes, landed, threw, rec);
    if !reported { ReportLost(site.env, start, pushed, threw, site.clock); }
  }

  lemma ReportLost(env: Env, start: nat, n: nat, threw: bool, to: nat)
    requires start <= n && (threw ==> Troubled(env, Span(start, n)))
    requires if threw || !env.lab.fails(n) then to == n + 1 && env.lab.fails(n) else to == n + 2 && env.lab.fails(n + 1)
    ensures LostReport(env, Span(start, to))
  {
    if !threw { assert CallFailed(env, Span(start, n + 1)); }
  }

  lemma NothingPushed(env: Env, l: Local, outcomes: Outcomes, threw: bool, rec0: Record, rec: Record)
    requires l.Job? && l.stage.Open? && Prepared(env, l.ref, l.entries, outcomes, [], threw, rec0)
    requires |GatesIn(rec0.trail.checks)| <= rec0.passes
    requires rec == rec0.(whole := rec.whole) && Part(rec0.trail, rec.whole)
    ensures RunSound(env, l, rec) && Reportable(env, l, outcomes, [], threw, rec)
  {
    if threw {
      TroubleWidens(env, rec0.trail.span, rec.whole.span);
    } else {
      EmptyComplete(l.entries, outcomes);
      BouncesFit(env, l.ref, l.entries, outcomes, l.stage, rec);
    }
  }

  /** Push what was cleared, if anything was and nothing has failed. */
  method PushCleared(site: Site, ref: Commit, run: string, entries: seq<Entry>, outcomes0: Outcomes, stack: seq<Stacked>,
                     failed: bool, ghost rec0: Record, ghost start: nat)
    returns (threw: bool, outcomes: Outcomes, landed: seq<Stacked>, ghost rec: Record)
    requires Legal(site) && Now(site) == Job(ref, run, entries, Open, None) && start <= site.clock
    requires Prepared(site.env, ref, entries, outcomes0, stack, failed, rec0)
    requires rec0.trail == Since(site, start) && Part(rec0.whole, rec0.trail) && |GatesIn(site.checks)| <= rec0.passes
    modifies site`clock, site`events, site`checks
    ensures Legal(site) && Now(site).Job? && Now(site) == Job(ref, run, entries, Now(site).stage, None)
    ensures old(site.events) <= site.events && site.clock >= old(site.clock)
    ensures rec == rec0.(whole := Since(site, start)) && rec0.trail.checks <= site.checks
    ensures RunSound(site.env, Now(site), rec) && Reportable(site.env, Now(site), outcomes, landed, threw, rec)
  {
    threw, outcomes, landed := failed, outcomes0, [];
    ghost var began := site.clock;
    if threw || stack == [] {
      rec := rec0.(whole := Since(site, start));
      NothingPushed(site.env, Now(site), outcomes, threw, rec0, rec);
      return;
    }
    var pushed;
    ghost var stage;
    threw, outcomes, pushed, stage := PushBatch(site, ref, run, entries, outcomes, stack, rec0);
    landed := if pushed then stack else [];
    rec := rec0.(whole := Since(site, start));
    if threw {
      TroubleWidens(site.env, Span(began, site.clock), rec.whole.span);
    } else {
      PushMadeWidens(site.env, PushPlan(ref, stack).tip(), pushed, Since(site, began), rec.whole);
      WholeWidens(site.env, ref, entries, stage, rec0, rec.whole, outcomes);
    }
  }

  /** The report was lost: the last of these calls failed, and before it another call had failed or the lease was lost. */
  ghost predicate LostReport(env: Env, span: Span) {
    span.to > 0 && env.lab.fails(span.to - 1) && Troubled(env, Span(span.from, span.to - 1))
  }

  lemma LostWidens(env: Env, span: Span, from: nat)
    requires LostReport(env, span) && from <= span.from
    ensures LostReport(env, Span(from, span.to))
  {
    TroubleWidens(env, Span(span.from, span.to - 1), Span(from, span.to - 1));
  }

  lemma WholeWidens(env: Env, base: Commit, entries: seq<Entry>, stage: Stage, rec: Record, whole: Trail, outcomes: Outcomes)
    requires OutcomesSound(env, base, entries, stage, rec, outcomes) && Part(rec.whole, whole)
    ensures OutcomesSound(env, base, entries, stage, rec.(whole := whole), outcomes)
  {
    forall k | 0 <= k < |entries| && entries[k].id in outcomes
      ensures OutcomeSound(env, base, entries, stage, rec.(whole := whole), entries[k], outcomes[entries[k].id])
    {
      assert OutcomeSound(env, base, entries, stage, rec, entries[k], outcomes[entries[k].id]);
    }
  }

  /** What the outcomes have to be when the run comes to its report: complete, or after a failure before the push as they were. */
  ghost predicate Reportable(env: Env, l: Local, outcomes: Outcomes, landed: seq<Stacked>, threw: bool, rec: Record)
    requires l.Job?
  {
    if threw then && AllBounced(outcomes) && AllFounded(env, l.ref, l.entries, outcomes, rec.blames, rec.trail)
                  && !l.stage.Pushed? && landed == [] && Troubled(env, rec.whole.span)
    else && Complete(l.entries, outcomes) && OutcomesFit(l.entries, outcomes, PushedPlan(l))
         && OutcomesSound(env, l.ref, l.entries, l.stage, rec, outcomes)
         && (if PushedPlan(l).Some? then landed == PushedPlan(l).value.stack != [] else landed == [])
  }

  /** Report, and when that fails fill in what is missing and report once more. */
  method ReportAll(site: Site, entries: seq<Entry>, outcomes0: Outcomes, landed: seq<Stacked>, threw: bool, ghost rec: Record)
    returns (reported: bool)
    requires Legal(site) && Now(site).Job? && Now(site).entries == entries && Now(site).reported.None?
    requires Reportable(site.env, Now(site), outcomes0, landed, threw, rec)
    modifies site`clock, site`events
    ensures Legal(site) && Now(site).Job? && Now(site) == old(Now(site)).(reported := Now(site).reported)
    ensures Now(site).reported.Some? && Now(site).reported.value.1 == reported && ReportSound(site.env, Now(site), rec)
    ensures old(site.events) <= site.events
    ensures var n := old(site.clock);
            if threw || !site.env.lab.fails(n) then site.clock == n + 1 && reported == !site.env.lab.fails(n)
            else site.clock == n + 2 && reported == !site.env.lab.fails(n + 1)
  {
    var outcomes := outcomes0;
    var tip := if landed != [] then Some(landed[|landed| - 1].tip) else None;
    if !threw {
      reported := Report(site, entries, outcomes, tip, rec);
      if reported { return; }
      FillMissingFacts(outcomes, entries, landed);
    } else {
      FilledIn(site.env, Now(site).ref, entries, outcomes, Now(site).stage, rec);
    }
    outcomes := FillMissing(outcomes, entries, landed);
    reported := Report(site, entries, outcomes, tip, rec);
  }

  /** These events are what a runner may do, and what they came to is sound. */
  ghost predicate RunDone(env: Env, events: seq<Event>, rec: Record) {
    && Play(env.git, env.me, events).Some?
    && var l := Play(env.git, env.me, events).value;
    l.Job? ==> RunSound(env, l, rec) && ReportSound(env, l, rec)
  }

  /** Ask for the waiting entries. */
  method ClaimEntries(site: Site) returns (threw: bool, reply: Reply)
    requires Legal(site) && Now(site).Fetched?
    modifies site`clock, site`events
    ensures Legal(site)
    ensures threw ==> Now(site) == old(Now(site))
    ensures !threw ==> Some(Now(site)) == old(LocalStep(site.env.git, site.env.me, Now(site), Claim(reply)))
    ensures site.clock == old(site.clock) + 1
    ensures reply == site.env.replies(site.clock - 1) && threw == site.env.lab.fails(site.clock - 1)
    ensures site.events == if threw then old(site.events) else old(site.events) + [Claim(reply)]
  {
    var asked := site.clock;
    var ok := site.Call();
    reply := site.env.replies(asked);
    if !ok { return true, reply; }
    Log(site, Claim(reply));
    return false, reply;
  }

  lemma MaySettle(g: Rules, me: string, ref: Commit, stale: seq<Stale>, i: nat, checked: bool)
    requires i < |stale|
    ensures LocalStep(g, me, Fetched(ref, stale),
                      Reconcile(stale[i].run, checked, checked && IsAncestor(stale[i].plan.tip(), ref)))
         == Some(Fetched(ref, stale))
  {
    assert stale[i] in stale;
  }

  /** Check one interrupted run, record the verdict, and tell the server. */
  method SettleRun(site: Site, ref: Commit, stale: seq<Stale>, i: nat) returns (ok: bool)
    requires i < |stale| && Legal(site) && Now(site) == Fetched(ref, stale)
    modifies site`clock, site`events
    ensures Legal(site) && Now(site) == Fetched(ref, stale)
    ensures var checked := !site.env.lab.fails(old(site.clock));
            site.events == old(site.events) + [VerdictOn(ref, stale[i], checked)]
    ensures site.clock == old(site.clock) + 2 && ok == !site.env.lab.fails(old(site.clock) + 1)
  {
    var answered := site.Call();
    var pushed := answered && IsAncestor(stale[i].plan.tip(), ref);
    MaySettle(site.env.git, site.env.me, ref, stale, i, answered);
    Log(site, Reconcile(stale[i].run, answered, pushed));
    ok := site.Call();
  }

  /** Settle the interrupted runs the server named, each by whether its tip is on the branch as fetched. */
  method SettleRuns(site: Site, ref: Commit, stale: seq<Stale>) returns (threw: bool, ghost told: nat)
    requires Legal(site) && Now(site) == Fetched(ref, stale)
    modifies site`clock, site`events
    ensures Legal(site) && Now(site) == Fetched(ref, stale)
    ensures told <= |stale| && site.events == old(site.events) + VerdictEvents(site.env, ref, stale, told, old(site.clock))
    ensures if threw then site.clock > old(site.clock) && site.env.lab.fails(site.clock - 1)
            else told == |stale| && site.clock == old(site.clock) + 2 * |stale|
  {
    ghost var start, before := site.clock, site.events;
    var i := 0;
    while i < |stale|
      invariant 0 <= i <= |stale| && site.clock == start + 2 * i
      invariant Legal(site) && Now(site) == Fetched(ref, stale)
      invariant site.events == before + VerdictEvents(site.env, ref, stale, i, start)
    {
      OneMoreVerdict(site.env, ref, stale, i, start, before);
      var ok := SettleRun(site, ref, stale, i);
      i := i + 1;
      if !ok { return true, i; }
    }
    return false, i;
  }

  /** What the run has told until now. */
  ghost function Telling(site: Site): Told
    reads site`clock, site`events
  {
    Told(site.events, site.clock)
  }

  /** Settle the runs that the last claim was answered with, and claim again. */
  method SettleAndClaim(site: Site, ref: Commit, stale: seq<Stale>) returns (threw: bool, reply: Reply, ghost told: nat)
    requires Legal(site) && Now(site) == Fetched(ref, stale)
    modifies site`clock, site`events
    ensures Legal(site) && told <= |stale|
    ensures if threw then && Now(site) == Fetched(ref, stale)
                          && site.events == old(site.events) + VerdictEvents(site.env, ref, stale, told, old(site.clock))
            else && Some(Now(site)) == LocalStep(site.env.git, site.env.me, Fetched(ref, []), Claim(reply)) && told == |stale|
                 && site.events == old(site.events) + VerdictEvents(site.env, ref, stale, told, old(site.clock)) + [Claim(reply)]
                 && site.clock == old(site.clock) + 2 * |stale| + 1
    ensures site.clock > old(site.clock) && threw == site.env.lab.fails(site.clock - 1)
    ensures !threw ==> reply == site.env.replies(site.clock - 1)
  {
    threw, told := SettleRuns(site, ref, stale);
    if threw { return threw, Nothing, told; }
    threw, reply := ClaimEntries(site);
  }

  /** One more round, when the last claim was answered with interrupted runs. */
  method MakeRound(site: Site, ref: Commit, stale: seq<Stale>, ghost n: nat, ghost k: nat)
    returns (threw: bool, reply: Reply)
    requires Legal(site) && Now(site) == Fetched(ref, stale) && stale != [] && k < 3
    requires site.clock > 0 && site.env.replies(site.clock - 1) == Unreconciled(stale)
    requires Rounds(site.env, ref, n, k) == Some(Telling(site))
    modifies site`clock, site`events
    ensures Legal(site) && site.clock > old(site.clock)
    ensures if threw then Now(site).Fetched? && Ends(site.env, ref, Telling(site), Failed)
            else && Some(Now(site)) == LocalStep(site.env.git, site.env.me, Fetched(ref, []), Claim(reply))
                 && Rounds(site.env, ref, n, k + 1) == Some(Telling(site)) && reply == site.env.replies(site.clock - 1)
  {
    ghost var t := Telling(site);
    ghost var told;
    threw, reply, told := SettleAndClaim(site, ref, stale);
    if threw {
      StoppedInRounds(site.env, ref, n, k, t, stale, told, Telling(site));
    } else {
      NextRound(site.env, ref, n, k, t, stale, Telling(site));
    }
  }

  /**
   * Claim the waiting entries. As long as the server names interrupted runs
   * instead they are settled and the claim is repeated, three times at most.
   */
  method ClaimWork(site: Site, ref: Commit) returns (threw: bool, reply: Reply)
    requires Legal(site) && Now(site) == Fetched(ref, []) && site.events == [Fetch(ref)]
    modifies site`clock, site`events
    ensures Legal(site) && site.clock > old(site.clock)
    ensures if threw then Now(site).Fetched? && Ends(site.env, ref, Telling(site), Failed)
            else && Some(Now(site)) == LocalStep(site.env.git, site.env.me, Fetched(ref, []), Claim(reply))
                 && HeardAt(site.env, site.clock - 1, reply) && ToldInRounds(site.env, ref, site.events)
                 && (!reply.Claimed? ==> Ends(site.env, ref, Telling(site), NothingToLand))
  {
    ghost var k, n := 0, site.clock;
    threw, reply := ClaimEntries(site);
    if threw {
      StoppedFirst(site.env, ref, Telling(site));
      return;
    }
    FirstRound(site.env, ref, n, Telling(site));
    var attempt := 0;
    while reply.Unreconciled? && reply.stale != [] && attempt < 3
      invariant Legal(site) && attempt == k <= 3 && !threw && site.clock > n
      invariant Some(Now(site)) == LocalStep(site.env.git, site.env.me, Fetched(ref, []), Claim(reply))
      invariant Rounds(site.env, ref, n, k) == Some(Telling(site))
      invariant reply == site.env.replies(site.clock - 1)
      decreases 3 - attempt
    {
      threw, reply := MakeRound(site, ref, reply.stale, n, k);
      if threw { return; }
      attempt, k := attempt + 1, k + 1;
    }
    ClaimedInRounds(site.env, ref, n, k, Telling(site));
  }

  /** What a run leaves behind that was given a job and came to its report, lost or not. */
  ghost predicate EndsWithReport(env: Env, l: Local, t: Trail, exit: Exit, rec: Record)
    requires l.Job?
  {
    && WasGiven(env, l.run, l.entries, t.span) && l.reported.Some? && Part(rec.trail, rec.whole) && Part(rec.whole, t)
    && exit == (if l.reported.value.1 then Reported else Failed)
    && (exit.Failed? ==> LostReport(env, t.span))
  }

  lemma NoJob(env: Env, events: seq<Event>, rec: Record)
    requires Play(env.git, env.me, events).Some? && !Play(env.git, env.me, events).value.Job?
    ensures RunDone(env, events, rec)
  {
  }

  /** Land what the run was given. */
  method RunJob(site: Site, ref: Commit, run: string, entries: seq<Entry>, ghost from: nat)
    returns (exit: Exit, ghost rec: Record)
    requires Legal(site) && Now(site) == Job(ref, run, entries, Open, None) && DistinctIds(entries)
    requires ToldInRounds(site.env, ref, site.events) && site.events != [] && site.checks == {}
    requires from < site.clock && HeardAt(site.env, site.clock - 1, Claimed(run, entries))
    modifies site
    ensures RunDone(site.env, site.events, rec) && Now(site).Job? && ToldInRounds(site.env, ref, site.events)
    ensures EndsWithReport(site.env, Now(site), Since(site, from), exit, rec)
  {
    ghost var before, given := site.events, site.clock;
    GivenNow(site.env, Claimed(run, entries), from, given);
    var reported;
    reported, rec := LandClaimed(site, ref, run, entries);
    JobInRounds(site.env, ref, before, site.events);
    if !reported { LostWidens(site.env, Span(given, site.clock), from); }
    exit := if reported then Reported else Failed;
  }

  /**
   * A whole landing run. Everything it tells the server and the remote is what
   * a runner may do, so cutting it off anywhere leaves a legal history. Whatever
   * interrupted runs the server names are settled before it claims again. Once
   * it has claimed entries it reports every one of them, exactly once in effect.
   */
  method RunLanding(site: Site) returns (exit: Exit, ghost rec: Record)
    requires site.events == [] && site.checks == {}
    requires forall n :: site.env.replies(n).Claimed? ==> DistinctIds(site.env.replies(n).entries)
    modifies site
    ensures RunDone(site.env, site.events, rec)
    ensures ToldInRounds(site.env, site.env.fetched(old(site.clock)), site.events)
    ensures if Now(site).Job?
            then EndsWithReport(site.env, Now(site), Since(site, old(site.clock)), exit, rec)
            else EndsEarly(site.env, site.env.fetched(old(site.clock)), site.events, site.clock, exit)
  {
    rec := Record(None, [], 0, Since(site, site.clock), Since(site, site.clock));
    var asked := site.clock;
    var ok := site.Call();
    var ref := site.env.fetched(asked);
    if !ok {
      NothingTold(site.env, ref, site.clock);
      return Failed, rec;
    }
    Log(site, Fetch(ref));
    var threw, reply := ClaimWork(site, ref);
    if threw || !reply.Claimed? {
      NoJob(site.env, site.events, rec);
      return if threw then Failed else NothingToLand, rec;
    }
    exit, rec := RunJob(site, ref, reply.run, reply.entries, asked);
  }

  // -------------------------------------------------------- what a report says

  /** The entry was pushed, and landed or waits again exactly as the remote answered that push. */
  ghost predicate DecidedByRemote(env: Env, l: Local, rec: Record, e: Entry, o: Outcome)
    requires l.Job?
  {
    && l.stage.Pushed? && e in EntriesOf(l.stage.plan.stack) && Lookup(l.stage.plan.stack, e.id).Some?
    && exists n :: rec.whole.span.from <= n < rec.whole.span.to
         && PushCheck(n, l.stage.plan.tip(), env.accepts(n)) in rec.whole.checks
         && o == (if env.accepts(n) then Landed(Lookup(l.stage.plan.stack, e.id).value) else Requeue(PushRejected))
  }

  /** A report that a runner made fits the push that it saw. */
  lemma {:induction false} ReportedFits(g: Rules, me: string, events: seq<Event>)
    requires Play(g, me, events).Some?
    ensures var l := Play(g, me, events).value;
            l.Job? && l.reported.Some? ==> ReportOk(l.entries, PushedPlan(l), l.reported.value.0)
  {
    if events != [] { ReportedFits(g, me, Init(events)); }
  }

  /**
   * When no call of the run fails and its lease is kept until the push, every
   * claimed entry is bounced for the cause that it is told, or else it is pushed
   * and the remote decides. So what passes the gate is always pushed.
   */
  lemma CalmRunIsDecided(env: Env, events: seq<Event>, l: Local, rec: Record, k: nat)
    requires RunDone(env, events, rec) && Play(env.git, env.me, events) == Some(l) && l.Job? && l.reported.Some?
    requires DistinctIds(l.entries) && k < |l.entries| && !Troubled(env, rec.whole.span)
    ensures var e, o := l.entries[k], l.reported.value.0.outcomes[k].1;
            if o.Bounced? then Founded(env, l.ref, l.entries, e, o, rec.blames, rec.trail) else DecidedByRemote(env, l, rec, e, o)
  {
    var e, o := l.entries[k], l.reported.value.0.outcomes[k].1;
    ReportedFits(env.git, env.me, events);
    assert OutcomeSound(env, l.ref, l.entries, l.stage, rec, e, o);
    if !o.Bounced? {
      var stack := l.stage.plan.stack;
      MappedEntries(stack, l.entries, k);
      var n :| rec.whole.span.from + 2 <= n < rec.whole.span.to
               && PushedAt(env, n, l.stage.plan.tip(), l.stage.accepted, rec.whole.checks);
      assert l.stage.accepted == env.accepts(n);
      assert PushCheck(n, l.stage.plan.tip(), env.accepts(n)) in rec.whole.checks;
    }
  }

  // ------------------------------------------------------------------- crashes

  /** What a runner holds later on: the same job, the same plan once it has one, the same report once it made one. */
  predicate Continues(a: Local, b: Local) {
    a.Job? ==>
      && b.Job? && b.ref == a.ref && b.run == a.run && b.entries == a.entries
      && (a.stage.Planned? ==> (b.stage.Planned? || b.stage.Pushed?) && b.stage.plan == a.stage.plan)
      && (a.stage.Pushed? ==> b.stage == a.stage)
      && (a.reported.Some? ==> b.stage == a.stage && b.reported.Some? && b.reported.value.0 == a.reported.value.0)
  }

  lemma StepContinues(g: Rules, me: string, a: Local, e: Event)
    requires LocalStep(g, me, a, e).Some?
    ensures Continues(a, LocalStep(g, me, a, e).value)
  {
  }

  lemma ContinuesOn(a: Local, b: Local, c: Local)
    requires Continues(a, b) && Continues(b, c)
    ensures Continues(a, c)
  {
  }

  lemma {:induction false} PrefixContinues(g: Rules, me: string, events: seq<Event>, k: nat)
    requires k <= |events| && Play(g, me, events).Some?
    ensures Play(g, me, events[..k]).Some? && Continues(Play(g, me, events[..k]).value, Play(g, me, events).value)
  {
    CrashAnywhere(g, me, events, k);
    if k == |events| {
      assert events[..k] == events;
    } else {
      assert Init(events)[..k] == events[..k];
      PrefixContinues(g, me, Init(events), k);
      StepContinues(g, me, Play(g, me, Init(events)).value, Last(events));
      ContinuesOn(Play(g, me, events[..k]).value, Play(g, me, Init(events)).value, Play(g, me, events).value);
    }
  }

  /**
   * A run that crashes after any number of its events is legal, and what it has
   * told so far is sound: a plan on record is cleared by a gate of this run, and
   * a report that was sent names a sound outcome for every entry.
   */
  lemma CrashedRunIsSound(env: Env, events: seq<Event>, rec: Record, k: nat)
    requires k <= |events| && RunDone(env, events, rec)
    ensures RunDone(env, events[..k], rec)
  {
    PrefixContinues(env.git, env.me, events, k);
  }
}
