/**
 * What every step of the landing protocol keeps, and what follows for whole
 * runs: crashes at any point, any number of runners, and other pushers.
 */
module QueueSafety {
  import opened Options
  import opened Git
  import opened Queue

  // ------------------------------------------------------------- bookkeeping

  lemma {:induction false} LookupItem(stack: seq<Stacked>, id: string)
    ensures var m := Lookup(stack, id);
            if m.Some? then exists i :: 0 <= i < |stack| && stack[i].entry.id == id && stack[i].mapping == m.value
            else forall i :: 0 <= i < |stack| ==> stack[i].entry.id != id
  {
    if stack != [] && Last(stack).entry.id != id {
      LookupItem(Init(stack), id);
    }
  }

  lemma {:induction false} FindOutcome(outcomes: seq<(string, Outcome)>, id: string)
    ensures var o := Find(outcomes, id);
            if o.Some? then exists i :: 0 <= i < |outcomes| && outcomes[i] == (id, o.value)
            else forall i :: 0 <= i < |outcomes| ==> outcomes[i].0 != id
  {
    if outcomes != [] && Last(outcomes).0 != id {
      FindOutcome(Init(outcomes), id);
      assert Find(outcomes, id) == Find(Init(outcomes), id);
    }
  }

  /** With one outcome per entry and distinct entries, each entry finds its own outcome. */
  lemma {:induction false} FindAt(entries: seq<Entry>, outcomes: seq<(string, Outcome)>, i: nat)
    requires DistinctIds(entries) && |outcomes| == |entries| && i < |entries|
    requires forall k :: 0 <= k < |entries| ==> outcomes[k].0 == entries[k].id
    ensures Find(outcomes, entries[i].id) == Some(outcomes[i].1)
  {
    FindOutcome(outcomes, entries[i].id);
    var o := Find(outcomes, entries[i].id);
    assert o.Some?;
    var k :| 0 <= k < |outcomes| && outcomes[k] == (entries[i].id, o.value);
    assert entries[k].id == entries[i].id;
  }

  // --------------------------------------------------------------- invariant

  predicate HasId(entries: seq<Entry>, id: string) {
    exists k :: 0 <= k < |entries| && entries[k].id == id
  }

  /** A run's entries have slots of their own, which an open run holds. */
  predicate RunSlots(slots: map<string, Slot>, q: string, run: Run) {
    && DistinctIds(run.entries)
    && forall k :: 0 <= k < |run.entries| ==>
         && run.entries[k].id in slots
         && slots[run.entries[k].id].entry == run.entries[k]
         && (IsOpen(run) ==> slots[run.entries[k].id].state == Running(q))
  }

  /** Only an open run with that entry holds a slot. */
  predicate SlotHeld(runs: map<string, Run>, id: string, slot: Slot) {
    slot.state.Running? ==>
      && slot.state.run in runs && IsOpen(runs[slot.state.run]) && HasId(runs[slot.state.run].entries, id)
  }

  predicate SlotsOk(s: State) {
    && (forall q :: q in s.runs ==> RunSlots(s.slots, q, s.runs[q]))
    && (forall id :: id in s.slots ==> SlotHeld(s.runs, id, s.slots[id]))
  }

  predicate RunOk(g: Rules, run: Run) {
    run.plan.Some? ==> PlanOk(g, run.owner, run.entries, run.plan.value)
  }

  predicate OneRunEach(runs: map<string, Run>) {
    forall q1, q2 :: q1 in runs && q2 in runs && runs[q1].owner == runs[q2].owner ==> q1 == q2
  }

  predicate RunsOk(g: Rules, s: State) {
    && (forall q :: q in s.runs ==> RunOk(g, s.runs[q]))
    && OneRunEach(s.runs)
  }

  /** A runner's own view agrees with the server's record of its run. */
  predicate JobOk(runs: map<string, Run>, r: string, l: Local) {
    l.Job? ==>
      && l.run in runs && runs[l.run].owner == r && runs[l.run].entries == l.entries
      && (l.stage.Planned? || l.stage.Pushed? ==> runs[l.run].plan == Some(l.stage.plan) && l.stage.plan.base == l.ref)
      && (l.reported.None? ==> !runs[l.run].state.Finished?)
  }

  ghost predicate JobsOk(s: State) {
    forall r :: JobOk(s.runs, r, LocalOf(s, r))
  }

  /** The interrupted runs a runner was told about are still as it was told. */
  predicate StaleOk(runs: map<string, Run>, l: Local) {
    l.Fetched? ==> forall k :: 0 <= k < |l.stale| ==>
      && l.stale[k].run in runs
      && runs[l.stale[k].run].plan == Some(l.stale[k].plan) && runs[l.stale[k].run].state.Abandoned?
  }

  /** What a runner fetched or pushed is on the remote. */
  predicate RemoteOk(remote: Commit, l: Local) {
    && (!l.Idle? ==> IsAncestor(l.ref, remote))
    && (PushedPlan(l).Some? ==> IsAncestor(PushedPlan(l).value.tip(), remote))
  }

  predicate ViewOk(s: State, r: string) {
    StaleOk(s.runs, LocalOf(s, r)) && RemoteOk(s.remote, LocalOf(s, r))
  }

  ghost predicate ViewsOk(s: State) {
    forall r :: ViewOk(s, r)
  }

  /** A commit that some runner made is on the remote only if that runner pushed. */
  ghost predicate MadeOk(s: State) {
    forall r :: MadeBy(s.remote, r) ==> PushedPlan(LocalOf(s, r)).Some?
  }

  /** "Landed" is on record only for entries of a push that was accepted. */
  predicate LandedSlot(s: State, id: string, slot: Slot) {
    slot.state.LandedBy? ==>
      var q := slot.state.run;
      && q in s.runs && s.runs[q].plan.Some? && HasId(s.runs[q].entries, id)
      && PushedPlan(LocalOf(s, s.runs[q].owner)) == s.runs[q].plan
      && Lookup(s.runs[q].plan.value.stack, id) == Some(slot.state.mapping)
  }

  predicate LandedOk(s: State) {
    forall id :: id in s.slots ==> LandedSlot(s, id, s.slots[id])
  }

  ghost predicate Inv(g: Rules, s: State) {
    SlotsOk(s) && RunsOk(g, s) && JobsOk(s) && ViewsOk(s) && MadeOk(s) && LandedOk(s)
  }

  // -------------------------------------------------------------------- slots

  /** Settling a run's outcomes changes the slots of its entries, each by its own outcome, and no other slot. */
  lemma SettleSlots(slots: map<string, Slot>, q: string, entries: seq<Entry>, outcomes: seq<(string, Outcome)>)
    requires DistinctIds(entries) && |outcomes| == |entries|
    requires forall k :: 0 <= k < |entries| ==> outcomes[k].0 == entries[k].id
    ensures forall k :: 0 <= k < |entries| && entries[k].id in slots ==>
              Settle(slots, q, outcomes)[entries[k].id] == slots[entries[k].id].(state := Settled(q, outcomes[k].1))
    ensures forall id :: id in slots && !HasId(entries, id) ==> Settle(slots, q, outcomes)[id] == slots[id]
  {
    forall k | 0 <= k < |entries| ensures Find(outcomes, entries[k].id) == Some(outcomes[k].1) {
      FindAt(entries, outcomes, k);
    }
    forall id | id in slots && !HasId(entries, id) ensures Find(outcomes, id).None? {
      FindOutcome(outcomes, id);
    }
  }

  /** Closing an open run gives each of its entries its outcome and leaves every other slot alone. */
  lemma CloseSlots(s: State, slots: map<string, Slot>, q: string, outcomes: seq<(string, Outcome)>)
    requires SlotsOk(s) && q in s.runs && IsOpen(s.runs[q])
    requires |outcomes| == |s.runs[q].entries|
    requires forall k :: 0 <= k < |outcomes| ==> outcomes[k].0 == s.runs[q].entries[k].id
    requires slots == Settle(s.slots, q, outcomes)
    ensures forall id :: id in s.slots ==> slots[id].entry == s.slots[id].entry && slots[id].state != Running(q)
    ensures forall id :: id in s.slots && s.slots[id].state != Running(q) ==> slots[id] == s.slots[id]
    ensures forall k :: 0 <= k < |outcomes| ==>
              s.runs[q].entries[k].id in slots && slots[s.runs[q].entries[k].id].state == Settled(q, outcomes[k].1)
  {
    assert RunSlots(s.slots, q, s.runs[q]);
    SettleSlots(s.slots, q, s.runs[q].entries, outcomes);
    forall id | id in s.slots
      ensures slots[id].entry == s.slots[id].entry && slots[id].state != Running(q)
      ensures s.slots[id].state != Running(q) ==> slots[id] == s.slots[id]
    {
      assert SlotHeld(s.runs, id, s.slots[id]);
    }
  }

  /** What happens to the slots when run `q` closes: its entries are now in these states, and nothing else has changed. */
  predicate ClosedAs(before: map<string, Slot>, after: map<string, Slot>, entries: seq<Entry>, states: seq<EntryState>) {
    && |states| == |entries| && after.Keys == before.Keys
    && (forall id :: id in before && !HasId(entries, id) ==> after[id] == before[id])
    && (forall k :: 0 <= k < |entries| && entries[k].id in before ==>
          after[entries[k].id] == Slot(before[entries[k].id].entry, states[k]))
  }

  /** An entry that waits again, has landed with its mapping, or is returned to its owner. */
  predicate EndsAs(o: Outcome, q: string, state: EntryState) {
    match state
    case LandedBy(p, mapping) => p == q && o == Landed(mapping)
    case Pending => o.Requeue?
    case Returned => o.Bounced?
    case _ => false
  }

  lemma SettledAs(slots: map<string, Slot>, q: string, entries: seq<Entry>, outcomes: seq<(string, Outcome)>,
                  states: seq<EntryState>)
    requires DistinctIds(entries) && |outcomes| == |entries| == |states|
    requires forall k :: 0 <= k < |entries| ==> outcomes[k].0 == entries[k].id && EndsAs(outcomes[k].1, q, states[k])
    ensures ClosedAs(slots, Settle(slots, q, outcomes), entries, states)
  {
    SettleSlots(slots, q, entries, outcomes);
  }

  /** What an interrupted run's entry becomes: landed as planned or returned when the plan reached the branch, else waiting. */
  function AfterVerdict(q: string, plan: PushPlan, pushed: bool, id: string): EntryState {
    if !pushed then Pending
    else match Lookup(plan.stack, id)
      case Some(mapping) => LandedBy(q, mapping)
      case None => Returned
  }

  /** A recorded verdict decides every entry of its run, and touches no other. */
  lemma VerdictSlots(g: Rules, s: State, r: string, q: string, checked: bool, pushed: bool)
    requires SlotsOk(s) && Next(g, s, Act(r, Reconcile(q, checked, pushed), true)).Some?
    ensures q in s.runs && s.runs[q].plan.Some?
    ensures var run := s.runs[q];
            ClosedAs(s.slots, Next(g, s, Act(r, Reconcile(q, checked, pushed), true)).value.slots, run.entries,
                     seq(|run.entries|, k requires 0 <= k < |run.entries| =>
                       AfterVerdict(q, run.plan.value, pushed, run.entries[k].id)))
  {
    var run := s.runs[q];
    assert RunSlots(s.slots, q, run);
    SettledAs(s.slots, q, run.entries, Verdicts(run.entries, run.plan.value, pushed),
              seq(|run.entries|, k requires 0 <= k < |run.entries| =>
                AfterVerdict(q, run.plan.value, pushed, run.entries[k].id)));
  }

  /** Abandoning a run puts its entries back in the queue, unless it has a plan on record: then they stay with it. */
  lemma AbandonSlots(g: Rules, s: State, q: string)
    requires SlotsOk(s) && Next(g, s, Abandon(q)).Some?
    ensures var t := Next(g, s, Abandon(q)).value;
            if s.runs[q].plan.Some? then t.slots == s.slots && IsUnreconciled(t.runs[q])
            else !IsOpen(t.runs[q])
                 && ClosedAs(s.slots, t.slots, s.runs[q].entries, seq(|s.runs[q].entries|, _ => Pending))
  {
    var run := s.runs[q];
    assert RunSlots(s.slots, q, run);
    SettledAs(s.slots, q, run.entries, Requeued(run.entries), seq(|run.entries|, _ => Pending));
  }

  /** A recorded report decides every entry of its run as it says, and touches no other. */
  lemma ReportSlots(g: Rules, s: State, r: string, report: Report, acked: bool, states: seq<EntryState>)
    requires SlotsOk(s) && Next(g, s, Act(r, Finish(report, acked), true)).Some?
    requires var l := LocalOf(s, r);
             l.run in s.runs && s.runs[l.run].entries == l.entries && |states| == |l.entries|
             && forall k :: 0 <= k < |states| ==> EndsAs(report.outcomes[k].1, l.run, states[k])
    ensures ClosedAs(s.slots, Next(g, s, Act(r, Finish(report, acked), true)).value.slots, LocalOf(s, r).entries, states)
  {
    var l := LocalOf(s, r);
    assert RunSlots(s.slots, l.run, s.runs[l.run]);
    SettledAs(s.slots, l.run, l.entries, report.outcomes, states);
  }

  /** When one open run closes, the slots stay consistent. */
  lemma CloseKeepsSlots(s: State, t: State, q: string, outcomes: seq<(string, Outcome)>)
    requires SlotsOk(s) && q in s.runs && IsOpen(s.runs[q])
    requires |outcomes| == |s.runs[q].entries|
    requires forall k :: 0 <= k < |outcomes| ==> outcomes[k].0 == s.runs[q].entries[k].id
    requires t.slots == Settle(s.slots, q, outcomes)
    requires q in t.runs && t.runs == s.runs[q := t.runs[q]] && t.runs[q].entries == s.runs[q].entries && !IsOpen(t.runs[q])
    ensures SlotsOk(t)
  {
    CloseSlots(s, t.slots, q, outcomes);
    forall p | p in t.runs ensures RunSlots(t.slots, p, t.runs[p]) {
      assert RunSlots(s.slots, p, s.runs[p]);
    }
    forall id | id in t.slots ensures SlotHeld(t.runs, id, t.slots[id]) {
      assert SlotHeld(s.runs, id, s.slots[id]);
    }
  }

  /** Recording a plan, or abandoning a run that has one, leaves the slots consistent. */
  lemma SameEntriesKeepSlots(s: State, t: State, q: string)
    requires SlotsOk(s) && t.slots == s.slots && q in s.runs && q in t.runs && t.runs == s.runs[q := t.runs[q]]
    requires t.runs[q].entries == s.runs[q].entries && IsOpen(t.runs[q]) == IsOpen(s.runs[q])
    ensures SlotsOk(t)
  {
    forall p | p in t.runs ensures RunSlots(t.slots, p, t.runs[p]) { assert RunSlots(s.slots, p, s.runs[p]); }
    forall id | id in t.slots ensures SlotHeld(t.runs, id, t.slots[id]) { assert SlotHeld(s.runs, id, s.slots[id]); }
  }

  lemma ClaimKeepsSlots(g: Rules, s: State, r: string, q: string, entries: seq<Entry>, heard: bool)
    requires SlotsOk(s) && Next(g, s, ClaimRun(r, q, entries, heard)).Some?
    ensures SlotsOk(Next(g, s, ClaimRun(r, q, entries, heard)).value)
  {
    var t := Next(g, s, ClaimRun(r, q, entries, heard)).value;
    forall p | p in t.runs ensures RunSlots(t.slots, p, t.runs[p]) {
      if p == q {
        assert forall k :: 0 <= k < |entries| ==> entries[k] in entries;
      } else {
        assert RunSlots(s.slots, p, s.runs[p]);
      }
    }
    forall id | id in t.slots ensures SlotHeld(t.runs, id, t.slots[id]) {
      assert SlotHeld(s.runs, id, s.slots[id]);
    }
  }

  lemma SlotEditKeepsSlots(s: State, t: State, id: string)
    requires SlotsOk(s) && t.runs == s.runs && id in t.slots && t.slots == s.slots[id := t.slots[id]]
    requires !t.slots[id].state.Running?
    requires id in s.slots ==> !s.slots[id].state.Running? && t.slots[id].entry == s.slots[id].entry
    ensures SlotsOk(t)
  {
    forall p | p in t.runs ensures RunSlots(t.slots, p, t.runs[p]) { assert RunSlots(s.slots, p, s.runs[p]); }
    forall x | x in t.slots ensures SlotHeld(t.runs, x, t.slots[x]) {
      if x != id { assert SlotHeld(s.runs, x, s.slots[x]); }
    }
  }

  lemma ActKeepsSlots(g: Rules, s: State, r: string, e: Event, applied: bool)
    requires SlotsOk(s) && JobsOk(s) && Next(g, s, Act(r, e, applied)).Some?
    ensures SlotsOk(Next(g, s, Act(r, e, applied)).value)
  {
    var t := Next(g, s, Act(r, e, applied)).value;
    var l := LocalOf(s, r);
    if applied && e.Reconcile? {
      CloseKeepsSlots(s, t, e.run, Verdicts(s.runs[e.run].entries, s.runs[e.run].plan.value, e.pushed));
    } else if applied && e.Finish? {
      assert JobOk(s.runs, r, l);
      CloseKeepsSlots(s, t, l.run, e.report.outcomes);
    } else if applied && e.Plan? {
      SameEntriesKeepSlots(s, t, l.run);
    }
  }

  lemma SlotsKept(g: Rules, s: State, step: Step)
    requires SlotsOk(s) && JobsOk(s) && Next(g, s, step).Some?
    ensures SlotsOk(Next(g, s, step).value)
  {
    var t := Next(g, s, step).value;
    match step
    case Submit(e) => SlotEditKeepsSlots(s, t, e.id);
    case Withdraw(id) => SlotEditKeepsSlots(s, t, id);
    case Outsider(_, _, _) =>
    case Abandon(q) =>
      if s.runs[q].plan.None? {
        CloseKeepsSlots(s, t, q, Requeued(s.runs[q].entries));
      } else {
        SameEntriesKeepSlots(s, t, q);
      }
    case ClaimRun(r, q, entries, heard) => ClaimKeepsSlots(g, s, r, q, entries, heard);
    case Act(r, e, applied) => ActKeepsSlots(g, s, r, e, applied);
  }

  // ------------------------------------------------------------ runs and jobs

  /** What a step may do to a run that exists: who owns it and what it carries never change. */
  predicate RunMoves(step: Step, a: Run, b: Run) {
    && b.owner == a.owner && b.entries == a.entries
    && (b.plan == a.plan || (a.state.Active? && step.Act? && step.event.Plan? && step.runner == a.owner))
    && (a.state.Abandoned? ==> b.state.Abandoned?)
    && (b.state.Finished? ==> a.state.Finished? || (step.Act? && step.event.Finish? && step.runner == a.owner))
  }

  lemma ActMovesRuns(g: Rules, s: State, r: string, e: Event, applied: bool)
    requires JobsOk(s) && Next(g, s, Act(r, e, applied)).Some?
    ensures var t := Next(g, s, Act(r, e, applied)).value;
            t.runs.Keys == s.runs.Keys && forall q :: q in s.runs ==> RunMoves(Act(r, e, applied), s.runs[q], t.runs[q])
  {
    var t := Next(g, s, Act(r, e, applied)).value;
    var l := LocalOf(s, r);
    if e.Plan? || e.Finish? {
      assert JobOk(s.runs, r, l);
      assert t.runs == s.runs || t.runs == s.runs[l.run := t.runs[l.run]];
    } else if e.Reconcile? {
      assert t.runs == s.runs || t.runs == s.runs[e.run := t.runs[e.run]];
    } else {
      assert t.runs == s.runs;
    }
  }

  lemma RunsMove(g: Rules, s: State, step: Step)
    requires JobsOk(s) && Next(g, s, step).Some?
    ensures var t := Next(g, s, step).value;
            && (forall q :: q in s.runs ==> q in t.runs && RunMoves(step, s.runs[q], t.runs[q]))
            && (forall q :: q in t.runs && q !in s.runs ==>
                  step.ClaimRun? && step.run == q && t.runs[q] == Run(step.runner, step.entries, None, Active))
  {
    if step.Act? {
      ActMovesRuns(g, s, step.runner, step.event, step.applied);
    }
  }

  /** Only the acting runner's view changes. */
  lemma OthersSame(g: Rules, s: State, step: Step, r: string)
    requires Next(g, s, step).Some?
    requires (step.Act? || step.ClaimRun?) ==> step.runner != r
    ensures LocalOf(Next(g, s, step).value, r) == LocalOf(s, r)
  {
  }

  lemma RunsKept(g: Rules, s: State, step: Step)
    requires RunsOk(g, s) && JobsOk(s) && Next(g, s, step).Some?
    ensures RunsOk(g, Next(g, s, step).value)
  {
    var t := Next(g, s, step).value;
    RunsMove(g, s, step);
    forall q | q in t.runs ensures RunOk(g, t.runs[q]) {
      if q in s.runs {
        assert RunOk(g, s.runs[q]);
        if t.runs[q].plan != s.runs[q].plan { assert JobOk(s.runs, step.runner, LocalOf(s, step.runner)); }
      }
    }
  }

  lemma JobsKept(g: Rules, s: State, step: Step)
    requires JobsOk(s) && Next(g, s, step).Some?
    ensures JobsOk(Next(g, s, step).value)
  {
    var t := Next(g, s, step).value;
    RunsMove(g, s, step);
    forall r ensures JobOk(t.runs, r, LocalOf(t, r)) {
      assert JobOk(s.runs, r, LocalOf(s, r));
      if !((step.Act? || step.ClaimRun?) && step.runner == r) { OthersSame(g, s, step, r); }
    }
  }

  // ---------------------------------------------------------------- the remote

  /** The remote history only grows. */
  lemma RemoteGrows(g: Rules, s: State, step: Step)
    requires Next(g, s, step).Some?
    ensures IsAncestor(s.remote, Next(g, s, step).value.remote)
  {
  }

  lemma StaleKept(g: Rules, s: State, step: Step, r: string)
    requires JobsOk(s) && StaleOk(s.runs, LocalOf(s, r)) && Next(g, s, step).Some?
    ensures StaleOk(Next(g, s, step).value.runs, LocalOf(Next(g, s, step).value, r))
  {
    RunsMove(g, s, step);
    if !((step.Act? || step.ClaimRun?) && step.runner == r) {
      OthersSame(g, s, step, r);
    } else if step.Act? && step.event.Claim? && step.event.reply.Unreconciled? {
      assert forall k :: 0 <= k < |step.event.reply.stale| ==> step.event.reply.stale[k] in step.event.reply.stale;
    }
  }

  lemma RemoteKept(g: Rules, s: State, step: Step, r: string)
    requires RemoteOk(s.remote, LocalOf(s, r)) && Next(g, s, step).Some?
    ensures RemoteOk(Next(g, s, step).value.remote, LocalOf(Next(g, s, step).value, r))
  {
    var l := LocalOf(s, r);
    RemoteGrows(g, s, step);
    if !l.Idle? { AncestorTransitive(l.ref, s.remote, Next(g, s, step).value.remote); }
    if PushedPlan(l).Some? { AncestorTransitive(PushedPlan(l).value.tip(), s.remote, Next(g, s, step).value.remote); }
  }

  lemma ViewsKept(g: Rules, s: State, step: Step)
    requires JobsOk(s) && ViewsOk(s) && Next(g, s, step).Some?
    ensures ViewsOk(Next(g, s, step).value)
  {
    forall r ensures ViewOk(Next(g, s, step).value, r) {
      assert ViewOk(s, r);
      StaleKept(g, s, step, r);
      RemoteKept(g, s, step, r);
    }
  }

  /**
   * An accepted push found the remote at exactly the base its run had stacked
   * on, and leaves exactly that base with the run's stack on top.
   */
  lemma AcceptedPush(g: Rules, s: State, r: string, tip: Commit, applied: bool)
    requires RunsOk(g, s) && JobsOk(s) && ViewsOk(s) && MadeOk(s)
    requires Next(g, s, Act(r, Push(tip, true), applied)).Some?
    ensures var l := LocalOf(s, r);
            && l.Job? && l.stage.Planned? && s.remote == l.ref == l.stage.plan.base
            && Next(g, s, Act(r, Push(tip, true), applied)).value.remote == tip == l.stage.plan.tip()
            && History(tip) == History(s.remote) + StackTargets(l.stage.plan.stack)
  {
    var l := LocalOf(s, r);
    var p := l.stage.plan;
    assert JobOk(s.runs, r, l) && RunOk(g, s.runs[l.run]) && ViewOk(s, r);
    NoResidue(g, r, p.base, p.stack);
    OwnStack(g, r, p.base, p.stack, s.remote);
    assert !MadeBy(s.remote, r);
    AncestorAntisymmetric(s.remote, l.ref);
  }

  lemma PushKeepsMade(g: Rules, s: State, r: string, tip: Commit, applied: bool)
    requires RunsOk(g, s) && JobsOk(s) && ViewsOk(s) && MadeOk(s)
    requires Next(g, s, Act(r, Push(tip, true), applied)).Some?
    ensures MadeOk(Next(g, s, Act(r, Push(tip, true), applied)).value)
  {
    forall x | MadeBy(tip, x) ensures PushedPlan(LocalOf(Next(g, s, Act(r, Push(tip, true), applied)).value, x)).Some? {
      if x != r { PushMakesOwn(g, s, r, tip, applied, x); }
    }
  }

  lemma PushMakesOwn(g: Rules, s: State, r: string, tip: Commit, applied: bool, x: string)
    requires RunsOk(g, s) && JobsOk(s) && ViewsOk(s) && MadeOk(s) && x != r && MadeBy(tip, x)
    requires Next(g, s, Act(r, Push(tip, true), applied)).Some?
    ensures MadeBy(s.remote, x)
  {
    var l := LocalOf(s, r);
    AcceptedPush(g, s, r, tip, applied);
    assert JobOk(s.runs, r, l) && RunOk(g, s.runs[l.run]);
    StackMaker(g, r, l.ref, l.stage.plan.stack, x);
  }

  /** Every step but an accepted push leaves who made the remote's commits as it was, and forgets no push. */
  lemma OnlyPushesMake(g: Rules, s: State, step: Step, x: string)
    requires Next(g, s, step).Some? && !(step.Act? && step.event.Push? && step.event.accepted)
    ensures var t := Next(g, s, step).value;
            (MadeBy(t.remote, x) <==> MadeBy(s.remote, x))
            && (PushedPlan(LocalOf(s, x)).Some? ==> PushedPlan(LocalOf(t, x)).Some?)
  {
  }

  lemma MadeKept(g: Rules, s: State, step: Step)
    requires RunsOk(g, s) && JobsOk(s) && ViewsOk(s) && MadeOk(s) && Next(g, s, step).Some?
    ensures MadeOk(Next(g, s, step).value)
  {
    if step.Act? && step.event.Push? && step.event.accepted {
      PushKeepsMade(g, s, step.runner, step.event.tip, step.applied);
    } else {
      forall x | MadeBy(Next(g, s, step).value.remote, x) ensures PushedPlan(LocalOf(Next(g, s, step).value, x)).Some? {
        OnlyPushesMake(g, s, step, x);
      }
    }
  }

  // ------------------------------------------------------------------- landed

  /** The tip of a recorded plan reaches the remote only through its own run's push. */
  lemma PlannedTip(g: Rules, s: State, q: string)
    requires RunsOk(g, s) && JobsOk(s) && ViewsOk(s) && MadeOk(s) && q in s.runs && s.runs[q].plan.Some?
    ensures var tip := s.runs[q].plan.value.tip();
            && (IsAncestor(tip, s.remote) <==> PushedPlan(LocalOf(s, s.runs[q].owner)) == s.runs[q].plan)
            && (IsAncestor(tip, s.remote) <==> MadeBy(s.remote, s.runs[q].owner))
  {
    var run := s.runs[q];
    assert RunOk(g, run);
    if IsAncestor(run.plan.value.tip(), s.remote) {
      AncestorMadeBy(run.plan.value.tip(), s.remote, run.owner);
    }
    if MadeBy(s.remote, run.owner) {
      var l := LocalOf(s, run.owner);
      assert JobOk(s.runs, run.owner, l) && ViewOk(s, run.owner);
      assert s.runs[l.run].owner == run.owner;
    }
  }

  /** Outcomes that say "landed" only for what the plan of run `q` maps. */
  predicate LandsPlanned(entries: seq<Entry>, plan: PushPlan, outcomes: seq<(string, Outcome)>) {
    && |outcomes| == |entries|
    && (forall k :: 0 <= k < |entries| ==> outcomes[k].0 == entries[k].id)
    && (forall k :: 0 <= k < |entries| && outcomes[k].1.Landed? ==>
          Lookup(plan.stack, entries[k].id) == Some(outcomes[k].1.mapping))
  }

  predicate SameRun(a: Run, b: Run) {
    b.owner == a.owner && b.entries == a.entries && b.plan == a.plan
  }

  /** Recording such outcomes for a run whose push was accepted keeps every "landed" record justified. */
  lemma CloseKeepsLanded(s: State, t: State, q: string, outcomes: seq<(string, Outcome)>)
    requires SlotsOk(s) && LandedOk(s) && q in s.runs && IsOpen(s.runs[q])
    requires forall p :: p in s.runs ==> p in t.runs && SameRun(s.runs[p], t.runs[p])
    requires forall p :: p in s.runs ==> PushedPlan(LocalOf(t, s.runs[p].owner)) == PushedPlan(LocalOf(s, s.runs[p].owner))
    requires t.slots == Settle(s.slots, q, outcomes)
    requires |outcomes| == |s.runs[q].entries|
    requires forall k :: 0 <= k < |outcomes| ==> outcomes[k].0 == s.runs[q].entries[k].id
    requires (exists k :: 0 <= k < |outcomes| && outcomes[k].1.Landed?) ==>
               && s.runs[q].plan.Some? && PushedPlan(LocalOf(s, s.runs[q].owner)) == s.runs[q].plan
               && LandsPlanned(s.runs[q].entries, s.runs[q].plan.value, outcomes)
    ensures LandedOk(t)
  {
    CloseSlots(s, t.slots, q, outcomes);
    forall id | id in t.slots ensures LandedSlot(t, id, t.slots[id]) {
      assert LandedSlot(s, id, s.slots[id]);
      assert SlotHeld(s.runs, id, s.slots[id]);
    }
  }

  /** A runner never forgets an accepted push, and its recorded plan stays. */
  lemma PushedStays(g: Rules, s: State, step: Step, q: string)
    requires JobsOk(s) && Next(g, s, step).Some? && q in s.runs && PushedPlan(LocalOf(s, s.runs[q].owner)).Some?
    ensures var t := Next(g, s, step).value;
            && PushedPlan(LocalOf(t, s.runs[q].owner)) == PushedPlan(LocalOf(s, s.runs[q].owner))
            && q in t.runs && SameRun(s.runs[q], t.runs[q])
  {
    RunsMove(g, s, step);
    assert RunMoves(step, s.runs[q], Next(g, s, step).value.runs[q]);
    if !((step.Act? || step.ClaimRun?) && step.runner == s.runs[q].owner) { OthersSame(g, s, step, s.runs[q].owner); }
  }

  /** Steps that record no new landing keep the old records justified. */
  lemma SameLandedKept(g: Rules, s: State, step: Step)
    requires JobsOk(s) && LandedOk(s) && Next(g, s, step).Some?
    requires var t := Next(g, s, step).value;
             forall id :: id in t.slots && t.slots[id].state.LandedBy? ==> id in s.slots && t.slots[id] == s.slots[id]
    ensures LandedOk(Next(g, s, step).value)
  {
    var t := Next(g, s, step).value;
    forall id | id in t.slots ensures LandedSlot(t, id, t.slots[id]) {
      if t.slots[id].state.LandedBy? {
        assert LandedSlot(s, id, s.slots[id]);
        PushedStays(g, s, step, s.slots[id].state.run);
      }
    }
  }

  /** A "pushed" verdict is always right: the interrupted run's push was accepted. */
  lemma PushedVerdict(g: Rules, s: State, r: string, q: string, checked: bool)
    requires RunsOk(g, s) && JobsOk(s) && ViewsOk(s) && MadeOk(s)
    requires LocalStep(g, r, LocalOf(s, r), Reconcile(q, checked, true)).Some?
    ensures q in s.runs && s.runs[q].plan.Some? && PushedPlan(LocalOf(s, s.runs[q].owner)) == s.runs[q].plan
  {
    var l := LocalOf(s, r);
    assert ViewOk(s, r);
    var x :| x in l.stale && x.run == q && IsAncestor(x.plan.tip(), l.ref);
    AncestorTransitive(x.plan.tip(), l.ref, s.remote);
    PlannedTip(g, s, q);
  }

  /** A verdict is what the check on the fetched history says, or "no" when it gave no answer. */
  lemma VerdictAsChecked(g: Rules, s: State, r: string, q: string, checked: bool, pushed: bool)
    requires ViewsOk(s) && LocalStep(g, r, LocalOf(s, r), Reconcile(q, checked, pushed)).Some?
    ensures q in s.runs && s.runs[q].plan.Some?
    ensures pushed == (checked && IsAncestor(s.runs[q].plan.value.tip(), LocalOf(s, r).ref))
  {
    assert ViewOk(s, r);
  }

  /** What a recorded verdict on run `q` changes: the run is settled and its entries get the verdict. */
  ghost predicate Reconciled(s: State, t: State, q: string, pushed: bool) {
    && q in s.runs && IsUnreconciled(s.runs[q]) && s.runs[q].plan.Some?
    && t.runs == s.runs[q := s.runs[q].(state := Abandoned(true))]
    && t.slots == Settle(s.slots, q, Verdicts(s.runs[q].entries, s.runs[q].plan.value, pushed))
    && forall x :: LocalOf(t, x) == LocalOf(s, x)
  }

  lemma ReconcileEffect(g: Rules, s: State, r: string, q: string, checked: bool, pushed: bool)
    requires Next(g, s, Act(r, Reconcile(q, checked, pushed), true)).Some?
    ensures Reconciled(s, Next(g, s, Act(r, Reconcile(q, checked, pushed), true)).value, q, pushed)
  {
  }

  lemma ReconciledKeepsLanded(s: State, t: State, q: string, pushed: bool)
    requires SlotsOk(s) && LandedOk(s) && Reconciled(s, t, q, pushed)
    requires pushed ==> PushedPlan(LocalOf(s, s.runs[q].owner)) == s.runs[q].plan
    ensures LandedOk(t)
  {
    CloseKeepsLanded(s, t, q, Verdicts(s.runs[q].entries, s.runs[q].plan.value, pushed));
  }

  lemma ReconcileKeepsLanded(g: Rules, s: State, r: string, q: string, checked: bool, pushed: bool)
    requires Inv(g, s) && Next(g, s, Act(r, Reconcile(q, checked, pushed), true)).Some?
    ensures LandedOk(Next(g, s, Act(r, Reconcile(q, checked, pushed), true)).value)
  {
    if pushed { PushedVerdict(g, s, r, q, checked); }
    ReconcileEffect(g, s, r, q, checked, pushed);
    ReconciledKeepsLanded(s, Next(g, s, Act(r, Reconcile(q, checked, pushed), true)).value, q, pushed);
  }

  lemma FinishKeepsLanded(g: Rules, s: State, r: string, report: Report, acked: bool)
    requires Inv(g, s) && Next(g, s, Act(r, Finish(report, acked), true)).Some?
    ensures LandedOk(Next(g, s, Act(r, Finish(report, acked), true)).value)
  {
    var t := Next(g, s, Act(r, Finish(report, acked), true)).value;
    var l := LocalOf(s, r);
    assert JobOk(s.runs, r, l);
    CloseKeepsLanded(s, t, l.run, report.outcomes);
  }

  lemma AbandonKeepsLanded(g: Rules, s: State, q: string)
    requires Inv(g, s) && Next(g, s, Abandon(q)).Some?
    ensures LandedOk(Next(g, s, Abandon(q)).value)
  {
    if s.runs[q].plan.None? {
      CloseKeepsLanded(s, Next(g, s, Abandon(q)).value, q, Requeued(s.runs[q].entries));
    } else {
      SameLandedKept(g, s, Abandon(q));
    }
  }

  lemma LandedKept(g: Rules, s: State, step: Step)
    requires Inv(g, s) && Next(g, s, step).Some?
    ensures LandedOk(Next(g, s, step).value)
  {
    if step.Abandon? {
      AbandonKeepsLanded(g, s, step.run);
    } else if step.Act? && step.applied && step.event.Reconcile? {
      ReconcileKeepsLanded(g, s, step.runner, step.event.run, step.event.checked, step.event.pushed);
    } else if step.Act? && step.applied && step.event.Finish? {
      FinishKeepsLanded(g, s, step.runner, step.event.report, step.event.acked);
    } else {
      SameLandedKept(g, s, step);
    }
  }

  // -------------------------------------------------------------- whole runs

  /** Every step keeps the whole invariant. */
  lemma InvKept(g: Rules, s: State, step: Step)
    requires Inv(g, s) && Next(g, s, step).Some?
    ensures Inv(g, Next(g, s, step).value)
  {
    SlotsKept(g, s, step);
    RunsKept(g, s, step);
    JobsKept(g, s, step);
    ViewsKept(g, s, step);
    MadeKept(g, s, step);
    LandedKept(g, s, step);
  }

  lemma {:induction false} InvAlways(g: Rules, s0: State, steps: seq<Step>)
    requires Initial(s0) && After(g, s0, steps).Some?
    ensures Inv(g, After(g, s0, steps).value)
  {
    if steps != [] {
      InvAlways(g, s0, Init(steps));
      InvKept(g, After(g, s0, Init(steps)).value, Last(steps));
    }
  }
}
