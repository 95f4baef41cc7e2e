/**
 * Theorems about whole histories of the landing queue: what a "landed" record
 * means, how the remote branch moves, when the verdict on an interrupted run is
 * right, and that with right verdicts nothing is lost or landed twice.
 */
module QueueHistories {
  import opened Options
  import opened Git
  import opened Queue
  import opened QueueSafety

  // -------------------------------------------------- what "landed" means

  lemma {:induction false} StackItem(g: Rules, me: string, base: Commit, stack: seq<Stacked>, i: nat)
    requires StackOk(g, me, base, stack) && i < |stack|
    ensures PicksOk(g, me, Tip(base, stack[..i]), stack[i].entry.commits, stack[i].mapping)
    ensures stack[i].mapping != [] && Head(Tip(base, stack[..i]), stack[i].mapping) == Tip(base, stack[..i + 1])
    ensures IsAncestor(Tip(base, stack[..i + 1]), Tip(base, stack))
  {
    StackPrefix(g, me, base, stack, i + 1);
    assert Init(stack[..i + 1]) == stack[..i];
  }

  /**
   * Crash-safe landing. In every history, crashes and concurrent runs and
   * outside pushes included, an entry on record as landed is on the remote
   * branch whole: its recorded commits stand there in a row, one per submitted
   * commit and in order, each the cherry-pick of that commit onto the one
   * before it.
   */
  lemma LandedIsOnRemote(g: Rules, s0: State, steps: seq<Step>, id: string)
    requires Initial(s0) && After(g, s0, steps).Some?
    requires var s := After(g, s0, steps).value; id in s.slots && s.slots[id].state.LandedBy?
    ensures var s := After(g, s0, steps).value;
            var mapping := s.slots[id].state.mapping;
            && |mapping| == |s.slots[id].entry.commits| > 0
            && exists start, me :: && PicksOk(g, me, start, s.slots[id].entry.commits, mapping)
                                   && History(start) + TargetsOf(mapping) <= History(s.remote)
  {
    var s := After(g, s0, steps).value;
    InvAlways(g, s0, steps);
    assert LandedSlot(s, id, s.slots[id]);
    var run := s.runs[s.slots[id].state.run];
    var p := run.plan.value;
    assert RunOk(g, run) && RunSlots(s.slots, s.slots[id].state.run, run) && ViewOk(s, run.owner);
    LookupItem(p.stack, id);
    var i :| 0 <= i < |p.stack| && p.stack[i].entry.id == id && p.stack[i].mapping == s.slots[id].state.mapping;
    assert p.stack[i].entry in run.entries;
    StackItem(g, run.owner, p.base, p.stack, i);
    var start := Tip(p.base, p.stack[..i]);
    PicksHistory(g, run.owner, start, p.stack[i].entry.commits, p.stack[i].mapping);
    AncestorTransitive(Tip(p.base, p.stack[..i + 1]), p.tip(), s.remote);
    AncestorIsPrefix(Tip(p.base, p.stack[..i + 1]), s.remote);
  }

  // ------------------------------------------------------ the remote branch

  lemma {:induction false} EarlierState(g: Rules, s0: State, steps: seq<Step>, k: nat)
    requires k <= |steps| && After(g, s0, steps).Some?
    ensures After(g, s0, steps[..k]).Some?
    ensures k < |steps| ==> After(g, s0, steps[..k + 1]) == Next(g, After(g, s0, steps[..k]).value, steps[k])
    ensures IsAncestor(After(g, s0, steps[..k]).value.remote, After(g, s0, steps).value.remote)
  {
    if k == |steps| {
      assert steps[..k] == steps;
    } else {
      var n := |steps| - 1;
      EarlierState(g, s0, Init(steps), k);
      assert Init(steps)[..k] == steps[..k];
      if k < n { assert Init(steps)[..k + 1] == steps[..k + 1]; } else { assert steps[..k + 1] == steps; }
      RemoteGrows(g, After(g, s0, Init(steps)).value, Last(steps));
      AncestorTransitive(After(g, s0, steps[..k]).value.remote, After(g, s0, Init(steps)).value.remote,
                         After(g, s0, steps).value.remote);
    }
  }

  /** Whatever runs overlap, the remote history only ever grows at its end. */
  lemma HistoryOnlyGrows(g: Rules, s0: State, steps: seq<Step>, k: nat)
    requires k <= |steps| && After(g, s0, steps).Some?
    ensures After(g, s0, steps[..k]).Some?
    ensures History(After(g, s0, steps[..k]).value.remote) <= History(After(g, s0, steps).value.remote)
  {
    EarlierState(g, s0, steps, k);
    AncestorIsPrefix(After(g, s0, steps[..k]).value.remote, After(g, s0, steps).value.remote);
  }

  /**
   * In every history, an accepted push found the branch at exactly the commit
   * its run had fetched and stacked on, and added exactly that run's stack.
   */
  lemma AcceptedPushIsExact(g: Rules, s0: State, steps: seq<Step>, r: string, tip: Commit, applied: bool)
    requires Initial(s0) && steps != [] && Last(steps) == Act(r, Push(tip, true), applied)
    requires After(g, s0, steps).Some?
    ensures var s, t := After(g, s0, Init(steps)).value, After(g, s0, steps).value;
            && LocalOf(s, r).Job? && s.remote == LocalOf(s, r).ref
            && PushedPlan(LocalOf(t, r)).Some?
            && History(t.remote) == History(s.remote) + StackTargets(PushedPlan(LocalOf(t, r)).value.stack)
  {
    InvAlways(g, s0, Init(steps));
    AcceptedPush(g, After(g, s0, Init(steps)).value, r, tip, applied);
  }

  // ------------------------------------------- when a step must have happened

  /** A runner that has fetched did so at one step, and still goes by what it fetched then. */
  lemma {:induction false} FetchedAt(g: Rules, s0: State, steps: seq<Step>, r: string) returns (i: nat, ref: Commit, a: bool)
    requires Initial(s0) && After(g, s0, steps).Some? && !LocalOf(After(g, s0, steps).value, r).Idle?
    ensures i < |steps| && steps[i] == Act(r, Fetch(ref), a)
    ensures LocalOf(After(g, s0, steps).value, r).ref == ref
  {
    if !LocalOf(After(g, s0, Init(steps)).value, r).Idle? {
      i, ref, a := FetchedAt(g, s0, Init(steps), r);
    } else {
      i, ref, a := |steps| - 1, Last(steps).event.ref, Last(steps).applied;
    }
  }

  lemma {:induction false} RefStays(g: Rules, s0: State, steps: seq<Step>, r: string, i: nat)
    requires After(g, s0, steps).Some? && i < |steps| && steps[i].Act? && steps[i].runner == r && steps[i].event.Fetch?
    ensures var l := LocalOf(After(g, s0, steps).value, r); !l.Idle? && l.ref == steps[i].event.ref
    ensures After(g, s0, steps[..i]).Some? && After(g, s0, steps[..i]).value.remote == steps[i].event.ref
  {
    if i == |steps| - 1 {
      assert steps[..i] == Init(steps);
    } else {
      RefStays(g, s0, Init(steps), r, i);
      assert Init(steps)[..i] == steps[..i];
      if !((Last(steps).Act? || Last(steps).ClaimRun?) && Last(steps).runner == r) {
        OthersSame(g, After(g, s0, Init(steps)).value, Last(steps), r);
      }
    }
  }

  /** Some step of the history is an accepted push by `r`. */
  lemma {:induction false} PushedAt(g: Rules, s0: State, steps: seq<Step>, r: string) returns (j: nat)
    requires Initial(s0) && After(g, s0, steps).Some? && PushedPlan(LocalOf(After(g, s0, steps).value, r)).Some?
    ensures j < |steps| && IsPush(steps[j], r)
  {
    if PushedPlan(LocalOf(After(g, s0, Init(steps)).value, r)).Some? {
      j := PushedAt(g, s0, Init(steps), r);
    } else {
      j := |steps| - 1;
    }
  }

  predicate IsPush(step: Step, r: string) {
    step.Act? && step.runner == r && step.event.Push? && step.event.accepted
  }

  /** A runner pushes at most once: before its accepted push it has not pushed, and afterwards it has. */
  lemma PushIsFirst(g: Rules, s0: State, steps: seq<Step>, r: string, j: nat)
    requires Initial(s0) && After(g, s0, steps).Some? && j < |steps| && IsPush(steps[j], r)
    ensures After(g, s0, steps[..j]).Some? && PushedPlan(LocalOf(After(g, s0, steps[..j]).value, r)).None?
    ensures !MadeBy(After(g, s0, steps[..j]).value.remote, r)
    ensures MadeBy(After(g, s0, steps).value.remote, r)
  {
    EarlierState(g, s0, steps, j);
    EarlierState(g, s0, steps, j + 1);
    var s := After(g, s0, steps[..j]).value;
    InvAlways(g, s0, steps[..j]);
    AcceptedPush(g, s, r, steps[j].event.tip, steps[j].applied);
    var l := LocalOf(s, r);
    assert JobOk(s.runs, r, l) && RunOk(g, s.runs[l.run]);
    AncestorMadeBy(After(g, s0, steps[..j + 1]).value.remote, After(g, s0, steps).value.remote, r);
  }

  // ------------------------------------------------ the verdict on a dead run

  /** Runner `r` pushed after step `i`. */
  predicate PushedAfter(steps: seq<Step>, i: nat, r: string) {
    exists j :: i < j < |steps| && IsPush(steps[j], r)
  }

  lemma LastPush(steps: seq<Step>, i: nat, r: string)
    requires i < |steps| - 1 && IsPush(Last(steps), r)
    ensures PushedAfter(steps, i, r)
  {
    assert IsPush(steps[|steps| - 1], r);
  }

  lemma PushedAfterGrows(steps: seq<Step>, i: nat, r: string)
    requires steps != []
    ensures PushedAfter(Init(steps), i, r) ==> PushedAfter(steps, i, r)
  {
    if j :| i < j < |Init(steps)| && IsPush(Init(steps)[j], r) { assert IsPush(steps[j], r); }
  }

  /**
   * When a runner asks whether an interrupted run's tip is an ancestor of what
   * it fetched at step `i`, the answer is right about the remote as it is now
   * exactly when the interrupted run has not pushed since that fetch. A
   * "pushed" answer is right in any case.
   */
  lemma VerdictIsRightIff(g: Rules, s0: State, steps: seq<Step>, r: string, i: nat, q: string)
    requires Initial(s0) && After(g, s0, steps).Some?
    requires i < |steps| && steps[i].Act? && steps[i].runner == r && steps[i].event.Fetch?
    requires var s := After(g, s0, steps).value; q in s.runs && s.runs[q].plan.Some?
    ensures var s := After(g, s0, steps).value;
            var tip, ref := PlannedBy(s, q), steps[i].event.ref;
            && !LocalOf(s, r).Idle? && LocalOf(s, r).ref == ref
            && (IsAncestor(tip, ref) == IsAncestor(tip, s.remote) <==> !PushedAfter(steps, i, s.runs[q].owner))
            && (IsAncestor(tip, ref) ==> IsAncestor(tip, s.remote))
  {
    var owner := After(g, s0, steps).value.runs[q].owner;
    RefStays(g, s0, steps, r, i);
    YesIsRight(g, s0, steps, i, q);
    if PushedAfter(steps, i, owner) {
      LatePushIsUnseen(g, s0, steps, i, q);
    } else {
      EarlyPushIsSeen(g, s0, steps, i, q);
    }
  }

  /** The tip that run `q` planned. */
  function PlannedBy(s: State, q: string): Commit
    requires q in s.runs && s.runs[q].plan.Some?
  {
    s.runs[q].plan.value.tip()
  }

  /** What was on the remote before step `i` is on it now. */
  lemma YesIsRight(g: Rules, s0: State, steps: seq<Step>, i: nat, q: string)
    requires After(g, s0, steps).Some? && i <= |steps|
    requires var s := After(g, s0, steps).value; q in s.runs && s.runs[q].plan.Some?
    ensures After(g, s0, steps[..i]).Some?
    ensures var s := After(g, s0, steps).value;
            IsAncestor(PlannedBy(s, q), After(g, s0, steps[..i]).value.remote) ==> IsAncestor(PlannedBy(s, q), s.remote)
  {
    EarlierState(g, s0, steps, i);
    var s := After(g, s0, steps).value;
    var earlier := After(g, s0, steps[..i]).value.remote;
    if IsAncestor(PlannedBy(s, q), earlier) { AncestorTransitive(PlannedBy(s, q), earlier, s.remote); }
  }

  /** A run that pushes after step `i` has its tip on the remote now, but not before step `i`. */
  lemma LatePushIsUnseen(g: Rules, s0: State, steps: seq<Step>, i: nat, q: string)
    requires Initial(s0) && After(g, s0, steps).Some? && i < |steps|
    requires var s := After(g, s0, steps).value; q in s.runs && s.runs[q].plan.Some? && PushedAfter(steps, i, s.runs[q].owner)
    ensures After(g, s0, steps[..i]).Some?
    ensures var s := After(g, s0, steps).value;
            IsAncestor(PlannedBy(s, q), s.remote) && !IsAncestor(PlannedBy(s, q), After(g, s0, steps[..i]).value.remote)
  {
    var s := After(g, s0, steps).value;
    var owner := s.runs[q].owner;
    EarlierState(g, s0, steps, i);
    NotYetMade(g, s0, steps, i, owner);
    InvAlways(g, s0, steps);
    PlannedTip(g, s, q);
    TipMadeByOwner(g, s, q);
    var earlier := After(g, s0, steps[..i]).value.remote;
    if IsAncestor(PlannedBy(s, q), earlier) { AncestorMadeBy(PlannedBy(s, q), earlier, owner); }
  }

  lemma TipMadeByOwner(g: Rules, s: State, q: string)
    requires RunsOk(g, s) && q in s.runs && s.runs[q].plan.Some?
    ensures MadeBy(PlannedBy(s, q), s.runs[q].owner)
  {
    assert RunOk(g, s.runs[q]);
  }

  /** A runner that pushes after step `i` has made nothing of what was on the remote before it, but of what is there now. */
  lemma NotYetMade(g: Rules, s0: State, steps: seq<Step>, i: nat, r: string)
    requires Initial(s0) && After(g, s0, steps).Some? && i < |steps| && PushedAfter(steps, i, r)
    ensures After(g, s0, steps[..i]).Some?
    ensures !MadeBy(After(g, s0, steps[..i]).value.remote, r) && MadeBy(After(g, s0, steps).value.remote, r)
  {
    var j :| i < j < |steps| && IsPush(steps[j], r);
    PushIsFirst(g, s0, steps, r, j);
    EarlierState(g, s0, steps[..j], i);
    assert steps[..j][..i] == steps[..i];
    var earlier := After(g, s0, steps[..i]).value.remote;
    if MadeBy(earlier, r) { AncestorMadeBy(earlier, After(g, s0, steps[..j]).value.remote, r); }
  }

  /** A run's tip that is on the remote, and was not pushed after step `i`, was there before step `i`. */
  lemma EarlyPushIsSeen(g: Rules, s0: State, steps: seq<Step>, i: nat, q: string)
    requires Initial(s0) && After(g, s0, steps).Some? && i < |steps| && steps[i].Act? && steps[i].event.Fetch?
    requires var s := After(g, s0, steps).value; q in s.runs && s.runs[q].plan.Some? && !PushedAfter(steps, i, s.runs[q].owner)
    ensures After(g, s0, steps[..i]).Some?
    ensures var s := After(g, s0, steps).value;
            IsAncestor(PlannedBy(s, q), s.remote) ==> IsAncestor(PlannedBy(s, q), After(g, s0, steps[..i]).value.remote)
  {
    var s := After(g, s0, steps).value;
    EarlierState(g, s0, steps, i);
    InvAlways(g, s0, steps);
    PlannedTip(g, s, q);
    if IsAncestor(PlannedBy(s, q), s.remote) {
      var j := PushedAt(g, s0, steps, s.runs[q].owner);
      PushedBefore(g, s0, steps, i, j, s.runs[q].owner);
    }
  }

  /** After its accepted push the runner's tip is the remote's. */
  lemma PushIsDone(g: Rules, s0: State, steps: seq<Step>, j: nat, r: string)
    requires Initial(s0) && After(g, s0, steps).Some? && j < |steps| && IsPush(steps[j], r)
    ensures After(g, s0, steps[..j + 1]).Some?
    ensures var s := After(g, s0, steps[..j + 1]).value;
            PushedPlan(LocalOf(s, r)).Some? && PushedPlan(LocalOf(s, r)).value.tip() == s.remote
  {
    EarlierState(g, s0, steps, j);
    EarlierState(g, s0, steps, j + 1);
    PushStep(g, After(g, s0, steps[..j]).value, steps[j], r);
  }

  lemma PushStep(g: Rules, s: State, step: Step, r: string)
    requires IsPush(step, r) && Next(g, s, step).Some?
    ensures var t := Next(g, s, step).value;
            PushedPlan(LocalOf(t, r)).Some? && PushedPlan(LocalOf(t, r)).value.tip() == t.remote
  {
  }

  lemma RemoteBetween(g: Rules, s0: State, steps: seq<Step>, i: nat, j: nat)
    requires After(g, s0, steps).Some? && j <= i <= |steps|
    ensures After(g, s0, steps[..i]).Some? && After(g, s0, steps[..j]).Some?
    ensures IsAncestor(After(g, s0, steps[..j]).value.remote, After(g, s0, steps[..i]).value.remote)
  {
    EarlierState(g, s0, steps, i);
    EarlierState(g, s0, steps[..i], j);
    assert steps[..i][..j] == steps[..j];
  }

  /** A push before step `i` is in what is fetched at step `i`. */
  lemma PushedBefore(g: Rules, s0: State, steps: seq<Step>, i: nat, j: nat, r: string)
    requires Initial(s0) && After(g, s0, steps).Some? && j < i < |steps| && IsPush(steps[j], r)
    ensures After(g, s0, steps[..i]).Some?
    ensures PushedPlan(LocalOf(After(g, s0, steps).value, r)).Some?
    ensures IsAncestor(PushedPlan(LocalOf(After(g, s0, steps).value, r)).value.tip(), After(g, s0, steps[..i]).value.remote)
  {
    PushIsDone(g, s0, steps, j, r);
    RemoteBetween(g, s0, steps, i, j + 1);
    PushedForGood(g, s0, steps, j + 1, r);
  }

  lemma {:induction false} PushedForGood(g: Rules, s0: State, steps: seq<Step>, k: nat, r: string)
    requires Initial(s0) && After(g, s0, steps).Some? && k <= |steps| && After(g, s0, steps[..k]).Some?
    requires PushedPlan(LocalOf(After(g, s0, steps[..k]).value, r)).Some?
    ensures PushedPlan(LocalOf(After(g, s0, steps).value, r)) == PushedPlan(LocalOf(After(g, s0, steps[..k]).value, r))
  {
    if k == |steps| {
      assert steps[..k] == steps;
    } else {
      assert Init(steps)[..k] == steps[..k];
      PushedForGood(g, s0, Init(steps), k, r);
      var s := After(g, s0, Init(steps)).value;
      InvAlways(g, s0, Init(steps));
      assert JobOk(s.runs, r, LocalOf(s, r));
      PushedStays(g, s, Last(steps), LocalOf(s, r).run);
    }
  }

  // ------------------------------------------- nothing is lost or landed twice

  /**
   * The entries of an accepted push are either still held by its run, which is
   * then open, or on record as landed by it.
   */
  predicate Credited(s: State, q: string)
    requires q in s.runs
  {
    var pushed := PushedPlan(LocalOf(s, s.runs[q].owner));
    pushed.Some? && !IsOpen(s.runs[q]) ==>
      forall k :: 0 <= k < |s.runs[q].entries| && Lookup(pushed.value.stack, s.runs[q].entries[k].id).Some? ==>
        && s.runs[q].entries[k].id in s.slots
        && s.slots[s.runs[q].entries[k].id].state ==
             LandedBy(q, Lookup(pushed.value.stack, s.runs[q].entries[k].id).value)
  }

  ghost predicate AllCredited(s: State) {
    forall q :: q in s.runs ==> Credited(s, q)
  }

  /** A run is not told "not pushed" after it pushed, and does not push after it was told so. */
  predicate Timely(s: State, step: Step) {
    step.Act? ==>
      && (step.event.Reconcile? && step.applied && !step.event.pushed && step.event.run in s.runs ==>
            PushedPlan(LocalOf(s, s.runs[step.event.run].owner)).None?)
      && (IsPush(step, step.runner) && LocalOf(s, step.runner).Job? && LocalOf(s, step.runner).run in s.runs ==>
            s.runs[LocalOf(s, step.runner).run].state != Abandoned(true))
  }

  /** Closing run `q` with outcomes that land exactly its pushed entries, if it pushed, credits it. */
  lemma CloseCredits(s: State, t: State, q: string, p: string, outcomes: seq<(string, Outcome)>)
    requires SlotsOk(s) && AllCredited(s) && q in s.runs && IsOpen(s.runs[q])
    requires |outcomes| == |s.runs[q].entries|
    requires forall k :: 0 <= k < |outcomes| ==> outcomes[k].0 == s.runs[q].entries[k].id
    requires t.slots == Settle(s.slots, q, outcomes)
    requires p in s.runs && p in t.runs && SameRun(s.runs[p], t.runs[p]) && (p != q ==> t.runs[p] == s.runs[p])
    requires PushedPlan(LocalOf(t, s.runs[p].owner)) == PushedPlan(LocalOf(s, s.runs[p].owner))
    requires var pushed := PushedPlan(LocalOf(s, s.runs[q].owner));
             pushed.Some? ==> forall k :: 0 <= k < |outcomes| && Lookup(pushed.value.stack, outcomes[k].0).Some? ==>
               outcomes[k].1 == Landed(Lookup(pushed.value.stack, outcomes[k].0).value)
    ensures Credited(t, p)
  {
    CloseSlots(s, t.slots, q, outcomes);
    assert Credited(s, p);
  }

  lemma FinishCredits(g: Rules, s: State, r: string, report: Report, acked: bool)
    requires Inv(g, s) && AllCredited(s) && Next(g, s, Act(r, Finish(report, acked), true)).Some?
    ensures AllCredited(Next(g, s, Act(r, Finish(report, acked), true)).value)
  {
    var t := Next(g, s, Act(r, Finish(report, acked), true)).value;
    var l := LocalOf(s, r);
    assert JobOk(s.runs, r, l);
    forall p | p in t.runs ensures Credited(t, p) {
      CloseCredits(s, t, l.run, p, report.outcomes);
    }
  }

  lemma ReconciledCredits(s: State, t: State, q: string, p: string, pushed: bool)
    requires SlotsOk(s) && AllCredited(s) && Reconciled(s, t, q, pushed) && p in t.runs
    requires PushedPlan(LocalOf(s, s.runs[q].owner)).Some? ==> pushed && PushedPlan(LocalOf(s, s.runs[q].owner)) == s.runs[q].plan
    ensures Credited(t, p)
  {
    CloseCredits(s, t, q, p, Verdicts(s.runs[q].entries, s.runs[q].plan.value, pushed));
  }

  lemma ReconcileCredits(g: Rules, s: State, r: string, q: string, checked: bool, pushed: bool)
    requires Inv(g, s) && AllCredited(s) && Timely(s, Act(r, Reconcile(q, checked, pushed), true))
    requires Next(g, s, Act(r, Reconcile(q, checked, pushed), true)).Some?
    ensures AllCredited(Next(g, s, Act(r, Reconcile(q, checked, pushed), true)).value)
  {
    var t := Next(g, s, Act(r, Reconcile(q, checked, pushed), true)).value;
    if pushed { PushedVerdict(g, s, r, q, checked); }
    ReconcileEffect(g, s, r, q, checked, pushed);
    forall p | p in t.runs ensures Credited(t, p) {
      ReconciledCredits(s, t, q, p, pushed);
    }
  }

  lemma AbandonCredits(g: Rules, s: State, q: string)
    requires Inv(g, s) && AllCredited(s) && Next(g, s, Abandon(q)).Some?
    ensures AllCredited(Next(g, s, Abandon(q)).value)
  {
    var t := Next(g, s, Abandon(q)).value;
    assert JobOk(s.runs, s.runs[q].owner, LocalOf(s, s.runs[q].owner));
    forall p | p in t.runs ensures Credited(t, p) {
      assert Credited(s, p);
      if s.runs[q].plan.None? {
        UnplannedNotPushed(g, s, q);
        CloseCredits(s, t, q, p, Requeued(s.runs[q].entries));
      }
    }
  }

  /** A run without a recorded plan has not pushed. */
  lemma UnplannedNotPushed(g: Rules, s: State, q: string)
    requires RunsOk(g, s) && JobsOk(s) && q in s.runs && s.runs[q].plan.None?
    ensures PushedPlan(LocalOf(s, s.runs[q].owner)).None?
  {
    var l := LocalOf(s, s.runs[q].owner);
    assert JobOk(s.runs, s.runs[q].owner, l);
    if l.Job? { assert s.runs[l.run].owner == s.runs[q].owner; }
  }

  /** Steps that neither abandon a run nor settle one. */
  predicate ClosesNothing(step: Step) {
    !step.Abandon? && (step.Act? && step.applied ==> !step.event.Reconcile? && !step.event.Finish?)
  }

  lemma LandedSlotsStay(g: Rules, s: State, step: Step)
    requires ClosesNothing(step) && Next(g, s, step).Some?
    ensures var t := Next(g, s, step).value;
            && (forall id :: id in s.slots && s.slots[id].state.LandedBy? ==> id in t.slots && t.slots[id] == s.slots[id])
            && (forall q :: q in s.runs ==> q in t.runs && t.runs[q].state == s.runs[q].state)
  {
  }

  /** A run whose push is accepted in time is open. */
  lemma PushingRunIsOpen(g: Rules, s: State, step: Step, q: string)
    requires Inv(g, s) && Timely(s, step) && q in s.runs && IsPush(step, s.runs[q].owner) && Next(g, s, step).Some?
    ensures q in Next(g, s, step).value.runs && IsOpen(Next(g, s, step).value.runs[q])
  {
    var l := LocalOf(s, s.runs[q].owner);
    assert JobOk(s.runs, s.runs[q].owner, l);
    assert s.runs[l.run].owner == s.runs[q].owner;
  }

  lemma OnlyPushPushes(g: Rules, s: State, step: Step, r: string)
    requires Next(g, s, step).Some? && PushedPlan(LocalOf(s, r)).None? && !IsPush(step, r)
    ensures PushedPlan(LocalOf(Next(g, s, step).value, r)).None?
  {
  }

  lemma OtherStepCredits(g: Rules, s: State, step: Step, q: string)
    requires Inv(g, s) && AllCredited(s) && Timely(s, step) && ClosesNothing(step) && Next(g, s, step).Some?
    requires q in Next(g, s, step).value.runs
    ensures Credited(Next(g, s, step).value, q)
  {
    LandedSlotsStay(g, s, step);
    RunsMove(g, s, step);
    if q in s.runs {
      assert Credited(s, q);
      if PushedPlan(LocalOf(s, s.runs[q].owner)).Some? {
        PushedStays(g, s, step, q);
      } else if IsPush(step, s.runs[q].owner) {
        PushingRunIsOpen(g, s, step, q);
      } else {
        OnlyPushPushes(g, s, step, s.runs[q].owner);
      }
    }
  }

  lemma CreditedKept(g: Rules, s: State, step: Step)
    requires Inv(g, s) && AllCredited(s) && Timely(s, step) && Next(g, s, step).Some?
    ensures AllCredited(Next(g, s, step).value)
  {
    if step.Abandon? {
      AbandonCredits(g, s, step.run);
    } else if step.Act? && step.applied && step.event.Reconcile? {
      ReconcileCredits(g, s, step.runner, step.event.run, step.event.checked, step.event.pushed);
    } else if step.Act? && step.applied && step.event.Finish? {
      FinishCredits(g, s, step.runner, step.event.report, step.event.acked);
    } else {
      forall q | q in Next(g, s, step).value.runs ensures Credited(Next(g, s, step).value, q) {
        OtherStepCredits(g, s, step, q);
      }
    }
  }

  // The condition on a history, in terms of its steps only.

  predicate IsFetch(step: Step, r: string) {
    step.Act? && step.runner == r && step.event.Fetch?
  }

  predicate IsVerdict(step: Step, q: string) {
    step.Act? && step.event.Reconcile? && step.applied && step.event.run == q
  }

  /** Runner `r` pushes at some step. */
  predicate Pushes(steps: seq<Step>, r: string) {
    exists j :: 0 <= j < |steps| && IsPush(steps[j], r)
  }

  /** No interrupted run pushes after the fetch of a runner that settles it. */
  ghost predicate NoLatePush(s: State, steps: seq<Step>) {
    forall i, k, q :: 0 <= i < k < |steps| && q in s.runs && IsVerdict(steps[k], q) && IsFetch(steps[i], steps[k].runner) ==>
      !PushedAfter(steps, i, s.runs[q].owner)
  }

  /** No run that pushes is settled by a check that Git did not answer. */
  predicate NoBlindVerdict(s: State, steps: seq<Step>) {
    forall k, q :: 0 <= k < |steps| && q in s.runs && IsVerdict(steps[k], q) && !steps[k].event.checked ==>
      !Pushes(steps, s.runs[q].owner)
  }

  /** Every settled run was settled in the light of all it ever pushed. */
  ghost predicate SettledInLight(s: State, steps: seq<Step>) {
    NoLatePush(s, steps) && NoBlindVerdict(s, steps)
  }

  lemma OnlyVerdictReconciles(g: Rules, s: State, step: Step, q: string)
    requires JobsOk(s) && Next(g, s, step).Some? && q in Next(g, s, step).value.runs
    requires Next(g, s, step).value.runs[q].state == Abandoned(true)
    requires !(q in s.runs && s.runs[q].state == Abandoned(true))
    ensures IsVerdict(step, q)
  {
    if step.Act? { assert JobOk(s.runs, step.runner, LocalOf(s, step.runner)); }
  }

  /** A run marked reconciled got its verdict at some step. */
  lemma {:induction false} ReconciledAt(g: Rules, s0: State, steps: seq<Step>, q: string) returns (k: nat)
    requires Initial(s0) && After(g, s0, steps).Some?
    requires q in After(g, s0, steps).value.runs && After(g, s0, steps).value.runs[q].state == Abandoned(true)
    ensures k < |steps| && IsVerdict(steps[k], q)
  {
    var s := After(g, s0, Init(steps)).value;
    InvAlways(g, s0, Init(steps));
    if q in s.runs && s.runs[q].state == Abandoned(true) {
      k := ReconciledAt(g, s0, Init(steps), q);
    } else {
      OnlyVerdictReconciles(g, s, Last(steps), q);
      k := |steps| - 1;
    }
  }

  /** A verdict comes from a runner that fetched before. */
  lemma FetchBeforeVerdict(g: Rules, s0: State, steps: seq<Step>, k: nat, q: string) returns (i: nat)
    requires Initial(s0) && After(g, s0, steps).Some? && k < |steps| && IsVerdict(steps[k], q)
    ensures i < k && IsFetch(steps[i], steps[k].runner)
  {
    EarlierState(g, s0, steps, k);
    EarlierState(g, s0, steps, k + 1);
    var ref, a;
    i, ref, a := FetchedAt(g, s0, steps[..k], steps[k].runner);
  }

  lemma OwnerStays(g: Rules, s0: State, steps: seq<Step>, q: string)
    requires Initial(s0) && steps != [] && After(g, s0, steps).Some? && q in After(g, s0, Init(steps)).value.runs
    ensures q in After(g, s0, steps).value.runs
    ensures After(g, s0, steps).value.runs[q].owner == After(g, s0, Init(steps)).value.runs[q].owner
  {
    InvAlways(g, s0, Init(steps));
    RunsMove(g, After(g, s0, Init(steps)).value, Last(steps));
  }

  /** In a history without late pushes, a run that was already told its verdict does not push. */
  lemma NoPushAfterVerdict(g: Rules, s0: State, steps: seq<Step>, q: string)
    requires Initial(s0) && steps != [] && After(g, s0, steps).Some? && NoLatePush(After(g, s0, steps).value, steps)
    requires var s := After(g, s0, Init(steps)).value; q in s.runs && IsPush(Last(steps), s.runs[q].owner)
    ensures After(g, s0, Init(steps)).value.runs[q].state != Abandoned(true)
  {
    if After(g, s0, Init(steps)).value.runs[q].state == Abandoned(true) {
      OwnerStays(g, s0, steps, q);
      var k := ReconciledAt(g, s0, Init(steps), q);
      assert IsVerdict(steps[k], q);
      var i := FetchBeforeVerdict(g, s0, steps, k, q);
      LastPush(steps, i, After(g, s0, steps).value.runs[q].owner);
    }
  }

  /** A "no" of a check that was answered, with no push since the fetch, means not pushed. */
  lemma AnsweredNo(g: Rules, s0: State, steps: seq<Step>, r: string, i: nat, q: string)
    requires Initial(s0) && After(g, s0, steps).Some? && i < |steps| && IsFetch(steps[i], r)
    requires var s := After(g, s0, steps).value;
             && q in s.runs && s.runs[q].plan.Some? && !PushedAfter(steps, i, s.runs[q].owner)
             && !LocalOf(s, r).Idle? && !IsAncestor(s.runs[q].plan.value.tip(), LocalOf(s, r).ref)
    ensures PushedPlan(LocalOf(After(g, s0, steps).value, After(g, s0, steps).value.runs[q].owner)).None?
  {
    var s := After(g, s0, steps).value;
    VerdictIsRightIff(g, s0, steps, r, i, q);
    InvAlways(g, s0, steps);
    PlannedTip(g, s, q);
    if PushedPlan(LocalOf(s, s.runs[q].owner)).Some? { PlannedOnly(g, s, q); }
  }

  /** When runs are settled in the light of their pushes, "not pushed" is only said of a run that has not pushed. */
  lemma NotPushedIsTrue(g: Rules, s0: State, steps: seq<Step>, r: string, q: string, checked: bool)
    requires Initial(s0) && steps != [] && After(g, s0, steps).Some? && SettledInLight(After(g, s0, steps).value, steps)
    requires Last(steps) == Act(r, Reconcile(q, checked, false), true)
    ensures var s := After(g, s0, Init(steps)).value; q in s.runs && PushedPlan(LocalOf(s, s.runs[q].owner)).None?
  {
    var k := |steps| - 1;
    var s := After(g, s0, Init(steps)).value;
    assert IsVerdict(steps[k], q);
    InvAlways(g, s0, Init(steps));
    VerdictAsChecked(g, s, r, q, checked, false);
    OwnerStays(g, s0, steps, q);
    var owner := s.runs[q].owner;
    if checked {
      var i := FetchBeforeVerdict(g, s0, steps, k, q);
      assert !PushedAfter(steps, i, owner);
      PushedAfterGrows(steps, i, owner);
      AnsweredNo(g, s0, Init(steps), r, i, q);
    } else if PushedPlan(LocalOf(s, owner)).Some? {
      PushedPushes(g, s0, steps, owner);
    }
  }

  lemma PushedPushes(g: Rules, s0: State, steps: seq<Step>, r: string)
    requires Initial(s0) && steps != [] && After(g, s0, steps).Some?
    requires PushedPlan(LocalOf(After(g, s0, Init(steps)).value, r)).Some?
    ensures Pushes(steps, r)
  {
    var j := PushedAt(g, s0, Init(steps), r);
    assert IsPush(steps[j], r);
  }

  /** What a run pushed is what it planned. */
  lemma PlannedOnly(g: Rules, s: State, q: string)
    requires RunsOk(g, s) && JobsOk(s) && q in s.runs && PushedPlan(LocalOf(s, s.runs[q].owner)).Some?
    ensures PushedPlan(LocalOf(s, s.runs[q].owner)) == s.runs[q].plan
  {
    var l := LocalOf(s, s.runs[q].owner);
    assert JobOk(s.runs, s.runs[q].owner, l);
    assert s.runs[l.run].owner == s.runs[q].owner;
  }

  lemma PushInTime(g: Rules, s0: State, steps: seq<Step>, r: string)
    requires Initial(s0) && steps != [] && After(g, s0, steps).Some? && IsPush(Last(steps), r)
    requires NoLatePush(After(g, s0, steps).value, steps)
    ensures Timely(After(g, s0, Init(steps)).value, Last(steps))
  {
    var s := After(g, s0, Init(steps)).value;
    InvAlways(g, s0, Init(steps));
    assert JobOk(s.runs, r, LocalOf(s, r));
    NoPushAfterVerdict(g, s0, steps, LocalOf(s, r).run);
  }

  lemma TimelyStep(g: Rules, s0: State, steps: seq<Step>)
    requires Initial(s0) && steps != [] && After(g, s0, steps).Some? && SettledInLight(After(g, s0, steps).value, steps)
    ensures Timely(After(g, s0, Init(steps)).value, Last(steps))
  {
    var step := Last(steps);
    if step.Act? && step.event.Reconcile? && step.applied && !step.event.pushed {
      NotPushedIsTrue(g, s0, steps, step.runner, step.event.run, step.event.checked);
    } else if step.Act? && IsPush(step, step.runner) {
      PushInTime(g, s0, steps, step.runner);
    }
  }

  lemma NoLatePushBefore(g: Rules, s0: State, steps: seq<Step>)
    requires Initial(s0) && steps != [] && After(g, s0, steps).Some? && NoLatePush(After(g, s0, steps).value, steps)
    ensures NoLatePush(After(g, s0, Init(steps)).value, Init(steps))
  {
    var s := After(g, s0, Init(steps)).value;
    forall i, k, q | 0 <= i < k < |Init(steps)| && q in s.runs && IsVerdict(Init(steps)[k], q)
                     && IsFetch(Init(steps)[i], Init(steps)[k].runner)
      ensures !PushedAfter(Init(steps), i, s.runs[q].owner)
    {
      OwnerStays(g, s0, steps, q);
      assert IsVerdict(steps[k], q) && IsFetch(steps[i], steps[k].runner);
      PushedAfterGrows(steps, i, s.runs[q].owner);
    }
  }

  lemma NoBlindVerdictBefore(g: Rules, s0: State, steps: seq<Step>)
    requires Initial(s0) && steps != [] && After(g, s0, steps).Some? && NoBlindVerdict(After(g, s0, steps).value, steps)
    ensures NoBlindVerdict(After(g, s0, Init(steps)).value, Init(steps))
  {
    var s := After(g, s0, Init(steps)).value;
    forall k, q | 0 <= k < |Init(steps)| && q in s.runs && IsVerdict(Init(steps)[k], q) && !Init(steps)[k].event.checked
      ensures !Pushes(Init(steps), s.runs[q].owner)
    {
      OwnerStays(g, s0, steps, q);
      assert IsVerdict(steps[k], q);
      PushesGrows(steps, s.runs[q].owner);
    }
  }

  lemma PushesGrows(steps: seq<Step>, r: string)
    requires steps != []
    ensures Pushes(Init(steps), r) ==> Pushes(steps, r)
  {
    if j :| 0 <= j < |Init(steps)| && IsPush(Init(steps)[j], r) { assert IsPush(steps[j], r); }
  }

  lemma {:induction false} CreditedAlways(g: Rules, s0: State, steps: seq<Step>)
    requires Initial(s0) && After(g, s0, steps).Some? && SettledInLight(After(g, s0, steps).value, steps)
    ensures AllCredited(After(g, s0, steps).value)
  {
    if steps != [] {
      NoLatePushBefore(g, s0, steps);
      NoBlindVerdictBefore(g, s0, steps);
      CreditedAlways(g, s0, Init(steps));
      InvAlways(g, s0, Init(steps));
      TimelyStep(g, s0, steps);
      CreditedKept(g, After(g, s0, Init(steps)).value, Last(steps));
    }
  }

  /** The stack pushed by run `q` carries entry `id`. */
  predicate Delivered(s: State, q: string, id: string) {
    q in s.runs && PushedPlan(LocalOf(s, s.runs[q].owner)).Some?
    && Lookup(PushedPlan(LocalOf(s, s.runs[q].owner)).value.stack, id).Some?
  }

  lemma DeliveredEntry(g: Rules, s: State, q: string, id: string)
    requires Inv(g, s) && Delivered(s, q, id)
    ensures HasId(s.runs[q].entries, id)
  {
    var p := PushedPlan(LocalOf(s, s.runs[q].owner)).value;
    PlannedOnly(g, s, q);
    LookupItem(p.stack, id);
    assert RunOk(g, s.runs[q]);
    var i :| 0 <= i < |p.stack| && p.stack[i].entry.id == id;
    assert p.stack[i].entry in s.runs[q].entries;
  }

  /** An entry that run `q` delivered is on record as landed by it, or still held by it. */
  predicate Kept(s: State, q: string, id: string)
    requires Delivered(s, q, id)
  {
    var mapping := Lookup(PushedPlan(LocalOf(s, s.runs[q].owner)).value.stack, id).value;
    id in s.slots && s.slots[id].state == (if IsOpen(s.runs[q]) then Running(q) else LandedBy(q, mapping))
  }

  ghost predicate AllKept(s: State) {
    forall q, id :: Delivered(s, q, id) ==> Kept(s, q, id)
  }

  /** When runs are settled in the light of their pushes, what a push delivered is kept. */
  lemma NothingLost(g: Rules, s0: State, steps: seq<Step>, q: string, id: string)
    requires Initial(s0) && After(g, s0, steps).Some? && SettledInLight(After(g, s0, steps).value, steps)
    requires Delivered(After(g, s0, steps).value, q, id)
    ensures Kept(After(g, s0, steps).value, q, id)
  {
    var s := After(g, s0, steps).value;
    InvAlways(g, s0, steps);
    CreditedAlways(g, s0, steps);
    DeliveredEntry(g, s, q, id);
    assert Credited(s, q) && RunSlots(s.slots, q, s.runs[q]);
  }

  /** Nothing lands twice: under the same condition, no entry is delivered by two accepted pushes. */
  lemma NothingLandsTwice(g: Rules, s0: State, steps: seq<Step>, q: string, p: string, id: string)
    requires Initial(s0) && After(g, s0, steps).Some? && SettledInLight(After(g, s0, steps).value, steps)
    requires Delivered(After(g, s0, steps).value, q, id) && Delivered(After(g, s0, steps).value, p, id)
    ensures q == p
  {
    NothingLost(g, s0, steps, q, id);
    NothingLost(g, s0, steps, p, id);
  }

  // --------------------------------------------------- and otherwise it is lost

  /** Run `q` was settled, and no entry is on record as landed by it. */
  predicate WrittenOff(s: State, q: string) {
    && q in s.runs && s.runs[q].state == Abandoned(true)
    && forall id :: id in s.slots && s.slots[id].state.LandedBy? ==> s.slots[id].state.run != q
  }

  /** A "not pushed" verdict writes the run off. */
  lemma VerdictWritesOff(g: Rules, s: State, r: string, q: string, checked: bool)
    requires Inv(g, s) && Next(g, s, Act(r, Reconcile(q, checked, false), true)).Some?
    ensures WrittenOff(Next(g, s, Act(r, Reconcile(q, checked, false), true)).value, q)
  {
    ReconcileEffect(g, s, r, q, checked, false);
    WriteOff(s, Next(g, s, Act(r, Reconcile(q, checked, false), true)).value, q);
  }

  lemma WriteOff(s: State, t: State, q: string)
    requires SlotsOk(s) && LandedOk(s) && Reconciled(s, t, q, false)
    ensures WrittenOff(t, q)
  {
    var run := s.runs[q];
    assert RunSlots(s.slots, q, run);
    CloseSlots(s, t.slots, q, Verdicts(run.entries, run.plan.value, false));
    forall id | id in t.slots && t.slots[id].state.LandedBy? ensures t.slots[id].state.run != q {
      assert LandedSlot(s, id, s.slots[id]) && SlotHeld(s.runs, id, s.slots[id]);
      HeldSlot(s.slots, q, run, id);
    }
  }

  lemma HeldSlot(slots: map<string, Slot>, q: string, run: Run, id: string)
    requires RunSlots(slots, q, run) && IsOpen(run)
    ensures HasId(run.entries, id) ==> id in slots && slots[id].state == Running(q)
  {
  }

  /** Nothing brings a run back that was written off. */
  lemma WrittenOffStays(g: Rules, s: State, step: Step, q: string)
    requires WrittenOff(s, q) && Next(g, s, step).Some?
    ensures WrittenOff(Next(g, s, step).value, q)
  {
    if step.Act? && step.applied && step.event.Finish? {
      FinishWritesBy(g, s, step.runner, step.event.report, step.event.acked, q);
    }
  }

  lemma FinishWritesBy(g: Rules, s: State, r: string, report: Report, acked: bool, q: string)
    requires WrittenOff(s, q) && Next(g, s, Act(r, Finish(report, acked), true)).Some?
    ensures WrittenOff(Next(g, s, Act(r, Finish(report, acked), true)).value, q)
  {
  }

  lemma {:induction false} WrittenOffForGood(g: Rules, s0: State, steps: seq<Step>, k: nat, q: string)
    requires k <= |steps| && After(g, s0, steps).Some?
    requires After(g, s0, steps[..k]).Some? && WrittenOff(After(g, s0, steps[..k]).value, q)
    ensures WrittenOff(After(g, s0, steps).value, q)
  {
    if k == |steps| {
      assert steps[..k] == steps;
    } else {
      assert Init(steps)[..k] == steps[..k];
      WrittenOffForGood(g, s0, Init(steps), k, q);
      WrittenOffStays(g, After(g, s0, Init(steps)).value, Last(steps), q);
    }
  }

  /** What a verdict at some step went by. */
  lemma VerdictAt(g: Rules, s0: State, steps: seq<Step>, k: nat, q: string)
    requires Initial(s0) && After(g, s0, steps).Some? && k < |steps| && IsVerdict(steps[k], q)
    ensures After(g, s0, steps[..k]).Some?
    ensures var s := After(g, s0, steps[..k]).value;
            && Inv(g, s) && Next(g, s, steps[k]).Some? && After(g, s0, steps[..k + 1]) == Next(g, s, steps[k])
            && q in s.runs && s.runs[q].plan.Some?
            && steps[k].event.pushed
               == (steps[k].event.checked && IsAncestor(s.runs[q].plan.value.tip(), LocalOf(s, steps[k].runner).ref))
  {
    EarlierState(g, s0, steps, k);
    EarlierState(g, s0, steps, k + 1);
    InvAlways(g, s0, steps[..k]);
    VerdictAsChecked(g, After(g, s0, steps[..k]).value, steps[k].runner, q, steps[k].event.checked, steps[k].event.pushed);
  }

  /** What was fetched before a run's push holds none of that run's commits. */
  lemma FetchedBeforePush(g: Rules, s0: State, steps: seq<Step>, i: nat, j: nat, owner: string)
    requires Initial(s0) && After(g, s0, steps).Some? && i < j < |steps| && IsPush(steps[j], owner)
    ensures After(g, s0, steps[..i]).Some? && !MadeBy(After(g, s0, steps[..i]).value.remote, owner)
  {
    PushIsFirst(g, s0, steps, owner, j);
    EarlierState(g, s0, steps[..j], i);
    assert steps[..j][..i] == steps[..i];
    var was, now := After(g, s0, steps[..i]).value.remote, After(g, s0, steps[..j]).value.remote;
    if MadeBy(was, owner) { AncestorMadeBy(was, now, owner); }
  }

  /** A run that pushes at any time after the fetch is told "not pushed". */
  lemma LateMeansNo(g: Rules, s0: State, steps: seq<Step>, i: nat, k: nat, q: string)
    requires Initial(s0) && After(g, s0, steps).Some? && i < k < |steps|
    requires IsVerdict(steps[k], q) && IsFetch(steps[i], steps[k].runner)
    requires var s := After(g, s0, steps).value; q in s.runs && PushedAfter(steps, i, s.runs[q].owner)
    ensures !steps[k].event.pushed
  {
    VerdictAt(g, s0, steps, k, q);
    var s := After(g, s0, steps[..k]).value;
    OwnerAlways(g, s0, steps, k, q);
    RefStays(g, s0, steps[..k], steps[k].runner, i);
    assert steps[..k][..i] == steps[..i];
    var owner := s.runs[q].owner;
    var j :| i < j < |steps| && IsPush(steps[j], owner);
    FetchedBeforePush(g, s0, steps, i, j, owner);
    PlanIsOwn(g, s, q, LocalOf(s, steps[k].runner).ref);
  }

  lemma PlanIsOwn(g: Rules, s: State, q: string, ref: Commit)
    requires RunsOk(g, s) && q in s.runs && s.runs[q].plan.Some? && !MadeBy(ref, s.runs[q].owner)
    ensures !IsAncestor(s.runs[q].plan.value.tip(), ref)
  {
    assert RunOk(g, s.runs[q]);
    if IsAncestor(s.runs[q].plan.value.tip(), ref) { AncestorMadeBy(s.runs[q].plan.value.tip(), ref, s.runs[q].owner); }
  }

  lemma {:induction false} OwnerAlways(g: Rules, s0: State, steps: seq<Step>, k: nat, q: string)
    requires Initial(s0) && After(g, s0, steps).Some? && k <= |steps| && After(g, s0, steps[..k]).Some?
    requires q in After(g, s0, steps[..k]).value.runs
    ensures q in After(g, s0, steps).value.runs
    ensures After(g, s0, steps).value.runs[q].owner == After(g, s0, steps[..k]).value.runs[q].owner
  {
    if k == |steps| {
      assert steps[..k] == steps;
    } else {
      assert Init(steps)[..k] == steps[..k];
      OwnerAlways(g, s0, Init(steps), k, q);
      OwnerStays(g, s0, steps, q);
    }
  }

  lemma WrittenOffAtLast(g: Rules, s0: State, steps: seq<Step>, k: nat, q: string)
    requires Initial(s0) && After(g, s0, steps).Some? && k < |steps| && IsVerdict(steps[k], q) && !steps[k].event.pushed
    ensures WrittenOff(After(g, s0, steps).value, q)
  {
    VerdictAt(g, s0, steps, k, q);
    VerdictWritesOff(g, After(g, s0, steps[..k]).value, steps[k].runner, q, steps[k].event.checked);
    WrittenOffForGood(g, s0, steps, k + 1, q);
  }

  lemma PushedAtLast(g: Rules, s0: State, steps: seq<Step>, r: string)
    requires Initial(s0) && After(g, s0, steps).Some? && Pushes(steps, r)
    ensures PushedPlan(LocalOf(After(g, s0, steps).value, r)).Some?
  {
    var j :| 0 <= j < |steps| && IsPush(steps[j], r);
    PushIsDone(g, s0, steps, j, r);
    PushedForGood(g, s0, steps, j + 1, r);
  }

  /** Run `q` delivered something, and nothing that it delivered is kept. */
  ghost predicate AllLost(s: State, q: string) {
    (exists id :: Delivered(s, q, id)) && forall id :: Delivered(s, q, id) ==> !Kept(s, q, id)
  }

  /** A run that pushes and is told "not pushed" loses everything it delivered. */
  lemma WrongVerdictLoses(g: Rules, s0: State, steps: seq<Step>, k: nat, q: string)
    requires Initial(s0) && After(g, s0, steps).Some? && k < |steps| && IsVerdict(steps[k], q) && !steps[k].event.pushed
    requires var s := After(g, s0, steps).value; q in s.runs && Pushes(steps, s.runs[q].owner)
    ensures AllLost(After(g, s0, steps).value, q)
  {
    WrittenOffAtLast(g, s0, steps, k, q);
    PushedAtLast(g, s0, steps, After(g, s0, steps).value.runs[q].owner);
    InvAlways(g, s0, steps);
    SomethingDelivered(g, After(g, s0, steps).value, q);
  }

  lemma SomethingDelivered(g: Rules, s: State, q: string)
    requires Inv(g, s) && WrittenOff(s, q) && PushedPlan(LocalOf(s, s.runs[q].owner)).Some?
    ensures AllLost(s, q)
  {
    PlannedOnly(g, s, q);
    assert RunOk(g, s.runs[q]);
    var id := Last(s.runs[q].plan.value.stack).entry.id;
    assert Delivered(s, q, id);
  }

  lemma LatePushLoses(g: Rules, s0: State, steps: seq<Step>)
    requires Initial(s0) && After(g, s0, steps).Some? && !NoLatePush(After(g, s0, steps).value, steps)
    ensures !AllKept(After(g, s0, steps).value)
  {
    var s := After(g, s0, steps).value;
    var i, k, q :| 0 <= i < k < |steps| && q in s.runs && IsVerdict(steps[k], q) && IsFetch(steps[i], steps[k].runner)
                   && PushedAfter(steps, i, s.runs[q].owner);
    LateMeansNo(g, s0, steps, i, k, q);
    var j :| i < j < |steps| && IsPush(steps[j], s.runs[q].owner);
    assert Pushes(steps, s.runs[q].owner);
    WrongVerdictLoses(g, s0, steps, k, q);
  }

  lemma BlindVerdictLoses(g: Rules, s0: State, steps: seq<Step>)
    requires Initial(s0) && After(g, s0, steps).Some? && !NoBlindVerdict(After(g, s0, steps).value, steps)
    ensures !AllKept(After(g, s0, steps).value)
  {
    var s := After(g, s0, steps).value;
    var k, q :| 0 <= k < |steps| && q in s.runs && IsVerdict(steps[k], q) && !steps[k].event.checked
                && Pushes(steps, s.runs[q].owner);
    VerdictAt(g, s0, steps, k, q);
    WrongVerdictLoses(g, s0, steps, k, q);
  }

  /**
   * Exactly when nothing is lost. In every history, all that accepted pushes
   * delivered is on record as landed or held by the run that pushed it, if and
   * only if no settled run pushes after the fetch of the run that settles it
   * and no run that pushes is settled by a check that Git did not answer.
   */
  lemma NothingLostIff(g: Rules, s0: State, steps: seq<Step>)
    requires Initial(s0) && After(g, s0, steps).Some?
    ensures AllKept(After(g, s0, steps).value) <==> SettledInLight(After(g, s0, steps).value, steps)
  {
    if SettledInLight(After(g, s0, steps).value, steps) {
      EverythingKept(g, s0, steps);
    } else if NoLatePush(After(g, s0, steps).value, steps) {
      BlindVerdictLoses(g, s0, steps);
    } else {
      LatePushLoses(g, s0, steps);
    }
  }

  lemma EverythingKept(g: Rules, s0: State, steps: seq<Step>)
    requires Initial(s0) && After(g, s0, steps).Some? && SettledInLight(After(g, s0, steps).value, steps)
    ensures AllKept(After(g, s0, steps).value)
  {
    var s := After(g, s0, steps).value;
    forall q, id | Delivered(s, q, id) ensures Kept(s, q, id) { NothingLost(g, s0, steps, q, id); }
  }

  /** Git answered the check behind every recorded verdict. */
  predicate AllAnswered(steps: seq<Step>) {
    forall k :: 0 <= k < |steps| && steps[k].Act? && steps[k].event.Reconcile? ==> steps[k].event.checked
  }

  /** So while Git answers, it is only the late push that loses anything. */
  lemma OnlyLatePushesLose(g: Rules, s0: State, steps: seq<Step>)
    requires Initial(s0) && After(g, s0, steps).Some? && AllAnswered(steps)
    ensures AllKept(After(g, s0, steps).value) <==> NoLatePush(After(g, s0, steps).value, steps)
  {
    NothingLostIff(g, s0, steps);
  }
}
