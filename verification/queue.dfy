/**
 * The landing queue as a protocol: the server's record of entries and runs, the
 * remote branch, and any number of runners that act on both. `LocalStep` is
 * what one runner may do next; `Next` is one step of the whole system. A runner
 * that crashes is one that takes no further step, and every call to the server
 * may be lost before or after it takes effect.
 */
module Queue {
  import opened Options
  import opened Git

  datatype Reason =
    | NoGate | GateUnreadable
    | BadBase | WrongTip | AlreadyLanded | FetchFailed
    | Conflict
    | GateFailed(step: string, failures: seq<string>, alone: bool)
    | PushRejected | RunFailed | NoOutcome
    | Dropped | NotPushed

  datatype Outcome = Landed(mapping: seq<Mapping>) | Bounced(reason: Reason) | Requeue(reason: Reason)

  datatype Report = Report(outcomes: seq<(string, Outcome)>, pushedTip: Option<Commit>)

  /** What a run is about to push, recorded before it pushes. */
  datatype PushPlan = PushPlan(base: Commit, stack: seq<Stacked>) {
    function tip(): Commit { Tip(base, stack) }
  }

  /** The plan's mapping for one entry. */
  function Lookup(stack: seq<Stacked>, id: string): Option<seq<Mapping>> {
    if stack == [] then None
    else if Last(stack).entry.id == id then Some(Last(stack).mapping)
    else Lookup(Init(stack), id)
  }

  function Find(outcomes: seq<(string, Outcome)>, id: string): Option<Outcome> {
    if outcomes == [] then None
    else if Last(outcomes).0 == id then Some(Last(outcomes).1)
    else Find(Init(outcomes), id)
  }

  predicate DistinctIds(entries: seq<Entry>) {
    forall i, j :: 0 <= i < j < |entries| ==> entries[i].id != entries[j].id
  }

  // ------------------------------------------------------------- one runner

  datatype Stale = Stale(run: string, plan: PushPlan)

  datatype Reply = Unreconciled(stale: seq<Stale>) | Nothing | Claimed(run: string, entries: seq<Entry>)

  /**
   * What a runner tells or asks the server and the remote. A verdict on an
   * interrupted run is "pushed" when Git answered the ancestor check
   * (`checked`) and its answer was yes; a check that fails counts as "no".
   */
  datatype Event =
    | Fetch(ref: Commit)
    | Claim(reply: Reply)
    | Reconcile(run: string, checked: bool, pushed: bool)
    | Plan(plan: PushPlan, acked: bool)
    | Push(tip: Commit, accepted: bool)
    | Finish(report: Report, acked: bool)

  datatype Stage = Open | Quit | Planned(plan: PushPlan) | Pushed(plan: PushPlan, accepted: bool)

  datatype Local =
    | Idle
    | Fetched(ref: Commit, stale: seq<Stale>)
    | Job(ref: Commit, run: string, entries: seq<Entry>, stage: Stage, reported: Option<(Report, bool)>)

  /** The plan whose push this runner saw accepted. */
  function PushedPlan(l: Local): Option<PushPlan> {
    if l.Job? && l.stage.Pushed? && l.stage.accepted then Some(l.stage.plan) else None
  }

  /** A plan is for a stack of claimed entries picked by this runner onto what it fetched. */
  predicate PlanOk(g: Rules, me: string, entries: seq<Entry>, p: PushPlan) {
    && p.stack != []
    && StackOk(g, me, p.base, p.stack)
    && forall i :: 0 <= i < |p.stack| ==> p.stack[i].entry in entries
  }

  /** One outcome per claimed entry in claim order, "landed" exactly for the entries of an accepted push. */
  predicate ReportOk(entries: seq<Entry>, pushed: Option<PushPlan>, report: Report) {
    && |report.outcomes| == |entries|
    && (forall i :: 0 <= i < |entries| ==> report.outcomes[i].0 == entries[i].id)
    && (forall i :: 0 <= i < |entries| ==>
          var mapping := if pushed.Some? then Lookup(pushed.value.stack, entries[i].id) else None;
          var outcome := report.outcomes[i].1;
          if mapping.Some? then outcome == Landed(mapping.value) else !outcome.Landed?)
    && report.pushedTip == (if pushed.Some? then Some(pushed.value.tip()) else None)
  }

  function LocalStep(g: Rules, me: string, l: Local, e: Event): Option<Local> {
    match e
    case Fetch(ref) => if l.Idle? then Some(Fetched(ref, [])) else None
    case Claim(reply) =>
      if !l.Fetched? then None
      else (match reply
        case Unreconciled(stale) => Some(Fetched(l.ref, stale))
        case Nothing => Some(Fetched(l.ref, []))
        case Claimed(run, entries) => Some(Job(l.ref, run, entries, Open, None)))
    case Reconcile(run, checked, pushed) =>
      if l.Fetched? && (exists x :: x in l.stale && x.run == run && pushed == (checked && IsAncestor(x.plan.tip(), l.ref)))
      then Some(l) else None
    case Plan(p, acked) =>
      if l.Job? && l.stage.Open? && l.reported.None? && p.base == l.ref && PlanOk(g, me, l.entries, p)
      then Some(l.(stage := if acked then Planned(p) else Quit)) else None
    case Push(tip, accepted) =>
      if l.Job? && l.stage.Planned? && l.reported.None? && tip == l.stage.plan.tip()
      then Some(l.(stage := Pushed(l.stage.plan, accepted))) else None
    case Finish(report, acked) =>
      if && l.Job? && ReportOk(l.entries, PushedPlan(l), report)
         && (l.reported.None? || (!l.reported.value.1 && l.reported.value.0 == report))
      then Some(l.(reported := Some((report, acked)))) else None
  }

  /** What a runner has become after some events, if it may take them. */
  function Play(g: Rules, me: string, events: seq<Event>): Option<Local> {
    if events == [] then Some(Idle)
    else match Play(g, me, Init(events)) {
      case None => None
      case Some(l) => LocalStep(g, me, l, Last(events))
    }
  }

  /** A runner that crashes after any number of its events still did only what runners may do. */
  lemma {:induction false} CrashAnywhere(g: Rules, me: string, events: seq<Event>, k: nat)
    requires k <= |events| && Play(g, me, events).Some?
    ensures Play(g, me, events[..k]).Some?
  {
    if k == |events| {
      assert events[..k] == events;
    } else {
      assert Init(events)[..k] == events[..k];
      CrashAnywhere(g, me, Init(events), k);
    }
  }

  // -------------------------------------------------------------- the server

  datatype EntryState = Pending | Running(run: string) | LandedBy(run: string, mapping: seq<Mapping>) | Returned | Withdrawn

  datatype Slot = Slot(entry: Entry, state: EntryState)

  datatype RunState = Active | Finished | Abandoned(reconciled: bool)

  datatype Run = Run(owner: string, entries: seq<Entry>, plan: Option<PushPlan>, state: RunState)

  datatype State = State(remote: Commit, slots: map<string, Slot>, runs: map<string, Run>, locals: map<string, Local>)

  predicate IsUnreconciled(run: Run) {
    run.state == Abandoned(false) && run.plan.Some?
  }

  /** The run still decides the fate of its entries. */
  predicate IsOpen(run: Run) {
    run.state.Active? || IsUnreconciled(run)
  }

  function LocalOf(s: State, runner: string): Local {
    if runner in s.locals then s.locals[runner] else Idle
  }

  function Settled(q: string, outcome: Outcome): EntryState {
    match outcome
    case Landed(mapping) => LandedBy(q, mapping)
    case Bounced(_) => Returned
    case Requeue(_) => Pending
  }

  /** Record outcomes of run `q`; entries without one keep their state. */
  function Settle(slots: map<string, Slot>, q: string, outcomes: seq<(string, Outcome)>): map<string, Slot> {
    map id | id in slots ::
      var outcome := Find(outcomes, id);
      if outcome.Some? then slots[id].(state := Settled(q, outcome.value)) else slots[id]
  }

  /** The verdict on one entry of an interrupted run. */
  function Verdict(plan: PushPlan, id: string, pushed: bool): Outcome {
    match Lookup(plan.stack, id)
    case Some(mapping) => if pushed then Landed(mapping) else Requeue(NotPushed)
    case None => if pushed then Bounced(Dropped) else Requeue(NotPushed)
  }

  function Verdicts(entries: seq<Entry>, plan: PushPlan, pushed: bool): (r: seq<(string, Outcome)>)
    ensures |r| == |entries|
    ensures forall i :: 0 <= i < |r| ==> r[i] == (entries[i].id, Verdict(plan, entries[i].id, pushed))
  {
    if entries == [] then []
    else Verdicts(Init(entries), plan, pushed) + [(Last(entries).id, Verdict(plan, Last(entries).id, pushed))]
  }

  function Requeued(entries: seq<Entry>): (r: seq<(string, Outcome)>)
    ensures |r| == |entries|
    ensures forall i :: 0 <= i < |r| ==> r[i] == (entries[i].id, Requeue(NoOutcome))
  {
    if entries == [] then [] else Requeued(Init(entries)) + [(Last(entries).id, Requeue(NoOutcome))]
  }

  /** The batch limit of one run. */
  const BATCH_LIMIT := 8

  datatype Step =
    | Submit(entry: Entry)
    | Withdraw(id: string)
    | Outsider(tree: string, name: string, stamp: nat)
    | Abandon(run: string)
    | ClaimRun(runner: string, run: string, entries: seq<Entry>, heard: bool)
    | Act(runner: string, event: Event, applied: bool)

  predicate Claimable(s: State, runner: string, run: string, entries: seq<Entry>) {
    && run !in s.runs
    && (forall q :: q in s.runs ==> !IsOpen(s.runs[q]) && s.runs[q].owner != runner)
    && 0 < |entries| <= BATCH_LIMIT
    && DistinctIds(entries)
    && forall e :: e in entries ==> e.id in s.slots && s.slots[e.id] == Slot(e, Pending)
  }

  function SetRun(s: State, q: string, run: Run): State {
    s.(runs := s.runs[q := run])
  }

  /** What a runner's event does outside the runner; `None` when it cannot happen now. */
  function Effect(s: State, l: Local, e: Event, applied: bool): Option<State> {
    match e
    case Fetch(ref) => if ref == s.remote then Some(s) else None
    case Claim(Unreconciled(stale)) =>
      if forall x :: x in stale ==> x.run in s.runs && IsUnreconciled(s.runs[x.run]) && s.runs[x.run].plan == Some(x.plan)
      then Some(s) else None
    case Claim(Nothing) =>
      if forall q :: q in s.runs ==> !IsOpen(s.runs[q]) then Some(s) else None
    case Claim(Claimed(_, _)) => None
    case Reconcile(q, _, pushed) =>
      if !applied then Some(s)
      else if q in s.runs && IsUnreconciled(s.runs[q]) then
        var run := s.runs[q];
        Some(SetRun(s, q, run.(state := Abandoned(true)))
             .(slots := Settle(s.slots, q, Verdicts(run.entries, run.plan.value, pushed))))
      else None
    case Plan(p, acked) =>
      if !applied then (if acked then None else Some(s))
      else if l.Job? && l.run in s.runs && s.runs[l.run].state.Active? then
        Some(SetRun(s, l.run, s.runs[l.run].(plan := Some(p))))
      else None
    case Push(tip, accepted) =>
      if !accepted then Some(s)
      else if IsAncestor(s.remote, tip) then Some(s.(remote := tip))
      else None
    case Finish(report, acked) =>
      if !applied then (if acked then None else Some(s))
      else if l.Job? && l.run in s.runs && s.runs[l.run].state.Active? then
        Some(SetRun(s, l.run, s.runs[l.run].(state := Finished))
             .(slots := Settle(s.slots, l.run, report.outcomes)))
      else None
  }

  function Next(g: Rules, s: State, step: Step): Option<State> {
    match step
    case Submit(e) =>
      if e.id !in s.slots && e.commits != [] then Some(s.(slots := s.slots[e.id := Slot(e, Pending)])) else None
    case Withdraw(id) =>
      if id in s.slots && s.slots[id].state.Pending?
      then Some(s.(slots := s.slots[id := s.slots[id].(state := Withdrawn)])) else None
    case Outsider(tree, name, stamp) => Some(s.(remote := Child(s.remote, tree, Outside(name), stamp)))
    case Abandon(q) =>
      if q in s.runs && s.runs[q].state.Active? then
        var run := s.runs[q];
        var t := SetRun(s, q, run.(state := Abandoned(false)));
        Some(if run.plan.Some? then t else t.(slots := Settle(s.slots, q, Requeued(run.entries))))
      else None
    case ClaimRun(r, q, entries, heard) =>
      if LocalOf(s, r).Fetched? && Claimable(s, r, q, entries) then
        var t := SetRun(s, q, Run(r, entries, None, Active)).(slots :=
          map id | id in s.slots ::
            if exists e :: e in entries && e.id == id then s.slots[id].(state := Running(q)) else s.slots[id]);
        Some(if heard then t.(locals := s.locals[r := LocalStep(g, r, LocalOf(s, r), Claim(Claimed(q, entries))).value]) else t)
      else None
    case Act(r, e, applied) =>
      match LocalStep(g, r, LocalOf(s, r), e)
      case None => None
      case Some(l) =>
        match Effect(s, LocalOf(s, r), e, applied)
        case None => None
        case Some(t) => Some(t.(locals := s.locals[r := l]))
  }

  /** Before anything happened: an empty queue and a branch that no landing run has touched. */
  ghost predicate Initial(s: State) {
    s.slots == map[] && s.runs == map[] && s.locals == map[] && forall r :: !MadeBy(s.remote, r)
  }

  /** The state after some steps from `s0`, if they can happen. */
  function After(g: Rules, s0: State, steps: seq<Step>): Option<State> {
    if steps == [] then Some(s0)
    else match After(g, s0, Init(steps)) {
      case None => None
      case Some(s) => Next(g, s, Last(steps))
    }
  }
}
