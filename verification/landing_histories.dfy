/**
 * A landing run inside a history of the queue: what a history says about a
 * runner is what the runner's own events say, so what is proved about one run
 * holds of that run wherever it overlaps others.
 */
module LandingHistories {
  import opened Options
  import opened Git
  import opened Queue
  import opened QueueHistories
  import opened LandingCheckout
  import opened LandingRun
  import opened LandingCulprit

  /** What one step is to runner `r`: an event of its own, or the reply to its claim when it hears it. */
  function EventOf(step: Step, r: string): Option<Event> {
    match step
    case Act(x, e, _) => if x == r then Some(e) else None
    case ClaimRun(x, q, entries, heard) => if x == r && heard then Some(Claim(Claimed(q, entries))) else None
    case _ => None
  }

  /** The events of runner `r` in a history. */
  function EventsOf(steps: seq<Step>, r: string): seq<Event> {
    if steps == [] then []
    else
      var before, e := EventsOf(Init(steps), r), EventOf(Last(steps), r);
      if e.Some? then before + [e.value] else before
  }

  /** A step moves a runner by the runner's event in that step, and not at all when it has none. */
  lemma StepPlays(g: Rules, s: State, step: Step, r: string)
    requires Next(g, s, step).Some?
    ensures var l, e := LocalOf(Next(g, s, step).value, r), EventOf(step, r);
            if e.Some? then LocalStep(g, r, LocalOf(s, r), e.value) == Some(l) else l == LocalOf(s, r)
  {
  }

  /** What a history says about a runner is what the runner's own events come to. */
  lemma {:induction false} HistoryPlays(g: Rules, s0: State, steps: seq<Step>, r: string)
    requires After(g, s0, steps).Some? && LocalOf(s0, r).Idle?
    ensures Play(g, r, EventsOf(steps, r)) == Some(LocalOf(After(g, s0, steps).value, r))
  {
    if steps != [] {
      HistoryPlays(g, s0, Init(steps), r);
      StepPlays(g, After(g, s0, Init(steps)).value, Last(steps), r);
      var before, e := EventsOf(Init(steps), r), EventOf(Last(steps), r);
      if e.Some? { assert Init(before + [e.value]) == before; }
    }
  }

  /**
   * The history holds a first part of what the runner `env.me` did in a run
   * that left `events` and `rec` behind, as `RunLanding` does.
   */
  ghost predicate RunsIn(env: Env, steps: seq<Step>, events: seq<Event>, rec: Record) {
    EventsOf(steps, env.me) <= events && RunDone(env, events, rec)
  }

  /** In a history a run is as sound as on its own, wherever it crashes. */
  lemma SoundInHistory(env: Env, s0: State, steps: seq<Step>, events: seq<Event>, rec: Record)
    requires After(env.git, s0, steps).Some? && LocalOf(s0, env.me).Idle? && RunsIn(env, steps, events, rec)
    ensures var l := LocalOf(After(env.git, s0, steps).value, env.me);
            l.Job? ==> RunSound(env, l, rec) && ReportSound(env, l, rec)
  {
    var k := |EventsOf(steps, env.me)|;
    HistoryPlays(env.git, s0, steps, env.me);
    CrashedRunIsSound(env, events, rec, k);
    assert events[..k] == EventsOf(steps, env.me);
  }

  /**
   * What a run's accepted push puts on the remote was cleared by that run: the
   * remote stands at the commit the run fetched and then gains exactly a stack
   * that the run's own gate passed on, or whose only entry was tested before on
   * that very tree. So it holds however many runners crash or overlap.
   */
  lemma PushedIsCleared(env: Env, s0: State, steps: seq<Step>, events: seq<Event>, rec: Record, tip: Commit, applied: bool)
    returns (plan: PushPlan)
    requires Initial(s0) && steps != [] && Last(steps) == Act(env.me, Push(tip, true), applied)
    requires After(env.git, s0, steps).Some? && RunsIn(env, steps, events, rec)
    ensures var s, t := After(env.git, s0, Init(steps)).value, After(env.git, s0, steps).value;
            && plan.base == s.remote && History(t.remote) == History(s.remote) + StackTargets(plan.stack)
            && t.remote == Tip(s.remote, plan.stack)
            && rec.config.Some? && GateRead(env, rec.config, rec.trail)
            && Cleared(env, s.remote, rec.config.value, plan.stack, rec.trail)
  {
    AcceptedPushIsExact(env.git, s0, steps, env.me, tip, applied);
    SoundInHistory(env, s0, steps, events, rec);
    PushStep(env.git, After(env.git, s0, Init(steps)).value, Last(steps), env.me);
    plan := PushedPlan(LocalOf(After(env.git, s0, steps).value, env.me)).value;
    PushedSound(env, LocalOf(After(env.git, s0, steps).value, env.me), rec);
  }

  lemma PushedSound(env: Env, l: Local, rec: Record)
    requires l.Job? && l.stage.Pushed? && RunSound(env, l, rec)
    ensures rec.config.Some? && GateRead(env, rec.config, rec.trail)
    ensures l.stage.plan.base == l.ref && Cleared(env, l.ref, rec.config.value, l.stage.plan.stack, rec.trail)
  {
  }

  /**
   * So no push breaks a step that worked on the branch right before it, if that
   * step depends only on the tree and its reports on both are readable, unless
   * the push lands a single entry that was tested before on that very tree.
   * Whatever other steps do, and whatever calls fail in any run, does not matter.
   */
  lemma PushBreaksNothing(env: Env, s0: State, steps: seq<Step>, events: seq<Event>, rec: Record, tip: Commit, applied: bool)
    returns (plan: PushPlan)
    requires Initial(s0) && steps != [] && Last(steps) == Act(env.me, Push(tip, true), applied)
    requires After(env.git, s0, steps).Some? && RunsIn(env, steps, events, rec)
    ensures var before, after := After(env.git, s0, Init(steps)).value.remote, After(env.git, s0, steps).value.remote;
            && rec.config.Some? && after == Tip(before, plan.stack)
            && (|| (|plan.stack| == 1 && plan.stack[0].entry.preSubmit == Passed(after.tree))
                || BreaksNothing(env.lab, after.tree, before.tree, rec.config.value.steps))
  {
    plan := PushedIsCleared(env, s0, steps, events, rec, tip, applied);
    PushedTreeIsSound(env, After(env.git, s0, Init(steps)).value.remote, rec.config.value, plan.stack, rec.trail);
  }
}
