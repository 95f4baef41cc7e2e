/**
 * The rounds in which a landing run settles interrupted runs before it gets
 * entries to land, as they show in what it tells the server.
 */
module LandingRounds {
  import opened Options
  import opened Git
  import opened Queue
  import opened LandingCheckout

  /** The run was given this answer at its n-th call. */
  predicate HeardAt(env: Env, n: nat, reply: Reply) {
    !env.lab.fails(n) && env.replies(n) == reply
  }

  /**
   * One verdict per interrupted run, in order. The check of the k-th is the
   * (n + 2k)-th call: the run is judged "pushed" exactly if its check was
   * answered and its planned tip is on the branch as fetched.
   */
  predicate AreVerdicts(env: Env, ref: Commit, stale: seq<Stale>, events: seq<Event>, n: nat) {
    && |events| == |stale|
    && forall k :: 0 <= k < |stale| ==>
         var checked := !env.lab.fails(n + 2 * k);
         events[k] == Reconcile(stale[k].run, checked, checked && IsAncestor(stale[k].plan.tip(), ref))
  }

  /** The verdict on one interrupted run when its check was answered or not. */
  function VerdictOn(ref: Commit, x: Stale, checked: bool): Event {
    Reconcile(x.run, checked, checked && IsAncestor(x.plan.tip(), ref))
  }

  /** The verdicts on the first `i` runs, when their checks start at the n-th call. */
  function VerdictEvents(env: Env, ref: Commit, stale: seq<Stale>, i: nat, n: nat): seq<Event>
    requires i <= |stale|
  {
    if i == 0 then []
    else VerdictEvents(env, ref, stale, i - 1, n) + [VerdictOn(ref, stale[i - 1], !env.lab.fails(n + 2 * (i - 1)))]
  }

  lemma OneMoreVerdict(env: Env, ref: Commit, stale: seq<Stale>, i: nat, n: nat, before: seq<Event>)
    requires i < |stale|
    ensures before + VerdictEvents(env, ref, stale, i, n) + [VerdictOn(ref, stale[i], !env.lab.fails(n + 2 * i))]
         == before + VerdictEvents(env, ref, stale, i + 1, n)
  {
  }

  lemma {:induction false} VerdictEventsAre(env: Env, ref: Commit, stale: seq<Stale>, i: nat, n: nat)
    requires i <= |stale|
    ensures AreVerdicts(env, ref, stale[..i], VerdictEvents(env, ref, stale, i, n), n)
  {
    if i > 0 { VerdictEventsAre(env, ref, stale, i - 1, n); }
  }

  /** These two claims follow one another. */
  predicate NextClaim(events: seq<Event>, i: nat, j: nat) {
    i < j < |events| && events[i].Claim? && events[j].Claim? && forall k :: i < k < j ==> !events[k].Claim?
  }

  /**
   * The claim was answered with interrupted runs only, all of them were settled
   * in the calls right after it, and the next claim was made right after that.
   */
  predicate RoundAt(env: Env, ref: Commit, events: seq<Event>, i: nat, j: nat, n: nat)
    requires NextClaim(events, i, j)
  {
    && n > 0 && HeardAt(env, n - 1, events[i].reply) && events[i].reply.Unreconciled? && events[i].reply.stale != []
    && AreVerdicts(env, ref, events[i].reply.stale, events[i + 1..j], n)
    && HeardAt(env, n + 2 * |events[i].reply.stale|, events[j].reply)
  }

  ghost predicate IsRound(env: Env, ref: Commit, events: seq<Event>, i: nat, j: nat)
    requires NextClaim(events, i, j)
  {
    exists n :: RoundAt(env, ref, events, i, j, n)
  }

  /** Between any two claims that follow one another lies exactly one round. */
  ghost predicate InRounds(env: Env, ref: Commit, events: seq<Event>) {
    forall i: nat, j: nat :: NextClaim(events, i, j) ==> IsRound(env, ref, events, i, j)
  }

  function Claims(events: seq<Event>): nat {
    if events == [] then 0 else Claims(Init(events)) + if Last(events).Claim? then 1 else 0
  }

  predicate NoClaims(events: seq<Event>) {
    forall k :: 0 <= k < |events| ==> !events[k].Claim?
  }

  lemma {:induction false} ClaimsStay(events: seq<Event>, more: seq<Event>)
    requires NoClaims(more)
    ensures Claims(events + more) == Claims(events)
  {
    if more == [] {
      assert events + more == events;
    } else {
      assert Init(events + more) == events + Init(more);
      ClaimsStay(events, Init(more));
    }
  }

  /** What is told after the last claim leaves the rounds as they are. */
  lemma RoundsStay(env: Env, ref: Commit, events: seq<Event>, more: seq<Event>)
    requires InRounds(env, ref, events) && NoClaims(more)
    ensures InRounds(env, ref, events + more) && Claims(events + more) == Claims(events)
  {
    ClaimsStay(events, more);
    var all := events + more;
    forall i: nat, j: nat | NextClaim(all, i, j) ensures IsRound(env, ref, all, i, j) {
      RoundIn(env, ref, events, more, i, j);
    }
  }

  lemma RoundIn(env: Env, ref: Commit, events: seq<Event>, more: seq<Event>, i: nat, j: nat)
    requires InRounds(env, ref, events) && NextClaim(events + more, i, j) && j < |events|
    ensures IsRound(env, ref, events + more, i, j)
  {
    assert forall k :: i <= k <= j ==> (events + more)[k] == events[k];
    assert NextClaim(events, i, j);
    var n :| RoundAt(env, ref, events, i, j, n);
    assert (events + more)[i + 1..j] == events[i + 1..j];
    assert RoundAt(env, ref, events + more, i, j, n);
  }

  /** One more round: the verdicts on the runs of the last claim, and the next claim. */
  lemma RoundAdds(env: Env, ref: Commit, events: seq<Event>, verdicts: seq<Event>, reply: Reply, n: nat)
    requires InRounds(env, ref, events) && events != [] && Last(events).Claim? && n > 0
    requires HeardAt(env, n - 1, Last(events).reply) && Last(events).reply.Unreconciled? && Last(events).reply.stale != []
    requires AreVerdicts(env, ref, Last(events).reply.stale, verdicts, n)
    requires HeardAt(env, n + 2 * |Last(events).reply.stale|, reply)
    ensures InRounds(env, ref, events + verdicts + [Claim(reply)])
    ensures Claims(events + verdicts + [Claim(reply)]) == Claims(events) + 1
  {
    var all := events + verdicts + [Claim(reply)];
    assert Init(all) == events + verdicts;
    assert NoClaims(verdicts);
    ClaimsStay(events, verdicts);
    forall i: nat, j: nat | NextClaim(all, i, j) ensures IsRound(env, ref, all, i, j) {
      if j < |events| {
        assert all == events + (verdicts + [Claim(reply)]);
        RoundIn(env, ref, events, verdicts + [Claim(reply)], i, j);
      } else {
        LastPair(events, verdicts, reply, i, j);
        assert RoundAt(env, ref, all, i, j, n);
      }
    }
  }

  lemma LastPair(events: seq<Event>, verdicts: seq<Event>, reply: Reply, i: nat, j: nat)
    requires events != [] && Last(events).Claim? && NoClaims(verdicts) && j >= |events|
    requires NextClaim(events + verdicts + [Claim(reply)], i, j)
    ensures var all := events + verdicts + [Claim(reply)];
            i == |events| - 1 && j == |all| - 1 && all[i] == Last(events) && all[j] == Claim(reply) && all[i + 1..j] == verdicts
  {
    var all := events + verdicts + [Claim(reply)];
    assert forall k :: |events| <= k < |all| - 1 ==> all[k] == verdicts[k - |events|];
    assert all[|events| - 1] == Last(events);
  }

  // ------------------------------------------------- the rounds as they are made

  /** The interrupted runs that the n-th call is answered with. */
  function StaleAt(env: Env, n: nat): seq<Stale> {
    if env.replies(n).Unreconciled? then env.replies(n).stale else []
  }

  /** What a run has told up to a call. */
  datatype Told = Told(events: seq<Event>, clock: nat)

  /** One more round after a claim in the last call, if that was answered with interrupted runs and the next claim is answered. */
  function OneRound(env: Env, ref: Commit, t: Told): Option<Told> {
    if t.clock == 0 then None
    else
      var stale := StaleAt(env, t.clock - 1);
      var next := t.clock + 2 * |stale|;
      if stale == [] || env.lab.fails(next) then None
      else Some(Told(t.events + VerdictEvents(env, ref, stale, |stale|, t.clock) + [Claim(env.replies(next))], next + 1))
  }

  /** A claim at the n-th call, and then `k` rounds. */
  function Rounds(env: Env, ref: Commit, n: nat, k: nat): Option<Told> {
    if k == 0 then (if env.lab.fails(n) then None else Some(Told([Fetch(ref), Claim(env.replies(n))], n + 1)))
    else
      var t := Rounds(env, ref, n, k - 1);
      if t.None? then None else OneRound(env, ref, t.value)
  }

  /** What holds of a run that has just claimed and was answered. */
  ghost predicate Claiming(env: Env, ref: Commit, n: nat, t: Told) {
    && t.clock > n && !env.lab.fails(t.clock - 1) && t.events != [] && t.events[0] == Fetch(ref)
    && Last(t.events) == Claim(env.replies(t.clock - 1)) && InRounds(env, ref, t.events)
  }

  lemma RoundClaims(env: Env, ref: Commit, n: nat, t: Told)
    requires Claiming(env, ref, n, t) && OneRound(env, ref, t).Some?
    ensures Claiming(env, ref, n, OneRound(env, ref, t).value)
    ensures Claims(OneRound(env, ref, t).value.events) == Claims(t.events) + 1
  {
    var stale := StaleAt(env, t.clock - 1);
    var verdicts, next := VerdictEvents(env, ref, stale, |stale|, t.clock), t.clock + 2 * |stale|;
    VerdictEventsAre(env, ref, stale, |stale|, t.clock);
    assert stale[..|stale|] == stale;
    RoundAdds(env, ref, t.events, verdicts, env.replies(next), t.clock);
    assert (t.events + verdicts + [Claim(env.replies(next))])[0] == t.events[0];
  }

  /** The rounds of a run are rounds indeed. */
  lemma {:induction false} RoundsAreMade(env: Env, ref: Commit, n: nat, k: nat)
    requires Rounds(env, ref, n, k).Some?
    ensures Claiming(env, ref, n, Rounds(env, ref, n, k).value) && Claims(Rounds(env, ref, n, k).value.events) == k + 1
  {
    if k == 0 {
      FirstClaim(env, ref, env.replies(n));
    } else {
      RoundsAreMade(env, ref, n, k - 1);
      RoundClaims(env, ref, n, Rounds(env, ref, n, k - 1).value);
    }
  }

  /** One claim makes no round yet. */
  lemma FirstClaim(env: Env, ref: Commit, reply: Reply)
    ensures InRounds(env, ref, [Fetch(ref), Claim(reply)]) && Claims([Fetch(ref), Claim(reply)]) == 1
  {
    var events := [Fetch(ref), Claim(reply)];
    assert Init(events) == [Fetch(ref)] && Init([Fetch(ref)]) == [];
    assert Claims([Fetch(ref)]) == Claims([]);
  }

  /** After its last claim the run has settled a first part of the interrupted runs that the claim named. */
  predicate BreaksOff(env: Env, ref: Commit, events: seq<Event>, more: seq<Event>, n: nat) {
    && events != [] && Last(events).Claim? && Last(events).reply.Unreconciled? && n > 0
    && HeardAt(env, n - 1, Last(events).reply) && |more| <= |Last(events).reply.stale|
    && AreVerdicts(env, ref, Last(events).reply.stale[..|more|], more, n)
  }

  /** A run that ends without a job has told nothing, or only what it fetched, or breaks off after a claim. */
  ghost predicate StopsShort(env: Env, ref: Commit, events: seq<Event>) {
    || events == [] || events == [Fetch(ref)]
    || exists k, n :: 0 <= k <= |events| && BreaksOff(env, ref, events[..k], events[k..], n)
  }

  lemma BrokenOff(env: Env, ref: Commit, events: seq<Event>, more: seq<Event>, n: nat)
    requires BreaksOff(env, ref, events, more, n)
    ensures StopsShort(env, ref, events + more)
  {
    assert (events + more)[..|events|] == events && (events + more)[|events|..] == more;
  }

  /** What a run tells begins with the commit it fetched, and it claims in rounds, four times at most. */
  ghost predicate ToldInRounds(env: Env, ref: Commit, events: seq<Event>) {
    (events != [] ==> events[0] == Fetch(ref)) && InRounds(env, ref, events) && Claims(events) <= 4
  }

  lemma FirstRound(env: Env, ref: Commit, n: nat, t: Told)
    requires !env.lab.fails(n) && t == Told([Fetch(ref), Claim(env.replies(n))], n + 1)
    ensures Rounds(env, ref, n, 0) == Some(t)
  {
  }

  lemma NextRound(env: Env, ref: Commit, n: nat, k: nat, t: Told, stale: seq<Stale>, u: Told)
    requires Rounds(env, ref, n, k) == Some(t) && t.clock > 0 && env.replies(t.clock - 1) == Unreconciled(stale) && stale != []
    requires u.clock == t.clock + 2 * |stale| + 1 && !env.lab.fails(u.clock - 1)
    requires u.events == t.events + VerdictEvents(env, ref, stale, |stale|, t.clock) + [Claim(env.replies(u.clock - 1))]
    ensures Rounds(env, ref, n, k + 1) == Some(u)
  {
  }

  lemma StopsInRound(env: Env, ref: Commit, n: nat, t: Told, stale: seq<Stale>, i: nat)
    requires Claiming(env, ref, n, t) && env.replies(t.clock - 1) == Unreconciled(stale) && i <= |stale|
    ensures var events := t.events + VerdictEvents(env, ref, stale, i, t.clock);
            StopsShort(env, ref, events) && InRounds(env, ref, events) && Claims(events) == Claims(t.events)
            && events != [] && events[0] == Fetch(ref)
  {
    var told := VerdictEvents(env, ref, stale, i, t.clock);
    VerdictEventsAre(env, ref, stale, i, t.clock);
    BrokenOff(env, ref, t.events, told, t.clock);
    RoundsStay(env, ref, t.events, told);
    assert (t.events + told)[0] == t.events[0];
  }

  lemma FetchedOnly(env: Env, ref: Commit)
    ensures ToldInRounds(env, ref, [Fetch(ref)])
  {
    assert Init([Fetch(ref)]) == [] && Claims([Fetch(ref)]) == Claims([]);
  }

  /** A run that could not even fetch has told nothing. */
  lemma NothingTold(env: Env, ref: Commit, clock: nat)
    requires clock > 0 && env.lab.fails(clock - 1)
    ensures ToldInRounds(env, ref, []) && EndsEarly(env, ref, [], clock, Failed)
  {
  }

  lemma StoppedFirst(env: Env, ref: Commit, t: Told)
    requires t.events == [Fetch(ref)] && t.clock > 0 && env.lab.fails(t.clock - 1)
    ensures Ends(env, ref, t, Failed)
  {
    FetchedOnly(env, ref);
  }

  /** A run that stops before it has a job: at a call that fails, and in rounds. */
  lemma StoppedInRounds(env: Env, ref: Commit, n: nat, k: nat, t: Told, stale: seq<Stale>, i: nat, u: Told)
    requires Rounds(env, ref, n, k) == Some(t) && k <= 3 && t.clock > 0
    requires env.replies(t.clock - 1) == Unreconciled(stale) && i <= |stale|
    requires u.events == t.events + VerdictEvents(env, ref, stale, i, t.clock) && u.clock > 0 && env.lab.fails(u.clock - 1)
    ensures Ends(env, ref, u, Failed)
  {
    RoundsAreMade(env, ref, n, k);
    StopsInRound(env, ref, n, t, stale, i);
  }

  /** A run that has claimed is in rounds, and if it was given nothing that is the end of it. */
  lemma ClaimedInRounds(env: Env, ref: Commit, n: nat, k: nat, t: Told)
    requires Rounds(env, ref, n, k) == Some(t) && k <= 3
    ensures Claiming(env, ref, n, t) && ToldInRounds(env, ref, t.events)
    ensures !env.replies(t.clock - 1).Claimed? && (StaleAt(env, t.clock - 1) != [] ==> k == 3) ==>
              Ends(env, ref, t, NothingToLand)
  {
    RoundsAreMade(env, ref, n, k);
  }

  /** The job that the last claim was answered with. */
  lemma GivenNow(env: Env, reply: Reply, from: nat, clock: nat)
    requires reply.Claimed? && from < clock && HeardAt(env, clock - 1, reply)
    ensures forall to :: to >= clock ==> WasGiven(env, reply.run, reply.entries, Span(from, to))
  {
    assert HeardAt(env, clock - 1, Claimed(reply.run, reply.entries));
  }

  /** A runner with a job stays in rounds, whatever else it tells. */
  lemma JobInRounds(env: Env, ref: Commit, before: seq<Event>, events: seq<Event>)
    requires before <= events && ToldInRounds(env, ref, before) && before != []
    requires Play(env.git, env.me, before).Some? && Play(env.git, env.me, before).value.Job?
    requires Play(env.git, env.me, events).Some?
    ensures ToldInRounds(env, ref, events)
  {
    var more := events[|before|..];
    assert events == before + more;
    NoClaimOnJob(env.git, env.me, before, more);
    RoundsStay(env, ref, before, more);
  }

  /** How a run ends: it threw, there was nothing to land, or its report was taken. */
  datatype Exit = Failed | NothingToLand | Reported

  /** What a run leaves behind that ended without a job: nothing to land, or a call that failed. */
  ghost predicate EndsEarly(env: Env, ref: Commit, events: seq<Event>, clock: nat, exit: Exit) {
    match exit
    case NothingToLand =>
      && events != [] && Last(events).Claim? && clock > 0 && HeardAt(env, clock - 1, Last(events).reply)
      && !Last(events).reply.Claimed?
      && (Last(events).reply.Unreconciled? && Last(events).reply.stale != [] ==> Claims(events) == 4)
    case Failed => clock > 0 && env.lab.fails(clock - 1) && StopsShort(env, ref, events)
    case Reported => false
  }

  /** A run without a job ends here, in rounds. */
  ghost predicate Ends(env: Env, ref: Commit, t: Told, exit: Exit) {
    ToldInRounds(env, ref, t.events) && EndsEarly(env, ref, t.events, t.clock, exit)
  }

  /** The server gave the run this job at one of these calls. */
  ghost predicate WasGiven(env: Env, run: string, entries: seq<Entry>, span: Span) {
    exists n :: span.from <= n < span.to && HeardAt(env, n, Claimed(run, entries))
  }

  /** Once a runner has a job it claims no more. */
  lemma {:induction false} NoClaimOnJob(g: Rules, me: string, events: seq<Event>, more: seq<Event>)
    requires Play(g, me, events).Some? && Play(g, me, events).value.Job? && Play(g, me, events + more).Some?
    ensures NoClaims(more) && Play(g, me, events + more).value.Job?
  {
    if more == [] {
      assert events + more == events;
    } else {
      assert Init(events + more) == events + Init(more) && more == Init(more) + [Last(more)];
      NoClaimOnJob(g, me, events, Init(more));
    }
  }
}
