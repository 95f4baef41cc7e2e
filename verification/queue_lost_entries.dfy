/** Two histories in which an entry is on the remote and back in the queue: a late push, and a check without an answer. */
module QueueLostEntries {
  import opened Options
  import opened Git
  import opened Queue
  import opened QueueHistories

  function Anything(): Rules {
    Rules((tree: string, commit: Commit) => Some("b"), (commit: Commit, before: string, after: string) => false)
  }

  const OLD: Commit := Root("a")
  const SOURCE: Commit := Child(OLD, "b", Outside("w"), 0)
  const CHANGE: Entry := Entry("e", OLD, SOURCE, [SOURCE], Skipped(""))
  const NEW: Commit := Child(OLD, "b", Runner("x"), 0)
  const PLAN: PushPlan := PushPlan(OLD, [Stacked(CHANGE, [Mapping(SOURCE, NEW, false)], NEW)])

  function Start(): State {
    State(OLD, map[], map[], map[])
  }

  /** Runner x claims the entry and plans its push. */
  function Opening(): seq<Step> {
    [Submit(CHANGE),
     Act("x", Fetch(OLD), true),
     ClaimRun("x", "r", [CHANGE], true),
     Act("x", Plan(PLAN, true), true)]
  }

  /** Runner x pushes and dies; runner y fetches that; Git does not answer y's check. */
  function BlindVerdict(): seq<Step> {
    Opening() +
    [Act("x", Push(NEW, true), true),
     Abandon("r"),
     Act("y", Fetch(NEW), true),
     Act("y", Claim(Unreconciled([Stale("r", PLAN)])), true),
     Act("y", Reconcile("r", false, false), true)]
  }

  /** Runner x plans and stalls; runner y fetches; x pushes; y settles x's run by what it fetched. */
  function LatePush(): seq<Step> {
    Opening() +
    [Abandon("r"),
     Act("y", Fetch(OLD), true),
     Act("y", Claim(Unreconciled([Stale("r", PLAN)])), true),
     Act("x", Push(NEW, true), true),
     Act("y", Reconcile("r", true, false), true)]
  }

  /** One more step of a history. */
  lemma Then(g: Rules, s0: State, p: seq<Step>, k: nat, s: State, t: State)
    requires k < |p| && After(g, s0, p[..k]) == Some(s) && Next(g, s, p[k]) == Some(t)
    ensures After(g, s0, p[..k + 1]) == Some(t)
  {
    assert Init(p[..k + 1]) == p[..k];
  }

  lemma PlanIsOk(g: Rules)
    requires g == Anything()
    ensures PlanOk(g, "x", [CHANGE], PLAN) && PLAN.tip() == NEW
  {
    var item := PLAN.stack[0];
    assert Init(PLAN.stack) == [] && Init(item.mapping) == [] && Init(CHANGE.commits) == [];
    assert Tip(OLD, Init(PLAN.stack)) == OLD;
    assert g.apply("a", SOURCE) == Some("b");
    assert PickOk(g, "x", OLD, SOURCE, item.mapping[0]);
    assert PicksOk(g, "x", OLD, [], []);
    assert Last(CHANGE.commits) == SOURCE && Last(item.mapping) == item.mapping[0] && Head(OLD, []) == OLD;
    assert PicksOk(g, "x", OLD, CHANGE.commits, item.mapping);
    assert StackOk(g, "x", OLD, []);
    assert Last(PLAN.stack) == item && Last(item.mapping).target == NEW;
    assert StackOk(g, "x", OLD, PLAN.stack);
  }

  function Job1(stage: Stage): Local { Job(OLD, "r", [CHANGE], stage, None) }

  function State1(slot: EntryState, plan: Option<PushPlan>, state: RunState, stage: Stage): State {
    State(OLD, map["e" := Slot(CHANGE, slot)], map["r" := Run("x", [CHANGE], plan, state)], map["x" := Job1(stage)])
  }

  lemma Step1(g: Rules)
    ensures Next(g, Start(), Submit(CHANGE)) == Some(State(OLD, map["e" := Slot(CHANGE, Pending)], map[], map[]))
  {
  }

  lemma Step2(g: Rules)
    ensures Next(g, State(OLD, map["e" := Slot(CHANGE, Pending)], map[], map[]), Act("x", Fetch(OLD), true))
         == Some(State(OLD, map["e" := Slot(CHANGE, Pending)], map[], map["x" := Fetched(OLD, [])]))
  {
  }

  lemma Step3(g: Rules)
    ensures Next(g, State(OLD, map["e" := Slot(CHANGE, Pending)], map[], map["x" := Fetched(OLD, [])]),
                 ClaimRun("x", "r", [CHANGE], true))
         == Some(State1(Running("r"), None, Active, Open))
  {
    var s := State(OLD, map["e" := Slot(CHANGE, Pending)], map[], map["x" := Fetched(OLD, [])]);
    assert Claimable(s, "x", "r", [CHANGE]);
    assert CHANGE in [CHANGE] && CHANGE.id == "e";
    var t := Next(g, s, ClaimRun("x", "r", [CHANGE], true)).value;
    assert t.slots == map["e" := Slot(CHANGE, Running("r"))];
    assert t.locals == map["x" := Job1(Open)];
    assert t.runs == map["r" := Run("x", [CHANGE], None, Active)];
  }

  lemma Step4(g: Rules)
    requires g == Anything()
    ensures Next(g, State1(Running("r"), None, Active, Open), Act("x", Plan(PLAN, true), true))
         == Some(State1(Running("r"), Some(PLAN), Active, Planned(PLAN)))
  {
    PlanIsOk(g);
    var t := Next(g, State1(Running("r"), None, Active, Open), Act("x", Plan(PLAN, true), true)).value;
    assert t.locals == map["x" := Job1(Planned(PLAN))];
    assert t.runs == map["r" := Run("x", [CHANGE], Some(PLAN), Active)];
  }

  lemma Step5(g: Rules)
    ensures Next(g, State1(Running("r"), Some(PLAN), Active, Planned(PLAN)), Abandon("r"))
         == Some(State1(Running("r"), Some(PLAN), Abandoned(false), Planned(PLAN)))
  {
    var t := Next(g, State1(Running("r"), Some(PLAN), Active, Planned(PLAN)), Abandon("r")).value;
    assert t.runs == map["r" := Run("x", [CHANGE], Some(PLAN), Abandoned(false))];
  }

  /** The state while both runners are under way: x holds its plan, y what it fetched. */
  function State2(remote: Commit, ref: Commit, slot: EntryState, state: RunState, stage: Stage, stale: seq<Stale>): State {
    State(remote, map["e" := Slot(CHANGE, slot)], map["r" := Run("x", [CHANGE], Some(PLAN), state)],
          map["x" := Job1(stage), "y" := Fetched(ref, stale)])
  }

  const TOLD: seq<Stale> := [Stale("r", PLAN)]

  lemma Step6(g: Rules)
    ensures Next(g, State1(Running("r"), Some(PLAN), Abandoned(false), Planned(PLAN)), Act("y", Fetch(OLD), true))
         == Some(State2(OLD, OLD, Running("r"), Abandoned(false), Planned(PLAN), []))
  {
    var t := Next(g, State1(Running("r"), Some(PLAN), Abandoned(false), Planned(PLAN)), Act("y", Fetch(OLD), true)).value;
    assert t.locals == map["x" := Job1(Planned(PLAN)), "y" := Fetched(OLD, [])];
  }

  lemma Step7(g: Rules)
    ensures Next(g, State2(OLD, OLD, Running("r"), Abandoned(false), Planned(PLAN), []),
                 Act("y", Claim(Unreconciled(TOLD)), true))
         == Some(State2(OLD, OLD, Running("r"), Abandoned(false), Planned(PLAN), TOLD))
  {
    var s := State2(OLD, OLD, Running("r"), Abandoned(false), Planned(PLAN), []);
    assert LocalOf(s, "y") == Fetched(OLD, []);
    assert Effect(s, LocalOf(s, "y"), Claim(Unreconciled(TOLD)), true) == Some(s);
    var t := Next(g, s, Act("y", Claim(Unreconciled(TOLD)), true)).value;
    assert t.locals == map["x" := Job1(Planned(PLAN)), "y" := Fetched(OLD, TOLD)];
  }

  lemma Step8(g: Rules)
    requires PLAN.tip() == NEW
    ensures Next(g, State2(OLD, OLD, Running("r"), Abandoned(false), Planned(PLAN), TOLD), Act("x", Push(NEW, true), true))
         == Some(State2(NEW, OLD, Running("r"), Abandoned(false), Pushed(PLAN, true), TOLD))
  {
    var s := State2(OLD, OLD, Running("r"), Abandoned(false), Planned(PLAN), TOLD);
    assert LocalOf(s, "x") == Job1(Planned(PLAN)) && IsAncestor(OLD, NEW);
    var t := Next(g, s, Act("x", Push(NEW, true), true)).value;
    assert t.locals == map["x" := Job1(Pushed(PLAN, true)), "y" := Fetched(OLD, TOLD)];
  }

  lemma VerdictIsNo()
    ensures Verdicts([CHANGE], PLAN, false) == [("e", Requeue(NotPushed))]
  {
    assert Init([CHANGE]) == [] && Last([CHANGE]) == CHANGE;
    assert Verdicts([], PLAN, false) == [];
  }

  lemma SettledBack()
    ensures Settle(map["e" := Slot(CHANGE, Running("r"))], "r", [("e", Requeue(NotPushed))]) == map["e" := Slot(CHANGE, Pending)]
  {
    var outcomes := [("e", Requeue(NotPushed))];
    assert Last(outcomes) == ("e", Requeue(NotPushed)) && Find(outcomes, "e") == Some(Requeue(NotPushed));
  }

  lemma MaySayNo(g: Rules, ref: Commit, checked: bool)
    requires PLAN.tip() == NEW && (ref == OLD || !checked)
    ensures LocalStep(g, "y", Fetched(ref, TOLD), Reconcile("r", checked, false)) == Some(Fetched(ref, TOLD))
  {
    assert TOLD[0] in TOLD && TOLD[0].run == "r" && !IsAncestor(NEW, OLD);
  }

  lemma NoSettles(g: Rules, ref: Commit, checked: bool)
    ensures Effect(State2(NEW, ref, Running("r"), Abandoned(false), Pushed(PLAN, true), TOLD), Fetched(ref, TOLD),
                   Reconcile("r", checked, false), true)
         == Some(State2(NEW, ref, Pending, Abandoned(true), Pushed(PLAN, true), TOLD))
  {
    var s := State2(NEW, ref, Running("r"), Abandoned(false), Pushed(PLAN, true), TOLD);
    VerdictIsNo();
    SettledBack();
    assert s.runs["r" := Run("x", [CHANGE], Some(PLAN), Abandoned(true))]
        == map["r" := Run("x", [CHANGE], Some(PLAN), Abandoned(true))];
  }

  /** A "not pushed" verdict on x's run by y, which fetched `ref`. */
  lemma ToldNo(g: Rules, ref: Commit, checked: bool)
    requires PLAN.tip() == NEW && (ref == OLD || !checked)
    ensures Next(g, State2(NEW, ref, Running("r"), Abandoned(false), Pushed(PLAN, true), TOLD),
                 Act("y", Reconcile("r", checked, false), true))
         == Some(State2(NEW, ref, Pending, Abandoned(true), Pushed(PLAN, true), TOLD))
  {
    var s := State2(NEW, ref, Running("r"), Abandoned(false), Pushed(PLAN, true), TOLD);
    assert LocalOf(s, "y") == Fetched(ref, TOLD);
    MaySayNo(g, ref, checked);
    NoSettles(g, ref, checked);
    assert s.locals["y" := Fetched(ref, TOLD)] == s.locals;
  }

  /** Four steps from the start, one state after the other. */
  lemma TakeFour(g: Rules, s: State, p: seq<Step>, a: State, b: State, c: State, d: State)
    requires |p| == 4 && Next(g, s, p[0]) == Some(a) && Next(g, a, p[1]) == Some(b)
    requires Next(g, b, p[2]) == Some(c) && Next(g, c, p[3]) == Some(d)
    ensures After(g, s, p) == Some(d)
  {
    Then(g, s, p, 0, s, a);
    Then(g, s, p, 1, a, b);
    Then(g, s, p, 2, b, c);
    Then(g, s, p, 3, c, d);
    assert p[..4] == p;
  }

  lemma FirstFour(g: Rules)
    requires g == Anything()
    ensures After(g, Start(), Opening()) == Some(State1(Running("r"), Some(PLAN), Active, Planned(PLAN)))
  {
    Step1(g);
    Step2(g);
    Step3(g);
    Step4(g);
    TakeFour(g, Start(), Opening(), State(OLD, map["e" := Slot(CHANGE, Pending)], map[], map[]),
             State(OLD, map["e" := Slot(CHANGE, Pending)], map[], map["x" := Fetched(OLD, [])]),
             State1(Running("r"), None, Active, Open), State1(Running("r"), Some(PLAN), Active, Planned(PLAN)));
  }

  /** The entry's commit is on the remote, and the queue holds the entry as waiting. */
  predicate Lost(s: State) {
    s.remote == NEW && Delivered(s, "r", "e") && "e" in s.slots && s.slots["e"].state == Pending
  }

  lemma FinalIsLost(ref: Commit)
    requires PLAN.tip() == NEW
    ensures Lost(State2(NEW, ref, Pending, Abandoned(true), Pushed(PLAN, true), TOLD))
  {
    var s := State2(NEW, ref, Pending, Abandoned(true), Pushed(PLAN, true), TOLD);
    assert LocalOf(s, "x") == Job1(Pushed(PLAN, true));
    assert Last(PLAN.stack).entry.id == "e";
  }

  lemma LateIndeed(s: State)
    requires "r" in s.runs && s.runs["r"].owner == "x"
    ensures AllAnswered(LatePush()) && !NoLatePush(s, LatePush())
  {
    var p := LatePush();
    assert IsFetch(p[5], "y") && IsVerdict(p[8], "r") && IsPush(p[7], "x");
    assert PushedAfter(p, 5, "x");
  }

  /** Five more steps, one state after the other. */
  lemma TakeFive(g: Rules, s0: State, p: seq<Step>, s: State, a: State, b: State, c: State, d: State, e: State)
    requires |p| == 9 && After(g, s0, p[..4]) == Some(s) && Next(g, s, p[4]) == Some(a) && Next(g, a, p[5]) == Some(b)
    requires Next(g, b, p[6]) == Some(c) && Next(g, c, p[7]) == Some(d) && Next(g, d, p[8]) == Some(e)
    ensures After(g, s0, p) == Some(e)
  {
    Then(g, s0, p, 4, s, a);
    Then(g, s0, p, 5, a, b);
    Then(g, s0, p, 6, b, c);
    Then(g, s0, p, 7, c, d);
    Then(g, s0, p, 8, d, e);
    assert p[..9] == p;
  }

  /** Five more steps after the first four. */
  lemma FiveMore(g: Rules, p: seq<Step>, a: State, b: State, c: State, d: State, e: State)
    requires g == Anything() && |p| == 9 && Opening() <= p
    requires Next(g, State1(Running("r"), Some(PLAN), Active, Planned(PLAN)), p[4]) == Some(a)
    requires Next(g, a, p[5]) == Some(b) && Next(g, b, p[6]) == Some(c) && Next(g, c, p[7]) == Some(d)
    requires Next(g, d, p[8]) == Some(e)
    ensures After(g, Start(), p) == Some(e)
  {
    FirstFour(g);
    assert p[..4] == Opening();
    TakeFive(g, Start(), p, State1(Running("r"), Some(PLAN), Active, Planned(PLAN)), a, b, c, d, e);
  }

  lemma LateEnd(g: Rules)
    requires g == Anything()
    ensures After(g, Start(), LatePush()) == Some(State2(NEW, OLD, Pending, Abandoned(true), Pushed(PLAN, true), TOLD))
  {
    PlanIsOk(g);
    Step5(g); Step6(g); Step7(g); Step8(g);
    ToldNo(g, OLD, true);
    FiveMore(g, LatePush(), State1(Running("r"), Some(PLAN), Abandoned(false), Planned(PLAN)),
             State2(OLD, OLD, Running("r"), Abandoned(false), Planned(PLAN), []),
             State2(OLD, OLD, Running("r"), Abandoned(false), Planned(PLAN), TOLD),
             State2(NEW, OLD, Running("r"), Abandoned(false), Pushed(PLAN, true), TOLD),
             State2(NEW, OLD, Pending, Abandoned(true), Pushed(PLAN, true), TOLD));
  }

  /** The late push: every step of this history can happen, and at its end the entry is lost. */
  lemma LatePushLosesAnEntry(g: Rules)
    requires g == Anything()
    ensures Initial(Start()) && After(g, Start(), LatePush()).Some? && Lost(After(g, Start(), LatePush()).value)
    ensures AllAnswered(LatePush()) && !NoLatePush(After(g, Start(), LatePush()).value, LatePush())
  {
    PlanIsOk(g);
    LateEnd(g);
    FinalIsLost(OLD);
    LateIndeed(State2(NEW, OLD, Pending, Abandoned(true), Pushed(PLAN, true), TOLD));
  }

  // --------------------------------------------------------- without an answer

  lemma Blind5(g: Rules)
    requires PLAN.tip() == NEW
    ensures Next(g, State1(Running("r"), Some(PLAN), Active, Planned(PLAN)), Act("x", Push(NEW, true), true))
         == Some(State1(Running("r"), Some(PLAN), Active, Pushed(PLAN, true)).(remote := NEW))
  {
    var s := State1(Running("r"), Some(PLAN), Active, Planned(PLAN));
    assert LocalOf(s, "x") == Job1(Planned(PLAN)) && IsAncestor(OLD, NEW);
    var t := Next(g, s, Act("x", Push(NEW, true), true)).value;
    assert t.locals == map["x" := Job1(Pushed(PLAN, true))];
  }

  lemma Blind6(g: Rules)
    ensures Next(g, State1(Running("r"), Some(PLAN), Active, Pushed(PLAN, true)).(remote := NEW), Abandon("r"))
         == Some(State1(Running("r"), Some(PLAN), Abandoned(false), Pushed(PLAN, true)).(remote := NEW))
  {
    var t := Next(g, State1(Running("r"), Some(PLAN), Active, Pushed(PLAN, true)).(remote := NEW), Abandon("r")).value;
    assert t.runs == map["r" := Run("x", [CHANGE], Some(PLAN), Abandoned(false))];
  }

  lemma Blind7(g: Rules)
    ensures Next(g, State1(Running("r"), Some(PLAN), Abandoned(false), Pushed(PLAN, true)).(remote := NEW),
                 Act("y", Fetch(NEW), true))
         == Some(State2(NEW, NEW, Running("r"), Abandoned(false), Pushed(PLAN, true), []))
  {
    var s := State1(Running("r"), Some(PLAN), Abandoned(false), Pushed(PLAN, true)).(remote := NEW);
    var t := Next(g, s, Act("y", Fetch(NEW), true)).value;
    assert t.locals == map["x" := Job1(Pushed(PLAN, true)), "y" := Fetched(NEW, [])];
  }

  lemma Blind8(g: Rules)
    ensures Next(g, State2(NEW, NEW, Running("r"), Abandoned(false), Pushed(PLAN, true), []),
                 Act("y", Claim(Unreconciled(TOLD)), true))
         == Some(State2(NEW, NEW, Running("r"), Abandoned(false), Pushed(PLAN, true), TOLD))
  {
    var s := State2(NEW, NEW, Running("r"), Abandoned(false), Pushed(PLAN, true), []);
    assert LocalOf(s, "y") == Fetched(NEW, []);
    assert Effect(s, LocalOf(s, "y"), Claim(Unreconciled(TOLD)), true) == Some(s);
    var t := Next(g, s, Act("y", Claim(Unreconciled(TOLD)), true)).value;
    assert t.locals == map["x" := Job1(Pushed(PLAN, true)), "y" := Fetched(NEW, TOLD)];
  }

  lemma BlindIndeed(s: State)
    requires "r" in s.runs && s.runs["r"].owner == "x"
    ensures !NoBlindVerdict(s, BlindVerdict())
  {
    var p := BlindVerdict();
    assert IsVerdict(p[8], "r") && !p[8].event.checked && IsPush(p[4], "x");
    assert Pushes(p, "x");
  }

  /** The check without an answer: runner y has fetched the push and still says "not pushed", and the entry is lost. */
  lemma BlindVerdictLosesAnEntry(g: Rules)
    requires g == Anything()
    ensures Initial(Start()) && After(g, Start(), BlindVerdict()).Some? && Lost(After(g, Start(), BlindVerdict()).value)
    ensures !NoBlindVerdict(After(g, Start(), BlindVerdict()).value, BlindVerdict())
  {
    PlanIsOk(g);
    Blind5(g); Blind6(g); Blind7(g); Blind8(g);
    ToldNo(g, NEW, false);
    var lost := State2(NEW, NEW, Pending, Abandoned(true), Pushed(PLAN, true), TOLD);
    FiveMore(g, BlindVerdict(), State1(Running("r"), Some(PLAN), Active, Pushed(PLAN, true)).(remote := NEW),
             State1(Running("r"), Some(PLAN), Abandoned(false), Pushed(PLAN, true)).(remote := NEW),
             State2(NEW, NEW, Running("r"), Abandoned(false), Pushed(PLAN, true), []),
             State2(NEW, NEW, Running("r"), Abandoned(false), Pushed(PLAN, true), TOLD), lost);
    FinalIsLost(NEW);
    BlindIndeed(lost);
  }
}
