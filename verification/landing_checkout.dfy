/**
 * The checkout a landing run works in: stacking entries on the base, and
 * searching a failing stack for the entry that broke it.
 */
module LandingCheckout {
  import opened Options
  import opened Git
  import opened Gate
  import opened Queue

  /**
   * Everything outside the run. Calls out of the program are numbered; the n-th
   * fails when `lab.fails(n)`, and otherwise answers with the matching field.
   */
  datatype Env = Env(
    me: string,
    git: Rules,
    lab: Lab,
    fetched: nat -> Commit,
    replies: nat -> Reply,
    gate: nat -> Option<Config>,
    bundleTip: (nat, Entry) -> Commit,
    leaseLost: nat -> bool,
    accepts: nat -> bool,
    stray: nat -> string)

  /** The calls from one up to, but not including, another. */
  datatype Span = Span(from: nat, to: nat)

  predicate Inside(a: Span, b: Span) {
    b.from <= a.from && a.to <= b.to
  }

  /** Some of these calls failed. */
  ghost predicate CallFailed(env: Env, span: Span) {
    exists n :: span.from <= n < span.to && env.lab.fails(n)
  }

  /** The run's lease was lost before one of these calls or right after them. */
  ghost predicate LeaseLost(env: Env, span: Span) {
    exists n :: span.from <= n <= span.to && env.leaseLost(n)
  }

  /** Something went wrong in these calls that ends a run before its push. */
  ghost predicate Troubled(env: Env, span: Span) {
    CallFailed(env, span) || LeaseLost(env, span)
  }

  lemma TroubleWidens(env: Env, span: Span, wider: Span)
    requires Troubled(env, span) && Inside(span, wider)
    ensures Troubled(env, wider)
  {
  }

  /**
   * What a run has looked at or done, each at a call of its own: a gate, a
   * probe, a bundle's tip, the saved gate, or the push.
   */
  datatype Check =
    | GateCheck(span: Span, base: string, config: Config, tree: string, gate: GateResult)
    | ProbeCheck(at: nat, tree: string, probe: Probe, fails: bool)
    | TipCheck(at: nat, entry: Entry, tip: Commit)
    | ConfigCheck(at: nat, saved: Option<Config>)
    | PushCheck(at: nat, tip: Commit, accepted: bool)

  /** The gates among what was looked at. */
  ghost function GatesIn(checks: set<Check>): set<Check> {
    set c | c in checks && c.GateCheck?
  }

  lemma NoMoreGates(checks: set<Check>, c: Check)
    requires !c.GateCheck?
    ensures GatesIn(checks + {c}) == GatesIn(checks)
  {
  }

  lemma OneMoreGate(checks: set<Check>, c: Check)
    ensures |GatesIn(checks + {c})| <= |GatesIn(checks)| + 1
  {
    if c.GateCheck? { assert GatesIn(checks + {c}) == GatesIn(checks) + {c}; } else { NoMoreGates(checks, c); }
  }

  /** A stretch of a run: its calls, and what was looked at until its end. */
  datatype Trail = Trail(span: Span, checks: set<Check>)

  predicate Part(a: Trail, b: Trail) {
    Inside(a.span, b.span) && a.checks <= b.checks
  }

  /** The run ran this probe on this tree at its n-th call, and saw this. */
  predicate ProbeMade(env: Env, n: nat, tree: string, probe: Probe, b: bool, checks: set<Check>) {
    ProbeCheck(n, tree, probe, b) in checks && ProbeFails(env.lab, n, tree, probe) == Some(b)
  }

  // ---------------------------------------------------------- order of entries

  /** `b` with some entries left out, in the same order. */
  predicate IsSub(a: seq<Entry>, b: seq<Entry>) {
    a == [] || (b != [] && ((Last(a) == Last(b) && IsSub(Init(a), Init(b))) || IsSub(a, Init(b))))
  }

  /** `c` is `a` and `b` shuffled together, each in its own order. */
  predicate IsMerge(a: seq<Entry>, b: seq<Entry>, c: seq<Entry>) {
    if c == [] then a == [] && b == [] else
      (a != [] && Last(a) == Last(c) && IsMerge(Init(a), b, Init(c)))
      || (b != [] && Last(b) == Last(c) && IsMerge(a, Init(b), Init(c)))
  }

  lemma {:induction false} MergeFacts(a: seq<Entry>, b: seq<Entry>, c: seq<Entry>)
    requires IsMerge(a, b, c)
    ensures IsSub(b, c) && |a| + |b| == |c|
    ensures forall e :: e in c <==> e in a || e in b
  {
    if c != [] {
      assert c == Init(c) + [Last(c)];
      if a != [] && Last(a) == Last(c) && IsMerge(Init(a), b, Init(c)) {
        assert a == Init(a) + [Last(a)];
        MergeFacts(Init(a), b, Init(c));
      } else {
        assert b == Init(b) + [Last(b)];
        MergeFacts(a, Init(b), Init(c));
      }
    }
  }

  lemma MergeGrows(a: seq<Entry>, b: seq<Entry>, c: seq<Entry>, e: Entry)
    requires IsMerge(a, b, c)
    ensures IsMerge(a + [e], b, c + [e]) && IsMerge(a, b + [e], c + [e])
  {
    assert Init(a + [e]) == a && Init(b + [e]) == b && Init(c + [e]) == c;
  }

  lemma {:induction false} SubTransitive(a: seq<Entry>, b: seq<Entry>, c: seq<Entry>)
    requires IsSub(a, b) && IsSub(b, c)
    ensures IsSub(a, c)
    decreases |c|
  {
    if a != [] {
      if Last(b) == Last(c) && IsSub(Init(b), Init(c)) {
        if Last(a) == Last(b) && IsSub(Init(a), Init(b)) {
          SubTransitive(Init(a), Init(b), Init(c));
        } else {
          SubTransitive(a, Init(b), Init(c));
        }
      } else {
        SubTransitive(a, b, Init(c));
      }
    }
  }

  lemma SubGrows(a: seq<Entry>, b: seq<Entry>, e: Entry)
    requires IsSub(a, b)
    ensures IsSub(a + [e], b + [e]) && IsSub(a, b + [e])
  {
    assert Init(a + [e]) == a && Init(b + [e]) == b;
  }

  /** One more entry, picked onto the tip of a stack, makes a stack. */
  lemma StackGrows(g: Rules, me: string, base: Commit, stack: seq<Stacked>, entry: Entry, mapping: seq<Mapping>)
    requires StackOk(g, me, base, stack) && entry.commits != []
    requires PicksOk(g, me, Tip(base, stack), entry.commits, mapping)
    ensures mapping != []
    ensures var more := stack + [Stacked(entry, mapping, Last(mapping).target)];
            StackOk(g, me, base, more) && Tip(base, more) == Last(mapping).target && EntriesOf(more) == EntriesOf(stack) + [entry]
  {
    var more := stack + [Stacked(entry, mapping, Last(mapping).target)];
    assert Init(more) == stack;
  }

  // ------------------------------------------------------------ binary search

  /** The least k with 2^k >= n. */
  function CeilLog2(n: nat): nat {
    if n <= 1 then 0 else 1 + CeilLog2((n + 1) / 2)
  }

  lemma {:induction false} CeilLog2Grows(m: nat, n: nat)
    requires m <= n
    ensures CeilLog2(m) <= CeilLog2(n)
  {
    if m > 1 { CeilLog2Grows((m + 1) / 2, (n + 1) / 2); }
  }

  /** Halving a range takes one probe off what it needs. */
  lemma HalfNeedsOneLess(low: nat, high: nat)
    requires high - low > 1
    ensures var middle := (low + high) / 2;
            low < middle < high && 1 + CeilLog2(high - middle) <= CeilLog2(high - low)
            && 1 + CeilLog2(middle - low) <= CeilLog2(high - low)
  {
    var middle := (low + high) / 2;
    CeilLog2Grows(high - middle, (high - low + 1) / 2);
    CeilLog2Grows(middle - low, (high - low + 1) / 2);
  }

  function Pow2(k: nat): nat {
    if k == 0 then 1 else 2 * Pow2(k - 1)
  }

  /** It is the least such k. */
  lemma {:induction false} CeilLog2IsLeast(n: nat)
    ensures Pow2(CeilLog2(n)) >= n
    ensures n > 1 ==> Pow2(CeilLog2(n) - 1) < n
  {
    if n > 1 { CeilLog2IsLeast((n + 1) / 2); }
  }

  /** The tree of the base with the first `k` entries of the stack. */
  function PrefixTree(base: Commit, stack: seq<Stacked>, k: nat): string
    requires k <= |stack|
  {
    Tip(base, stack[..k]).tree
  }

  /** At one of these calls the run probed the first `k` entries of the stack, and the probe answered `b`. */
  ghost predicate Probed(env: Env, base: Commit, stack: seq<Stacked>, k: nat, probe: Probe, b: bool, t: Trail)
    requires k <= |stack|
  {
    exists n :: t.span.from <= n < t.span.to && ProbeMade(env, n, PrefixTree(base, stack, k), probe, b, t.checks)
  }

  /** In these calls the search saw the stack without this entry pass and with it fail, except at the ends it never probes. */
  ghost predicate Found(env: Env, base: Commit, stack: seq<Stacked>, probe: Probe, culprit: nat, t: Trail) {
    && culprit < |stack|
    && (culprit == 0 || Probed(env, base, stack, culprit, probe, false, t))
    && (culprit + 1 == |stack| || Probed(env, base, stack, culprit + 1, probe, true, t))
  }

  // ---------------------------------------------------------------- conflicts

  /** Entry `e` does not apply on the entries `kept`, which are before it in the queue, unless a call failed. */
  ghost predicate ConflictsOn(env: Env, base: Commit, entries: seq<Entry>, kept: seq<Stacked>, e: Entry, span: Span) {
    && StackOk(env.git, env.me, base, kept) && IsSub(EntriesOf(kept) + [e], entries)
    && (e.commits == [] || Replay(env.git, Tip(base, kept).tree, e.commits).None? || CallFailed(env, span))
  }

  ghost predicate Conflicts(env: Env, base: Commit, entries: seq<Entry>, e: Entry, span: Span) {
    exists kept :: ConflictsOn(env, base, entries, kept, e, span)
  }

  ghost predicate AllConflict(env: Env, base: Commit, entries: seq<Entry>, es: seq<Entry>, span: Span) {
    es == [] || (Conflicts(env, base, entries, Last(es), span) && AllConflict(env, base, entries, Init(es), span))
  }

  lemma ConflictsWidens(env: Env, base: Commit, entries: seq<Entry>, more: seq<Entry>, e: Entry, span: Span, wider: Span)
    requires Conflicts(env, base, entries, e, span) && IsSub(entries, more) && Inside(span, wider)
    ensures Conflicts(env, base, more, e, wider)
  {
    var kept :| ConflictsOn(env, base, entries, kept, e, span);
    SubTransitive(EntriesOf(kept) + [e], entries, more);
    assert ConflictsOn(env, base, more, kept, e, wider);
  }

  lemma {:induction false} AllConflictWidens(env: Env, base: Commit, entries: seq<Entry>, more: seq<Entry>, es: seq<Entry>,
                                             span: Span, wider: Span)
    requires AllConflict(env, base, entries, es, span) && IsSub(entries, more) && Inside(span, wider)
    ensures AllConflict(env, base, more, es, wider)
  {
    if es != [] {
      ConflictsWidens(env, base, entries, more, Last(es), span, wider);
      AllConflictWidens(env, base, entries, more, Init(es), span, wider);
    }
  }

  lemma {:induction false} ConflictOf(env: Env, base: Commit, entries: seq<Entry>, es: seq<Entry>, span: Span, e: Entry)
    requires AllConflict(env, base, entries, es, span) && e in es
    ensures Conflicts(env, base, entries, e, span)
  {
    assert es == Init(es) + [Last(es)];
    if e != Last(es) { ConflictOf(env, base, entries, Init(es), span, e); }
  }

  /** One more entry that does not apply. */
  lemma ConflictGrows(env: Env, base: Commit, entries: seq<Entry>, es: seq<Entry>, kept: seq<Stacked>, e: Entry,
                      span: Span, wider: Span)
    requires AllConflict(env, base, entries, es, span) && Inside(span, wider)
    requires StackOk(env.git, env.me, base, kept) && IsSub(EntriesOf(kept), entries)
    requires e.commits == [] || Replay(env.git, Tip(base, kept).tree, e.commits).None? || CallFailed(env, wider)
    ensures AllConflict(env, base, entries + [e], es + [e], wider)
  {
    SubGrows(EntriesOf(kept), entries, e);
    assert ConflictsOn(env, base, entries + [e], kept, e, wider);
    SubRefl(entries);
    SubGrows(entries, entries, e);
    AllConflictWidens(env, base, entries, entries + [e], es, span, wider);
    assert Init(es + [e]) == es;
  }

  /** One more entry that applies. */
  lemma ConflictsStay(env: Env, base: Commit, entries: seq<Entry>, es: seq<Entry>, e: Entry, span: Span, wider: Span)
    requires AllConflict(env, base, entries, es, span) && Inside(span, wider)
    ensures AllConflict(env, base, entries + [e], es, wider)
  {
    SubRefl(entries);
    SubGrows(entries, entries, e);
    AllConflictWidens(env, base, entries, entries + [e], es, span, wider);
  }

  lemma {:induction false} SubRefl(a: seq<Entry>)
    ensures IsSub(a, a)
  {
    if a != [] { SubRefl(Init(a)); }
  }

  /** The picks so far: the first `i` commits are picked onto `start`, and `head` is where that leads. */
  ghost predicate Picking(env: Env, start: Commit, commits: seq<Commit>, i: nat, mapping: seq<Mapping>, head: Commit)
    requires i <= |commits|
  {
    && PicksOk(env.git, env.me, start, commits[..i], mapping) && head == Head(start, mapping)
    && Replay(env.git, start.tree, commits[..i]) == Some(head.tree)
  }

  lemma PickingAdds(env: Env, start: Commit, commits: seq<Commit>, i: nat, mapping: seq<Mapping>, head: Commit, stamp: nat)
    requires i < |commits| && Picking(env, start, commits, i, mapping, head)
    requires env.git.apply(head.tree, commits[i]).Some?
    ensures var target := Child(head, env.git.apply(head.tree, commits[i]).value, Runner(env.me), stamp);
            Picking(env, start, commits, i + 1,
                    mapping + [Mapping(commits[i], target, env.git.differs(commits[i], head.tree, target.tree))], target)
  {
    var target := Child(head, env.git.apply(head.tree, commits[i]).value, Runner(env.me), stamp);
    var more := mapping + [Mapping(commits[i], target, env.git.differs(commits[i], head.tree, target.tree))];
    assert Init(commits[..i + 1]) == commits[..i] && Last(commits[..i + 1]) == commits[i];
    assert Init(more) == mapping;
  }

  lemma PickingStuck(env: Env, start: Commit, commits: seq<Commit>, i: nat, mapping: seq<Mapping>, head: Commit)
    requires i < |commits| && Picking(env, start, commits, i, mapping, head) && env.git.apply(head.tree, commits[i]).None?
    ensures Replay(env.git, start.tree, commits).None?
  {
    assert Init(commits[..i + 1]) == commits[..i] && Last(commits[..i + 1]) == commits[i];
    ReplayStuck(env.git, start.tree, commits, i + 1);
  }

  /** The first `i` entries are stacked or conflict, and the checkout is at the tip of the stack. */
  ghost predicate SortedOut(env: Env, base: Commit, entries: seq<Entry>, i: nat, stacked: seq<Stacked>, conflicts: seq<Entry>,
                            head: Commit, span: Span)
    requires i <= |entries|
  {
    && StackOk(env.git, env.me, base, stacked) && head == Tip(base, stacked)
    && IsMerge(conflicts, EntriesOf(stacked), entries[..i])
    && AllConflict(env, base, entries[..i], conflicts, span)
  }

  /** Unless a call failed, what is stacked of the first `i` entries is what plain replay keeps of them. */
  ghost predicate AsReplayed(env: Env, base: Commit, entries: seq<Entry>, i: nat, kept: seq<Entry>, tree: string, span: Span)
    requires i <= |entries|
  {
    CallFailed(env, span) || Admit(env.git, base.tree, entries[..i]) == (kept, tree)
  }

  /** The stack so far. */
  ghost predicate Stacking(env: Env, base: Commit, entries: seq<Entry>, i: nat, stacked: seq<Stacked>, conflicts: seq<Entry>,
                           head: Commit, span: Span)
    requires i <= |entries|
  {
    && SortedOut(env, base, entries, i, stacked, conflicts, head, span)
    && AsReplayed(env, base, entries, i, EntriesOf(stacked), head.tree, span)
  }

  /** Plain replay, one entry further. */
  lemma AdmitStep(g: Rules, tree: string, entries: seq<Entry>, i: nat)
    requires i < |entries|
    ensures var (kept, t) := Admit(g, tree, entries[..i]);
            var u := Replay(g, t, entries[i].commits);
            Admit(g, tree, entries[..i + 1]) ==
              if u.Some? && entries[i].commits != [] then (kept + [entries[i]], u.value) else (kept, t)
  {
    assert Init(entries[..i + 1]) == entries[..i];
  }

  /** An entry that is picked whole is one that plain replay keeps. */
  lemma ReplayAdds(env: Env, base: Commit, entries: seq<Entry>, i: nat, kept: seq<Entry>, head: Commit, mapping: seq<Mapping>,
                   span: Span, wider: Span)
    requires i < |entries| && AsReplayed(env, base, entries, i, kept, head.tree, span) && Inside(span, wider)
    requires entries[i].commits != [] && PicksOk(env.git, env.me, head, entries[i].commits, mapping)
    ensures mapping != []
    ensures AsReplayed(env, base, entries, i + 1, kept + [entries[i]], Last(mapping).target.tree, wider)
  {
    AdmitStep(env.git, base.tree, entries, i);
    PicksHistory(env.git, env.me, head, entries[i].commits, mapping);
  }

  lemma ReplaySkips(env: Env, base: Commit, entries: seq<Entry>, i: nat, kept: seq<Entry>, tree: string, span: Span, wider: Span)
    requires i < |entries| && AsReplayed(env, base, entries, i, kept, tree, span) && Inside(span, wider)
    requires entries[i].commits == [] || Replay(env.git, tree, entries[i].commits).None? || CallFailed(env, wider)
    ensures AsReplayed(env, base, entries, i + 1, kept, tree, wider)
  {
    AdmitStep(env.git, base.tree, entries, i);
  }

  lemma SortedOutAdds(env: Env, base: Commit, entries: seq<Entry>, i: nat, stacked: seq<Stacked>, conflicts: seq<Entry>,
                      head: Commit, mapping: seq<Mapping>, span: Span, wider: Span)
    requires i < |entries| && SortedOut(env, base, entries, i, stacked, conflicts, head, span) && Inside(span, wider)
    requires entries[i].commits != [] && PicksOk(env.git, env.me, head, entries[i].commits, mapping)
    ensures mapping != []
    ensures var more := stacked + [Stacked(entries[i], mapping, Last(mapping).target)];
            && EntriesOf(more) == EntriesOf(stacked) + [entries[i]]
            && SortedOut(env, base, entries, i + 1, more, conflicts, Last(mapping).target, wider)
  {
    assert entries[..i] + [entries[i]] == entries[..i + 1];
    StackGrows(env.git, env.me, base, stacked, entries[i], mapping);
    MergeGrows(conflicts, EntriesOf(stacked), entries[..i], entries[i]);
    ConflictsStay(env, base, entries[..i], conflicts, entries[i], span, wider);
  }

  lemma StackingAdds(env: Env, base: Commit, entries: seq<Entry>, i: nat, stacked: seq<Stacked>, conflicts: seq<Entry>,
                     head: Commit, mapping: seq<Mapping>, span: Span, wider: Span)
    requires i < |entries| && Stacking(env, base, entries, i, stacked, conflicts, head, span) && Inside(span, wider)
    requires entries[i].commits != [] && PicksOk(env.git, env.me, head, entries[i].commits, mapping)
    ensures mapping != []
    ensures Stacking(env, base, entries, i + 1, stacked + [Stacked(entries[i], mapping, Last(mapping).target)], conflicts,
                     Last(mapping).target, wider)
  {
    SortedOutAdds(env, base, entries, i, stacked, conflicts, head, mapping, span, wider);
    ReplayAdds(env, base, entries, i, EntriesOf(stacked), head, mapping, span, wider);
  }

  lemma StackingSkips(env: Env, base: Commit, entries: seq<Entry>, i: nat, stacked: seq<Stacked>, conflicts: seq<Entry>,
                      head: Commit, span: Span, wider: Span)
    requires i < |entries| && Stacking(env, base, entries, i, stacked, conflicts, head, span) && Inside(span, wider)
    requires entries[i].commits == [] || Replay(env.git, head.tree, entries[i].commits).None? || CallFailed(env, wider)
    ensures Stacking(env, base, entries, i + 1, stacked, conflicts + [entries[i]], head, wider)
  {
    assert entries[..i] + [entries[i]] == entries[..i + 1];
    MergeGrows(conflicts, EntriesOf(stacked), entries[..i], entries[i]);
    MergeFacts(conflicts, EntriesOf(stacked), entries[..i]);
    ConflictGrows(env, base, entries[..i], conflicts, stacked, entries[i], span, wider);
    ReplaySkips(env, base, entries, i, EntriesOf(stacked), head.tree, span, wider);
  }

  /** The search so far: the probe was seen false on the first `passing` entries and true on the first `failing`. */
  ghost predicate Searching(env: Env, base: Commit, stack: seq<Stacked>, probe: Probe, passing: nat, failing: nat, t: Trail) {
    && passing < failing <= |stack|
    && (passing == 0 || Probed(env, base, stack, passing, probe, false, t))
    && (failing == |stack| || Probed(env, base, stack, failing, probe, true, t))
  }

  lemma SearchNarrows(env: Env, base: Commit, stack: seq<Stacked>, probe: Probe, passing: nat, failing: nat, t: Trail,
                      middle: nat, fails: bool, n: nat, wider: Trail)
    requires Searching(env, base, stack, probe, passing, failing, t) && passing < middle < failing && Part(t, wider)
    requires wider.span.from <= n < wider.span.to
    requires ProbeMade(env, n, PrefixTree(base, stack, middle), probe, fails, wider.checks)
    ensures Searching(env, base, stack, probe, if fails then passing else middle, if fails then middle else failing, wider)
  {
    if passing > 0 { ProbedWidens(env, base, stack, passing, probe, false, t, wider); }
    if failing < |stack| { ProbedWidens(env, base, stack, failing, probe, true, t, wider); }
    assert Probed(env, base, stack, middle, probe, fails, wider);
  }

  lemma SearchEnds(env: Env, base: Commit, stack: seq<Stacked>, probe: Probe, passing: nat, t: Trail)
    requires Searching(env, base, stack, probe, passing, passing + 1, t)
    ensures Found(env, base, stack, probe, passing, t)
  {
  }

  lemma ProbedWidens(env: Env, base: Commit, stack: seq<Stacked>, k: nat, probe: Probe, b: bool, t: Trail, wider: Trail)
    requires k <= |stack| && Probed(env, base, stack, k, probe, b, t) && Part(t, wider)
    ensures Probed(env, base, stack, k, probe, b, wider)
  {
    var n :| t.span.from <= n < t.span.to && ProbeMade(env, n, PrefixTree(base, stack, k), probe, b, t.checks);
    assert ProbeMade(env, n, PrefixTree(base, stack, k), probe, b, wider.checks);
  }

  // ------------------------------------------------------------- the checkout

  class Site {
    const env: Env
    /** Calls out of the program so far. */
    var clock: nat
    /** What is checked out: the commit and the files. */
    var head: Commit
    var tree: string
    /** What the run has told or asked the server and the remote so far. */
    ghost var events: seq<Event>
    /** What the run has looked at so far; every entry is put there by the method that makes that call. */
    ghost var checks: set<Check>

    constructor (env: Env, head: Commit)
      ensures this.env == env && clock == 0 && events == [] && checks == {}
    {
      this.env := env;
      this.clock := 0;
      this.head := head;
      this.tree := head.tree;
      this.events := [];
      this.checks := {};
    }

    predicate Clean()
      reads this
    {
      tree == head.tree
    }

    method Call() returns (ok: bool)
      modifies this`clock
      ensures ok == !env.lab.fails(old(clock))
      ensures clock == old(clock) + 1
    {
      ok := !env.lab.fails(clock);
      clock := clock + 1;
    }

    /** `git checkout --force`, or `git reset --hard`: the files follow the commit, whatever they were. */
    method Checkout(commit: Commit) returns (ok: bool)
      modifies this`clock, this`head, this`tree
      ensures ok == !env.lab.fails(old(clock))
      ensures ok ==> head == commit && Clean()
      ensures clock == old(clock) + 1
    {
      ok := Call();
      if ok { head, tree := commit, commit.tree; }
    }

    /**
     * `git cherry-pick`: a new commit, or a failure that leaves the files in any
     * state. The commit carries the number of this call, so no earlier commit of
     * this runner equals it.
     */
    method CherryPick(commit: Commit) returns (ok: bool)
      modifies this`clock, this`head, this`tree
      ensures ok ==> && old(Clean()) && Clean() && head == Child(old(head), head.tree, Runner(env.me), old(clock))
                     && env.git.apply(old(head).tree, commit) == Some(head.tree)
      ensures !ok ==> head == old(head)
      ensures !ok && old(Clean()) ==> env.git.apply(head.tree, commit).None? || env.lab.fails(old(clock))
      ensures clock == old(clock) + 1
    {
      var stamp := clock;
      ok := Call();
      var merged := env.git.apply(head.tree, commit);
      if ok && tree == head.tree && merged.Some? {
        head := Child(head, merged.value, Runner(env.me), stamp);
        tree := merged.value;
      } else {
        ok := false;
        tree := env.stray(stamp);
      }
    }

    /** Cherry-pick an entry's commits; false at the first that does not apply, or when anything else goes wrong. */
    method PickAll(entry: Entry) returns (ok: bool, mapping: seq<Mapping>)
      requires Clean()
      modifies this`clock, this`head, this`tree
      ensures ok ==> && entry.commits != [] && PicksOk(env.git, env.me, old(head), entry.commits, mapping)
                     && head == Last(mapping).target && Clean()
      ensures !ok ==> || entry.commits == [] || Replay(env.git, old(head).tree, entry.commits).None?
                      || CallFailed(env, Span(old(clock), clock))
      ensures clock >= old(clock)
    {
      mapping := [];
      ghost var start := head;
      var i := 0;
      while i < |entry.commits|
        invariant 0 <= i <= |entry.commits| && Clean() && clock >= old(clock)
        invariant Picking(env, start, entry.commits, i, mapping, head)
      {
        var commit, before := entry.commits[i], head;
        ghost var stamp := clock;
        ok := CherryPick(commit);
        if !ok {
          if env.git.apply(before.tree, commit).None? { PickingStuck(env, start, entry.commits, i, mapping, before); }
          var _ := Call();
          return;
        }
        PickingAdds(env, start, entry.commits, i, mapping, before, stamp);
        ok := Call();
        if !ok { return; }
        var target := head;
        ok := Call();
        if !ok { return; }
        ok := Call();
        if !ok { return; }
        mapping := mapping + [Mapping(commit, target, env.git.differs(commit, before.tree, target.tree))];
        i := i + 1;
      }
      assert entry.commits[..i] == entry.commits;
      ok := mapping != [];
    }

    /**
     * Stack the entries on the base in order, leaving out each one that does
     * not apply. What is left out leaves no trace: the checkout ends at the tip
     * of what is stacked. When nothing else goes wrong, what is stacked is
     * exactly the batch that plain replay admits.
     */
    method BuildStack(base: Commit, entries: seq<Entry>)
      returns (ok: bool, stacked: seq<Stacked>, conflicts: seq<Entry>)
      modifies this`clock, this`head, this`tree
      ensures ok ==> StackOk(env.git, env.me, base, stacked) && head == Tip(base, stacked) && Clean()
      ensures ok ==> IsMerge(conflicts, EntriesOf(stacked), entries)
      ensures ok ==> AllConflict(env, base, entries, conflicts, Span(old(clock), clock))
      ensures clock >= old(clock)
      ensures || CallFailed(env, Span(old(clock), clock))
              || (ok && Admit(env.git, base.tree, entries) == (EntriesOf(stacked), Tip(base, stacked).tree))
    {
      stacked, conflicts := [], [];
      ok := Checkout(base);
      if !ok { return; }
      var i := 0;
      while i < |entries|
        invariant 0 <= i <= |entries| && Clean() && clock >= old(clock)
        invariant Stacking(env, base, entries, i, stacked, conflicts, head, Span(old(clock), clock))
      {
        var entry := entries[i];
        ghost var span := Span(old(clock), clock);
        ok := Call();
        if !ok { return; }
        var start := head;
        var picked, mapping := PickAll(entry);
        if picked {
          StackingAdds(env, base, entries, i, stacked, conflicts, start, mapping, span, Span(old(clock), clock));
          stacked := stacked + [Stacked(entry, mapping, mapping[|mapping| - 1].target)];
        } else {
          var _ := Call();
          ok := Checkout(start);
          if !ok { return; }
          StackingSkips(env, base, entries, i, stacked, conflicts, start, span, Span(old(clock), clock));
          conflicts := conflicts + [entry];
        }
        i := i + 1;
      }
      ok := true;
      assert entries[..i] == entries;
    }

    /** Check out the first `k` entries of the stack and probe them, in the last of this method's calls. */
    method ProbePrefix(base: Commit, stack: seq<Stacked>, k: nat, config: Config, probe: Probe)
      returns (ok: bool, fails: bool)
      requires 0 < k <= |stack|
      modifies this`clock, this`head, this`tree, this`checks
      ensures clock > old(clock)
      ensures if ok then && checks == old(checks) + {ProbeCheck(clock - 1, PrefixTree(base, stack, k), probe, fails)}
                         && ProbeMade(env, clock - 1, PrefixTree(base, stack, k), probe, fails, checks)
              else checks == old(checks) && CallFailed(env, Span(old(clock), clock))
      ensures GatesIn(checks) == GatesIn(old(checks))
    {
      fails := false;
      ok := Checkout(stack[k - 1].tip);
      if !ok { return; }
      assert tree == PrefixTree(base, stack, k);
      if config.install {
        ok := Call();
        if !ok { return; }
      }
      var answer := ProbeFails(env.lab, clock, tree, probe);
      clock := clock + 1;
      if answer.None? { return false, false; }
      NoMoreGates(checks, ProbeCheck(clock - 1, tree, probe, answer.value));
      checks := checks + {ProbeCheck(clock - 1, tree, probe, answer.value)};
      return true, answer.value;
    }

    /** One probe half way between the passing and the failing prefix. */
    method Halve(base: Commit, stack: seq<Stacked>, config: Config, probe: Probe, passing: nat, failing: nat, ghost from: nat)
      returns (ok: bool, low: nat, high: nat)
      requires from <= clock && failing - passing > 1
      requires Searching(env, base, stack, probe, passing, failing, Trail(Span(from, clock), checks))
      modifies this`clock, this`head, this`tree, this`checks
      ensures clock > old(clock) && checks >= old(checks)
      ensures |checks| <= |old(checks)| + 1 && GatesIn(checks) == GatesIn(old(checks))
      ensures ok ==> Searching(env, base, stack, probe, low, high, Trail(Span(from, clock), checks))
      ensures ok ==> high - low < failing - passing && 1 + CeilLog2(high - low) <= CeilLog2(failing - passing)
      ensures ok || CallFailed(env, Span(old(clock), clock))
    {
      low, high := passing, failing;
      var middle := (passing + failing) / 2;
      HalfNeedsOneLess(passing, failing);
      ghost var t := Trail(Span(from, clock), checks);
      var fails;
      ok, fails := ProbePrefix(base, stack, middle, config, probe);
      if !ok { return; }
      SearchNarrows(env, base, stack, probe, passing, failing, t, middle, fails, clock - 1, Trail(Span(from, clock), checks));
      if fails { high := middle; } else { low := middle; }
    }

    /** Binary search over the prefixes of the stack for the entry that makes the probe fail. */
    method FindCulprit(base: Commit, stack: seq<Stacked>, config: Config, probe: Probe)
      returns (ok: bool, culprit: nat, ghost probes: nat)
      requires stack != []
      modifies this`clock, this`head, this`tree, this`checks
      ensures probes <= CeilLog2(|stack|) && |checks| <= |old(checks)| + probes && GatesIn(checks) == GatesIn(old(checks))
      ensures ok ==> Found(env, base, stack, probe, culprit, Trail(Span(old(clock), clock), checks))
      ensures clock >= old(clock) && checks >= old(checks)
      ensures ok || CallFailed(env, Span(old(clock), clock))
    {
      var passing, failing := 0, |stack|;
      probes := 0;
      culprit := 0;
      while failing - passing > 1
        invariant 0 <= passing < failing && clock >= old(clock)
        invariant checks >= old(checks) && |checks| <= |old(checks)| + probes && GatesIn(checks) == GatesIn(old(checks))
        invariant Searching(env, base, stack, probe, passing, failing, Trail(Span(old(clock), clock), checks))
        invariant probes + CeilLog2(failing - passing) <= CeilLog2(|stack|)
      {
        probes := probes + 1;
        ok, passing, failing := Halve(base, stack, config, probe, passing, failing, old(clock));
        if !ok { return; }
      }
      SearchEnds(env, base, stack, probe, passing, Trail(Span(old(clock), clock), checks));
      return true, failing - 1, probes;
    }
  }
}
