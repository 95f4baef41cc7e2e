/**
 * Git as the landing queue uses it. A commit is its content: its parent, the
 * tree it records, and who made it when. So two commits are the same commit
 * exactly when Git would give them the same id, and "is an ancestor of" is a
 * walk over parents. Only first-parent history is modelled.
 */
module Git {
  import opened Options

  /** Who made a commit: the run of one landing runner, or anybody else. */
  datatype Maker = Runner(id: string) | Outside(name: string)

  datatype Commit =
    | Root(tree: string)
    | Child(parent: Commit, tree: string, maker: Maker, stamp: nat)

  /** `git merge-base --is-ancestor a b`; a commit is its own ancestor. */
  predicate IsAncestor(a: Commit, b: Commit) {
    a == b || (b.Child? && IsAncestor(a, b.parent))
  }

  /** Runner `r` made some commit in the history of `c`. */
  predicate MadeBy(c: Commit, r: string) {
    c.Child? && (c.maker == Runner(r) || MadeBy(c.parent, r))
  }

  /** The history that ends at `c`, oldest commit first. */
  function History(c: Commit): seq<Commit> {
    if c.Root? then [c] else History(c.parent) + [c]
  }

  lemma {:induction false} AncestorTransitive(a: Commit, b: Commit, c: Commit)
    requires IsAncestor(a, b) && IsAncestor(b, c)
    ensures IsAncestor(a, c)
  {
    if b != c { AncestorTransitive(a, b, c.parent); }
  }

  lemma {:induction false} AncestorMadeBy(a: Commit, b: Commit, r: string)
    requires IsAncestor(a, b) && MadeBy(a, r)
    ensures MadeBy(b, r)
  {
    if a != b { AncestorMadeBy(a, b.parent, r); }
  }

  /** Ancestry is exactly "the history is a prefix of the other history"; equally long histories are then the same. */
  lemma {:induction false} AncestorIsPrefix(a: Commit, b: Commit)
    ensures IsAncestor(a, b) <==> History(a) <= History(b)
    ensures IsAncestor(a, b) && |History(a)| == |History(b)| ==> a == b
  {
    assert Last(History(a)) == a && Last(History(b)) == b;
    if b.Child? {
      AncestorIsPrefix(a, b.parent);
      if |History(a)| == |History(b)| && History(a) <= History(b) { assert History(a) == History(b); }
    } else if a.Child? {
      assert |History(a.parent)| > 0;
    }
  }

  lemma {:induction false} AncestorAntisymmetric(a: Commit, b: Commit)
    requires IsAncestor(a, b) && IsAncestor(b, a)
    ensures a == b
  {
    AncestorIsPrefix(a, b);
    AncestorIsPrefix(b, a);
  }

  function Last<T>(s: seq<T>): T
    requires s != []
  {
    s[|s| - 1]
  }

  function Init<T>(s: seq<T>): seq<T>
    requires s != []
  {
    s[..|s| - 1]
  }

  // ---------------------------------------------------------------- changes

  /** What the submitting worker ran before submitting. */
  datatype PreSubmit =
    | Passed(tree: string)
    | Focused(tree: string, tests: seq<string>)
    | Skipped(reason: string)

  datatype Entry = Entry(id: string, base: Commit, tip: Commit, commits: seq<Commit>, preSubmit: PreSubmit)

  /** A source commit and the commit the run made from it. */
  datatype Mapping = Mapping(source: Commit, target: Commit, integrated: bool)

  datatype Stacked = Stacked(entry: Entry, mapping: seq<Mapping>, tip: Commit)

  /**
   * What Git computes from contents alone: `apply(tree, commit)` is the tree a
   * cherry-pick of `commit` onto `tree` leaves, when it applies without a
   * conflict; `differs(commit, before, after)` tells whether the file changes
   * from `before` to `after` are not those of `commit`.
   */
  datatype Rules = Rules(apply: (string, Commit) -> Option<string>, differs: (Commit, string, string) -> bool)

  /** The plain meaning of landing some commits: apply each in turn to the tree. */
  function Replay(g: Rules, tree: string, commits: seq<Commit>): Option<string> {
    if commits == [] then Some(tree)
    else match Replay(g, tree, Init(commits)) {
      case None => None
      case Some(t) => g.apply(t, Last(commits))
    }
  }

  lemma {:induction false} ReplayConcat(g: Rules, tree: string, a: seq<Commit>, b: seq<Commit>)
    ensures Replay(g, tree, a + b) ==
            match Replay(g, tree, a) { case None => None case Some(t) => Replay(g, t, b) }
  {
    if b == [] {
      assert a + b == a;
    } else {
      assert Init(a + b) == a + Init(b);
      ReplayConcat(g, tree, a, Init(b));
    }
  }

  /** Once a prefix does not apply, the whole does not. */
  lemma ReplayStuck(g: Rules, tree: string, commits: seq<Commit>, k: nat)
    requires k <= |commits| && Replay(g, tree, commits[..k]).None?
    ensures Replay(g, tree, commits).None?
  {
    assert commits == commits[..k] + commits[k..];
    ReplayConcat(g, tree, commits[..k], commits[k..]);
  }

  /**
   * The batch a reader expects: walk the entries in queue order and keep each
   * one whose commits all apply to the tree left by the ones kept before it.
   */
  function Admit(g: Rules, tree: string, entries: seq<Entry>): (r: (seq<Entry>, string)) {
    if entries == [] then ([], tree)
    else
      var (kept, t) := Admit(g, tree, Init(entries));
      var e := Last(entries);
      match Replay(g, t, e.commits)
      case Some(u) => if e.commits == [] then (kept, t) else (kept + [e], u)
      case None => (kept, t)
  }

  // ------------------------------------------------------------------ stacks

  /** `m` is what runner `me` gets by cherry-picking `source` onto `prev`. */
  predicate PickOk(g: Rules, me: string, prev: Commit, source: Commit, m: Mapping) {
    && m.source == source
    && m.target.Child? && m.target.parent == prev && m.target.maker == Runner(me)
    && g.apply(prev.tree, source) == Some(m.target.tree)
    && m.integrated == g.differs(source, prev.tree, m.target.tree)
  }

  /** The commit reached after the picks recorded so far. */
  function Head(start: Commit, mapping: seq<Mapping>): Commit {
    if mapping == [] then start else Last(mapping).target
  }

  /** The mapping matches the commits one to one, each pick on top of the one before. */
  predicate PicksOk(g: Rules, me: string, start: Commit, commits: seq<Commit>, mapping: seq<Mapping>)
    decreases |commits|
  {
    && |mapping| == |commits|
    && (commits != [] ==>
          && PicksOk(g, me, start, Init(commits), Init(mapping))
          && PickOk(g, me, Head(start, Init(mapping)), Last(commits), Last(mapping)))
  }

  function Tip(base: Commit, stack: seq<Stacked>): Commit {
    if stack == [] then base else Last(stack).tip
  }

  /** Every entry of the stack is picked whole, contiguously, on top of the entries before it. */
  predicate StackOk(g: Rules, me: string, base: Commit, stack: seq<Stacked>) {
    stack == [] ||
    (&& StackOk(g, me, base, Init(stack))
     && Last(stack).entry.commits != []
     && PicksOk(g, me, Tip(base, Init(stack)), Last(stack).entry.commits, Last(stack).mapping)
     && Last(stack).tip == Last(Last(stack).mapping).target)
  }

  function EntriesOf(stack: seq<Stacked>): (r: seq<Entry>)
    ensures |r| == |stack|
    ensures forall i :: 0 <= i < |r| ==> r[i] == stack[i].entry
  {
    if stack == [] then [] else EntriesOf(Init(stack)) + [Last(stack).entry]
  }

  function CommitsOf(entries: seq<Entry>): seq<Commit> {
    if entries == [] then [] else CommitsOf(Init(entries)) + Last(entries).commits
  }

  function TargetsOf(mapping: seq<Mapping>): seq<Commit> {
    if mapping == [] then [] else TargetsOf(Init(mapping)) + [Last(mapping).target]
  }

  function StackTargets(stack: seq<Stacked>): seq<Commit> {
    if stack == [] then [] else StackTargets(Init(stack)) + TargetsOf(Last(stack).mapping)
  }

  lemma {:induction false} PicksHistory(g: Rules, me: string, start: Commit, commits: seq<Commit>, mapping: seq<Mapping>)
    requires PicksOk(g, me, start, commits, mapping)
    ensures History(Head(start, mapping)) == History(start) + TargetsOf(mapping)
    ensures Replay(g, start.tree, commits) == Some(Head(start, mapping).tree)
    ensures IsAncestor(start, Head(start, mapping))
    decreases |commits|
  {
    if commits != [] { PicksHistory(g, me, start, Init(commits), Init(mapping)); }
  }

  lemma {:induction false} StackHistory(g: Rules, me: string, base: Commit, stack: seq<Stacked>)
    requires StackOk(g, me, base, stack)
    ensures History(Tip(base, stack)) == History(base) + StackTargets(stack)
  {
    if stack != [] {
      StackHistory(g, me, base, Init(stack));
      PicksHistory(g, me, Tip(base, Init(stack)), Last(stack).entry.commits, Last(stack).mapping);
    }
  }

  lemma {:induction false} StackReplay(g: Rules, me: string, base: Commit, stack: seq<Stacked>)
    requires StackOk(g, me, base, stack)
    ensures Replay(g, base.tree, CommitsOf(EntriesOf(stack))) == Some(Tip(base, stack).tree)
  {
    if stack != [] {
      StackReplay(g, me, base, Init(stack));
      PicksHistory(g, me, Tip(base, Init(stack)), Last(stack).entry.commits, Last(stack).mapping);
      assert Init(EntriesOf(stack)) == EntriesOf(Init(stack));
      ReplayConcat(g, base.tree, CommitsOf(EntriesOf(Init(stack))), Last(stack).entry.commits);
    }
  }

  lemma {:induction false} StackDescends(g: Rules, me: string, base: Commit, stack: seq<Stacked>)
    requires StackOk(g, me, base, stack)
    ensures IsAncestor(base, Tip(base, stack))
  {
    if stack != [] {
      StackDescends(g, me, base, Init(stack));
      PicksHistory(g, me, Tip(base, Init(stack)), Last(stack).entry.commits, Last(stack).mapping);
      AncestorTransitive(base, Tip(base, Init(stack)), Last(stack).tip);
    }
  }

  /**
   * No residue: the history that ends at the tip of a stack is the base's
   * history followed by the stacked entries' commits and nothing else, and its
   * tree is the plain replay of those commits on the base's tree.
   */
  lemma NoResidue(g: Rules, me: string, base: Commit, stack: seq<Stacked>)
    requires StackOk(g, me, base, stack)
    ensures History(Tip(base, stack)) == History(base) + StackTargets(stack)
    ensures Replay(g, base.tree, CommitsOf(EntriesOf(stack))) == Some(Tip(base, stack).tree)
    ensures IsAncestor(base, Tip(base, stack))
  {
    StackHistory(g, me, base, stack);
    StackReplay(g, me, base, stack);
    StackDescends(g, me, base, stack);
  }

  /** The stack up to and including entry `k` is itself a stack. */
  lemma {:induction false} StackPrefix(g: Rules, me: string, base: Commit, stack: seq<Stacked>, k: nat)
    requires StackOk(g, me, base, stack) && k <= |stack|
    ensures StackOk(g, me, base, stack[..k])
    ensures IsAncestor(Tip(base, stack[..k]), Tip(base, stack))
  {
    if k == |stack| {
      assert stack[..k] == stack;
    } else {
      StackPrefix(g, me, base, Init(stack), k);
      assert Init(stack)[..k] == stack[..k];
      PicksHistory(g, me, Tip(base, Init(stack)), Last(stack).entry.commits, Last(stack).mapping);
      AncestorTransitive(Tip(base, stack[..k]), Tip(base, Init(stack)), Tip(base, stack));
    }
  }

  /** Between the base and the tip of a run's stack there are only that run's own commits. */
  lemma {:induction false} OwnPicks(g: Rules, me: string, start: Commit, commits: seq<Commit>, mapping: seq<Mapping>,
                                    x: Commit)
    requires PicksOk(g, me, start, commits, mapping)
    requires IsAncestor(x, Head(start, mapping))
    ensures IsAncestor(x, start) || (x.Child? && x.maker == Runner(me))
    decreases |commits|
  {
    if commits != [] && x != Head(start, mapping) {
      OwnPicks(g, me, start, Init(commits), Init(mapping), x);
    }
  }

  lemma {:induction false} OwnStack(g: Rules, me: string, base: Commit, stack: seq<Stacked>, x: Commit)
    requires StackOk(g, me, base, stack)
    requires IsAncestor(x, Tip(base, stack))
    ensures IsAncestor(x, base) || (x.Child? && x.maker == Runner(me))
  {
    if stack != [] {
      OwnPicks(g, me, Tip(base, Init(stack)), Last(stack).entry.commits, Last(stack).mapping, x);
      if IsAncestor(x, Tip(base, Init(stack))) { OwnStack(g, me, base, Init(stack), x); }
    }
  }

  /** Pushing a stack adds no commit made by another runner. */
  lemma {:induction false} PicksMaker(g: Rules, me: string, start: Commit, commits: seq<Commit>, mapping: seq<Mapping>,
                                      r: string)
    requires PicksOk(g, me, start, commits, mapping) && r != me
    ensures MadeBy(Head(start, mapping), r) <==> MadeBy(start, r)
    decreases |commits|
  {
    if commits != [] { PicksMaker(g, me, start, Init(commits), Init(mapping), r); }
  }

  lemma {:induction false} StackMaker(g: Rules, me: string, base: Commit, stack: seq<Stacked>, r: string)
    requires StackOk(g, me, base, stack) && r != me
    ensures MadeBy(Tip(base, stack), r) <==> MadeBy(base, r)
  {
    if stack != [] {
      PicksMaker(g, me, Tip(base, Init(stack)), Last(stack).entry.commits, Last(stack).mapping, r);
      StackMaker(g, me, base, Init(stack), r);
    }
  }
}
