/**
 * Focused test selection: each named path goes to the test step of the deepest
 * directory that contains it, decided on path strings as the program does.
 */
module TestSelection {
  import opened Options
  import opened Text
  import Gate

  // ---------------------------------------------------------------------- paths

  /** A resolved absolute path, by its segments; the root has none. */
  type Path = seq<string>

  predicate IsName(s: string) {
    s != "" && s != "." && s != ".." && '/' !in s
  }

  predicate Resolved(p: Path) {
    forall k :: 0 <= k < |p| ==> IsName(p[k])
  }

  /** How many first segments two paths share. */
  function Common(a: Path, b: Path): (r: nat)
    ensures r <= |a| && r <= |b| && a[..r] == b[..r]
    ensures r < |a| && r < |b| ==> a[r] != b[r]
  {
    if a == [] || b == [] || a[0] != b[0] then 0 else Common(a[1..], b[1..]) + 1
  }

  function Ups(n: nat): (r: seq<string>)
    ensures |r| == n && forall k :: 0 <= k < n ==> r[k] == ".."
  {
    seq(n, _ => "..")
  }

  /** `path` as seen from `dir`. */
  function Relative(dir: Path, path: Path): string {
    var c := Common(dir, path);
    Join(Ups(|dir| - c) + path[c..], "/")
  }

  predicate IsAbsolute(s: string) {
    s != "" && s[0] == '/'
  }

  predicate IsInside(dir: Path, path: Path) {
    var rel := Relative(dir, path);
    rel != ".." && !("../" <= rel) && !IsAbsolute(rel)
  }

  lemma PrefixIsCommon(dir: Path, path: Path)
    ensures dir <= path <==> Common(dir, path) == |dir|
    ensures dir <= path ==> Ups(|dir| - Common(dir, path)) + path[Common(dir, path)..] == path[|dir|..]
  {
  }

  predicate NoSlash(parts: seq<string>) {
    forall k :: 0 <= k < |parts| ==> '/' !in parts[k]
  }

  /** What the start of a text that goes on after a slash says about the part before the slash. */
  lemma TextStarts(a: string, rest: string)
    requires '/' !in a
    ensures var s := a + "/" + rest; ("../" <= s <==> a == "..") && s != ".." && (IsAbsolute(s) <==> a == "")
  {
    var s := a + "/" + rest;
    assert s[|a|] == '/' && forall k :: 0 <= k < |a| ==> s[k] == a[k];
    if "../" <= s {
      assert s[0] == '.' && s[1] == '.' && s[2] == '/';
      assert a == s[..2];
    }
    if a == ".." { assert s[..3] == "../"; }
    if a != "" { assert s[0] == a[0]; }
  }

  /** The first segment of a relative path can be read off its text. */
  lemma FirstSegment(parts: seq<string>)
    requires parts != [] && NoSlash(parts)
    ensures var s := Join(parts, "/");
            (s == ".." || "../" <= s <==> parts[0] == "..") && (IsAbsolute(s) <==> parts[0] == "" && |parts| > 1)
  {
    if |parts| == 1 {
      assert "../"[2] == '/';
    } else {
      TextStarts(parts[0], Join(parts[1..], "/"));
    }
  }

  lemma RestHasNoSlash(path: Path, c: nat)
    requires Resolved(path) && c <= |path|
    ensures NoSlash(path[c..])
  {
    forall k | 0 <= k < |path[c..]| ensures '/' !in path[c..][k] {
      assert path[c..][k] == path[k + c] && IsName(path[k + c]);
    }
  }

  lemma UpsHaveNoSlash(n: nat)
    ensures NoSlash(Ups(n))
  {
    assert '/' !in "..";
  }

  lemma RelativeHasNoSlash(n: nat, path: Path, c: nat)
    requires Resolved(path) && c <= |path|
    ensures NoSlash(Ups(n) + path[c..])
  {
    UpsHaveNoSlash(n);
    RestHasNoSlash(path, c);
    NoSlashTogether(Ups(n), path[c..]);
  }

  lemma NoSlashTogether(a: seq<string>, b: seq<string>)
    requires NoSlash(a) && NoSlash(b)
    ensures NoSlash(a + b)
  {
  }

  /** The test on the relative path's text decides exactly whether `path` is `dir` or below it. */
  lemma InsideIsPrefix(dir: Path, path: Path)
    requires Resolved(dir) && Resolved(path)
    ensures IsInside(dir, path) <==> dir <= path
  {
    PrefixIsCommon(dir, path);
    var c := Common(dir, path);
    RelativeHasNoSlash(|dir| - c, path, c);
    var parts := Ups(|dir| - c) + path[c..];
    if parts != [] {
      FirstSegment(parts);
      if c < |dir| { assert parts[0] == ".."; } else { assert parts[0] == path[c] && IsName(path[c]); }
    }
  }

  /** What a step is given for a path: the path from its directory. */
  function Argument(dir: Path, path: Path): string {
    if Relative(dir, path) == "" then "." else Relative(dir, path)
  }

  /** What an argument means to a command that runs in `dir`. */
  function Meaning(dir: Path, argument: string): Path {
    if argument == "." then dir else dir + Split(argument, "/")
  }

  /** Nothing is lost in the argument: run in the step's directory, it means the path that was named. */
  lemma ArgumentMeansPath(dir: Path, path: Path)
    requires Resolved(dir) && Resolved(path) && dir <= path
    ensures Meaning(dir, Argument(dir, path)) == path
  {
    PrefixIsCommon(dir, path);
    var parts := path[|dir|..];
    if parts == [] {
      assert path == dir;
    } else {
      SplitJoin(parts, '/');
      assert path == dir + parts;
      if Join(parts, "/") == "" || Join(parts, "/") == "." {
        OnePart(Join(parts, "/"));
      }
    }
  }

  lemma OnePart(s: string)
    requires '/' !in s
    ensures Split(s, "/") == [s]
  {
    var i := IndexOf(s, "/");
    if i >= 0 { CharAt(s, '/', i); }
  }

  // ---------------------------------------------------------------- depth by text

  /** The length of a path's text. */
  function TextLength(p: Path): nat {
    if p == [] then 1 else Segments(p)
  }

  function Segments(p: Path): nat {
    if p == [] then 0 else Segments(p[..|p| - 1]) + |p[|p| - 1]| + 1
  }

  lemma {:induction false} SegmentsGrow(a: Path, b: Path)
    requires Resolved(b) && a <= b
    ensures Segments(a) <= Segments(b) && (|a| < |b| ==> Segments(a) + 1 < Segments(b))
    decreases |b|
  {
    if |a| < |b| {
      assert b[|b| - 1] != "";
      SegmentsGrow(a, b[..|b| - 1]);
    } else {
      assert a == b;
    }
  }

  /** Among directories that contain the same path, the one with the longer text is the deeper one. */
  lemma LongerIsDeeper(a: Path, b: Path, path: Path)
    requires Resolved(path) && a <= path && b <= path
    ensures TextLength(a) < TextLength(b) <==> |a| < |b|
    ensures |a| == |b| ==> a == b
  {
    assert a == path[..|a|] && b == path[..|b|];
    if |a| < |b| {
      assert a <= b;
      SegmentsGrow(a, b);
    } else if |b| < |a| {
      assert b <= a;
      SegmentsGrow(b, a);
    }
  }

  // ---------------------------------------------------------------------- steps

  datatype TestStep = TestStep(name: string, dir: Path)

  /** The steps with the longest directory first, otherwise in the order they came. */
  function Insert(x: TestStep, s: seq<TestStep>): seq<TestStep> {
    if s == [] then [x]
    else if TextLength(s[0].dir) >= TextLength(x.dir) then [s[0]] + Insert(x, s[1..])
    else [x] + s
  }

  function LongestFirst(steps: seq<TestStep>): seq<TestStep> {
    if steps == [] then [] else Insert(steps[|steps| - 1], LongestFirst(steps[..|steps| - 1]))
  }

  function Find(steps: seq<TestStep>, path: Path): Option<TestStep> {
    if steps == [] then None else if IsInside(steps[0].dir, path) then Some(steps[0]) else Find(steps[1..], path)
  }

  predicate Descending(s: seq<TestStep>) {
    s == [] || (Descending(s[1..]) && NoLonger(s[1..], TextLength(s[0].dir)))
  }

  predicate NoLonger(s: seq<TestStep>, n: nat) {
    forall k :: 0 <= k < |s| ==> TextLength(s[k].dir) <= n
  }

  lemma {:induction false} InsertNoLonger(x: TestStep, s: seq<TestStep>, n: nat)
    requires NoLonger(s, n) && TextLength(x.dir) <= n
    ensures NoLonger(Insert(x, s), n)
  {
    if s != [] && TextLength(s[0].dir) >= TextLength(x.dir) { InsertNoLonger(x, s[1..], n); }
  }

  lemma {:induction false} InsertDescending(x: TestStep, s: seq<TestStep>)
    requires Descending(s)
    ensures Descending(Insert(x, s))
  {
    if s != [] && TextLength(s[0].dir) >= TextLength(x.dir) {
      InsertDescending(x, s[1..]);
      InsertNoLonger(x, s[1..], TextLength(s[0].dir));
      assert Insert(x, s)[1..] == Insert(x, s[1..]);
    } else {
      assert ([x] + s)[1..] == s;
    }
  }

  lemma {:induction false} FindNoLonger(s: seq<TestStep>, path: Path, n: nat)
    requires NoLonger(s, n) && Find(s, path).Some?
    ensures TextLength(Find(s, path).value.dir) <= n
  {
    if !IsInside(s[0].dir, path) { FindNoLonger(s[1..], path, n); }
  }

  /** The step found after one more is sorted in: the new one exactly if it contains the path and is longer. */
  lemma {:induction false} FindInserted(x: TestStep, s: seq<TestStep>, path: Path)
    requires Descending(s)
    ensures Find(Insert(x, s), path)
            == if IsInside(x.dir, path) && (Find(s, path).None? || TextLength(Find(s, path).value.dir) < TextLength(x.dir))
               then Some(x) else Find(s, path)
  {
    if s == [] {
      assert [x][1..] == [];
    } else if TextLength(s[0].dir) >= TextLength(x.dir) {
      FindInserted(x, s[1..], path);
      assert Insert(x, s)[1..] == Insert(x, s[1..]);
    } else {
      assert ([x] + s)[1..] == s;
      if Find(s, path).Some? { FindNoLonger(s, path, TextLength(s[0].dir)); }
    }
  }

  /** The k-th step, in the order of the configuration, is the first of the deepest directory that contains `path`. */
  predicate IsHome(steps: seq<TestStep>, path: Path, k: int) {
    0 <= k < |steps| && steps[k].dir <= path
    && (forall j :: 0 <= j < |steps| && steps[j].dir <= path ==> |steps[j].dir| <= |steps[k].dir|)
    && (forall j :: 0 <= j < k && steps[j].dir <= path ==> |steps[j].dir| < |steps[k].dir|)
  }

  predicate Homeless(steps: seq<TestStep>, path: Path) {
    forall k :: 0 <= k < |steps| ==> !(steps[k].dir <= path)
  }

  predicate AllResolved(steps: seq<TestStep>) {
    forall k :: 0 <= k < |steps| ==> Resolved(steps[k].dir)
  }

  lemma {:induction false} LongestFirstDescends(steps: seq<TestStep>)
    ensures Descending(LongestFirst(steps))
  {
    if steps != [] {
      LongestFirstDescends(steps[..|steps| - 1]);
      InsertDescending(steps[|steps| - 1], LongestFirst(steps[..|steps| - 1]));
    }
  }

  /** The position of the home of a path, or -1. */
  function HomeIndex(steps: seq<TestStep>, path: Path): (r: int)
    ensures -1 <= r < |steps|
  {
    if steps == [] then -1
    else
      var h, x := HomeIndex(steps[..|steps| - 1], path), steps[|steps| - 1];
      if x.dir <= path && (h < 0 || |steps[h].dir| < |x.dir|) then |steps| - 1 else h
  }

  /** There is at most one home, and only a path no directory contains has none. */
  lemma {:induction false} HomeIndexIsHome(steps: seq<TestStep>, path: Path)
    ensures HomeIndex(steps, path) >= 0 ==> IsHome(steps, path, HomeIndex(steps, path))
    ensures HomeIndex(steps, path) < 0 <==> Homeless(steps, path)
  {
    if steps != [] { HomeIndexIsHome(steps[..|steps| - 1], path); }
  }

  lemma HomeIsUnique(steps: seq<TestStep>, path: Path, k: int)
    ensures IsHome(steps, path, k) <==> 0 <= k == HomeIndex(steps, path)
  {
    HomeIndexIsHome(steps, path);
  }

  /** The search in the sorted steps finds exactly the home of a path, and nothing when it has none. */
  lemma {:induction false} FindsHome(steps: seq<TestStep>, path: Path)
    requires AllResolved(steps) && Resolved(path)
    ensures Find(LongestFirst(steps), path)
            == if HomeIndex(steps, path) < 0 then None else Some(steps[HomeIndex(steps, path)])
  {
    if steps != [] {
      var init, x := steps[..|steps| - 1], steps[|steps| - 1];
      FindsHome(init, path);
      LongestFirstDescends(init);
      FindInserted(x, LongestFirst(init), path);
      InsideIsPrefix(x.dir, path);
      var h := HomeIndex(init, path);
      HomeContains(init, path);
      if h >= 0 && x.dir <= path { LongerIsDeeper(init[h].dir, x.dir, path); }
    }
  }

  lemma {:induction false} HomeContains(steps: seq<TestStep>, path: Path)
    ensures HomeIndex(steps, path) >= 0 ==> steps[HomeIndex(steps, path)].dir <= path
  {
    if steps != [] { HomeContains(steps[..|steps| - 1], path); }
  }

  // ------------------------------------------------------------------ selection

  /** A named path that exists, or not. */
  type Named = Option<Path>

  datatype Outcome =
    | Selected(selection: Gate.Selection)
    | NoTestStep(at: nat)
    | NoSuchPath(at: nat)
    | OutsideSteps(at: nat)

  /** The arguments of a step: from the paths, in order, that have their home there. */
  function Arguments(steps: seq<TestStep>, paths: seq<Named>, k: nat): seq<string>
    requires k < |steps|
  {
    if paths == [] then []
    else
      var last := paths[|paths| - 1];
      Arguments(steps, paths[..|paths| - 1], k)
      + if last.Some? && HomeIndex(steps, last.value) == k then [Argument(steps[k].dir, last.value)] else []
  }

  lemma {:induction false} ArgumentsJoin(steps: seq<TestStep>, a: seq<Named>, b: seq<Named>, k: nat)
    requires k < |steps|
    ensures Arguments(steps, a + b, k) == Arguments(steps, a, k) + Arguments(steps, b, k)
  {
    if b == [] {
      assert a + b == a;
    } else {
      assert (a + b)[..|a + b| - 1] == a + b[..|b| - 1];
      ArgumentsJoin(steps, a, b[..|b| - 1], k);
    }
  }

  /** What the arguments of a step mean when its command runs in its directory. */
  function Meanings(dir: Path, arguments: seq<string>): (r: seq<Path>)
    ensures |r| == |arguments| && forall i :: 0 <= i < |r| ==> r[i] == Meaning(dir, arguments[i])
  {
    seq(|arguments|, i requires 0 <= i < |arguments| => Meaning(dir, arguments[i]))
  }

  lemma MeaningsJoin(dir: Path, a: seq<string>, b: seq<string>)
    ensures Meanings(dir, a + b) == Meanings(dir, a) + Meanings(dir, b)
  {
  }

  lemma ArgumentsOfOne(steps: seq<TestStep>, path: Named, k: nat)
    requires k < |steps|
    ensures Arguments(steps, [path], k)
         == if path.Some? && HomeIndex(steps, path.value) == k then [Argument(steps[k].dir, path.value)] else []
  {
    assert Arguments(steps, [path][..0], k) == [];
  }

  /** One path is an argument of its home, where it means that path, and of no other step. */
  lemma OnePath(steps: seq<TestStep>, path: Named, k: nat)
    requires k < |steps| && AllResolved(steps) && (path.Some? ==> Resolved(path.value))
    ensures Meanings(steps[k].dir, Arguments(steps, [path], k))
         == if path.Some? && IsHome(steps, path.value, k) then [path.value] else []
  {
    if path.Some? {
      HomeIsUnique(steps, path.value, k);
      if HomeIndex(steps, path.value) == k { ArgumentMeansPath(steps[k].dir, path.value); }
    }
    ArgumentsOfOne(steps, path, k);
  }

  /** Those of the paths, in order, whose home is the k-th step. */
  function AtHome(steps: seq<TestStep>, paths: seq<Named>, k: nat): seq<Path> {
    if paths == [] then []
    else (if paths[0].Some? && IsHome(steps, paths[0].value, k) then [paths[0].value] else []) + AtHome(steps, paths[1..], k)
  }

  /** A step's arguments mean exactly the paths that have their home there, in the order they were named. */
  lemma {:induction false} ArgumentsArePaths(steps: seq<TestStep>, paths: seq<Named>, k: nat)
    requires k < |steps| && AllResolved(steps) && AllNamesResolved(paths)
    ensures Meanings(steps[k].dir, Arguments(steps, paths, k)) == AtHome(steps, paths, k)
  {
    if paths != [] {
      ArgumentsArePaths(steps, paths[1..], k);
      OnePath(steps, paths[0], k);
      assert paths == [paths[0]] + paths[1..];
      ArgumentsJoin(steps, [paths[0]], paths[1..], k);
      MeaningsJoin(steps[k].dir, Arguments(steps, [paths[0]], k), Arguments(steps, paths[1..], k));
    }
  }

  predicate DistinctNames(steps: seq<TestStep>) {
    forall i, j :: 0 <= i < j < |steps| ==> steps[i].name != steps[j].name
  }

  /** A path that can be routed. */
  predicate Routable(steps: seq<TestStep>, path: Named) {
    path.Some? && HomeIndex(steps, path.value) >= 0
  }

  /** Each step has the arguments of the paths that have their home there. */
  predicate RoutedTo(steps: seq<TestStep>, paths: seq<Named>, selection: Gate.Selection, k: nat)
    requires k < |steps|
  {
    steps[k].name in selection && selection[steps[k].name] == Arguments(steps, paths, k)
  }

  lemma ArgumentsOneMore(steps: seq<TestStep>, paths: seq<Named>, path: Path, k: nat)
    requires k < |steps|
    ensures Arguments(steps, paths + [Some(path)], k)
            == Arguments(steps, paths, k) + if HomeIndex(steps, path) == k then [Argument(steps[k].dir, path)] else []
  {
    assert (paths + [Some(path)])[..|paths|] == paths;
    assert Arguments(steps, paths, k) + [] == Arguments(steps, paths, k);
  }

  lemma RouteOne(steps: seq<TestStep>, paths: seq<Named>, path: Path, selection: Gate.Selection, k: nat)
    requires k < |steps| && DistinctNames(steps) && RoutedTo(steps, paths, selection, k)
    requires HomeIndex(steps, path) >= 0 && steps[HomeIndex(steps, path)].name in selection
    ensures var home := steps[HomeIndex(steps, path)];
            RoutedTo(steps, paths + [Some(path)],
                     selection[home.name := selection[home.name] + [Argument(home.dir, path)]], k)
  {
    ArgumentsOneMore(steps, paths, path, k);
  }

  function NoPaths(steps: seq<TestStep>): (r: Gate.Selection)
    ensures forall k :: 0 <= k < |steps| ==> steps[k].name in r
    ensures forall n :: n in r ==> r[n] == []
  {
    if steps == [] then map[] else NoPaths(steps[..|steps| - 1])[steps[|steps| - 1].name := []]
  }

  predicate AllRoutable(steps: seq<TestStep>, paths: seq<Named>) {
    forall i :: 0 <= i < |paths| ==> Routable(steps, paths[i])
  }

  predicate AllRouted(steps: seq<TestStep>, paths: seq<Named>, selection: Gate.Selection) {
    forall k: nat :: k < |steps| ==> RoutedTo(steps, paths, selection, k)
  }

  lemma RouteAll(steps: seq<TestStep>, paths: seq<Named>, path: Path, selection: Gate.Selection)
    requires DistinctNames(steps) && AllRouted(steps, paths, selection) && HomeIndex(steps, path) >= 0
    ensures var home := steps[HomeIndex(steps, path)];
            home.name in selection
            && AllRouted(steps, paths + [Some(path)],
                         selection[home.name := selection[home.name] + [Argument(home.dir, path)]])
  {
    var home := HomeIndex(steps, path);
    assert RoutedTo(steps, paths, selection, home);
    var name := steps[home].name;
    var now, next := paths + [Some(path)], selection[name := selection[name] + [Argument(steps[home].dir, path)]];
    forall k: nat | k < |steps| ensures RoutedTo(steps, now, next, k) {
      RouteOne(steps, paths, path, selection, k);
    }
  }

  /** Why the path at a position cannot be routed. */
  predicate Fails(steps: seq<TestStep>, paths: seq<Named>, r: Outcome) {
    match r
    case Selected(_) => false
    case NoTestStep(at) => steps == [] && at == 0 < |paths|
    case NoSuchPath(at) => steps != [] && at < |paths| && paths[at] == None
    case OutsideSteps(at) => steps != [] && at < |paths| && paths[at].Some? && HomeIndex(steps, paths[at].value) < 0
  }

  predicate AllNamesResolved(paths: seq<Named>) {
    forall i :: 0 <= i < |paths| && paths[i].Some? ==> Resolved(paths[i].value)
  }

  /** Every path goes to its home, or the first that has none is named. */
  method SelectTests(steps: seq<TestStep>, paths: seq<Named>) returns (r: Outcome)
    requires AllResolved(steps) && DistinctNames(steps) && AllNamesResolved(paths)
    ensures r.Selected? ==> AllRoutable(steps, paths) && AllRouted(steps, paths, r.selection)
    ensures !r.Selected? ==> Fails(steps, paths, r) && AllRoutable(steps, paths[..r.at])
  {
    var sorted := LongestFirst(steps);
    var selection := NoPaths(steps);
    for i := 0 to |paths|
      invariant i > 0 ==> steps != []
      invariant AllRoutable(steps, paths[..i]) && AllRouted(steps, paths[..i], selection)
    {
      if steps == [] { return NoTestStep(i); }
      if paths[i].None? { return NoSuchPath(i); }
      var path := paths[i].value;
      FindsHome(steps, path);
      var step := Find(sorted, path);
      if step.None? { return OutsideSteps(i); }
      RouteAll(steps, paths[..i], path, selection);
      selection := selection[step.value.name := selection[step.value.name] + [Argument(step.value.dir, path)]];
      assert paths[..i + 1] == paths[..i] + [Some(path)];
    }
    assert paths[..|paths|] == paths;
    return Selected(selection);
  }

  // ------------------------------------------------------------------- the gate

  /** How many arguments the first k steps have together. */
  function ArgumentCount(steps: seq<TestStep>, paths: seq<Named>, k: nat): nat
    requires k <= |steps|
  {
    if k == 0 then 0 else ArgumentCount(steps, paths, k - 1) + |Arguments(steps, paths, k - 1)|
  }

  /** How many paths have their home among the first k steps. */
  function HomesBelow(steps: seq<TestStep>, paths: seq<Named>, k: nat): nat {
    if paths == [] then 0
    else
      var last := paths[|paths| - 1];
      HomesBelow(steps, paths[..|paths| - 1], k) + if last.Some? && 0 <= HomeIndex(steps, last.value) < k then 1 else 0
  }

  lemma {:induction false} ArgumentsCounted(steps: seq<TestStep>, paths: seq<Named>, k: nat)
    requires k < |steps|
    ensures HomesBelow(steps, paths, k + 1) == HomesBelow(steps, paths, k) + |Arguments(steps, paths, k)|
  {
    if paths != [] { ArgumentsCounted(steps, paths[..|paths| - 1], k); }
  }

  lemma {:induction false} NoHomesBelow(steps: seq<TestStep>, paths: seq<Named>)
    ensures HomesBelow(steps, paths, 0) == 0
  {
    if paths != [] { NoHomesBelow(steps, paths[..|paths| - 1]); }
  }

  lemma CountStep(steps: seq<TestStep>, paths: seq<Named>, k: nat)
    requires k < |steps| && ArgumentCount(steps, paths, k) == HomesBelow(steps, paths, k)
    ensures ArgumentCount(steps, paths, k + 1) == HomesBelow(steps, paths, k + 1)
  {
    ArgumentsCounted(steps, paths, k);
  }

  lemma {:induction false} CountIsHomes(steps: seq<TestStep>, paths: seq<Named>, k: nat)
    requires k <= |steps|
    ensures ArgumentCount(steps, paths, k) == HomesBelow(steps, paths, k)
  {
    if k == 0 {
      NoHomesBelow(steps, paths);
    } else {
      CountIsHomes(steps, paths, k - 1);
      CountStep(steps, paths, k - 1);
    }
  }

  lemma {:induction false} AllHaveHomes(steps: seq<TestStep>, paths: seq<Named>)
    requires AllRoutable(steps, paths)
    ensures HomesBelow(steps, paths, |steps|) == |paths|
  {
    if paths != [] {
      assert Routable(steps, paths[|paths| - 1]);
      AllHaveHomes(steps, paths[..|paths| - 1]);
    }
  }

  /** Every routed path is an argument of exactly one step. */
  lemma EachPathOnce(steps: seq<TestStep>, paths: seq<Named>)
    requires AllRoutable(steps, paths)
    ensures ArgumentCount(steps, paths, |steps|) == |paths|
  {
    CountIsHomes(steps, paths, |steps|);
    AllHaveHomes(steps, paths);
  }

  /** Whether a named path has its home in the k-th step. */
  predicate IsNamed(steps: seq<TestStep>, paths: seq<Named>, k: nat) {
    exists i :: 0 <= i < |paths| && paths[i].Some? && HomeIndex(steps, paths[i].value) == k
  }

  lemma {:induction false} SomeArgument(steps: seq<TestStep>, paths: seq<Named>, k: nat)
    requires k < |steps|
    ensures Arguments(steps, paths, k) != [] <==> IsNamed(steps, paths, k)
  {
    if paths != [] {
      SomeArgument(steps, paths[..|paths| - 1], k);
    }
  }

  /** The gate with the selection skips exactly the test steps that are no path's home; it gives the others their arguments. */
  lemma {:induction false} GateRunsSelected(steps: seq<TestStep>, paths: seq<Named>, selection: Gate.Selection, k: nat)
    requires k < |steps| && RoutedTo(steps, paths, selection, k)
    ensures Gate.SelectedFor(Some(selection), Gate.Step(steps[k].name, true)) == Some(Arguments(steps, paths, k))
    ensures !Gate.Skips(Some(selection), Gate.Step(steps[k].name, true)) <==> IsNamed(steps, paths, k)
  {
    SomeArgument(steps, paths, k);
  }

  /** The test steps of the gate are the ones paths were routed to. */
  predicate SameTestSteps(steps: seq<TestStep>, config: seq<Gate.Step>) {
    forall j :: 0 <= j < |config| && config[j].vitest ==> exists k :: 0 <= k < |steps| && steps[k].name == config[j].name
  }

  /** The step is no test step, or some path has its home there. */
  predicate Wanted(steps: seq<TestStep>, paths: seq<Named>, step: Gate.Step) {
    !step.vitest || exists k :: 0 <= k < |steps| && steps[k].name == step.name && IsNamed(steps, paths, k)
  }

  function WantedSteps(steps: seq<TestStep>, paths: seq<Named>, config: seq<Gate.Step>): seq<Gate.Step> {
    if config == [] then []
    else (if Wanted(steps, paths, config[0]) then [config[0]] else []) + WantedSteps(steps, paths, config[1..])
  }

  lemma SkipsUnwanted(steps: seq<TestStep>, paths: seq<Named>, selection: Gate.Selection, step: Gate.Step)
    requires DistinctNames(steps) && AllRouted(steps, paths, selection)
    requires step.vitest ==> exists k :: 0 <= k < |steps| && steps[k].name == step.name
    ensures Gate.Skips(Some(selection), step) <==> !Wanted(steps, paths, step)
  {
    if step.vitest {
      var k: nat :| k < |steps| && steps[k].name == step.name;
      assert RoutedTo(steps, paths, selection, k);
      GateRunsSelected(steps, paths, selection, k);
    }
  }

  /**
   * A focused gate run is the gate on the steps that are wanted: test steps
   * without a path make no difference, and nothing else is left out.
   */
  lemma {:induction false} FocusedGate(lab: Gate.Lab, n: nat, tree: string, base: Option<string>, steps: seq<TestStep>,
                                       paths: seq<Named>, selection: Gate.Selection, config: seq<Gate.Step>,
                                       flaky: seq<string>, pre: seq<string>)
    requires DistinctNames(steps) && AllRouted(steps, paths, selection) && SameTestSteps(steps, config)
    ensures Gate.GateSteps(lab, n, tree, base, config, Some(selection), flaky, pre)
         == Gate.GateSteps(lab, n, tree, base, WantedSteps(steps, paths, config), Some(selection), flaky, pre)
    decreases |config|
  {
    if config != [] {
      var step, rest := config[0], config[1..];
      SkipsUnwanted(steps, paths, selection, step);
      if Wanted(steps, paths, step) {
        assert WantedSteps(steps, paths, config)[0] == step;
        assert WantedSteps(steps, paths, config)[1..] == WantedSteps(steps, paths, rest);
        var (v, m) := Gate.Judge(lab, n, tree, base, step, Gate.SelectedFor(Some(selection), step));
        if v.Accepted? {
          FocusedGate(lab, m, tree, base, steps, paths, selection, rest, flaky + v.flaky, pre + v.preexisting);
        }
      } else {
        assert WantedSteps(steps, paths, config) == WantedSteps(steps, paths, rest);
        FocusedGate(lab, n, tree, base, steps, paths, selection, rest, flaky, pre);
      }
    }
  }
}
