/**
 * Latency of one CLI run: every request is timed, overlapping requests count
 * once, and the run's record splits its time. Times are whole ticks.
 */
module CliLatency {
  import opened Options

  type Interval = (int, int)

  /** The time points from `start` up to, but not including, `end`. */
  function Points(start: int, end: int): (r: set<int>)
    ensures forall t :: t in r <==> start <= t < end
    decreases end - start
  {
    if end <= start then {} else Points(start, end - 1) + {end - 1}
  }

  /** The time points with at least one request under way. */
  function Covered(intervals: seq<Interval>): set<int> {
    if intervals == [] then {} else Points(intervals[0].0, intervals[0].1) + Covered(intervals[1..])
  }

  /** A point is covered when some interval holds it. */
  lemma {:induction false} CoveredMeans(intervals: seq<Interval>, x: int)
    ensures x in Covered(intervals) <==> exists k :: 0 <= k < |intervals| && intervals[k].0 <= x < intervals[k].1
  {
    if intervals != [] {
      var rest := intervals[1..];
      CoveredMeans(rest, x);
      if k :| 0 <= k < |rest| && rest[k].0 <= x < rest[k].1 { assert intervals[k + 1] == rest[k]; }
      if k :| 0 <= k < |intervals| && intervals[k].0 <= x < intervals[k].1 {
        if k > 0 { assert rest[k - 1] == intervals[k]; }
      }
    }
  }

  lemma {:induction false} PointsCount(start: int, end: int)
    ensures |Points(start, end)| == if start < end then end - start else 0
    decreases end - start
  {
    if start < end { PointsCount(start, end - 1); }
  }

  // -------------------------------------------------------------------- sorting

  function Insert(x: Interval, sorted: seq<Interval>): seq<Interval> {
    if sorted == [] then [x]
    else if x.0 < sorted[0].0 then [x] + sorted
    else [sorted[0]] + Insert(x, sorted[1..])
  }

  /** The intervals by start, stably. */
  function ByStart(intervals: seq<Interval>): seq<Interval> {
    if intervals == [] then [] else Insert(intervals[|intervals| - 1], ByStart(intervals[..|intervals| - 1]))
  }

  predicate Ascending(s: seq<Interval>) {
    forall i, j :: 0 <= i < j < |s| ==> s[i].0 <= s[j].0
  }

  lemma {:induction false} InsertBag(x: Interval, s: seq<Interval>)
    ensures multiset(Insert(x, s)) == multiset(s) + multiset{x}
    ensures |Insert(x, s)| == |s| + 1
  {
    if s != [] && x.0 >= s[0].0 {
      InsertBag(x, s[1..]);
      assert s == [s[0]] + s[1..];
    }
  }

  lemma {:induction false} InsertCovered(x: Interval, s: seq<Interval>)
    ensures Covered(Insert(x, s)) == Covered(s) + Points(x.0, x.1)
  {
    if s == [] {
      assert [x][1..] == [];
    } else if x.0 >= s[0].0 {
      InsertCovered(x, s[1..]);
      assert Insert(x, s)[1..] == Insert(x, s[1..]);
    } else {
      assert ([x] + s)[1..] == s;
    }
  }

  /** `low` is at most every start. */
  predicate AllFrom(s: seq<Interval>, low: int) {
    forall j :: 0 <= j < |s| ==> low <= s[j].0
  }

  lemma {:induction false} InsertFrom(x: Interval, s: seq<Interval>, low: int)
    requires AllFrom(s, low) && low <= x.0
    ensures AllFrom(Insert(x, s), low)
  {
    if s != [] && x.0 >= s[0].0 { InsertFrom(x, s[1..], low); }
  }

  lemma {:induction false} InsertAscending(x: Interval, s: seq<Interval>)
    requires Ascending(s)
    ensures Ascending(Insert(x, s))
  {
    if s != [] && x.0 >= s[0].0 {
      InsertAscending(x, s[1..]);
      InsertFrom(x, s[1..], s[0].0);
    }
  }

  lemma {:induction false} CoveredLast(s: seq<Interval>)
    requires s != []
    ensures Covered(s) == Covered(s[..|s| - 1]) + Points(s[|s| - 1].0, s[|s| - 1].1)
  {
    if |s| > 1 {
      CoveredLast(s[1..]);
      assert s[1..][..|s| - 2] == s[..|s| - 1][1..];
    } else {
      assert s[1..] == [] && s[..0] == [];
    }
  }

  lemma {:induction false} ByStartAscending(s: seq<Interval>)
    ensures Ascending(ByStart(s))
  {
    if s != [] {
      ByStartAscending(s[..|s| - 1]);
      InsertAscending(s[|s| - 1], ByStart(s[..|s| - 1]));
    }
  }

  lemma {:induction false} ByStartBag(s: seq<Interval>)
    ensures multiset(ByStart(s)) == multiset(s)
  {
    if s != [] {
      ByStartBag(s[..|s| - 1]);
      InsertBag(s[|s| - 1], ByStart(s[..|s| - 1]));
      assert s == s[..|s| - 1] + [s[|s| - 1]];
    }
  }

  /** The order of the requests does not matter to what they cover. */
  lemma {:induction false} ByStartCovered(s: seq<Interval>)
    ensures Covered(ByStart(s)) == Covered(s)
  {
    if s != [] {
      ByStartCovered(s[..|s| - 1]);
      InsertCovered(s[|s| - 1], ByStart(s[..|s| - 1]));
      CoveredLast(s);
    }
  }

  // ---------------------------------------------------------------------- sweep

  predicate Forward(s: seq<Interval>) {
    forall i :: 0 <= i < |s| ==> s[i].0 <= s[i].1
  }

  lemma ForwardSorted(s: seq<Interval>)
    requires Forward(s)
    ensures Forward(ByStart(s))
  {
    ByStartBag(s);
    forall i | 0 <= i < |ByStart(s)| ensures ByStart(s)[i].0 <= ByStart(s)[i].1 {
      assert ByStart(s)[i] in multiset(s);
    }
  }

  /** The sweep so far: what is covered reaches up to `end`, without a gap from `from` on. */
  predicate Swept(covered: set<int>, from: int, end: int) {
    (forall t :: t in covered ==> t < end) && (forall t :: from <= t < end ==> t in covered)
  }

  /** One interval more: the sweep adds exactly the points not yet covered. */
  lemma SweepStep(covered: set<int>, from: int, end: int, x: Interval)
    requires Swept(covered, from, end) && from <= x.0 <= x.1
    ensures var now := covered + Points(x.0, x.1);
            if x.1 <= end then now == covered
            else Swept(now, if x.0 <= end then from else x.0, x.1)
                 && |now| == |covered| + (x.1 - (if x.0 < end then end else x.0))
  {
    if x.1 > end {
      var start := if x.0 < end then end else x.0;
      var added := Points(start, x.1);
      PointsCount(start, x.1);
      assert covered + Points(x.0, x.1) == covered + added;
      assert covered !! added;
    } else {
      assert covered + Points(x.0, x.1) == covered;
    }
  }

  function Later(start: int, end: Option<int>): int {
    if end.Some? && start < end.value then end.value else start
  }

  /** The sweep after the intervals `done`: `total` counts what they cover, and no gap is left between `from` and `end`. */
  ghost predicate At(done: seq<Interval>, total: int, end: Option<int>, from: int) {
    total == |Covered(done)|
    && if done == [] then end.None?
       else end.Some? && from <= done[|done| - 1].0 && Swept(Covered(done), from, end.value)
  }

  lemma SweepNext(done: seq<Interval>, x: Interval, total: int, end: Option<int>, from: int)
    requires At(done, total, end, from) && x.0 <= x.1
    requires done != [] ==> done[|done| - 1].0 <= x.0
    ensures if end.Some? && x.1 <= end.value then At(done + [x], total, end, from)
            else At(done + [x], total + (x.1 - Later(x.0, end)), Some(x.1),
                    if end.Some? && x.0 <= end.value then from else x.0)
  {
    CoveredLast(done + [x]);
    assert (done + [x])[..|done|] == done;
    PointsCount(x.0, x.1);
    if end.Some? { SweepStep(Covered(done), from, end.value, x); }
  }

  lemma SweepOne(sorted: seq<Interval>, i: nat, total: int, end: Option<int>, from: int)
    requires i < |sorted| && Ascending(sorted) && Forward(sorted) && At(sorted[..i], total, end, from)
    ensures var x := sorted[i];
            if end.Some? && x.1 <= end.value then At(sorted[..i + 1], total, end, from)
            else At(sorted[..i + 1], total + (x.1 - Later(x.0, end)), Some(x.1),
                    if end.Some? && x.0 <= end.value then from else x.0)
  {
    SweepNext(sorted[..i], sorted[i], total, end, from);
    assert sorted[..i] + [sorted[i]] == sorted[..i + 1];
  }

  /** The sweep over intervals sorted by start. */
  method Sweep(sorted: seq<Interval>) returns (total: int)
    requires Ascending(sorted) && Forward(sorted)
    ensures total == |Covered(sorted)|
  {
    total := 0;
    var currentEnd: Option<int> := None;
    ghost var from := 0;
    for i := 0 to |sorted|
      invariant At(sorted[..i], total, currentEnd, from)
    {
      var (start, end) := sorted[i];
      SweepOne(sorted, i, total, currentEnd, from);
      if currentEnd.Some? && end <= currentEnd.value { continue; }
      total := total + (end - Later(start, currentEnd));
      from := if currentEnd.Some? && start <= currentEnd.value then from else start;
      currentEnd := Some(end);
    }
    assert sorted[..|sorted|] == sorted;
  }

  /** The length of the union of the intervals is the number of time points they cover, in whatever order they come. */
  method UnionDuration(intervals: seq<Interval>) returns (total: int)
    requires Forward(intervals)
    ensures total == |Covered(intervals)|
  {
    ByStartAscending(intervals);
    ByStartCovered(intervals);
    ForwardSorted(intervals);
    total := Sweep(ByStart(intervals));
  }

  // --------------------------------------------------------------------- record

  datatype Request = Request(at: int, ms: nat, serverMs: Option<nat>)

  function IntervalsOf(requests: seq<Request>): (r: seq<Interval>)
    ensures |r| == |requests| && forall k :: 0 <= k < |r| ==> r[k] == (requests[k].at, requests[k].at + requests[k].ms)
  {
    if requests == [] then []
    else [(requests[0].at, requests[0].at + requests[0].ms)] + IntervalsOf(requests[1..])
  }

  function ServerSum(requests: seq<Request>): nat {
    if requests == [] then 0
    else ServerSum(requests[..|requests| - 1])
         + (match requests[|requests| - 1].serverMs case Some(ms) => ms case None => 0)
  }

  /** The server times that are known, summed up. */
  lemma {:induction false} ServerSumMeans(a: seq<Request>, b: seq<Request>, request: Request)
    ensures ServerSum([]) == 0
    ensures ServerSum([request]) == if request.serverMs.Some? then request.serverMs.value else 0
    ensures ServerSum(a + b) == ServerSum(a) + ServerSum(b)
  {
    assert [request][..0] == [];
    if b == [] {
      assert a + b == a;
    } else {
      assert (a + b)[..|a + b| - 1] == a + b[..|b| - 1];
      ServerSumMeans(a, b[..|b| - 1], request);
    }
  }

  datatype Record = Record(totalMs: int, startupMs: int, httpMs: int, serverMs: int)

  /** The parts of a run's time fit into it. */
  predicate Fits(r: Record) {
    0 <= r.startupMs && 0 <= r.serverMs <= r.httpMs <= r.totalMs - r.startupMs
  }

  lemma {:induction false} CoveredWithin(s: seq<Interval>, from: int, end: int)
    requires forall k :: 0 <= k < |s| ==> from <= s[k].0 && s[k].1 <= end
    ensures Covered(s) <= Points(from, end)
  {
    if s != [] { CoveredWithin(s[1..], from, end); }
  }

  lemma SubsetCount(a: set<int>, b: set<int>)
    requires a <= b
    ensures |a| <= |b|
  {
    assert |b| == |a| + |b - a| by { assert b == a + (b - a); }
  }

  /** All requests started after startup and ended before now. */
  predicate Timed(requests: seq<Request>, startup: int, now: int) {
    0 <= startup <= now
    && forall k :: 0 <= k < |requests| ==> startup <= requests[k].at && requests[k].at + requests[k].ms <= now
  }

  method BuildRecord(totalMs: int, startupMs: int, requests: seq<Request>) returns (r: Record)
    ensures r.totalMs == totalMs && r.startupMs == startupMs
    ensures r.httpMs == |Covered(IntervalsOf(requests))|
    ensures r.serverMs == if ServerSum(requests) < r.httpMs then ServerSum(requests) else r.httpMs
    ensures Timed(requests, startupMs, totalMs) ==> Fits(r)
  {
    var httpMs := UnionDuration(IntervalsOf(requests));
    var serverMs := 0;
    var i := 0;
    while i < |requests|
      invariant 0 <= i <= |requests| && serverMs == ServerSum(requests[..i])
    {
      assert requests[..i + 1][..i] == requests[..i];
      serverMs := serverMs + (match requests[i].serverMs case Some(ms) => ms case None => 0);
      i := i + 1;
    }
    assert requests[..i] == requests;
    if Timed(requests, startupMs, totalMs) {
      CoveredWithin(IntervalsOf(requests), startupMs, totalMs);
      SubsetCount(Covered(IntervalsOf(requests)), Points(startupMs, totalMs));
      PointsCount(startupMs, totalMs);
    }
    r := Record(totalMs, startupMs, httpMs, if serverMs < httpMs then serverMs else httpMs);
  }

  // -------------------------------------------------------------------- tracking

  /** The tracker of one process: a clock that never goes back, and the requests seen so far. */
  class Tracker {
    var now: int
    var startupMs: int
    var requests: seq<Request>

    predicate Valid()
      reads this
    {
      Timed(requests, startupMs, now)
    }

    constructor (startup: nat)
      ensures Valid() && now == startup && startupMs == startup && requests == []
    {
      now, startupMs, requests := startup, startup, [];
    }

    /** Time passes. */
    method Wait(ms: nat)
      requires Valid()
      modifies this`now
      ensures Valid() && now == old(now) + ms
    {
      now := now + ms;
    }

    /** A request starts; until it finishes it counts as taking no time. */
    method Start() returns (index: nat)
      requires Valid()
      modifies this`requests
      ensures Valid() && index == |old(requests)| && requests == old(requests) + [Request(now, 0, None)]
    {
      index := |requests|;
      requests := requests + [Request(now, 0, None)];
    }

    /** The response, or later its body, has arrived; a body read finishes the request again, later. */
    method Finish(index: nat, serverMs: Option<nat>)
      requires Valid() && index < |requests|
      modifies this`requests
      ensures Valid()
      ensures var r := old(requests)[index];
              requests == old(requests)[index := Request(r.at, now - r.at, if serverMs.Some? then serverMs else r.serverMs)]
    {
      var r := requests[index];
      requests := requests[index := Request(r.at, now - r.at, if serverMs.Some? then serverMs else r.serverMs)];
    }

    /** At exit the record is made from the clock and the requests, finished or not, and its parts fit. */
    method Exit() returns (r: Record)
      requires Valid()
      ensures Fits(r) && r.totalMs == now && r.startupMs == startupMs
      ensures r.httpMs == |Covered(IntervalsOf(requests))|
      ensures r.serverMs == if ServerSum(requests) < r.httpMs then ServerSum(requests) else r.httpMs
    {
      r := BuildRecord(now, startupMs, requests);
    }
  }
}
