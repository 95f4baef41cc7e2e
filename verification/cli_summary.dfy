/**
 * The summary of CLI runs per command: the mean split of their time, and which
 * commands are flagged for transport. Means are exact rationals.
 */
module CliSummary {
  import opened CliLatency
  import TakodeLatency

  /** The least mean transport, in milliseconds, that a flag needs. */
  const MIN_TRANSPORT: real := 25.0

  datatype Run = Run(command: string, failed: bool, times: Record, requests: seq<Request>)

  datatype Summary = Summary(runs: nat, failures: nat, p50TotalMs: int, p95TotalMs: int, total: real, startup: real,
                             local: real, server: real, transport: real, unsplit: bool, flagged: bool)

  function Total(runs: seq<Run>, pick: Record -> int): int {
    if runs == [] then 0 else Total(runs[..|runs| - 1], pick) + pick(runs[|runs| - 1].times)
  }

  function Mean(runs: seq<Run>, pick: Record -> int): real
    requires runs != []
  {
    Total(runs, pick) as real / |runs| as real
  }

  function TotalTimes(runs: seq<Run>): (r: seq<int>)
    ensures |r| == |runs| && forall k :: 0 <= k < |runs| ==> r[k] == runs[k].times.totalMs
  {
    if runs == [] then [] else [runs[0].times.totalMs] + TotalTimes(runs[1..])
  }

  predicate Unsplit(runs: seq<Run>) {
    exists i, k :: 0 <= i < |runs| && 0 <= k < |runs[i].requests| && runs[i].requests[k].serverMs.None?
  }

  function Failures(runs: seq<Run>): nat {
    if runs == [] then 0 else Failures(runs[..|runs| - 1]) + if runs[|runs| - 1].failed then 1 else 0
  }

  function SummaryOf(runs: seq<Run>): Summary
    requires runs != []
  {
    var times := TotalTimes(runs);
    TakodeLatency.SortCounts(times, 0);
    var sorted := TakodeLatency.Sort(times);
    var total := Mean(runs, (r: Record) => r.totalMs);
    var startup := Mean(runs, (r: Record) => r.startupMs);
    var server := Mean(runs, (r: Record) => r.serverMs);
    var transport := Mean(runs, (r: Record) => r.httpMs - r.serverMs);
    var rest := total - startup - server - transport;
    var local := if rest < 0.0 then 0.0 else rest;
    Summary(|runs|, Failures(runs), TakodeLatency.Percentile(sorted, 1, 2), TakodeLatency.Percentile(sorted, 95, 100),
            total, startup, local, server, transport, Unsplit(runs),
            !Unsplit(runs) && transport >= MIN_TRANSPORT && transport > local + server)
  }

  // ------------------------------------------------- a row, in terms of its runs

  /** A sum over runs: that of one run is what is picked from it, and sums of parts add up. */
  lemma {:induction false} TotalMeans(a: seq<Run>, b: seq<Run>, run: Run, pick: Record -> int)
    ensures Total([], pick) == 0 && Total([run], pick) == pick(run.times)
    ensures Total(a + b, pick) == Total(a, pick) + Total(b, pick)
  {
    assert [run][..0] == [];
    if b == [] {
      assert a + b == a;
    } else {
      assert (a + b)[..|a + b| - 1] == a + b[..|b| - 1];
      TotalMeans(a, b[..|b| - 1], run, pick);
    }
  }

  /** The failed runs, by their places. */
  function FailedAt(runs: seq<Run>): set<nat> {
    set k: nat | k < |runs| && runs[k].failed
  }

  lemma {:induction false} FailuresCount(runs: seq<Run>)
    ensures Failures(runs) == |FailedAt(runs)|
  {
    if runs == [] {
      assert FailedAt(runs) == {};
    } else {
      var n := |runs| - 1;
      FailuresCount(runs[..n]);
      assert FailedAt(runs) == FailedAt(runs[..n]) + if runs[n].failed then {n as nat} else {};
    }
  }

  /** The counts of a row: its runs, those of them that failed, and whether some request has no server time. */
  lemma RowCounts(runs: seq<Run>)
    requires runs != []
    ensures var s := SummaryOf(runs);
            && s.runs == |runs| && s.failures == |set k: nat | k < |runs| && runs[k].failed|
            && (s.unsplit <==>
                  exists i, k :: 0 <= i < |runs| && 0 <= k < |runs[i].requests| && runs[i].requests[k].serverMs.None?)
  {
    FailuresCount(runs);
  }

  /** The times of a row are the means of the times of its runs. */
  lemma RowTimes(runs: seq<Run>)
    requires runs != []
    ensures var s, n := SummaryOf(runs), |runs| as real;
            && s.total == Total(runs, (r: Record) => r.totalMs) as real / n
            && s.startup == Total(runs, (r: Record) => r.startupMs) as real / n
            && s.server == Total(runs, (r: Record) => r.serverMs) as real / n
            && s.transport == Total(runs, (r: Record) => r.httpMs - r.serverMs) as real / n
  {
  }

  /** What is left of the total is local, if anything is. */
  lemma RowLocal(runs: seq<Run>)
    requires runs != []
    ensures var s := SummaryOf(runs);
            var rest := s.total - s.startup - s.server - s.transport;
            s.local == (if rest < 0.0 then 0.0 else rest)
  {
  }

  lemma RowRest(runs: seq<Run>)
    requires runs != []
    ensures var n := |runs|;
            Total(runs, (r: Record) => r.totalMs) as real / n as real
            - Total(runs, (r: Record) => r.startupMs) as real / n as real
            - Total(runs, (r: Record) => r.serverMs) as real / n as real
            - Total(runs, (r: Record) => r.httpMs - r.serverMs) as real / n as real
            == LocalTotal(runs) as real / n as real
  {
    TotalsSplit(runs);
    Quotients(Total(runs, (r: Record) => r.startupMs), Total(runs, (r: Record) => r.serverMs),
              Total(runs, (r: Record) => r.httpMs - r.serverMs), LocalTotal(runs), |runs|);
  }

  lemma QuotientSum(b: int, c: int, n: nat)
    requires n > 0
    ensures (b + c) as real / n as real == b as real / n as real + c as real / n as real
  {
  }

  lemma QuotientOfMultiple(n: nat)
    requires n > 0
    ensures (25 * n) as real / n as real == 25.0
  {
  }

  lemma CompareQuotients(a: int, b: int, c: int, n: nat)
    requires n > 0
    ensures a as real / n as real > b as real / n as real + c as real / n as real <==> a > b + c
    ensures a as real / n as real > c as real / n as real <==> a > c
    ensures a as real / n as real >= 25.0 <==> a >= 25 * n
  {
    Above(a, c, n);
    Above(a, b + c, n);
    QuotientSum(b, c, n);
    QuotientOfMultiple(n);
    Above(25 * n, a, n);
  }

  lemma Above(a: int, b: int, n: nat)
    requires n > 0
    ensures a as real / n as real > b as real / n as real <==> a > b
  {
  }

  /** The flag, by the sums over the runs: transport is long enough, and longer than the work, local and in the server. */
  lemma FlagMeans(runs: seq<Run>)
    requires runs != []
    ensures var s := SummaryOf(runs);
            var transport := Total(runs, (r: Record) => r.httpMs - r.serverMs);
            var server := Total(runs, (r: Record) => r.serverMs);
            s.flagged <==>
              !s.unsplit && transport >= 25 * |runs| && transport > server && transport > LocalTotal(runs) + server
  {
    RowTimes(runs);
    RowLocal(runs);
    RowRest(runs);
    Above(0, LocalTotal(runs), |runs|);
    CompareQuotients(Total(runs, (r: Record) => r.httpMs - r.serverMs), LocalTotal(runs),
                     Total(runs, (r: Record) => r.serverMs), |runs|);
  }

  /** Time outside startup and requests, over all runs. */
  function LocalTotal(runs: seq<Run>): int {
    if runs == [] then 0
    else
      var r := runs[|runs| - 1].times;
      LocalTotal(runs[..|runs| - 1]) + (r.totalMs - r.startupMs - r.httpMs)
  }

  lemma {:induction false} TotalsSplit(runs: seq<Run>)
    ensures Total(runs, (r: Record) => r.totalMs)
            == Total(runs, (r: Record) => r.startupMs) + Total(runs, (r: Record) => r.serverMs)
               + Total(runs, (r: Record) => r.httpMs - r.serverMs) + LocalTotal(runs)
  {
    if runs != [] { TotalsSplit(runs[..|runs| - 1]); }
  }

  lemma Quotients(a: int, b: int, c: int, d: int, n: nat)
    requires n > 0
    ensures (a + b + c + d) as real / n as real
            == a as real / n as real + b as real / n as real + c as real / n as real + d as real / n as real
    ensures d >= 0 <==> d as real / n as real >= 0.0
  {
  }

  /**
   * The four means add up to the total mean if and only if the runs' time outside
   * startup and requests is not negative in sum.
   */
  lemma MeansAddUp(runs: seq<Run>)
    requires runs != []
    ensures var s := SummaryOf(runs);
            s.startup + s.local + s.server + s.transport == s.total <==> LocalTotal(runs) >= 0
  {
    TotalsSplit(runs);
    Quotients(Total(runs, (r: Record) => r.startupMs), Total(runs, (r: Record) => r.serverMs),
              Total(runs, (r: Record) => r.httpMs - r.serverMs), LocalTotal(runs), |runs|);
  }

  predicate AllFit(runs: seq<Run>) {
    forall i :: 0 <= i < |runs| ==> Fits(runs[i].times)
  }

  lemma {:induction false} FittingTotals(runs: seq<Run>)
    requires AllFit(runs)
    ensures LocalTotal(runs) >= 0
  {
    if runs != [] { FittingTotals(runs[..|runs| - 1]); }
  }

  /**
   * For records the tracker made, the four means add up, and a flag means that
   * transport took more than half of the time after startup.
   */
  lemma TrackedRunsAddUp(runs: seq<Run>)
    requires runs != [] && AllFit(runs)
    ensures var s := SummaryOf(runs);
            s.startup + s.local + s.server + s.transport == s.total
            && (s.flagged <==> !s.unsplit && s.transport >= MIN_TRANSPORT && 2.0 * s.transport > s.total - s.startup)
  {
    FittingTotals(runs);
    MeansAddUp(runs);
  }

  /** The exact percentiles of the runs' total times. */
  lemma PercentilesAreExact(runs: seq<Run>)
    requires runs != []
    ensures TakodeLatency.NearestRank(TotalTimes(runs), 1, 2, SummaryOf(runs).p50TotalMs)
    ensures TakodeLatency.NearestRank(TotalTimes(runs), 95, 100, SummaryOf(runs).p95TotalMs)
  {
    TakodeLatency.PercentileIsNearestRank(TotalTimes(runs), 1, 2);
    TakodeLatency.PercentileIsNearestRank(TotalTimes(runs), 95, 100);
  }

  // ------------------------------------------------------------------- grouping

  /** The runs of one command, in order. */
  function RunsOf(runs: seq<Run>, command: string): seq<Run> {
    if runs == [] then []
    else RunsOf(runs[..|runs| - 1], command)
         + if runs[|runs| - 1].command == command then [runs[|runs| - 1]] else []
  }

  /** The runs of a command in one part of the log, and then those in the rest. */
  lemma {:induction false} RunsOfMeans(a: seq<Run>, b: seq<Run>, run: Run, command: string)
    ensures RunsOf([run], command) == if run.command == command then [run] else []
    ensures RunsOf(a + b, command) == RunsOf(a, command) + RunsOf(b, command)
  {
    assert [run][..0] == [];
    if b == [] {
      assert a + b == a;
      assert RunsOf(a, command) + [] == RunsOf(a, command);
    } else {
      assert (a + b)[..|a + b| - 1] == a + b[..|b| - 1];
      RunsOfMeans(a, b[..|b| - 1], run, command);
    }
  }

  predicate GroupOk(runs: seq<Run>, groups: map<string, seq<Run>>, command: string) {
    if command in groups then groups[command] == RunsOf(runs, command) != [] else RunsOf(runs, command) == []
  }

  lemma GroupKept(runs: seq<Run>, run: Run, groups: map<string, seq<Run>>, command: string)
    requires GroupOk(runs, groups, command) && GroupOk(runs, groups, run.command)
    ensures var group := if run.command in groups then groups[run.command] + [run] else [run];
            GroupOk(runs + [run], groups[run.command := group], command)
  {
    assert (runs + [run])[..|runs|] == runs;
    assert RunsOf(runs, command) + [] == RunsOf(runs, command);
  }

  /** Every run is in the group of its command, once and in order, and no group is empty. */
  method SummarizeCliLatency(runs: seq<Run>) returns (rows: map<string, Summary>)
    ensures forall c :: c in rows <==> RunsOf(runs, c) != []
    ensures forall c :: c in rows ==> rows[c] == SummaryOf(RunsOf(runs, c))
  {
    var groups: map<string, seq<Run>> := map[];
    for i := 0 to |runs|
      invariant forall c :: GroupOk(runs[..i], groups, c)
    {
      var run := runs[i];
      ghost var was := groups;
      groups := groups[run.command := if run.command in groups then groups[run.command] + [run] else [run]];
      ghost var now := runs[..i + 1];
      assert now == runs[..i] + [run];
      forall c ensures GroupOk(now, groups, c) {
        assert GroupOk(runs[..i], was, c) && GroupOk(runs[..i], was, run.command);
        GroupKept(runs[..i], run, was, c);
      }
    }
    assert runs[..|runs|] == runs;
    forall c | c in groups ensures groups[c] != [] { assert GroupOk(runs, groups, c); }
    rows := map c | c in groups :: SummaryOf(groups[c]);
    forall c ensures c in rows <==> RunsOf(runs, c) != [] ensures c in rows ==> rows[c] == SummaryOf(RunsOf(runs, c)) {
      assert GroupOk(runs, groups, c);
    }
  }
}
