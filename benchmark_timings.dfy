/**
 * Benchmark bookkeeping: every timed call appends one run to the run list
 * and folds its elapsed time into the running statistics of its operation
 * (count, total, minimum, maximum, average); the report shows the
 * per-operation statistics and the ten most recent runs.
 *
 * Clock readings and the loaded/saved JSON file are not modelled: the
 * elapsed time and the timestamp are parameters, and the state lives in
 * the object.
 */
module BenchmarkTimings {
  import opened Wrappers

  datatype Run = Run(timestamp: string, operation: string, time: real)

  /** A minimum that starts at positive infinity. */
  datatype Bound = Infinite | Finite(value: real)

  datatype Stats = Stats(count: nat, total: real, min: Bound, max: real, avg: real)

  /** The statistics of an operation seen for the first time. */
  const Initial: Stats := Stats(0, 0.0, Infinite, 0.0, 0.0)

  function MinWith(b: Bound, t: real): Bound {
    match b
    case Infinite => Finite(t)
    case Finite(m) => Finite(if t < m then t else m)
  }

  /** One timing folded into an operation's statistics. */
  function Update(s: Stats, t: real): (r: Stats)
    ensures r.count == s.count + 1 && r.total == s.total + t
    ensures r.min.Finite? && r.min.value <= t && r.max >= t && r.max >= s.max
    ensures s.min.Finite? ==> r.min.value <= s.min.value
    ensures r.min.value == t || (s.min.Finite? && r.min.value == s.min.value)
    ensures r.max == t || r.max == s.max
    ensures r.avg * r.count as real == r.total
  {
    var count := s.count + 1;
    var total := s.total + t;
    Stats(count, total, MinWith(s.min, t), if s.max < t then t else s.max, total / count as real)
  }

  /**
   * Statistics that could come from non-negative timings: the initial ones,
   * or a finite non-negative minimum, a total between count times the
   * minimum and count times the maximum, and the average total / count.
   */
  predicate Consistent(s: Stats) {
    if s.count == 0 then s == Initial
    else
      s.min.Finite? && 0.0 <= s.min.value
      && s.min.value * s.count as real <= s.total <= s.max * s.count as real
      && s.avg == s.total / s.count as real
  }

  lemma Scale(a: real, b: real, c: real)
    requires a <= b && c >= 0.0
    ensures a * c <= b * c
  {
  }

  lemma LowerStep(lo: real, m: real, n: real, total: real, t: real)
    requires lo <= m && lo <= t && m * n <= total && n >= 0.0
    ensures lo * (n + 1.0) <= total + t
  {
    Scale(lo, m, n);
  }

  lemma UpperStep(hi: real, m: real, n: real, total: real, t: real)
    requires m <= hi && t <= hi && total <= m * n && n >= 0.0
    ensures total + t <= hi * (n + 1.0)
  {
    Scale(m, hi, n);
  }

  /** A non-negative timing keeps the statistics consistent. */
  lemma UpdateConsistent(s: Stats, t: real)
    requires Consistent(s) && t >= 0.0
    ensures Consistent(Update(s, t))
  {
    var r := Update(s, t);
    var n := s.count as real;
    assert r.count as real == n + 1.0;
    if s.count > 0 {
      LowerStep(r.min.value, s.min.value, n, s.total, t);
      UpperStep(r.max, s.max, n, s.total, t);
    }
  }

  /** In consistent statistics the average lies between the minimum and the maximum. */
  lemma AverageBetween(s: Stats)
    requires Consistent(s) && s.count > 0
    ensures s.min.value <= s.avg <= s.max
  {
    var n := s.count as real;
    assert s.avg * n == s.total;
    if s.avg < s.min.value {
      Scale(s.avg, s.min.value, n);
      assert false;
    }
    if s.avg > s.max {
      Scale(s.max, s.avg, n);
      assert false;
    }
  }

  /** The statistics the runs of one operation add up to, in run order. */
  function Summarize(runs: seq<Run>, op: string): Stats
    decreases |runs|
  {
    if |runs| == 0 then Initial
    else
      var s := Summarize(runs[..|runs| - 1], op);
      if runs[|runs| - 1].operation == op then Update(s, runs[|runs| - 1].time) else s
  }

  function Occurrences(runs: seq<Run>, op: string): nat
    decreases |runs|
  {
    if |runs| == 0 then 0
    else Occurrences(runs[..|runs| - 1], op) + (if runs[|runs| - 1].operation == op then 1 else 0)
  }

  predicate NonNegative(runs: seq<Run>) {
    forall k :: 0 <= k < |runs| ==> runs[k].time >= 0.0
  }

  /**
   * The summary of an operation counts exactly its runs and, for
   * non-negative timings, keeps minimum <= average <= maximum.
   */
  lemma {:induction false} SummaryConsistent(runs: seq<Run>, op: string)
    requires NonNegative(runs)
    ensures Summarize(runs, op).count == Occurrences(runs, op)
    ensures Consistent(Summarize(runs, op))
    decreases |runs|
  {
    if |runs| > 0 {
      var init := runs[..|runs| - 1];
      assert NonNegative(init) by {
        forall k | 0 <= k < |init| ensures init[k].time >= 0.0 {
          assert init[k] == runs[k];
        }
      }
      SummaryConsistent(init, op);
      if runs[|runs| - 1].operation == op {
        UpdateConsistent(Summarize(init, op), runs[|runs| - 1].time);
      }
    }
  }

  /** One run in the report: its position among the recent runs, counting from 1. */
  datatype RecentRun = RecentRun(number: nat, run: Run)

  datatype Report = Report(operations: map<string, Stats>, recent: seq<RecentRun>)

  const RecentLimit: nat := 10

  /** The benchmark record: the run list and the per-operation summary. */
  class Benchmarks {
    var runs: seq<Run>
    var operations: map<string, Stats>

    /** The summary of every operation agrees with the run list. */
    ghost predicate Valid()
      reads this
    {
      forall op :: Summarize(runs, op) == (if op in operations then operations[op] else Initial)
    }

    constructor()
      ensures Valid() && runs == [] && operations == map[]
    {
      runs := [];
      operations := map[];
    }

    /**
     * The benchmark wrapper around a call that returned `result` after
     * `elapsed` seconds: appends one run and updates only that operation's
     * statistics; the result is passed through unchanged.
     */
    method Record<T>(op: string, elapsed: real, timestamp: string, result: T) returns (r: T)
      requires Valid()
      modifies this
      ensures Valid()
      ensures r == result
      ensures runs == old(runs) + [Run(timestamp, op, elapsed)]
      ensures operations == old(operations)[op := Update(if op in old(operations) then old(operations)[op] else Initial, elapsed)]
    {
      runs := runs + [Run(timestamp, op, elapsed)];
      if op !in operations {
        operations := operations[op := Initial];
      }
      var stats := operations[op];
      var count := stats.count + 1;
      var total := stats.total + elapsed;
      var min := MinWith(stats.min, elapsed);
      var max := if stats.max < elapsed then elapsed else stats.max;
      operations := operations[op := Stats(count, total, min, max, total / count as real)];
      r := result;
      forall o
        ensures Summarize(runs, o) == (if o in operations then operations[o] else Initial)
      {
        assert runs[..|runs| - 1] == old(runs);
      }
    }

    /** generate_report: nothing without runs; otherwise the statistics and the last ten runs numbered from 1. */
    method GenerateReport() returns (report: Option<Report>)
      ensures runs == [] <==> report.None?
      ensures report.Some? ==>
        var recent := if |runs| > RecentLimit then runs[|runs| - RecentLimit..] else runs;
        report.value.operations == operations
        && |report.value.recent| == |recent|
        && forall i :: 0 <= i < |recent| ==> report.value.recent[i] == RecentRun(i + 1, recent[i])
    {
      if |runs| == 0 {
        return None;
      }
      var recent := if |runs| > RecentLimit then runs[|runs| - RecentLimit..] else runs;
      var numbered: seq<RecentRun> := [];
      var i := 0;
      while i < |recent|
        invariant 0 <= i <= |recent|
        invariant |numbered| == i
        invariant forall j :: 0 <= j < i ==> numbered[j] == RecentRun(j + 1, recent[j])
      {
        numbered := numbered + [RecentRun(i + 1, recent[i])];
        i := i + 1;
      }
      report := Some(Report(operations, numbered));
    }
  }

  /** In a valid record with non-negative timings, every operation's average lies between its extremes. */
  lemma RecordedAveragesBetween(runs: seq<Run>, operations: map<string, Stats>, op: string)
    requires forall o :: Summarize(runs, o) == (if o in operations then operations[o] else Initial)
    requires NonNegative(runs) && op in operations && operations[op].count > 0
    ensures operations[op].min.Finite? && operations[op].min.value <= operations[op].avg <= operations[op].max
    ensures operations[op].count == Occurrences(runs, op)
  {
    SummaryConsistent(runs, op);
    assert Summarize(runs, op) == operations[op];
    AverageBetween(operations[op]);
  }
}
