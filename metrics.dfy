// The execution-metrics collector: a list of recorded calls and a table of
// named counters, both updated in place, plus the per-function summary.
module Metrics {
  import opened Wrappers

  /** One recorded call; the elapsed time (a float) is not modelled. */
  datatype Metric = Metric(functionName: string, success: bool, errorMessage: Option<string>)

  datatype FunctionStats = FunctionStats(calls: nat, errors: nat)

  /** `get_summary`; `totalErrors` is absent when nothing was recorded. */
  datatype Summary = Summary(totalCalls: nat, totalErrors: Option<nat>, functions: seq<(string, FunctionStats)>)

  function CallsKey(name: string): string { name + "_calls" }
  function ErrorsKey(name: string): string { name + "_errors" }

  /** A `defaultdict(int)` read: a missing counter is 0. */
  function Get(c: map<string, int>, k: string): int
  {
    if k in c then c[k] else 0
  }

  /** `counters[k] += v`. */
  function Bump(c: map<string, int>, k: string, v: int): (r: map<string, int>)
    ensures r.Keys == c.Keys + {k} && r[k] == Get(c, k) + v
    ensures forall j :: j in c && j != k ==> r[j] == c[j]
  {
    c[k := Get(c, k) + v]
  }

  /** The counters after recording `m`: one more call, and one more error when it failed. */
  function CountersAfter(c: map<string, int>, m: Metric): (r: map<string, int>)
    ensures c.Keys + {CallsKey(m.functionName)} <= r.Keys <= c.Keys + {CallsKey(m.functionName), ErrorsKey(m.functionName)}
    ensures r[CallsKey(m.functionName)] == Get(c, CallsKey(m.functionName)) + 1
    ensures Get(r, ErrorsKey(m.functionName)) == Get(c, ErrorsKey(m.functionName)) + (if m.success then 0 else 1)
    ensures forall j :: j in c && j != CallsKey(m.functionName) && j != ErrorsKey(m.functionName) ==> r[j] == c[j]
  {
    assert |CallsKey(m.functionName)| != |ErrorsKey(m.functionName)|;
    var c1 := Bump(c, CallsKey(m.functionName), 1);
    if m.success then c1 else Bump(c1, ErrorsKey(m.functionName), 1)
  }

  /** Calls of `name` in `ms`, or only its failed calls when `failedOnly`. */
  function Count(ms: seq<Metric>, name: string, failedOnly: bool): (n: nat)
    ensures n <= |ms|
  {
    if ms == [] then 0
    else Count(ms[..|ms| - 1], name, failedOnly)
         + (if ms[|ms| - 1].functionName == name && (!failedOnly || !ms[|ms| - 1].success) then 1 else 0)
  }

  function Failures(ms: seq<Metric>): (n: nat)
    ensures n <= |ms|
  {
    if ms == [] then 0 else Failures(ms[..|ms| - 1]) + (if ms[|ms| - 1].success then 0 else 1)
  }

  /** Function names in order of first appearance (the key order of a Python dict). */
  function Names(ms: seq<Metric>): (r: seq<string>)
    ensures forall i, j :: 0 <= i < j < |r| ==> r[i] != r[j]
    ensures forall n :: n in r <==> exists i :: 0 <= i < |ms| && ms[i].functionName == n
  {
    if ms == [] then []
    else
      var p := Names(ms[..|ms| - 1]);
      var n := ms[|ms| - 1].functionName;
      assert forall k :: k in p <==> exists i :: 0 <= i < |ms| - 1 && ms[i].functionName == k by {
        forall k ensures k in p <==> exists i :: 0 <= i < |ms| - 1 && ms[i].functionName == k {
          if k in p {
            var i :| 0 <= i < |ms[..|ms| - 1]| && ms[..|ms| - 1][i].functionName == k;
            assert ms[i].functionName == k;
          }
          if exists i :: 0 <= i < |ms| - 1 && ms[i].functionName == k {
            var i :| 0 <= i < |ms| - 1 && ms[i].functionName == k;
            assert ms[..|ms| - 1][i].functionName == k;
          }
        }
      }
      if n in p then p else p + [n]
  }

  function StatsOf(names: seq<string>, ms: seq<Metric>): (r: seq<(string, FunctionStats)>)
    ensures |r| == |names|
    ensures forall i :: 0 <= i < |names| ==>
      r[i] == (names[i], FunctionStats(Count(ms, names[i], false), Count(ms, names[i], true)))
  {
    if names == [] then []
    else StatsOf(names[..|names| - 1], ms)
         + [(names[|names| - 1], FunctionStats(Count(ms, names[|names| - 1], false), Count(ms, names[|names| - 1], true)))]
  }

  /** The summary the collector reports for the calls `ms`. */
  function SummaryOf(ms: seq<Metric>): Summary
  {
    if ms == [] then Summary(0, None, [])
    else Summary(|ms|, Some(Failures(ms)), StatsOf(Names(ms), ms))
  }

  function SumCalls(fs: seq<(string, FunctionStats)>, failedOnly: bool): nat
  {
    if fs == [] then 0
    else SumCalls(fs[..|fs| - 1], failedOnly) + (if failedOnly then fs[|fs| - 1].1.errors else fs[|fs| - 1].1.calls)
  }

  function SumCounts(names: seq<string>, ms: seq<Metric>, failedOnly: bool): nat
  {
    if names == [] then 0
    else SumCounts(names[..|names| - 1], ms, failedOnly) + Count(ms, names[|names| - 1], failedOnly)
  }

  /** Adding one call adds one to the count of its name, if that name is listed once. */
  lemma {:induction false} SumCountsStep(names: seq<string>, ms: seq<Metric>, m: Metric, failedOnly: bool)
    requires forall i, j :: 0 <= i < j < |names| ==> names[i] != names[j]
    ensures SumCounts(names, ms + [m], failedOnly) == SumCounts(names, ms, failedOnly)
      + (if m.functionName in names && (!failedOnly || !m.success) then 1 else 0)
  {
    assert (ms + [m])[..|ms + [m]| - 1] == ms;
    if names != [] {
      var init := names[..|names| - 1];
      SumCountsStep(init, ms, m, failedOnly);
      assert m.functionName in names <==> m.functionName in init || m.functionName == names[|names| - 1];
      assert m.functionName == names[|names| - 1] ==> m.functionName !in init;
    }
  }

  /** A name that was never called contributes nothing. */
  lemma {:induction false} CountAbsent(ms: seq<Metric>, name: string, failedOnly: bool)
    requires forall i :: 0 <= i < |ms| ==> ms[i].functionName != name
    ensures Count(ms, name, failedOnly) == 0
  {
    if ms != [] {
      CountAbsent(ms[..|ms| - 1], name, failedOnly);
    }
  }

  /** Over all function names, the per-function counts add up to the totals. */
  lemma {:induction false} CountsPartition(ms: seq<Metric>)
    ensures SumCounts(Names(ms), ms, false) == |ms|
    ensures SumCounts(Names(ms), ms, true) == Failures(ms)
  {
    if ms != [] {
      var p := ms[..|ms| - 1];
      var m := ms[|ms| - 1];
      assert ms == p + [m];
      CountsPartition(p);
      SumCountsStep(Names(p), p, m, false);
      SumCountsStep(Names(p), p, m, true);
      if m.functionName !in Names(p) {
        assert Names(ms) == Names(p) + [m.functionName];
        assert Names(ms)[..|Names(ms)| - 1] == Names(p);
        assert forall i :: 0 <= i < |p| ==> p[i].functionName != m.functionName;
        CountAbsent(p, m.functionName, false);
        CountAbsent(p, m.functionName, true);
      }
    }
  }

  lemma {:induction false} SumOfStats(names: seq<string>, ms: seq<Metric>, failedOnly: bool)
    ensures SumCalls(StatsOf(names, ms), failedOnly) == SumCounts(names, ms, failedOnly)
  {
    if names != [] {
      SumOfStats(names[..|names| - 1], ms, failedOnly);
      var r := StatsOf(names, ms);
      assert r[..|r| - 1] == StatsOf(names[..|names| - 1], ms);
    }
  }

  /** The summary's per-function calls and errors sum to its totals. */
  lemma SummaryTotals(ms: seq<Metric>)
    ensures SumCalls(SummaryOf(ms).functions, false) == SummaryOf(ms).totalCalls == |ms|
    ensures ms != [] ==> SummaryOf(ms).totalErrors == Some(SumCalls(SummaryOf(ms).functions, true))
    ensures ms == [] ==> SummaryOf(ms) == Summary(0, None, [])
  {
    if ms != [] {
      CountsPartition(ms);
      SumOfStats(Names(ms), ms, false);
      SumOfStats(Names(ms), ms, true);
    }
  }

  /** What the wrapped function did: returned, raised an `Exception`, or raised a `BaseException` only. */
  datatype CallOutcome = Returned(value: Value) | RaisedError(message: string) | Interrupted

  /** The grouping pass of `get_summary`: names in first-seen order, each name's counts, and the failures. */
  method GroupByName(ms: seq<Metric>) returns (order: seq<string>, groups: map<string, FunctionStats>, failures: nat)
    ensures order == Names(ms) && failures == Failures(ms)
    ensures forall n :: n in order ==> n in groups && groups[n] == FunctionStats(Count(ms, n, false), Count(ms, n, true))
  {
    order, groups, failures := [], map[], 0;
    for i := 0 to |ms|
      invariant order == Names(ms[..i]) && failures == Failures(ms[..i])
      invariant forall n :: n in order ==> n in groups
      invariant forall n :: n in groups ==>
        groups[n] == FunctionStats(Count(ms[..i], n, false), Count(ms[..i], n, true))
    {
      var m := ms[i];
      assert ms[..i + 1][..i] == ms[..i];
      var prev := if m.functionName in groups then groups[m.functionName] else FunctionStats(0, 0);
      if m.functionName !in groups {
        assert forall j :: 0 <= j < i ==> ms[..i][j].functionName != m.functionName;
        CountAbsent(ms[..i], m.functionName, false);
        CountAbsent(ms[..i], m.functionName, true);
      }
      groups := groups[m.functionName := FunctionStats(prev.calls + 1, prev.errors + (if m.success then 0 else 1))];
      if m.functionName !in order {
        order := order + [m.functionName];
      }
      if !m.success {
        failures := failures + 1;
      }
    }
    assert ms[..|ms|] == ms;
  }

  /** The row pass of `get_summary`: one row per name, in the given order, from the grouped counts. */
  method StatsLines(order: seq<string>, groups: map<string, FunctionStats>, ms: seq<Metric>)
    returns (functions: seq<(string, FunctionStats)>)
    requires forall n :: n in order ==> n in groups && groups[n] == FunctionStats(Count(ms, n, false), Count(ms, n, true))
    ensures functions == StatsOf(order, ms)
  {
    functions := [];
    for j := 0 to |order|
      invariant functions == StatsOf(order[..j], ms)
    {
      functions := functions + [(order[j], groups[order[j]])];
      assert order[..j + 1][..j] == order[..j];
    }
    assert order[..|order|] == order;
  }

  class MetricsCollector {
    var metrics: seq<Metric>
    var counters: map<string, int>

    constructor ()
      ensures metrics == [] && counters == map[]
    {
      metrics := [];
      counters := map[];
    }

    /** `record`. */
    method Record(m: Metric)
      modifies this
      ensures metrics == old(metrics) + [m]
      ensures counters == CountersAfter(old(counters), m)
    {
      metrics := metrics + [m];
      counters := Bump(counters, CallsKey(m.functionName), 1);
      if !m.success {
        counters := Bump(counters, ErrorsKey(m.functionName), 1);
      }
    }

    /** `increment`. */
    method Increment(name: string, value: int)
      modifies this
      ensures metrics == old(metrics)
      ensures counters == Bump(old(counters), name, value)
    {
      counters := Bump(counters, name, value);
    }

    /** `get_summary`: one pass grouping by name, then one row per name. */
    method GetSummary() returns (s: Summary)
      ensures s == SummaryOf(metrics)
    {
      if metrics == [] {
        return Summary(0, None, []);
      }
      var order, groups, failures := GroupByName(metrics);
      var functions := StatsLines(order, groups, metrics);
      return Summary(|metrics|, Some(failures), functions);
    }

    /**
     * The `timed` wrapper: records exactly one metric per call and hands the
     * outcome back unchanged; only an `Exception` counts as a failure.
     */
    method Timed(name: string, outcome: CallOutcome) returns (r: CallOutcome)
      modifies this
      ensures r == outcome
      ensures metrics == old(metrics)
        + [Metric(name, !outcome.RaisedError?, if outcome.RaisedError? then Some(outcome.message) else None)]
      ensures counters == CountersAfter(old(counters), metrics[|metrics| - 1])
    {
      var success := !outcome.RaisedError?;
      var message := if outcome.RaisedError? then Some(outcome.message) else None;
      Record(Metric(name, success, message));
      return outcome;
    }
  }
}
