/**
 * One timed execution of a benchmarked operation (`BenchmarkRun`): its
 * registration name, the label of the parameter it ran with, the duration
 * of the last timed section and a map of caller-defined counters.
 *
 * The clock is not modelled: the duration a timed section took is passed in
 * as a number of nanoseconds.
 */
module Runs {
  import opened Optional

  /** A duration in whole nanoseconds. */
  type Duration = nat

  /** The largest value of a 64-bit `usize`. */
  const USIZE_MAX: nat := 0xFFFF_FFFF_FFFF_FFFF

  /** Metric values are `usize` counters. */
  type Usize = x: nat | x <= USIZE_MAX

  datatype BenchmarkRun = BenchmarkRun(
    name: string,
    param: string,
    time: Duration,
    metrics: map<string, Usize>)

  /** A fresh run: nothing timed yet, no metric recorded. */
  function NewRun(name: string, param: string): (r: BenchmarkRun)
    ensures r.name == name && r.param == param
    ensures r.time == 0
    ensures |r.metrics| == 0
  {
    BenchmarkRun(name, param, 0, map[])
  }

  /**
   * Runs `f` once as the timed section that took `elapsed`; the result is the
   * updated run paired with what `f` returned. The new duration replaces the
   * old one, it is not added to it.
   */
  function Run<R>(run: BenchmarkRun, f: () -> R, elapsed: Duration): (res: (BenchmarkRun, R))
    ensures res.1 == f()
    ensures res.0.time == elapsed
    ensures res.0.name == run.name && res.0.param == run.param
    ensures res.0.metrics == run.metrics
  {
    (run.(time := elapsed), f())
  }

  /** Records `value` under `metric`, replacing an earlier value for that key. */
  function Log(run: BenchmarkRun, metric: string, value: Usize): (r: BenchmarkRun)
    ensures metric in r.metrics && r.metrics[metric] == value
    ensures r.metrics.Keys == run.metrics.Keys + {metric}
    ensures forall k :: k in run.metrics && k != metric ==> r.metrics[k] == run.metrics[k]
    ensures r.name == run.name && r.param == run.param && r.time == run.time
  {
    run.(metrics := run.metrics[metric := value])
  }

  /** Timing twice keeps only the second duration, whatever the first was. */
  lemma RunLastWriteWins<R, S>(run: BenchmarkRun, f: () -> R, g: () -> S, first: Duration, second: Duration)
    ensures Run(Run(run, f, first).0, g, second).0 == Run(run, g, second).0
    ensures Run(Run(run, f, first).0, g, second).0.time == second
  {
  }

  /** Logging the same key twice leaves one entry holding the second value. */
  lemma LogLastWriteWins(run: BenchmarkRun, metric: string, v1: Usize, v2: Usize)
    ensures Log(Log(run, metric, v1), metric, v2) == Log(run, metric, v2)
    ensures Log(Log(run, metric, v1), metric, v2).metrics[metric] == v2
  {
  }

  /** Logging adds an entry exactly when the key was not yet present. */
  lemma LogSize(run: BenchmarkRun, metric: string, value: Usize)
    ensures |Log(run, metric, value).metrics| == |run.metrics| + (if metric in run.metrics then 0 else 1)
  {
  }

  /** Logs of distinct keys commute: the metric map has no order. */
  lemma LogCommutes(run: BenchmarkRun, k1: string, v1: Usize, k2: string, v2: Usize)
    requires k1 != k2
    ensures Log(Log(run, k1, v1), k2, v2) == Log(Log(run, k2, v2), k1, v1)
  {
  }

  /**
   * What a benchmarked closure can do to its run through the run's own
   * interface: time a section or record a metric.
   */
  datatype Step = Timed(elapsed: Duration) | Logged(metric: string, value: Usize)

  /** Applies one step; a timed section's own return value is dropped. */
  function Apply(run: BenchmarkRun, step: Step): BenchmarkRun
  {
    match step
    case Timed(e) => Run(run, () => (), e).0
    case Logged(k, v) => Log(run, k, v)
  }

  /** A closure body that only calls `run` and `log`, executed in order. */
  function Perform(run: BenchmarkRun, steps: seq<Step>): BenchmarkRun
    decreases |steps|
  {
    if steps == [] then run else Perform(Apply(run, steps[0]), steps[1..])
  }

  /** The duration of the last timed step, if any step was timed. */
  function LastTimed(steps: seq<Step>): Maybe<Duration>
    decreases |steps|
  {
    if steps == [] then Absent
    else match LastTimed(steps[1..])
      case Present(e) => Present(e)
      case Absent => if steps[0].Timed? then Present(steps[0].elapsed) else Absent
  }

  /** The value of the last step that logged `metric`, if any did. */
  function LastLogged(steps: seq<Step>, metric: string): Maybe<Usize>
    decreases |steps|
  {
    if steps == [] then Absent
    else match LastLogged(steps[1..], metric)
      case Present(v) => Present(v)
      case Absent =>
        if steps[0].Logged? && steps[0].metric == metric then Present(steps[0].value) else Absent
  }

  /** Neither `run` nor `log` can change which registration a run belongs to. */
  lemma {:induction false} PerformKeepsIdentity(run: BenchmarkRun, steps: seq<Step>)
    ensures Perform(run, steps).name == run.name
    ensures Perform(run, steps).param == run.param
    decreases |steps|
  {
    if steps != [] {
      PerformKeepsIdentity(Apply(run, steps[0]), steps[1..]);
    }
  }

  /** The recorded time is that of the last timed section: last write wins. */
  lemma {:induction false} PerformTime(run: BenchmarkRun, steps: seq<Step>)
    ensures Perform(run, steps).time == ValueOr(LastTimed(steps), run.time)
    decreases |steps|
  {
    if steps != [] {
      PerformTime(Apply(run, steps[0]), steps[1..]);
    }
  }

  /**
   * A metric holds the value of the last step that logged it; a metric no
   * step logged keeps whatever the run held before.
   */
  lemma {:induction false} PerformMetric(run: BenchmarkRun, steps: seq<Step>, metric: string)
    ensures LastLogged(steps, metric).Present? ==>
      metric in Perform(run, steps).metrics &&
      Perform(run, steps).metrics[metric] == LastLogged(steps, metric).value
    ensures LastLogged(steps, metric).Absent? ==>
      (metric in Perform(run, steps).metrics <==> metric in run.metrics) &&
      (metric in run.metrics ==> Perform(run, steps).metrics[metric] == run.metrics[metric])
    decreases |steps|
  {
    if steps != [] {
      PerformMetric(Apply(run, steps[0]), steps[1..], metric);
    }
  }
}
