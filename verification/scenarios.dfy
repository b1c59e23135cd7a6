/**
 * Two end-to-end uses of the harness, written against the model: a plain
 * registration that times a section and logs one metric, and a two-parameter
 * sweep in both modes.
 */
module Scenarios {
  import opened Runs
  import opened Configs
  import opened Registry

  /** The closure body of the plain scenario: time one section, then log 42 bytes. */
  function TimeAndLog(elapsed: Duration): seq<Step>
  {
    [Timed(elapsed), Logged("bytes", 42)]
  }

  /**
   * Registering "op" on a fresh "suite" yields exactly one result, named
   * "op", with an empty parameter label, the timed duration and the single
   * metric "bytes" = 42.
   */
  lemma PlainScenario(elapsed: Duration)
    ensures var b := Bench(New("suite"), "op", r => Perform(r, TimeAndLog(elapsed)));
      && b.name == "suite"
      && |b.timings| == 1
      && b.timings[0].0 == "op"
      && b.timings[0].1.name == "op"
      && b.timings[0].1.run.name == "op"
      && b.timings[0].1.run.param == ""
      && b.timings[0].1.run.time == elapsed
      && b.timings[0].1.run.metrics == map["bytes" := 42]
  {
    var steps := TimeAndLog(elapsed);
    var r0 := NewRun("op", "");
    var r1 := Apply(r0, steps[0]);
    var r2 := Apply(r1, steps[1]);
    assert steps[1..][1..] == [];
    assert Perform(r0, steps) == Perform(r1, steps[1..]) == Perform(r2, []) == r2;
  }

  /** The parameters of the sweep scenario. */
  function SizeParams(): Slice<(string, Usize)>
  {
    [("small", 10), ("large", 1000)]
  }

  /** The calls of the sweep closure: log the parameter value as a metric. */
  function SizeCalls(r: BenchmarkRun, size: Usize): seq<Step>
  {
    [Logged("size", size)]
  }

  /** The sweep scenario's closure. */
  function RecordSize(): (BenchmarkRun, Usize) -> BenchmarkRun
  {
    PerformingWith<Usize>(SizeCalls)
  }

  /**
   * The sweep closure only logs, so it keeps its run's identity, and every
   * entry of a sweep with it carries the label of its own parameter.
   */
  lemma RecordSizeParamsInOrder(b: Benchmark, name: string, params: Slice<(string, Usize)>, i: nat)
    requires i < |BenchWith(b, name, params, RecordSize()).timings| - |b.timings|
    ensures KeepsIdentityWith(RecordSize())
    ensures BenchWith(b, name, params, RecordSize()).timings[|b.timings| + i].1.run.param == params[i].0
  {
    StepsKeepIdentityWith<Usize>(SizeCalls);
    BenchWithParamsInOrder(b, name, params, RecordSize(), i);
  }

  /** Quick mode, switched on by BENCH_QUICK=1, registers only "small". */
  lemma QuickSweepScenario()
    ensures var b := BenchWith(Registry.FromEnv("suite", map[QUICK_VAR := "1"]), "sweep", SizeParams(), RecordSize());
      |b.timings| == 1 && b.timings[0].1.run.param == "small"
  {
    RecordSizeParamsInOrder(Registry.FromEnv("suite", map[QUICK_VAR := "1"]), "sweep", SizeParams(), 0);
  }

  /** Full mode registers "small" and then "large", in that order. */
  lemma FullSweepScenario()
    ensures var b := BenchWith(New("suite"), "sweep", SizeParams(), RecordSize());
      && |b.timings| == 2
      && b.timings[0].1.run.param == "small"
      && b.timings[1].1.run.param == "large"
  {
    RecordSizeParamsInOrder(New("suite"), "sweep", SizeParams(), 0);
    RecordSizeParamsInOrder(New("suite"), "sweep", SizeParams(), 1);
  }
}
