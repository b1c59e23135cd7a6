/**
 * `Benchmark`: the append-only, ordered registry of `(label, result)` pairs,
 * and the two registration operations that run a caller's closure and
 * append what it produced.
 *
 * A caller's closure receives the run by exclusive reference and may change
 * any of its public fields; here it is a function from the fresh run to the
 * finished one. The value a parameterised closure returns is discarded by
 * the registry and is not modelled.
 */
module Registry {
  import opened Runs
  import opened Configs

  /** A finished run under the name it was registered with. */
  datatype BenchmarkResult = BenchmarkResult(name: string, run: BenchmarkRun)

  /** One registry entry: the registration name and its result. */
  type Entry = (string, BenchmarkResult)

  datatype Benchmark = Benchmark(name: string, config: BenchmarkConfig, timings: seq<Entry>)

  /** Wraps a finished run under its registration name. */
  function NewResult(name: string, run: BenchmarkRun): (r: BenchmarkResult)
    ensures r.name == name && r.run == run
  {
    BenchmarkResult(name, run)
  }

  /** The entry a registration under `name` appends for a finished `run`. */
  function MakeEntry(name: string, run: BenchmarkRun): Entry
  {
    (name, NewResult(name, run))
  }

  /** An empty registry with the default configuration. */
  function New(name: string): (b: Benchmark)
    ensures b.name == name && b.timings == []
    ensures !b.config.quick
  {
    Benchmark(name, Default(), [])
  }

  /** An empty registry with the caller's configuration. */
  function WithConfig(name: string, config: BenchmarkConfig): (b: Benchmark)
    ensures b.name == name && b.timings == []
    ensures b.config == config
  {
    Benchmark(name, config, [])
  }

  /** An empty registry configured from the environment. */
  function FromEnv(name: string, env: map<string, string>): (b: Benchmark)
    ensures b.name == name && b.timings == []
    ensures b.config.quick <==> QUICK_VAR in env && (env[QUICK_VAR] == "true" || env[QUICK_VAR] == "1")
  {
    Benchmark(name, Configs.FromEnv(env), [])
  }

  /** The three constructors agree: they differ only in where the configuration comes from. */
  lemma ConstructorsAgree(name: string, env: map<string, string>)
    ensures New(name) == WithConfig(name, Default())
    ensures FromEnv(name, env) == WithConfig(name, Configs.FromEnv(env))
    ensures QUICK_VAR !in env ==> FromEnv(name, env) == New(name)
  {
  }

  /**
   * `benchmark`: runs `f` once on a fresh run with an empty parameter label
   * and appends its result under `name`.
   */
  function Bench(b: Benchmark, name: string, f: BenchmarkRun -> BenchmarkRun): (b': Benchmark)
    ensures b'.name == b.name && b'.config == b.config
    ensures |b'.timings| == |b.timings| + 1
    ensures b'.timings[..|b.timings|] == b.timings
    ensures b'.timings[|b.timings|].0 == name
    ensures b'.timings[|b.timings|].1.name == name
    ensures b'.timings[|b.timings|].1.run == f(NewRun(name, ""))
  {
    b.(timings := b.timings + [MakeEntry(name, f(NewRun(name, "")))])
  }

  /** A closure that cannot change its run's name and parameter label. */
  ghost predicate KeepsIdentity(f: BenchmarkRun -> BenchmarkRun)
  {
    forall r :: f(r).name == r.name && f(r).param == r.param
  }

  /** The same for a closure that also receives a parameter value. */
  ghost predicate KeepsIdentityWith<P(!new)>(g: (BenchmarkRun, P) -> BenchmarkRun)
  {
    forall r, p :: g(r, p).name == r.name && g(r, p).param == r.param
  }

  /** The closure whose body makes the `run`/`log` calls `calls` picks for its run. */
  function Performing(calls: BenchmarkRun -> seq<Step>): BenchmarkRun -> BenchmarkRun
  {
    r => Perform(r, calls(r))
  }

  /** The sweep closure whose body makes the calls `calls` picks for its run and parameter value. */
  function PerformingWith<P>(calls: (BenchmarkRun, P) -> seq<Step>): (BenchmarkRun, P) -> BenchmarkRun
  {
    (r, p) => Perform(r, calls(r, p))
  }

  /**
   * A closure whose body only times sections and logs metrics keeps its
   * run's identity, even when which calls it makes depends on the run it
   * receives: `calls` picks the `run`/`log` calls for each run.
   */
  lemma StepsKeepIdentity(calls: BenchmarkRun -> seq<Step>)
    ensures KeepsIdentity(Performing(calls))
  {
    forall r: BenchmarkRun
      ensures Perform(r, calls(r)).name == r.name && Perform(r, calls(r)).param == r.param
    {
      PerformKeepsIdentity(r, calls(r));
    }
  }

  /**
   * The same for a sweep closure: whatever `run`/`log` calls it makes for a
   * run and a parameter value, it keeps the run's name and parameter label.
   */
  lemma StepsKeepIdentityWith<P(!new)>(calls: (BenchmarkRun, P) -> seq<Step>)
    ensures KeepsIdentityWith(PerformingWith(calls))
  {
    forall r: BenchmarkRun, p: P
      ensures Perform(r, calls(r, p)).name == r.name && Perform(r, calls(r, p)).param == r.param
    {
      PerformKeepsIdentity(r, calls(r, p));
    }
  }

  /**
   * When the closure keeps its run's identity, the new entry's label, result
   * name and run name all equal the registration name, and its parameter
   * label is empty.
   */
  lemma BenchNamesAgree(b: Benchmark, name: string, f: BenchmarkRun -> BenchmarkRun)
    requires KeepsIdentity(f)
    ensures var e := Bench(b, name, f).timings[|b.timings|];
      e.0 == name && e.1.name == name && e.1.run.name == name && e.1.run.param == ""
  {
  }

  /** Rust slices hold at most `usize::MAX` elements. */
  type Slice<T> = s: seq<T> | |s| <= USIZE_MAX witness []

  function Min(a: nat, b: nat): nat
  {
    if a <= b then a else b
  }

  /** `Iterator::take(n)`: the first `n` elements, or all of them when there are fewer. */
  function Take<T>(s: seq<T>, n: nat): (t: seq<T>)
    ensures |t| == Min(n, |s|)
    ensures forall i :: 0 <= i < |t| ==> t[i] == s[i]
  {
    if n <= |s| then s[..n] else s
  }

  /** How many parameters a sweep may take: one in quick mode, otherwise `usize::MAX`. */
  function TakeLimit(quick: bool): nat
  {
    if quick then 1 else USIZE_MAX
  }

  /** The parameters a sweep processes under the given mode. */
  function Selected<T>(params: Slice<T>, quick: bool): (sel: seq<T>)
    ensures quick ==> sel == params[..Min(1, |params|)]
    ensures !quick ==> sel == params
  {
    Take(params, TakeLimit(quick))
  }

  /** The entry a sweep under `name` appends for one parameter. */
  function SweepEntry<P>(name: string, p: (string, P), g: (BenchmarkRun, P) -> BenchmarkRun): Entry
  {
    MakeEntry(name, g(NewRun(name, p.0), p.1))
  }

  /**
   * The entries a sweep appends for `ps`, built one parameter at a time: one
   * entry per parameter, in the parameters' order, each from a fresh run
   * labelled with that parameter.
   */
  function Sweep<P>(name: string, ps: seq<(string, P)>, g: (BenchmarkRun, P) -> BenchmarkRun): (es: seq<Entry>)
    ensures |es| == |ps|
    ensures forall i :: 0 <= i < |ps| ==> es[i] == SweepEntry(name, ps[i], g)
    decreases |ps|
  {
    if ps == [] then []
    else Sweep(name, ps[..|ps| - 1], g) + [SweepEntry(name, ps[|ps| - 1], g)]
  }

  /**
   * `benchmark_with`: one registration per selected parameter, appended in
   * the parameters' order; in quick mode only the first parameter is
   * selected.
   */
  function BenchWith<P>(b: Benchmark, name: string, params: Slice<(string, P)>, g: (BenchmarkRun, P) -> BenchmarkRun): (b': Benchmark)
    ensures b'.name == b.name && b'.config == b.config
    ensures |b'.timings| == |b.timings| + (if b.config.quick then Min(1, |params|) else |params|)
    ensures b'.timings[..|b.timings|] == b.timings
    ensures forall i :: 0 <= i < |b'.timings| - |b.timings| ==>
      b'.timings[|b.timings| + i] == SweepEntry(name, params[i], g)
  {
    b.(timings := b.timings + Sweep(name, Selected(params, b.config.quick), g))
  }

  /** The loop of `benchmark_with`, pushing one entry per selected parameter. */
  method BenchWithLoop<P>(b: Benchmark, name: string, params: Slice<(string, P)>, g: (BenchmarkRun, P) -> BenchmarkRun)
    returns (b': Benchmark)
    ensures b' == BenchWith(b, name, params, g)
  {
    var selected := Take(params, TakeLimit(b.config.quick));
    var timings := b.timings;
    var i := 0;
    while i < |selected|
      invariant 0 <= i <= |selected|
      invariant timings == b.timings + Sweep(name, selected[..i], g)
    {
      var p := selected[i];
      var run := g(NewRun(name, p.0), p.1);
      assert selected[..i + 1][..i] == selected[..i];
      timings := timings + [MakeEntry(name, run)];
      i := i + 1;
    }
    assert selected[..i] == selected;
    b' := b.(timings := timings);
  }

  /** An empty parameter list registers nothing, in either mode. */
  lemma BenchWithEmpty<P>(b: Benchmark, name: string, g: (BenchmarkRun, P) -> BenchmarkRun)
    ensures BenchWith(b, name, [], g) == b
  {
  }

  /** In quick mode a non-empty sweep registers exactly its first parameter. */
  lemma BenchWithQuickFirstOnly<P>(b: Benchmark, name: string, params: Slice<(string, P)>, g: (BenchmarkRun, P) -> BenchmarkRun)
    requires b.config.quick && |params| > 0
    ensures BenchWith(b, name, params, g).timings == b.timings + [SweepEntry(name, params[0], g)]
  {
  }

  /**
   * Quick mode only truncates a sweep: the parameters it selects are the
   * leading ones full mode selects, in the same order. For a closure that
   * behaves the same in both executions, the entries a quick sweep appends
   * are therefore the leading entries a full sweep would append.
   */
  lemma QuickIsPrefixOfFull<P>(name: string, params: Slice<(string, P)>, g: (BenchmarkRun, P) -> BenchmarkRun)
    ensures Selected(params, true) == Selected(params, false)[..Min(1, |params|)]
    ensures Sweep(name, Selected(params, true), g) == Sweep(name, Selected(params, false), g)[..Min(1, |params|)]
  {
  }

  /**
   * When the closure keeps its run's identity, the i-th new entry is named
   * after the registration and carries the i-th parameter's label.
   */
  lemma BenchWithParamsInOrder<P(!new)>(b: Benchmark, name: string, params: Slice<(string, P)>, g: (BenchmarkRun, P) -> BenchmarkRun, i: nat)
    requires KeepsIdentityWith(g)
    requires i < |BenchWith(b, name, params, g).timings| - |b.timings|
    ensures var e := BenchWith(b, name, params, g).timings[|b.timings| + i];
      e.0 == name && e.1.name == name && e.1.run.name == name && e.1.run.param == params[i].0
  {
  }

  /** Registrations only append: whatever was registered before stays in place, unchanged. */
  lemma RegistrationsAppendOnly<P>(b: Benchmark, name1: string, f: BenchmarkRun -> BenchmarkRun,
                                   name2: string, params: Slice<(string, P)>, g: (BenchmarkRun, P) -> BenchmarkRun)
    ensures var after := BenchWith(Bench(b, name1, f), name2, params, g);
      |b.timings| < |after.timings| && after.timings[..|b.timings|] == b.timings
    ensures var after := Bench(BenchWith(b, name2, params, g), name1, f);
      |b.timings| < |after.timings| && after.timings[..|b.timings|] == b.timings
  {
  }
}
