# Micro-benchmark harness registry, modelled in Dafny

This project models the bookkeeping of a small in-process micro-benchmark
harness (`bench/src/lib.rs`). The harness has four parts:

- A `Benchmark` is a named registry. It holds a quick-mode configuration and
  an append-only, ordered sequence of `(label, BenchmarkResult)` entries.
- `benchmark` runs a caller's closure once, on a fresh `BenchmarkRun` with an
  empty parameter label, and appends one entry.
- `benchmark_with` sweeps a slice of `(parameter label, value)` pairs in order
  and appends one entry per processed parameter. In quick mode it processes
  only the first parameter (`take(1)`); otherwise it processes all of them
  (`take(usize::MAX)`).
- A `BenchmarkRun` records the duration of its last timed section (`run`,
  last write wins) and a map of `usize` metrics (`log`, insert or overwrite).
  A `BenchmarkConfig` turns quick mode on iff `BENCH_QUICK` is exactly `"true"`
  or `"1"`; an unset variable reads as `"false"`.

Files and modules:

- `optional.dfy` (`Optional`): `Maybe`, a value that may be absent.
- `run.dfy` (`Runs`): `BenchmarkRun`, `NewRun`, `Run`, `Log`. It also has
  `Step`/`Perform`, a closure body built only from `run` and `log` calls.
- `config.dfy` (`Configs`): `BenchmarkConfig`, the default and the
  environment-derived configuration.
- `registry.dfy` (`Registry`): `BenchmarkResult`, `Benchmark`, its three
  constructors, `Bench` (`benchmark`), `BenchWith` (`benchmark_with`) and
  `BenchWithLoop`. `BenchWithLoop` is the `for` loop of `benchmark_with`,
  proved equal to `BenchWith`. `Sweep` is the independent, one
  parameter-at-a-time definition of what a sweep appends.
- `scenarios.dfy` (`Scenarios`): two end-to-end uses. One is a plain
  registration that times a section and logs `"bytes" = 42`. The other is a
  `("small", 10), ("large", 1000)` sweep run in both modes.

Modelling choices:

- Caller closures are Dafny function values. A plain closure is
  `BenchmarkRun -> BenchmarkRun`. A sweep closure is
  `(BenchmarkRun, P) -> BenchmarkRun`; the sweep closure's own return value is
  dropped by the source, so it is not modelled.
- The run's fields are public, so a closure may rename its run. Claims that
  the run keeps its name and parameter label are therefore conditional on
  `KeepsIdentity` (plain closures) or `KeepsIdentityWith` (sweep closures).
  `StepsKeepIdentity` and `StepsKeepIdentityWith` prove those conditions for
  every closure whose body only calls `run` and `log`. This holds even when
  the calls it makes depend on the run and parameter it receives.
- Durations are whole nanoseconds (`nat`). In `Runs.Run` and in a `Step`
  list the duration is an explicit `elapsed` argument. In `Bench` and
  `BenchWith` the clock is hidden inside the closure `f`/`g`, which is a
  deterministic function (see "## Left out").
- Metric values are 64-bit `usize` values (`Usize`, at most `USIZE_MAX`).
- The process environment is passed in as a `map<string, string>`.

## Model

| member | source | states |
|---|---|---|
| Runs.NewRun | bench/src/lib.rs:104-111 | a fresh run carries the given name and parameter label, zero time and no metrics |
| Runs.Run | bench/src/lib.rs:113-122 | returns exactly the closure's value; the run's time becomes the elapsed duration; name, parameter label and metrics are unchanged |
| Runs.Log | bench/src/lib.rs:124-126 | the metric maps to the value afterwards; the key set grows by that key only; every other metric, the name, the parameter label and the time are unchanged |
| Runs.RunLastWriteWins | bench/src/lib.rs:113-122 | timing twice gives the same run as timing only the second time: durations overwrite and do not accumulate |
| Runs.LogLastWriteWins | bench/src/lib.rs:124-126 | logging a key twice equals logging only the second value, leaving one entry for the key |
| Runs.LogSize | bench/src/lib.rs:124-126 | logging adds a map entry exactly when the key was absent |
| Runs.LogCommutes | bench/src/lib.rs:100-126 | logs of distinct keys commute: the metric map carries no insertion order |
| Runs.PerformKeepsIdentity | bench/src/lib.rs:113-126 | any sequence of `run` and `log` calls leaves the run's name and parameter label unchanged |
| Runs.PerformTime | bench/src/lib.rs:113-122 | after a sequence of `run` and `log` calls, the time is that of the last timed section, or the original time if nothing was timed |
| Runs.PerformMetric | bench/src/lib.rs:124-126 | after a sequence of calls, a metric holds the value of the last `log` of that key; a key never logged keeps its earlier presence and value |
| Configs.Default | bench/src/lib.rs:69-72 | the derived default configuration has quick mode off |
| Configs.Lookup | bench/src/lib.rs:76 | the lookup finds a value exactly when the variable is set, and then it is the variable's value |
| Configs.ParseQuick | bench/src/lib.rs:76-79 | quick mode is on iff the looked-up value is present and exactly "true" or "1" |
| Configs.FromEnv | bench/src/lib.rs:75-80 | quick mode is on iff BENCH_QUICK is set to exactly "true" or "1" |
| Configs.UnsetReadsAsFalse | bench/src/lib.rs:76-78 | an unset variable behaves exactly like the value "false", which turns quick mode off |
| Configs.OtherValuesAreNotQuick | bench/src/lib.rs:78 | every value other than "true" and "1" ("TRUE", "yes", "") leaves quick mode off |
| Configs.FromEnvUnsetIsDefault | bench/src/lib.rs:69-80 | with BENCH_QUICK unset, the environment configuration is the default one |
| Configs.FromEnvReadsOnlyQuickVar | bench/src/lib.rs:76 | two environments that agree on BENCH_QUICK give the same configuration |
| Registry.NewResult | bench/src/lib.rs:89-93 | a result holds its registration name and the run unchanged |
| Registry.New | bench/src/lib.rs:17-23 | an empty registry under the given name, with quick mode off |
| Registry.WithConfig | bench/src/lib.rs:25-31 | an empty registry under the given name, with the caller's configuration |
| Registry.FromEnv | bench/src/lib.rs:33-39 | an empty registry under the given name, quick iff BENCH_QUICK is "true" or "1" |
| Registry.ConstructorsAgree | bench/src/lib.rs:17-39 | `new` is `with_config` with the default configuration; `from_env` is `with_config` with the environment configuration; both agree when BENCH_QUICK is unset |
| Registry.Bench | bench/src/lib.rs:41-45 | name and configuration are unchanged; exactly one entry is appended and earlier entries are untouched; the entry's label and result name are the registration name; its run is the closure applied to a fresh run with an empty parameter label |
| Registry.StepsKeepIdentity | bench/src/lib.rs:113-126 | a plain closure that only calls `run` and `log` cannot change its run's name or parameter label, even when which calls it makes depends on the run |
| Registry.StepsKeepIdentityWith | bench/src/lib.rs:113-126 | the same for a sweep closure, whose calls may depend on the run and the parameter value |
| Registry.BenchNamesAgree | bench/src/lib.rs:41-45 | for such a closure, label, result name and run name all equal the registration name, and the parameter label is "" |
| Registry.Take | bench/src/lib.rs:53-55 | `take(n)` yields the first min(n, length) elements, unchanged and in order |
| Registry.Selected | bench/src/lib.rs:53-56 | quick mode selects the first parameter only (none if there are none); full mode selects every parameter of a slice |
| Registry.Sweep | bench/src/lib.rs:53-60 | a sweep appends one entry per parameter, in the parameters' order, each from a fresh run labelled with that parameter |
| Registry.BenchWith | bench/src/lib.rs:47-61 | name and configuration are unchanged; it appends min(1, n) entries in quick mode and n otherwise, earlier entries untouched, the i-th new entry coming from the i-th parameter |
| Registry.BenchWithLoop | bench/src/lib.rs:53-60 | the push-per-parameter loop produces exactly the registry `BenchWith` describes |
| Registry.BenchWithEmpty | bench/src/lib.rs:53-60 | an empty parameter slice leaves the registry unchanged in either mode |
| Registry.BenchWithQuickFirstOnly | bench/src/lib.rs:53-59 | in quick mode a non-empty sweep appends exactly one entry, that of the first parameter |
| Registry.QuickIsPrefixOfFull | bench/src/lib.rs:53-56 | `take(1)` selects exactly the leading parameter of what `take(usize::MAX)` selects, in order; so, for a closure that behaves the same in both executions, the quick sweep's entries lead the full sweep's |
| Registry.BenchWithParamsInOrder | bench/src/lib.rs:57-59 | for a closure that keeps its run's identity, the i-th new entry has the registration name and the i-th parameter's label |
| Registry.RegistrationsAppendOnly | bench/src/lib.rs:44-59 | in either order, a plain registration followed by a sweep keeps every earlier entry in place and unchanged |
| Scenarios.PlainScenario | bench/src/lib.rs:41-45 | registering "op" with "time, then log bytes = 42" on a fresh "suite" gives one result "op" with param "", the timed duration and metrics exactly {"bytes": 42} |
| Scenarios.RecordSizeParamsInOrder | bench/src/lib.rs:57-59 | the scenario's sweep closure, which only logs its parameter value, keeps its run's identity, so the i-th entry of any sweep with it carries the i-th parameter's label |
| Scenarios.QuickSweepScenario | bench/src/lib.rs:53-59 | with BENCH_QUICK=1, the small/large sweep registers only "small" |
| Scenarios.FullSweepScenario | bench/src/lib.rs:53-59 | with quick mode off, the small/large sweep registers "small" then "large" |

## Left out

- `Benchmark::output` (bench/src/lib.rs:63-66) is not modelled. It is JSON serialisation through `serde_json` plus a write to standard output. It takes `&self`, so it cannot change the registry.
- Clock reads (`Instant::now`, `elapsed`) are not modelled. The elapsed time is an argument, so no wall-time bound is stated.
- Rust's `Duration` (seconds plus nanoseconds, and its serialised form) is a plain count of nanoseconds here.
- Configs.Lookup: `env::var` also fails when a value is not valid Unicode; that failure and "unset" are both `Absent` here, which the source also treats alike (both read as "false").
- `usize` is taken to be 64 bits wide. Metric values are bounded by that, and so is the `usize::MAX` limit of `take`.
- Registry.BenchWith: the value returned by the sweep closure (type `T`) is discarded by the source and not modelled. A panic inside a closure (which aborts the registration) is not modelled either.
- Registry.Bench: it does not promise that the stored run keeps the registration name. The run's fields are public, so a closure may rename it. `BenchNamesAgree` states the name facts for closures that keep identity.
- Registry.Bench, Registry.BenchWith: a closure is a deterministic function of its fresh run and parameter value. Equal inputs therefore give equal runs, durations included. In the source every invocation reads the clock afresh, so two registrations of the same closure, or a sweep over two equal parameters, may record different times. The model does not capture that. Only one contract compares separate executions: `Registry.QuickIsPrefixOfFull` equates the entries of a quick and a full sweep run with one and the same closure value, durations included. As a statement about the program, that comparison holds only for a closure that behaves the same in both executions.
- Lifetimes, borrowed `&str` and the `Debug`/`Serialize`/`Deserialize` derives have no behaviour to model; strings are owned `seq<char>` values.
- `site/mdx-components.tsx` is a React component mapping, outside the harness.
