/**
 * `BenchmarkConfig`: the quick-mode switch. The process environment is not
 * modelled as global state; it is passed in as a map from variable names to
 * values.
 */
module Configs {
  import opened Optional

  datatype BenchmarkConfig = BenchmarkConfig(quick: bool)

  /** The environment variable that turns quick mode on. */
  const QUICK_VAR: string := "BENCH_QUICK"

  /** The derived default configuration: quick mode off. */
  function Default(): (c: BenchmarkConfig)
    ensures !c.quick
  {
    BenchmarkConfig(false)
  }

  /** Reads one variable; `Absent` when it is unset. */
  function Lookup(env: map<string, string>, key: string): (v: Maybe<string>)
    ensures v.Present? <==> key in env
    ensures v.Present? ==> v.value == env[key]
  {
    if key in env then Present(env[key]) else Absent
  }

  /**
   * Interprets the looked-up value of the quick-mode variable: an unset
   * variable reads as "false", and only "true" and "1" switch quick mode on.
   */
  function ParseQuick(value: Maybe<string>): (quick: bool)
    ensures quick <==> value == Present("true") || value == Present("1")
  {
    var v := ValueOr(value, "false");
    v == "true" || v == "1"
  }

  /** The configuration read from the environment. */
  function FromEnv(env: map<string, string>): (c: BenchmarkConfig)
    ensures c.quick <==> QUICK_VAR in env && (env[QUICK_VAR] == "true" || env[QUICK_VAR] == "1")
  {
    BenchmarkConfig(ParseQuick(Lookup(env, QUICK_VAR)))
  }

  /** An unset variable reads exactly as the value "false" does. */
  lemma UnsetReadsAsFalse()
    ensures ParseQuick(Absent) == ParseQuick(Present("false")) == false
  {
  }

  /** Values that differ from "true" and "1" in any way, case included, leave quick mode off. */
  lemma OtherValuesAreNotQuick(value: string)
    requires value != "true" && value != "1"
    ensures !ParseQuick(Present(value))
  {
  }

  /** Without the variable the configuration is the default one. */
  lemma FromEnvUnsetIsDefault(env: map<string, string>)
    requires QUICK_VAR !in env
    ensures FromEnv(env) == Default()
  {
  }

  /** No other variable of the environment has any influence. */
  lemma FromEnvReadsOnlyQuickVar(env1: map<string, string>, env2: map<string, string>)
    requires QUICK_VAR in env1 <==> QUICK_VAR in env2
    requires QUICK_VAR in env1 ==> env1[QUICK_VAR] == env2[QUICK_VAR]
    ensures FromEnv(env1) == FromEnv(env2)
  {
  }
}
