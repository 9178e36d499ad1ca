/**
 * The environment side of `setup`: which environment class a name selects,
 * the name it is registered under, and opaque stand-ins for the
 * environment's factory and its observation and action spaces.
 */
module Envs {

  /** The two environment classes `setup` can construct. */
  datatype EnvKind = Harvest | Cleanup

  /** The observation or action space read off a default-constructed environment. */
  datatype Space = ObservationSpace(ofKind: EnvKind) | ActionSpace(ofKind: EnvKind)

  /** `env_creator`: builds an environment of `kind` with `numAgents` agents. */
  datatype EnvCreator = EnvCreator(kind: EnvKind, numAgents: int)

  const HarvestName := "harvest"
  const EnvSuffix := "_env"

  /** Any name other than "harvest" falls through to the Cleanup environment. */
  function SelectEnv(env: string): EnvKind {
    if env == HarvestName then Harvest else Cleanup
  }

  function EnvName(env: string): string {
    env + EnvSuffix
  }

  /** The registered name determines the environment name it came from. */
  lemma EnvNameInjective(a: string, b: string)
    requires EnvName(a) == EnvName(b)
    ensures a == b
  {
    assert |a| == |b|;
    assert a == EnvName(a)[..|a|];
    assert b == EnvName(b)[..|b|];
  }

  /** The registered name is "harvest_env" exactly when the Harvest environment is selected. */
  lemma HarvestRegisteredName(env: string)
    ensures EnvName(env) == "harvest_env" <==> SelectEnv(env) == Harvest
  {
    assert EnvName(HarvestName) == "harvest_env";
    if EnvName(env) == "harvest_env" {
      EnvNameInjective(env, HarvestName);
    }
  }
}
