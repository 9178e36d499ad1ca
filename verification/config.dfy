/**
 * `setup` as a whole: it registers the environment, builds the policy table,
 * computes the device plan and merges all of it into a copy of the DQN
 * default config, returning `(algorithm, env_name, config)`.
 */
module Config {
  import opened Outcomes
  import Envs
  import Devices
  import Policies

  /** A config entry. Library callables appear as named stand-ins. */
  datatype Value =
    | Int(i: int)
    | Real(r: real)
    | Bool(b: bool)
    | Str(s: string)
    | Dict(entries: map<string, Value>)
    | EnvFactory(creator: Envs.EnvCreator)                   // tune.function(env_creator)
    | PolicyTable(graphs: map<string, Policies.PolicySpec>)  // the policy_graphs dict
    | IdentityMappingFn                                      // tune.function(policy_mapping_fn)

  type Dictionary = map<string, Value>

  /** The binding `register_env(env_name, env_creator)` makes. */
  datatype Registration = Registration(name: string, creator: Envs.EnvCreator)

  /** What `setup` returns, plus the registration it performs. */
  datatype Job = Job(algorithm: string, envName: string, config: Dictionary, registered: Registration)

  const Algorithm := "DQN"
  const EnvConfigKey := "env_config"
  const ModelName := "conv_to_fc_net"
  const TrainBatchSize := 128
  const Horizon := 1000
  const LstmCellSize := 128

  /** Python's `dict.update`: entries of `u` win, every other entry of `d` stays. */
  function Update(d: Dictionary, u: Dictionary): (r: Dictionary)
    ensures r.Keys == d.Keys + u.Keys
    ensures forall k :: k in u ==> r[k] == u[k]
    ensures forall k :: k in d && k !in u ==> r[k] == d[k]
  {
    d + u
  }

  /** The three entries written into `config['env_config']` for replay. */
  function ReplayEntries(creator: Envs.EnvCreator, envName: string): Dictionary {
    map["func_create" := EnvFactory(creator), "env_name" := Str(envName), "run" := Str(Algorithm)]
  }

  /** The `multiagent` block. */
  function MultiagentBlock(graphs: map<string, Policies.PolicySpec>): Value {
    Dict(map["policy_graphs" := PolicyTable(graphs), "policy_mapping_fn" := IdentityMappingFn])
  }

  /** The `model` block. */
  function ModelBlock(): Value {
    Dict(map["custom_model" := Str(ModelName), "use_lstm" := Bool(false), "lstm_cell_size" := Int(LstmCellSize)])
  }

  /**
   * A per-worker share as Python stores it: the quotient (a float) for the
   * kind the workers use, the integer literal 0 for the other kind.
   */
  function ShareValue(used: bool, share: real): Value {
    if used then Real(share) else Int(0)
  }

  /** The keys the final `config.update` overrides. */
  const OverriddenKeys: set<string> := {
    "train_batch_size", "horizon", "num_workers", "num_gpus", "num_cpus_for_driver",
    "num_gpus_per_worker", "num_cpus_per_worker", "multiagent", "model"}

  /** The argument of the final `config.update` (lines 108-123). */
  function Overrides(a: Devices.Allocation, graphs: map<string, Policies.PolicySpec>): (u: Dictionary)
    ensures u.Keys == OverriddenKeys
    ensures RecordsAllocation(u, a)
    ensures HoldsTable(u["multiagent"], graphs)
    ensures FixedHyperparameters(u)
  {
    map[
      "train_batch_size" := Int(TrainBatchSize),
      "horizon" := Int(Horizon),
      "num_workers" := Int(a.numWorkers),
      "num_gpus" := Int(a.driver.gpus),
      "num_cpus_for_driver" := Int(a.driver.cpus),
      "num_gpus_per_worker" := ShareValue(a.workersOnGpu, a.gpusPerWorker),
      "num_cpus_per_worker" := ShareValue(!a.workersOnGpu, a.cpusPerWorker),
      "multiagent" := MultiagentBlock(graphs),
      "model" := ModelBlock()]
  }

  /**
   * `ec` is `base` with the replay entries written in: the registered name,
   * the algorithm and the registered factory, every other entry of `base` kept.
   */
  predicate RecordsReplay(ec: Dictionary, base: Dictionary, reg: Registration) {
    && ec.Keys == base.Keys + ReplayKeys
    && ec["env_name"] == Str(reg.name)
    && ec["run"] == Str(Algorithm)
    && ec["func_create"] == EnvFactory(reg.creator)
    && forall k :: k in base && k !in ReplayKeys ==> ec[k] == base[k]
  }

  const ReplayKeys: set<string> := {"func_create", "env_name", "run"}

  /**
   * `config` carries the allocation's device entries, with the share of the
   * kind the workers do not use stored as the integer 0.
   */
  predicate RecordsAllocation(config: Dictionary, a: Devices.Allocation) {
    && "num_workers" in config && config["num_workers"] == Int(a.numWorkers)
    && "num_gpus" in config && config["num_gpus"] == Int(a.driver.gpus)
    && "num_cpus_for_driver" in config && config["num_cpus_for_driver"] == Int(a.driver.cpus)
    && "num_gpus_per_worker" in config
    && config["num_gpus_per_worker"] == (if a.workersOnGpu then Real(a.gpusPerWorker) else Int(0))
    && "num_cpus_per_worker" in config
    && config["num_cpus_per_worker"] == (if a.workersOnGpu then Int(0) else Real(a.cpusPerWorker))
  }

  /** A multiagent block holding exactly `graphs` and the identity mapping. */
  predicate HoldsTable(block: Value, graphs: map<string, Policies.PolicySpec>) {
    && block.Dict?
    && block.entries.Keys == {"policy_graphs", "policy_mapping_fn"}
    && block.entries["policy_graphs"] == PolicyTable(graphs)
    && block.entries["policy_mapping_fn"] == IdentityMappingFn
  }

  /** The fixed training hyperparameters and the custom convolutional model. */
  predicate FixedHyperparameters(config: Dictionary) {
    && "train_batch_size" in config && config["train_batch_size"] == Int(128)
    && "horizon" in config && config["horizon"] == Int(1000)
    && "model" in config
    && config["model"] == Dict(map["custom_model" := Str("conv_to_fc_net"), "use_lstm" := Bool(false), "lstm_cell_size" := Int(128)])
  }

  /** `config` agrees with `u` on every key of `u`. */
  predicate Overridden(config: Dictionary, u: Dictionary) {
    forall k :: k in u ==> k in config && config[k] == u[k]
  }

  /** The properties of the overrides carry over to a config they were applied to. */
  lemma OverriddenKeepsRecords(config: Dictionary, a: Devices.Allocation,
                               graphs: map<string, Policies.PolicySpec>)
    requires Overridden(config, Overrides(a, graphs))
    ensures RecordsAllocation(config, a)
    ensures "multiagent" in config && HoldsTable(config["multiagent"], graphs)
    ensures FixedHyperparameters(config)
  {
    var u := Overrides(a, graphs);
    assert config["num_workers"] == u["num_workers"];
    assert config["num_gpus"] == u["num_gpus"];
    assert config["num_cpus_for_driver"] == u["num_cpus_for_driver"];
    assert config["num_gpus_per_worker"] == u["num_gpus_per_worker"];
    assert config["num_cpus_per_worker"] == u["num_cpus_per_worker"];
    assert config["multiagent"] == u["multiagent"];
    assert config["model"] == u["model"];
    assert config["train_batch_size"] == u["train_batch_size"];
    assert config["horizon"] == u["horizon"];
  }

  /** The default `env_config` with the three replay entries written in (lines 89-91). */
  function WithReplay(defaults: Dictionary, creator: Envs.EnvCreator, envName: string): (d: Dictionary)
    requires EnvConfigKey in defaults && defaults[EnvConfigKey].Dict?
    ensures d.Keys == defaults.Keys
    ensures forall k :: k in defaults && k != EnvConfigKey ==> d[k] == defaults[k]
    ensures d[EnvConfigKey].Dict?
    ensures RecordsReplay(d[EnvConfigKey].entries, defaults[EnvConfigKey].entries, Registration(envName, creator))
  {
    var replay := ReplayEntries(creator, envName);
    assert replay.Keys == ReplayKeys;
    defaults[EnvConfigKey := Dict(Update(defaults[EnvConfigKey].entries, replay))]
  }

  /**
   * The job-descriptor assembly of lines 86-91 and 108-123: the replay
   * entries go into a copy of the default `env_config`, then the overrides
   * are applied with `dict.update`.
   */
  function Assemble(defaults: Dictionary, creator: Envs.EnvCreator, envName: string,
                    a: Devices.Allocation, graphs: map<string, Policies.PolicySpec>): (config: Dictionary)
    requires EnvConfigKey in defaults && defaults[EnvConfigKey].Dict?
    ensures config.Keys == defaults.Keys + OverriddenKeys
    ensures forall k :: k in defaults && k !in OverriddenKeys && k != EnvConfigKey ==> config[k] == defaults[k]
    ensures EnvConfigKey in config && config[EnvConfigKey].Dict?
    ensures RecordsReplay(config[EnvConfigKey].entries, defaults[EnvConfigKey].entries, Registration(envName, creator))
    ensures RecordsAllocation(config, a)
    ensures "multiagent" in config && HoldsTable(config["multiagent"], graphs)
    ensures FixedHyperparameters(config)
  {
    var base := WithReplay(defaults, creator, envName);
    var u := Overrides(a, graphs);
    var config := Update(base, u);
    assert EnvConfigKey !in OverriddenKeys;
    assert config[EnvConfigKey] == base[EnvConfigKey];
    OverriddenKeepsRecords(config, a, graphs);
    config
  }

  /**
   * `setup(env, hparams, num_cpus, num_gpus, num_agents, use_gpus_for_workers,
   * use_gpu_for_driver, num_workers_per_device)`, with `defaults` standing for
   * `DQNAgent._default_config`. `config['env_config']` is written before the
   * device plan is computed, so a missing or non-dict entry fails first.
   */
  function Setup(env: string, numCpus: int, numGpus: int, numAgents: int,
                 useGpusForWorkers: bool, useGpuForDriver: bool, density: real,
                 defaults: Dictionary): (r: Result<Job>)
    ensures EnvConfigKey !in defaults ==> r == Err(KeyError(EnvConfigKey))
    ensures EnvConfigKey in defaults && !defaults[EnvConfigKey].Dict? ==> r == Err(TypeError(EnvConfigKey))
    ensures EnvConfigKey in defaults && defaults[EnvConfigKey].Dict? ==>
              (r.Err? <==> Devices.Allocate(numCpus, numGpus, useGpusForWorkers, useGpuForDriver, density).Err?)
    ensures r.Err? ==> r.error.ZeroDivisionError? || EnvConfigKey !in defaults || !defaults[EnvConfigKey].Dict?
    ensures r.Ok? ==> r.value.algorithm == "DQN" && r.value.envName == env + "_env"
    ensures r.Ok? ==> r.value.registered.name == r.value.envName
    ensures r.Ok? ==> (r.value.registered.creator.kind == Envs.Harvest <==> env == "harvest")
    ensures r.Ok? ==> r.value.registered.creator.numAgents == numAgents
    ensures r.Ok? ==> r.value.config.Keys == defaults.Keys + OverriddenKeys
    ensures r.Ok? ==> forall k :: k in defaults && k !in OverriddenKeys && k != EnvConfigKey ==> r.value.config[k] == defaults[k]
  {
    var kind := Envs.SelectEnv(env);
    var creator := Envs.EnvCreator(kind, numAgents);
    var envName := Envs.EnvName(env);
    var graphs := Policies.PolicyGraphs(numAgents, Policies.GenPolicy(kind));
    if EnvConfigKey !in defaults then
      Err(KeyError(EnvConfigKey))
    else if !defaults[EnvConfigKey].Dict? then
      Err(TypeError(EnvConfigKey))
    else
      var a :- Devices.Allocate(numCpus, numGpus, useGpusForWorkers, useGpuForDriver, density);
      Ok(Job(Algorithm, envName, Assemble(defaults, creator, envName, a, graphs), Registration(envName, creator)))
  }

  /**
   * The device fields of a config: the driver holds one unit of one kind,
   * the workers' shares of the kind they use add up with the driver's to the
   * declared total, and their share of the other kind is 0.
   */
  predicate DeviceFieldsConserve(config: Dictionary, numCpus: int, numGpus: int, useGpusForWorkers: bool) {
    && "num_gpus" in config && config["num_gpus"].Int?
    && "num_cpus_for_driver" in config && config["num_cpus_for_driver"].Int?
    && "num_workers" in config && config["num_workers"].Int?
    && "num_gpus_per_worker" in config && "num_cpus_per_worker" in config
    && var gpus, cpus, n := config["num_gpus"].i, config["num_cpus_for_driver"].i, config["num_workers"].i;
    && gpus + cpus == 1 && 0 <= gpus <= 1
    && n != 0
    && if useGpusForWorkers then
         && config["num_cpus_per_worker"] == Int(0)
         && config["num_gpus_per_worker"].Real?
         && gpus as real + n as real * config["num_gpus_per_worker"].r == numGpus as real
       else
         && config["num_gpus_per_worker"] == Int(0)
         && config["num_cpus_per_worker"].Real?
         && cpus as real + n as real * config["num_cpus_per_worker"].r == numCpus as real
  }

  /** A config that records a conserving allocation conserves the budget too. */
  lemma RecordedAllocationConserves(config: Dictionary, a: Devices.Allocation, numCpus: int, numGpus: int)
    requires RecordsAllocation(config, a)
    requires Devices.Conserves(a, numCpus, numGpus) && a.numWorkers != 0
    ensures DeviceFieldsConserve(config, numCpus, numGpus, a.workersOnGpu)
  {
  }

  /**
   * A successful `setup` stores the allocation it computed and hands the
   * scheduler a plan that uses the budget of the workers' kind exactly.
   */
  lemma SetupConserves(env: string, numCpus: int, numGpus: int, numAgents: int,
                       useGpusForWorkers: bool, useGpuForDriver: bool, density: real,
                       defaults: Dictionary)
    requires EnvConfigKey in defaults && defaults[EnvConfigKey].Dict?
    requires Devices.Allocate(numCpus, numGpus, useGpusForWorkers, useGpuForDriver, density).Ok?
    ensures var r := Setup(env, numCpus, numGpus, numAgents, useGpusForWorkers, useGpuForDriver, density, defaults);
            && r.Ok?
            && RecordsAllocation(r.value.config, Devices.Allocate(numCpus, numGpus, useGpusForWorkers, useGpuForDriver, density).value)
            && DeviceFieldsConserve(r.value.config, numCpus, numGpus, useGpusForWorkers)
  {
    var a := Devices.Allocate(numCpus, numGpus, useGpusForWorkers, useGpuForDriver, density).value;
    var r := Setup(env, numCpus, numGpus, numAgents, useGpusForWorkers, useGpuForDriver, density, defaults);
    RecordedAllocationConserves(r.value.config, a, numCpus, numGpus);
  }

  /**
   * After a successful `setup`, `env_config` names the registered environment
   * and the algorithm, carries the registered factory, and keeps every other
   * entry of the default `env_config`: enough to rebuild the environment on a
   * remote worker.
   */
  lemma SetupEnvConfig(env: string, numCpus: int, numGpus: int, numAgents: int,
                       useGpusForWorkers: bool, useGpuForDriver: bool, density: real,
                       defaults: Dictionary)
    requires EnvConfigKey in defaults && defaults[EnvConfigKey].Dict?
    requires Devices.Allocate(numCpus, numGpus, useGpusForWorkers, useGpuForDriver, density).Ok?
    ensures var r := Setup(env, numCpus, numGpus, numAgents, useGpusForWorkers, useGpuForDriver, density, defaults);
            && r.Ok?
            && EnvConfigKey in r.value.config && r.value.config[EnvConfigKey].Dict?
            && RecordsReplay(r.value.config[EnvConfigKey].entries, defaults[EnvConfigKey].entries, r.value.registered)
  {
  }

  /**
   * The multiagent block holds a table with one policy per agent, keyed
   * exactly by the ids of agents 0 .. n-1, and the identity mapping.
   */
  ghost predicate HoldsAgentPolicies(block: Value, numAgents: int, spec: Policies.PolicySpec) {
    && block.Dict?
    && block.entries.Keys == {"policy_graphs", "policy_mapping_fn"}
    && block.entries["policy_mapping_fn"] == IdentityMappingFn
    && block.entries["policy_graphs"].PolicyTable?
    && var graphs := block.entries["policy_graphs"].graphs;
    && |graphs| == (if numAgents < 0 then 0 else numAgents)
    && (forall k :: k in graphs <==> Policies.IsAgentKey(k, numAgents))
    && (forall k :: k in graphs ==> graphs[k] == spec)
  }

  /**
   * After a successful `setup`, the multiagent block holds one DQN policy per
   * agent over the selected environment's spaces, keyed by the agent ids,
   * with the identity mapping; training uses batches of 128 and episodes of
   * 1000 steps with the custom convolutional model.
   */
  lemma SetupPoliciesAndHyperparameters(env: string, numCpus: int, numGpus: int, numAgents: int,
                                        useGpusForWorkers: bool, useGpuForDriver: bool, density: real,
                                        defaults: Dictionary)
    requires EnvConfigKey in defaults && defaults[EnvConfigKey].Dict?
    requires Devices.Allocate(numCpus, numGpus, useGpusForWorkers, useGpuForDriver, density).Ok?
    ensures var r := Setup(env, numCpus, numGpus, numAgents, useGpusForWorkers, useGpuForDriver, density, defaults);
            && r.Ok?
            && "multiagent" in r.value.config
            && HoldsAgentPolicies(r.value.config["multiagent"], numAgents, Policies.GenPolicy(r.value.registered.creator.kind))
            && FixedHyperparameters(r.value.config)
  {
    var r := Setup(env, numCpus, numGpus, numAgents, useGpusForWorkers, useGpuForDriver, density, defaults);
    var graphs := Policies.PolicyGraphs(numAgents, Policies.GenPolicy(Envs.SelectEnv(env)));
    assert r.value.config["multiagent"].entries["policy_graphs"] == PolicyTable(graphs);
  }
}
