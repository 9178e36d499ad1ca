# Training-job setup for the sequential social dilemma baselines

A Dafny model of `setup` in `run_scripts/train_baseline_actions.py`. This is
the routine that prepares a multi-agent DQN training run on the Harvest or
Cleanup environment. It has three parts:

- **Device allocation.** The driver process reserves one GPU or one CPU. The
  remaining units of the resource kind the workers use ("spare") are split
  evenly among `int(spare * num_workers_per_device)` workers.
- **Policy table.** One entry `"agent-<i>"` per agent. Every entry is the same
  `(DQNPolicyGraph, obs_space, act_space, {})` tuple. Agent ids map to
  policies through the identity function.
- **Config merge.** The DQN default config is copied. Its `env_config`
  receives the environment factory, the registered name `env + "_env"` and
  the algorithm name. A `dict.update` then writes the device fields, the
  fixed hyperparameters, the multiagent block and the model block.

Modules, leaf first:

- `Outcomes` (outcomes.dfy) holds the Python exceptions `setup` can raise and
  a `Result` type that carries them.
- `Decimal` (decimal.dfy) models Python's `str()` on a non-negative integer.
  Its partner is a parser for canonical decimal strings.
- `Envs` (envs.dfy) covers environment selection, the registered name, and
  opaque stand-ins for the factory and the spaces.
- `Devices` (devices.dfy) holds the allocation arithmetic.
- `Policies` (policies.dfy) holds the policy table and the mapping.
- `Config` (config.dfy) holds the config values, `dict.update` and `setup`
  itself.

The model follows Python 3 semantics:

- `/` at lines 99 and 105 is true division, modelled as exact `real` division.
- `int()` on a float truncates toward zero (`Devices.Trunc`), which differs
  from `Floor` for negative products.
- A zero worker count makes the division raise `ZeroDivisionError`. The model
  returns that as an error result rather than forbidding it by precondition.
- `config['env_config']` is written before the device plan is computed
  (lines 89-91). If that entry is missing, the result is `KeyError`. If it is
  not a `Dict` value, the result is `TypeError`. Both are checked before the
  division, in the same order as the source.
- No other input is rejected. In particular, a driver placed on a GPU when
  there are no GPUs passes through. With workers on GPU and
  `num_workers_per_device >= 1` the worker count is negative
  (`Devices.MissingGpuGivesNegativeWorkers`). A density strictly between -1
  and 1 gives zero workers and ZeroDivisionError, and a density of -1 or less
  gives a positive count with negative GPU shares.

## Model

| member | source | states |
|---|---|---|
| Decimal.Show | run_scripts/train_baseline_actions.py:75 | `str(i)` is a non-empty run of digits with no leading zero, one digit long exactly when `i < 10` |
| Decimal.ParseShow | run_scripts/train_baseline_actions.py:75 | reading back `str(i)` as a decimal number gives `i` |
| Decimal.ShowParse | run_scripts/train_baseline_actions.py:75 | every canonical decimal string is `str()` of the number it denotes, so `str` and the parser are inverse bijections |
| Decimal.ShowInjective | run_scripts/train_baseline_actions.py:75 | distinct indices print as distinct strings |
| Envs.EnvNameInjective | run_scripts/train_baseline_actions.py:62 | the registered name `env + "_env"` determines `env` |
| Envs.HarvestRegisteredName | run_scripts/train_baseline_actions.py:53-62 | the registered name is `"harvest_env"` exactly when the Harvest environment class is selected |
| Devices.Trunc | run_scripts/train_baseline_actions.py:98 | `int(x)` lies between 0 and `x` and is less than one unit away from `x`, on either side of zero |
| Devices.TruncZero | run_scripts/train_baseline_actions.py:98 | `int(x)` is 0 exactly when `-1 < x < 1` |
| Devices.DriverFor | run_scripts/train_baseline_actions.py:94-95 | the driver reserves exactly one unit of exactly one kind, and that kind is GPU iff `use_gpu_for_driver` |
| Devices.EvenShare | run_scripts/train_baseline_actions.py:99 | `num_workers` shares of `spare / num_workers` add up to exactly `spare` |
| Devices.WorkerCount | run_scripts/train_baseline_actions.py:103 | the truncated worker count is zero exactly when `spare * density` lies strictly between -1 and 1; when `spare * density` is non-negative, the count is the largest whole number not above it; when it is negative, the count is the smallest whole number not below it (truncation toward zero) |
| Devices.Allocate | run_scripts/train_baseline_actions.py:93-105 | fails with ZeroDivisionError iff the worker count is 0; otherwise the driver plus all workers use exactly the budget of the workers' kind, and the workers get 0 of the other kind |
| Devices.NoWorkersIff | run_scripts/train_baseline_actions.py:98-105 | the allocation fails exactly when `spare * num_workers_per_device` lies strictly between -1 and 1 |
| Devices.WorkerCountBounds | run_scripts/train_baseline_actions.py:103 | with non-negative spare and density, a successful allocation has `1 <= num_workers <= spare*density < num_workers + 1` |
| Devices.DefaultFlagsAllocation | run_scripts/train_baseline_actions.py:101-105 | the flag defaults (2 CPUs, 1 GPU, everything on CPU, density 1) give one worker with one whole CPU |
| Devices.HalfGpuWorkers | run_scripts/train_baseline_actions.py:96-100 | 2 GPUs with driver and workers on GPU at density 2 give two workers of half a GPU each |
| Devices.SingleCpuHasNoWorkers | run_scripts/train_baseline_actions.py:101-105 | a single CPU taken by the driver leaves no worker and the division fails |
| Devices.MissingGpuGivesNegativeWorkers | run_scripts/train_baseline_actions.py:94-99 | driver and workers on GPU with 0 GPUs and density at least 1 yield a negative worker count whose shares still sum to -1 |
| Policies.ParseAgentIdRoundTrip | run_scripts/train_baseline_actions.py:75 | the id `'agent-' + str(i)` parses back to `i` |
| Policies.AgentIdCanonical | run_scripts/train_baseline_actions.py:75 | any string that parses as an agent id is the generated id of that index |
| Policies.AgentIdInjective | run_scripts/train_baseline_actions.py:74-75 | distinct agents get distinct policy ids, so no loop iteration overwrites another's entry |
| Policies.PolicyGraphs | run_scripts/train_baseline_actions.py:69-75 | after the loop over `range(num_agents)` the keys are exactly the ids of agents 0..n-1, all bound to the one tuple, and the table has `max(n, 0)` entries |
| Policies.PolicyTableKeys | run_scripts/train_baseline_actions.py:73-75 | the key set is `{"agent-" + str(i) : 0 <= i < n}` |
| Policies.MappingRoutesAgents | run_scripts/train_baseline_actions.py:77-78 | the identity mapping sends an agent id to a policy in the table iff it is the id of one of the first n agents, and that policy is the shared tuple |
| Policies.GeneratedIdsAreRouted | run_scripts/train_baseline_actions.py:74-78 | every generated agent id is routed to a key of the table |
| Policies.ThreeAgents | run_scripts/train_baseline_actions.py:73-78 | three agents yield exactly the keys "agent-0", "agent-1", "agent-2", and "agent-1" maps to "agent-1" |
| Config.Update | run_scripts/train_baseline_actions.py:108 | `dict.update`: the keys are the union, updated keys take the new values, all other keys keep their old values |
| Config.Overrides | run_scripts/train_baseline_actions.py:108-123 | the update argument has exactly the nine overridden keys. It records the allocation's worker count, driver reservation and per-worker shares, with the unused kind's share the integer 0. It holds the policy table with the identity mapping, batch size 128, horizon 1000 and the `conv_to_fc_net` model without LSTM |
| Config.OverriddenKeepsRecords | run_scripts/train_baseline_actions.py:108-123 | whatever agrees with the overrides on their keys carries the same device entries, multiagent block and hyperparameters |
| Config.WithReplay | run_scripts/train_baseline_actions.py:86-91 | the copied defaults differ only in `env_config`, which gains `env_name`, `run = "DQN"` and the factory, and keeps every other entry |
| Config.Assemble | run_scripts/train_baseline_actions.py:86-123 | the merged config has the default keys plus the overridden ones and keeps every default key it does not override. It records the replay entries, the allocation, the policy table and the fixed hyperparameters |
| Config.Setup | run_scripts/train_baseline_actions.py:50-124 | a missing `env_config` gives KeyError and one that is not a `Dict` value gives TypeError. Otherwise `setup` fails, always with ZeroDivisionError, iff the allocation does. On success it returns "DQN" and `env + "_env"` and registers that name with a Harvest factory iff `env == "harvest"`. The config keeps every default key other than `env_config` and the overridden keys, and adds exactly the overridden keys |
| Config.RecordedAllocationConserves | run_scripts/train_baseline_actions.py:111-115 | a config that records a conserving allocation with non-zero workers conserves the budget in its own entries |
| Config.SetupConserves | run_scripts/train_baseline_actions.py:93-115 | whenever `env_config` is a dict and the allocation succeeds, `setup` succeeds. Its config stores the allocation: `num_gpus` plus `num_cpus_for_driver` is 1 and `num_workers` is non-zero. Driver plus workers use exactly the declared total of the workers' kind, and the other per-worker share is the integer 0 |
| Config.SetupEnvConfig | run_scripts/train_baseline_actions.py:86-91 | after a successful `setup`, `env_config` names the registered environment and "DQN", carries the registered factory, and keeps every other default entry |
| Config.SetupPoliciesAndHyperparameters | run_scripts/train_baseline_actions.py:69-123 | a successful config holds one DQN policy per agent over the selected environment's spaces, keyed exactly by the ids of agents 0..n-1. It also holds the identity mapping and the fixed hyperparameters |

## Left out

- Ray and Tune are not modelled: `register_env`, `tune.function`, `get_agent_class` and `run_experiments`. The registration appears as a returned `Registration` value. `tune.function` wrappers are the named stand-ins `EnvFactory` and `IdentityMappingFn`.
- `HarvestEnv` and `CleanupEnv` are not modelled. Their observation and action spaces are the opaque tokens `ObservationSpace(kind)` and `ActionSpace(kind)`. The factory is the value `EnvCreator(kind, num_agents)`.
- `ModelCatalog.register_custom_model` (line 82) is not modelled. As written it names `ConvToFCNet`, but the import at line 12 binds only `ConvToFCNetActions`. Python would therefore raise NameError there before any device logic runs. The model assumes the intended class is registered.
- The DQN default config is a parameter (`defaults`), because it comes from the library.
- `Config.Setup`: the copy at line 86 is shallow, so Python writes into the library's own `env_config` dict. The model treats dicts as values and does not capture this aliasing.
- `Config.Setup`: an `env_config` that is the policy-table dict (`PolicyTable`) gives TypeError in the model, although Python would write into it at line 89. A `PolicyTable` maps ids to policy tuples only and cannot hold the replay entries, so only `Dict` values are treated as writable dicts.
- `Config.Setup`: `register_env` runs before the division in the source, so it also happens when `setup` later fails. The model returns no registration on failure.
- The `hparams` argument is not modelled; `setup` never reads it. The hparam dicts at lines 39-47 are left out for the same reason.
- `main` and flag parsing (lines 15-37, 127-153) are command-line I/O. Flag values are inputs to the model. Their defaults appear only in `Devices.DefaultFlagsAllocation`.
- `Devices.Allocate`: products and quotients are exact reals, not IEEE doubles. Float rounding of `spare * num_workers_per_device` and `spare / num_workers` is not modelled. Neither is `int()` of an infinite or NaN density.
