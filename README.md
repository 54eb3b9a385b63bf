# Hyperparameter preprocessing, modelled in Dafny

A population-based hyperparameter search for a policy-gradient learner reads its
defaults from a hyperparameter file. Before those defaults reach the model
constructor, `preprocess_hyperparams` rewrites the name-to-value dictionary into
keyword arguments. It:

1. passes the dictionary through the schedule step, which turns schedule strings
   into schedule objects;
2. turns a list-valued `train_freq` into a tuple;
3. evaluates the string values of `policy_kwargs`, `replay_buffer_class` and
   `replay_buffer_kwargs` into objects;
4. deletes the keys the constructor does not accept, and picks the environment
   wrapper from the dictionary partway through;
5. returns the dictionary and the wrapper.

Deleting `n_timesteps` or `normalize` when it is absent raises a key error. So
does deleting `noise_std` when `noise_type` is present and `noise_std` is not.

The model has two modules:

- `Values` (`values.dfy`) holds the data model. It defines a `Value` datatype
  (`NoneValue`, `Bool`, `Int`, `Str`, `List`, `Tuple`, `Opaque`), the dictionary
  type `Hyperparams = map<string, Value>`, the `KeyError` failure, a `Result`
  type that `:-` accepts, and `Delete`, which models `del h[key]`.
- `HyperparameterProcessing` (`hyperparameter_processing.dfy`) holds the
  operation itself, in two forms:
  - `PreprocessHyperparams` is imperative, like the source. A working dictionary
    is updated step by step. A `while` loop visits the three kwargs keys in a
    nondeterministically chosen order, because the source iterates over a set.
    Required deletions propagate their key error with `:-`.
  - `Expected` states the same result in one piece. It is `Stripped` applied to
    `Rewritten`.

The method's postcondition equates its result with `Expected`. The lemmas state
the source's promises about `Expected`.

The schedule step, `eval` and `get_wrapper_class` are outside the repository.
The model takes them as function parameters (`schedules`, `eval`,
`getWrapperClass`) and treats them as pure. Every property is stated relative to
the dictionary that the schedule step returns.

Two details of the deletions are easy to miss. The model follows them exactly:

- `noise_std` is deleted only when `noise_type` is present. Otherwise it is
  passed through with its value (lines 40-42).
- When `noise_type` is present, `noise_std` is required too. If it is absent,
  the run raises a key error for `noise_std` (line 42).

## Model

| member | source | states |
|---|---|---|
| `HyperparameterProcessing.PreprocessHyperparams` | src/utils/hyperparameter_processing.py:10-45 | the step-by-step run over the scheduled dictionary yields exactly `Expected`: the same key error, or the same keyword arguments and wrapper |
| `HyperparameterProcessing.ResolveKwargs` | src/utils/hyperparameter_processing.py:18-22 | in any visiting order, the loop keeps the key set, puts `eval(s)` in place of each string `s` under the three kwargs keys, and leaves every other entry as it was |
| `HyperparameterProcessing.DeleteUnacceptedKeys` | src/utils/hyperparameter_processing.py:24-45 | the conditional and unconditional deletions, with the wrapper chosen between them, produce `Stripped`: the first absent required key in program order as a key error, or else the dictionary without the rejected keys |
| `HyperparameterProcessing.Rewrite` | src/utils/hyperparameter_processing.py:14-22 | one entry's new value: a list under `train_freq` becomes a tuple of the same elements, a string under a kwargs key becomes `eval` of it, and nothing else changes any value |
| `HyperparameterProcessing.RemovedKeys` | src/utils/hyperparameter_processing.py:25-43 | the keys a successful run deletes: always the seven unaccepted keys, plus `noise_std` exactly when `noise_type` is present, and no other key |
| `HyperparameterProcessing.Stripped` | src/utils/hyperparameter_processing.py:24-45 | closed form of the deletions: success exactly when `n_timesteps` and `normalize` are present and `noise_std` is present whenever `noise_type` is; a failure names one of those three keys; on success the output has exactly the keys of `h` minus `RemovedKeys(h)` with their values unchanged, and the wrapper is `get_wrapper_class` of `h` minus `n_envs`, `n_timesteps` and `frame_stack` |
| `HyperparameterProcessing.Expected` | src/utils/hyperparameter_processing.py:10-45 | closed form of the whole run over the scheduled dictionary: the same success condition, the output keys are the input keys minus `RemovedKeys`, and each surviving value is the input value after the train_freq and kwargs rewrites |
| `HyperparameterProcessing.Rewritten` | src/utils/hyperparameter_processing.py:14-22 | the train_freq and kwargs rewrites add and remove no key |
| `Values.Delete` | src/utils/hyperparameter_processing.py:42-43 | the unconditional `del h[key]` of lines 27, 42 and 43 succeeds exactly when the key is present; it then removes only that key and keeps every other value; otherwise it fails with a key error naming the key |
| `HyperparameterProcessing.FailsExactlyWhen` | src/utils/hyperparameter_processing.py:25-43 | failure if and only if `n_timesteps` is absent, or `normalize` is absent, or `noise_type` is present without `noise_std`; the error names `n_timesteps`, then `noise_std`, then `normalize`, in that precedence |
| `HyperparameterProcessing.FailsWithoutTimesteps` | src/utils/hyperparameter_processing.py:27 | without `n_timesteps`, the run fails with a key error for `n_timesteps`, whatever else is in the dictionary |
| `HyperparameterProcessing.FailsWithoutNormalize` | src/utils/hyperparameter_processing.py:43 | without `normalize`, the run always fails; it is never recovered |
| `HyperparameterProcessing.NoiseStdFollowsNoiseType` | src/utils/hyperparameter_processing.py:40-42 | `noise_type` without `noise_std` fails on `noise_std`; on success `noise_std` is gone when `noise_type` was present, and kept with its value otherwise |
| `HyperparameterProcessing.RemovedKeysAbsent` | src/utils/hyperparameter_processing.py:25-43 | on success, none of `n_envs`, `n_timesteps`, `frame_stack`, `env_wrapper`, `callback`, `noise_type`, `normalize` is in the output, whether or not it was in the input |
| `HyperparameterProcessing.TrainFreqBecomesTuple` | src/utils/hyperparameter_processing.py:15-16 | a list-valued `train_freq` comes out as a tuple of the same length with the same elements in the same order; any other `train_freq` value comes out unchanged |
| `HyperparameterProcessing.OnlyStringKwargsResolved` | src/utils/hyperparameter_processing.py:20-22 | a string under one of the three kwargs keys is replaced by `eval` of it; a non-string value under those keys is kept as it is |
| `HyperparameterProcessing.NothingElseChanges` | src/utils/hyperparameter_processing.py:12-45 | no key is added; every key that is not deleted survives; every surviving key other than `train_freq` and the kwargs keys keeps its value |
| `HyperparameterProcessing.WrapperSeesMidwayDictionary` | src/utils/hyperparameter_processing.py:34-36 | the wrapper is `get_wrapper_class` of the rewritten dictionary without only `n_envs`, `n_timesteps` and `frame_stack`, so it still sees `env_wrapper`; the output is that dictionary minus the later deletions |
| `HyperparameterProcessing.WorkedExample` | src/utils/hyperparameter_processing.py:10-45 | `{n_timesteps: 1000, normalize: false, train_freq: [4, "step"]}` becomes `{train_freq: (4, "step")}`; the wrapper is chosen from `{normalize: false, train_freq: (4, "step")}` |
| `HyperparameterProcessing.RunWorkedExample` | src/utils/hyperparameter_processing.py:10-45 | the method itself, with an identity schedule step and a wrapper lookup that finds none, returns `{train_freq: (4, "step")}` and no wrapper for the same input |

## Left out

- The internals of the schedule step, `get_wrapper_class` and `linear_schedule`
  belong to an external library. They are function parameters. An error either
  call might raise is not modelled.
- What `eval` computes is not modelled: the model only says that some value
  replaces the string. The arbitrary code `eval` can run, and the exceptions it
  can raise, are left out.
- In-place mutation of the caller's dictionary is not modelled. This includes
  the partial rewrites and deletions a caller would observe after a key error.
  The method works on a dictionary value. Aliasing of the schedule step's
  result with its argument is left out for the same reason.
- Floats, nested dictionaries and other YAML values are not modelled separately.
  They fall under `Opaque`, since no step of the preprocessing inspects them.
- The `sys.path` change at import time is not modelled. It is environment setup.
- `src/run_pb2.py` is orchestration over external libraries and is not modelled:
  - reading the YAML file;
  - `eval` of the environment name;
  - vectorised-environment construction and training;
  - evaluation episodes in the simulator;
  - the floating-point mean reward;
  - Ray Tune reporting, scheduling and cluster setup;
  - argument parsing.

  It also refers to names it never binds (`config`, `EnvCls`, `env_wrappers`),
  so its trial functions have no meaningful contract.
- The seven field assignments in `train_ppo` are not modelled. They are setters
  on an external model object that cannot be separated from the training and
  evaluation that follow.
