/**
  Preprocessing of a hyperparameter dictionary into the keyword arguments a
  model constructor accepts, together with the environment wrapper chosen
  from it.

  The three calls into code outside the repository are parameters:
  `schedules` turns schedule strings into schedule objects, `eval` evaluates
  a string to some object, and `getWrapperClass` picks the wrapper from the
  dictionary. All three are pure functions here.
 */
module HyperparameterProcessing {
  import opened Values

  /** The keys whose string values are evaluated into objects. */
  const KwargsKeys: set<string> := {"policy_kwargs", "replay_buffer_class", "replay_buffer_kwargs"}

  /** The keys deleted before the wrapper is chosen. */
  const PreWrapperKeys: set<string> := {"n_envs", "n_timesteps", "frame_stack"}

  /** The keys deleted after the wrapper is chosen, except `noise_std`. */
  const PostWrapperKeys: set<string> := {"env_wrapper", "callback", "noise_type", "normalize"}

  /** The outcome of a successful run: the keyword arguments and the wrapper. */
  datatype Processed = Processed(kwargs: Hyperparams, envWrapper: Value)

  /** The new value of one entry after the train_freq and kwargs-key rewrites:
      only a list under `train_freq` and a string under a kwargs key change. */
  function Rewrite(key: string, v: Value, eval: string -> Value): (r: Value)
    ensures key == "train_freq" && v.List? ==> r.Tuple? && r.elems == v.elems
    ensures key in KwargsKeys && v.Str? ==> r == eval(v.s)
    ensures r != v ==> (key == "train_freq" && v.List?) || (key in KwargsKeys && v.Str?)
  {
    if key == "train_freq" && v.List? then Tuple(v.elems)
    else if key in KwargsKeys && v.Str? then eval(v.s)
    else v
  }

  /** The dictionary after the two rewriting steps; no key is added or removed. */
  function Rewritten(h: Hyperparams, eval: string -> Value): (r: Hyperparams)
    ensures r.Keys == h.Keys
  {
    map k | k in h :: Rewrite(k, h[k], eval)
  }

  /** Every key the run deletes from the dictionary `h` it starts from. */
  function RemovedKeys(h: Hyperparams): (r: set<string>)
    ensures PreWrapperKeys <= r && PostWrapperKeys <= r
    ensures "noise_std" in r <==> "noise_type" in h
    ensures r <= PreWrapperKeys + PostWrapperKeys + {"noise_std"}
  {
    PreWrapperKeys + PostWrapperKeys + (if "noise_type" in h then {"noise_std"} else {})
  }

  /** The outcome of the deletion steps applied to `h`: a key error for the
      first required key that is absent, in program order, or else `h`
      without the rejected keys and the wrapper chosen from `h` without
      `n_envs`, `n_timesteps` and `frame_stack`. */
  function Stripped(h: Hyperparams, getWrapperClass: Hyperparams -> Value): (r: Result<Processed>)
    ensures r.Ok? <==> "n_timesteps" in h && "normalize" in h && ("noise_type" in h ==> "noise_std" in h)
    ensures r.Err? ==> r.error in {KeyError("n_timesteps"), KeyError("noise_std"), KeyError("normalize")}
    ensures r.Ok? ==> r.value.kwargs.Keys == h.Keys - RemovedKeys(h)
    ensures r.Ok? ==> forall k :: k in r.value.kwargs ==> r.value.kwargs[k] == h[k]
    ensures r.Ok? ==> r.value.envWrapper == getWrapperClass(h - PreWrapperKeys)
  {
    if "n_timesteps" !in h then Err(KeyError("n_timesteps"))
    else if "noise_type" in h && "noise_std" !in h then Err(KeyError("noise_std"))
    else if "normalize" !in h then Err(KeyError("normalize"))
    else Ok(Processed(h - RemovedKeys(h), getWrapperClass(h - PreWrapperKeys)))
  }

  /** What preprocessing produces from the dictionary `h` returned by the
      schedule step, stated in one piece rather than step by step. */
  function Expected(h: Hyperparams, eval: string -> Value, getWrapperClass: Hyperparams -> Value)
    : (r: Result<Processed>)
    ensures r.Ok? <==> "n_timesteps" in h && "normalize" in h && ("noise_type" in h ==> "noise_std" in h)
    ensures r.Ok? ==> r.value.kwargs.Keys == h.Keys - RemovedKeys(h)
    ensures r.Ok? ==> forall k :: k in r.value.kwargs ==> r.value.kwargs[k] == Rewrite(k, h[k], eval)
  {
    Stripped(Rewritten(h, eval), getWrapperClass)
  }

  /** The preprocessing function itself, mutating a working copy of the
      dictionary step by step; deleting an absent required key ends the run
      with that key error. */
  method PreprocessHyperparams(
    hyperparams: Hyperparams,
    schedules: Hyperparams -> Hyperparams,
    eval: string -> Value,
    getWrapperClass: Hyperparams -> Value)
    returns (r: Result<Processed>)
    ensures r == Expected(schedules(hyperparams), eval, getWrapperClass)
  {
    var h := schedules(hyperparams);
    ghost var scheduled := h;

    if "train_freq" in h && h["train_freq"].List? {
      h := h["train_freq" := Tuple(h["train_freq"].elems)];
    }
    h := ResolveKwargs(h, eval);
    assert h == Rewritten(scheduled, eval);
    r := DeleteUnacceptedKeys(h, getWrapperClass);
  }

  /** Replaces the string value of each kwargs key present in `h` by what
      `eval` makes of it, visiting the keys in any order. */
  method ResolveKwargs(h: Hyperparams, eval: string -> Value) returns (out: Hyperparams)
    ensures out.Keys == h.Keys
    ensures forall k :: k in out && k in KwargsKeys && h[k].Str? ==> out[k] == eval(h[k].s)
    ensures forall k :: k in out && !(k in KwargsKeys && h[k].Str?) ==> out[k] == h[k]
  {
    out := h;
    var pending := KwargsKeys;
    while pending != {}
      invariant pending <= KwargsKeys
      invariant out.Keys == h.Keys
      invariant forall k :: k in out && (k in pending || !(k in KwargsKeys && h[k].Str?)) ==> out[k] == h[k]
      invariant forall k :: k in out && k !in pending && k in KwargsKeys && h[k].Str? ==> out[k] == eval(h[k].s)
      decreases pending
    {
      var key :| key in pending;
      if key in out && out[key].Str? {
        out := out[key := eval(out[key].s)];
      }
      pending := pending - {key};
    }
  }

  /** The deletion steps: drops the keys the constructor rejects, choosing
      the wrapper midway, and fails on the first absent required key. */
  method DeleteUnacceptedKeys(hyperparams: Hyperparams, getWrapperClass: Hyperparams -> Value)
    returns (r: Result<Processed>)
    ensures r == Stripped(hyperparams, getWrapperClass)
  {
    var h := hyperparams;
    ghost var gone: set<string> := {};
    assert h == hyperparams - gone;

    RemoveOneMore(hyperparams, gone, "n_envs");
    if "n_envs" in h {
      h := h - {"n_envs"};
    }
    gone := gone + {"n_envs"};
    RemoveOneMore(hyperparams, gone, "n_timesteps");
    h :- Delete(h, "n_timesteps");
    gone := gone + {"n_timesteps"};
    RemoveOneMore(hyperparams, gone, "frame_stack");
    if "frame_stack" in h {
      h := h - {"frame_stack"};
    }
    gone := gone + {"frame_stack"};
    assert gone == PreWrapperKeys;

    var envWrapper := getWrapperClass(h);
    RemoveOneMore(hyperparams, gone, "env_wrapper");
    if "env_wrapper" in h {
      h := h - {"env_wrapper"};
    }
    gone := gone + {"env_wrapper"};
    RemoveOneMore(hyperparams, gone, "callback");
    if "callback" in h {
      h := h - {"callback"};
    }
    gone := gone + {"callback"};
    RemoveOneMore(hyperparams, gone, "noise_type");
    if "noise_type" in h {
      h := h - {"noise_type"};
      gone := gone + {"noise_type"};
      RemoveOneMore(hyperparams, gone, "noise_std");
      h :- Delete(h, "noise_std");
      gone := gone + {"noise_std"};
    } else {
      gone := gone + {"noise_type"};
    }
    RemoveOneMore(hyperparams, gone, "normalize");
    h :- Delete(h, "normalize");
    gone := gone + {"normalize"};
    assert gone == RemovedKeys(hyperparams);
    r := Ok(Processed(h, envWrapper));
  }

  // ---------------------------------------------------------------------
  // Properties of `Expected`, all relative to the dictionary `h`
  // returned by the schedule step.
  // ---------------------------------------------------------------------

  /** Preprocessing fails exactly when a required deletion meets an absent
      key, and the error names the first such key in program order. */
  lemma FailsExactlyWhen(h: Hyperparams, eval: string -> Value, getWrapperClass: Hyperparams -> Value)
    ensures Expected(h, eval, getWrapperClass).Err? <==>
      "n_timesteps" !in h || "normalize" !in h || ("noise_type" in h && "noise_std" !in h)
    ensures "n_timesteps" !in h ==> Expected(h, eval, getWrapperClass) == Err(KeyError("n_timesteps"))
    ensures "n_timesteps" in h && "noise_type" in h && "noise_std" !in h ==>
      Expected(h, eval, getWrapperClass) == Err(KeyError("noise_std"))
    ensures "n_timesteps" in h && ("noise_type" in h ==> "noise_std" in h) && "normalize" !in h ==>
      Expected(h, eval, getWrapperClass) == Err(KeyError("normalize"))
  {
  }

  /** A dictionary without `n_timesteps` is rejected, whatever else it holds. */
  lemma FailsWithoutTimesteps(h: Hyperparams, eval: string -> Value, getWrapperClass: Hyperparams -> Value)
    requires "n_timesteps" !in h
    ensures Expected(h, eval, getWrapperClass) == Err(KeyError("n_timesteps"))
  {
  }

  /** A dictionary without `normalize` is rejected, whatever else it holds. */
  lemma FailsWithoutNormalize(h: Hyperparams, eval: string -> Value, getWrapperClass: Hyperparams -> Value)
    requires "normalize" !in h
    ensures Expected(h, eval, getWrapperClass).Err?
    ensures Expected(h, eval, getWrapperClass).error in
      {KeyError("n_timesteps"), KeyError("noise_std"), KeyError("normalize")}
  {
  }

  /** `noise_std` is required only alongside `noise_type`; it is deleted
      only then and is otherwise passed through. */
  lemma NoiseStdFollowsNoiseType(h: Hyperparams, eval: string -> Value, getWrapperClass: Hyperparams -> Value)
    ensures "n_timesteps" in h && "noise_type" in h && "noise_std" !in h ==>
      Expected(h, eval, getWrapperClass) == Err(KeyError("noise_std"))
    ensures Expected(h, eval, getWrapperClass).Ok? && "noise_type" in h ==>
      "noise_std" !in Expected(h, eval, getWrapperClass).value.kwargs
    ensures Expected(h, eval, getWrapperClass).Ok? && "noise_type" !in h && "noise_std" in h ==>
      "noise_std" in Expected(h, eval, getWrapperClass).value.kwargs &&
      Expected(h, eval, getWrapperClass).value.kwargs["noise_std"] == h["noise_std"]
  {
  }

  /** On success none of the keys the constructor rejects survives, whether
      or not it was in the input. */
  lemma RemovedKeysAbsent(h: Hyperparams, eval: string -> Value, getWrapperClass: Hyperparams -> Value)
    requires Expected(h, eval, getWrapperClass).Ok?
    ensures forall k :: k in {"n_envs", "n_timesteps", "frame_stack", "env_wrapper", "callback", "noise_type", "normalize"} ==>
      k !in Expected(h, eval, getWrapperClass).value.kwargs
  {
  }

  /** A list-valued `train_freq` becomes a tuple of the same elements in the
      same order; any other `train_freq` value passes through unchanged. */
  lemma TrainFreqBecomesTuple(h: Hyperparams, eval: string -> Value, getWrapperClass: Hyperparams -> Value)
    requires Expected(h, eval, getWrapperClass).Ok?
    requires "train_freq" in h
    ensures "train_freq" in Expected(h, eval, getWrapperClass).value.kwargs
    ensures var out := Expected(h, eval, getWrapperClass).value.kwargs["train_freq"];
      match h["train_freq"]
      case List(elems) => out.Tuple? && |out.elems| == |elems| &&
        forall i :: 0 <= i < |elems| ==> out.elems[i] == elems[i]
      case _ => out == h["train_freq"]
  {
  }

  /** Only string values of the three kwargs keys are replaced by what
      `eval` makes of them; other values of those keys stay as they are. */
  lemma OnlyStringKwargsResolved(h: Hyperparams, eval: string -> Value, getWrapperClass: Hyperparams -> Value, key: string)
    requires Expected(h, eval, getWrapperClass).Ok?
    requires key in {"policy_kwargs", "replay_buffer_class", "replay_buffer_kwargs"} && key in h
    ensures key in Expected(h, eval, getWrapperClass).value.kwargs
    ensures h[key].Str? ==> Expected(h, eval, getWrapperClass).value.kwargs[key] == eval(h[key].s)
    ensures !h[key].Str? ==> Expected(h, eval, getWrapperClass).value.kwargs[key] == h[key]
  {
  }

  /** Nothing else changes: no key is added, and every surviving key other
      than `train_freq` and the kwargs keys keeps its value, strings included. */
  lemma NothingElseChanges(h: Hyperparams, eval: string -> Value, getWrapperClass: Hyperparams -> Value)
    requires Expected(h, eval, getWrapperClass).Ok?
    ensures Expected(h, eval, getWrapperClass).value.kwargs.Keys <= h.Keys
    ensures forall k :: k in h && k !in RemovedKeys(h) ==> k in Expected(h, eval, getWrapperClass).value.kwargs
    ensures forall k :: k in Expected(h, eval, getWrapperClass).value.kwargs && k != "train_freq" && k !in KwargsKeys ==>
      Expected(h, eval, getWrapperClass).value.kwargs[k] == h[k]
  {
  }

  /** The wrapper is chosen from the dictionary as it stood between the two
      groups of deletions: every key but `n_envs`, `n_timesteps` and
      `frame_stack`, with the rewritten values, so `env_wrapper`,
      `callback`, `noise_type`, `noise_std` and `normalize` are still there.
      The keyword arguments are that same dictionary minus the later keys. */
  lemma WrapperSeesMidwayDictionary(
    h: Hyperparams, eval: string -> Value, getWrapperClass: Hyperparams -> Value, w: Hyperparams)
    requires Expected(h, eval, getWrapperClass).Ok?
    requires w.Keys == h.Keys - {"n_envs", "n_timesteps", "frame_stack"}
    requires forall k :: k in w ==> w[k] == Rewrite(k, h[k], eval)
    ensures Expected(h, eval, getWrapperClass).value.envWrapper == getWrapperClass(w)
    ensures "env_wrapper" in h ==> "env_wrapper" in w && w["env_wrapper"] == h["env_wrapper"]
    ensures Expected(h, eval, getWrapperClass).value.kwargs ==
      w - ({"env_wrapper", "callback", "noise_type", "normalize"} + (if "noise_type" in h then {"noise_std"} else {}))
  {
    assert w == Rewritten(h, eval) - PreWrapperKeys;
  }

  /** The input used as the running example: a timestep budget, a
      normalisation flag and a list-valued `train_freq`. */
  function ExampleInput(): Hyperparams {
    map["n_timesteps" := Int(1000), "normalize" := Bool(false), "train_freq" := List([Int(4), Str("step")])]
  }

  /** With an identity schedule step the example keeps only `train_freq`,
      now the tuple `(4, "step")`, and the wrapper is chosen from the
      dictionary that still holds `normalize`. */
  lemma WorkedExample(eval: string -> Value, getWrapperClass: Hyperparams -> Value)
    ensures Expected(ExampleInput(), eval, getWrapperClass) ==
      Ok(Processed(
        map["train_freq" := Tuple([Int(4), Str("step")])],
        getWrapperClass(map["normalize" := Bool(false), "train_freq" := Tuple([Int(4), Str("step")])])))
  {
    var h := ExampleInput();
    var r := Rewritten(h, eval);
    assert r == map["n_timesteps" := Int(1000), "normalize" := Bool(false), "train_freq" := Tuple([Int(4), Str("step")])];
    assert r - PreWrapperKeys == map["normalize" := Bool(false), "train_freq" := Tuple([Int(4), Str("step")])];
    assert r - RemovedKeys(h) == map["train_freq" := Tuple([Int(4), Str("step")])];
  }

  /** The running example through the step-by-step method, with an identity
      schedule step and a wrapper lookup that finds no wrapper. */
  method RunWorkedExample(eval: string -> Value) returns (r: Result<Processed>)
    ensures r == Ok(Processed(map["train_freq" := Tuple([Int(4), Str("step")])], NoneValue))
  {
    r := PreprocessHyperparams(ExampleInput(), h => h, eval, h => NoneValue);
    WorkedExample(eval, h => NoneValue);
  }
}
