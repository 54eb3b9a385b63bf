/**
  Configuration values as they come out of a hyperparameter file, the
  name-to-value mapping they live in, and the one failure the preprocessing
  step can raise on its own: a key error from deleting an absent key.
 */
module Values {

  /** A configuration value. `Opaque` stands for any object the model does
      not look inside: a schedule object, a class, a float, the result of
      evaluating a string. */
  datatype Value =
    | NoneValue
    | Bool(b: bool)
    | Int(i: int)
    | Str(s: string)
    | List(elems: seq<Value>)
    | Tuple(elems: seq<Value>)
    | Opaque(id: nat)

  /** The hyperparameter dictionary: parameter name to value. */
  type Hyperparams = map<string, Value>

  /** Deleting a key that is not in the dictionary raises a key error
      naming that key. */
  datatype Error = KeyError(key: string)

  /** Either a value or the key error that stopped the computation;
      failure-compatible, so `:-` propagates the error as an uncaught
      exception would. */
  datatype Result<+T> = Ok(value: T) | Err(error: Error) {
    predicate IsFailure() {
      Err?
    }

    function PropagateFailure<U>(): Result<U>
      requires Err?
    {
      Err(error)
    }

    function Extract(): T
      requires Ok?
    {
      value
    }
  }

  /** `del h[key]`: removes the entry, or fails with a key error when the
      key is absent. */
  function Delete(h: Hyperparams, key: string): (r: Result<Hyperparams>)
    ensures r.Ok? <==> key in h
    ensures r.Err? ==> r.error == KeyError(key)
    ensures r.Ok? ==> r.value.Keys == h.Keys - {key}
    ensures r.Ok? ==> forall k :: k in r.value ==> r.value[k] == h[k]
  {
    if key in h then Ok(h - {key}) else Err(KeyError(key))
  }

  /** Deleting one more key from `m - gone`, or finding it already absent,
      leaves `m` without `gone` and that key. */
  lemma RemoveOneMore(m: Hyperparams, gone: set<string>, key: string)
    ensures (m - gone) - {key} == m - (gone + {key})
    ensures key !in m - gone ==> m - gone == m - (gone + {key})
  {
  }
}
