/** Vocabulary shared by every module of the model. */
module Primitives {

  datatype Option<+T> = None | Some(value: T)

  datatype Result<+T, +E> = Ok(value: T) | Err(error: E) {
    predicate IsFailure() {
      Err?
    }

    function PropagateFailure<U>(): Result<U, E>
      requires Err?
    {
      Err(error)
    }

    function Extract(): T
      requires Ok?
    {
      value
    }
  }

  /** A context key, and the values stored under keys (compared, never inspected). */
  type Key = string
  type Value(==, 0, !new)
  type Data = map<Key, Value>

  /** Python objects are known by identity: `is` on two stage functions is equality of `Fn`. */
  datatype Fn = Fn(identity: nat)

  /** A declared Pydantic model, known by identity as well. */
  datatype Schema = Schema(identity: nat)

  datatype ForkMode = Parallel | FireForget

  function Last<T>(s: seq<T>): T
    requires s != []
  {
    s[|s| - 1]
  }

  function Front<T>(s: seq<T>): seq<T>
    requires s != []
  {
    s[..|s| - 1]
  }

  lemma AppendAssoc<T>(a: seq<T>, b: seq<T>, c: seq<T>)
    ensures a + (b + c) == (a + b) + c
  {
  }
}
