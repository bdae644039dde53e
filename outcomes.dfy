/** Results of calls into collaborators the assistant cannot see: a language-model
    call, an HTTP fetch, a vector-store query. Python raises; the model returns `Err`. */
module Outcomes {

  datatype Option<+T> = None | Some(value: T)

  /** `Ok(v)` for a call that returned `v`, `Err(msg)` for one that raised an
      exception whose `str(e)` is `msg`. */
  datatype Outcome<+T> = Ok(value: T) | Err(msg: string) {
    predicate IsFailure() {
      Err?
    }

    function PropagateFailure<U>(): Outcome<U>
      requires Err?
    {
      Err(msg)
    }

    function Extract(): T
      requires Ok?
    {
      value
    }
  }
}
