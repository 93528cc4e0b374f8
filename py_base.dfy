/** Python values and exceptions shared by the colour and scene modules. */
module PyBase {

  /** The exceptions the modelled code can raise. */
  datatype Error =
    | ValueError      // int(s, 16) on a bad digit string, range() with step 0, numpy broadcasting
    | IndexError      // indexing a tuple that is too short
    | TypeError       // iterating a number
    | AssertionError  // a failed `assert`
    | AttributeError  // calling a method the object does not have

  datatype Option<+T> = None | Some(value: T)

  /** The result of a call that either returns a value or raises. */
  datatype Result<+T> = Ok(value: T) | Err(error: Error) {
    predicate IsFailure() { Err? }

    function PropagateFailure<U>(): Result<U>
      requires Err?
    {
      Err(error)
    }

    function Extract(): T
      requires Ok?
    {
      value
    }
  }
}
