/** Optional values, used where the Python code would raise a KeyError or TypeError. */
module Wrappers {

  datatype Option<+T> = None | Some(value: T)
  {
    predicate IsFailure()
    {
      None?
    }

    function PropagateFailure<U>(): Option<U>
      requires None?
    {
      None
    }

    function Extract(): T
      requires Some?
    {
      value
    }
  }
}
