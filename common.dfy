/**
 * Value types shared by every part of the model.
 */
module Common {
  /** A Java reference that may be null: `None` is null. */
  datatype Option<T> = None | Some(value: T)

  /**
   * The outcome of a service call: either the value it returns or the
   * error it throws, identified by what the exception handler answers with.
   */
  datatype Result<T, E> = Success(value: T) | Failure(error: E)

  /**
   * A list argument that may be null: null becomes the empty list, the rule
   * every entity applies when it stores a list from a request.
   */
  function OrEmpty(xs: Option<seq<string>>): (r: seq<string>)
    ensures xs.None? ==> r == []
    ensures xs.Some? ==> r == xs.value
  {
    if xs.Some? then xs.value else []
  }

  /** Entity ids are UUIDs, carried in their canonical string form. */
  type Uuid = string
}
