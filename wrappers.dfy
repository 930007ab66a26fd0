/** Optional values and error results shared by every module of the model. */
module Wrappers {
  /** A value that may be missing (Python's `None`, or a lookup that found nothing). */
  datatype Option<T> = None | Some(value: T)

  /** The outcome of an operation that may raise: `Err` carries the exception's message. */
  datatype Result<T> = Ok(value: T) | Err(error: string)

  /**
   * A key of a JSON object: missing, present with `null`, or present with a value.
   * Python's `d.get(k)` reads the first two alike.
   */
  datatype Field<T> = Absent | Null | Present(value: T)
  {
    function Get(): (r: Option<T>)
      ensures r.Some? <==> this.Present?
    {
      if this.Present? then Some(value) else None
    }
  }

  /** A JSON value written from a value that may be `None`: `null` when it is. */
  function FieldOf<T>(o: Option<T>): (r: Field<T>)
    ensures r.Get() == o && !r.Absent?
  {
    match o
      case Some(v) => Present(v)
      case None => Null
  }
}
