/**
 * The few pieces of the Java platform the identity layer leans on: nullable values,
 * the NullPointerException that `Objects.requireNonNull` and a null dereference raise,
 * and the hash functions whose numeric results are left uninterpreted.
 */
module Java {

  /** A Java reference to a value that may be null. */
  datatype Option<T> = None | Some(value: T)

  /** The only exception the identity layer can raise. */
  datatype Exception = NullPointerException

  /** The outcome of a Java call: a value, or the exception it throws. */
  datatype Result<R> = Ok(value: R) | Throws(exception: Exception)

  /** `Objects.requireNonNull(v)`: returns its argument, or throws on null. */
  function RequireNonNull<T>(v: Option<T>): (r: Result<T>)
    ensures r.Ok? <==> v.Some?
    ensures r.Ok? ==> r.value == v.value
    ensures r.Throws? ==> r.exception == NullPointerException
  {
    match v
    case Some(x) => Ok(x)
    case None => Throws(NullPointerException)
  }

  /**
   * The foreign hash functions: `objectsHash` is `Objects.hash` applied to one argument,
   * given that argument's own `hashCode()` or None for null; `valueHash` is the raw
   * identifier value's own `hashCode()` (for a UUID, `UUID.hashCode`).
   */
  datatype Hashing<!T> = Hashing(objectsHash: Option<int> -> int, valueHash: T -> int)
}
