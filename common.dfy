/** Types shared by every component: the .NET integer widths the source uses,
    nullable references, and the outcome of a call that either completes with
    a value or throws. */
module Common {

  const MinInt32: int := -0x8000_0000
  const MaxInt32: int := 0x7FFF_FFFF

  /** C# `int`. */
  newtype int32 = x: int | -0x8000_0000 <= x < 0x8000_0000

  /** C# `long`. */
  newtype int64 = x: int | -0x8000_0000_0000_0000 <= x < 0x8000_0000_0000_0000

  /** C# `byte`. */
  newtype byte = x: int | 0 <= x < 256

  /** A reference that may be null. */
  datatype Option<+T> = None | Some(value: T)

  /** The exceptions the modelled code can raise. */
  datatype Error =
    | DuplicateKey(key: string)        // ArgumentException from Dictionary.Add
    | KeyNotFound(key: string)         // KeyNotFoundException from the Dictionary indexer
    | MoreThanOneMatch(name: string)   // InvalidOperationException from SingleOrDefault

  /** What a call gives back: a completed task with its value, or an exception. */
  datatype Outcome<+R> = Completed(value: R) | Faulted(error: Error)
}
