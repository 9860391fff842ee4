/** Values shared by the whole model: optional values, the errors the plugin
    raises, and a Result that carries either a value or one of those errors. */
module Base {

  /** A Java reference that may be null. */
  datatype Option<+T> = None | Some(value: T)

  /** A java.lang.Number that may be null: the "no data" value of a variable. */
  type Number = Option<real>

  /** The exceptions the plugin throws, one constructor per distinct cause. */
  datatype Error =
    | UnknownVariable          // IllegalArgumentException: the plugin does not provide the ID
    | ArityMismatch            // IllegalArgumentException: wrong number of sources
    | AlreadyProcessed         // IllegalStateException: metadata already processed
    | ImmutableArray           // IllegalArgumentException: write to a derived array
    | EmptyInput               // IllegalArgumentException: no domains to combine
    | IncompatibleCrs          // IllegalArgumentException: vertical CRSs differ
    | IndexOutOfBounds         // ArrayIndexOutOfBoundsException
    | StringIndexOutOfBounds   // StringIndexOutOfBoundsException from substring
    | NullPointer              // NullPointerException

  /** Either a normal return value or the exception thrown instead. */
  datatype Result<+T> = Success(value: T) | Failure(error: Error)
}
