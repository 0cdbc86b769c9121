/** The Java exceptions the core throws, as values. */
module Exceptions {
  import opened Wrappers

  datatype Exception =
    | IllegalArgumentException(message: string)
    | RuntimeException(message: string, cause: Option<Exception>)
      /** An exception raised inside a foreign call (Flyway, JDBC, the ORM); only its message is known. */
    | ForeignException(message: string)

  /** String concatenation of a possibly-null string: Java renders null as "null". */
  function Show(s: Option<string>): (r: string)
    ensures s.Some? ==> r == s.value
    ensures s.None? ==> r == "null"
  {
    match s
    case Some(v) => v
    case None => "null"
  }
}
