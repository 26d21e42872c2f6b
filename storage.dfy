/** Values shared by the session layer and the watchlist store: optional
    values, what a browser storage key holds, the answer of the database
    query, and the outcomes of operations that can fail. */
module Storage {

  datatype Option<+T> = None | Some(value: T)

  /** What a present key of a browser storage partition holds once
      `JSON.parse` has been applied to it: a value of the expected shape, or
      text that does not parse (`Corrupt`). An absent key is `None` around it. */
  datatype Stored<+T> = Parses(value: T) | Corrupt

  /** The answer of the database `query` helper: the rows of the statement,
      or a failure (no connection, or a statement that cannot execute). */
  datatype Reply<+T> = Answered(rows: seq<T>) | Unavailable

  /** A thrown error (`Failure`) or a returned value (`Success`). */
  datatype Result<+T, +E> = Success(value: T) | Failure(error: E)

  /** A thrown error (`Fail`) or normal completion of a `void` operation. */
  datatype Outcome<+E> = Pass | Fail(error: E)

  /** What `JSON.parse(getItem(key))` yields for a key, with the source's
      `try`/`catch` around it: the parsed value, or `None` when the key is
      absent or its text does not parse. */
  function Parsed<T>(slot: Option<Stored<T>>): (r: Option<T>)
    ensures r.Some? <==> slot.Some? && slot.value.Parses?
    ensures r.Some? ==> slot == Some(Parses(r.value))
  {
    match slot
    case Some(Parses(v)) => Some(v)
    case _ => None
  }
}
