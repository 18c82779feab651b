/** What the core sees of the Python runtime: optional values, raised
    exceptions as values, and the dynamic type of an argument. */
module Runtime {
  import opened PyText

  datatype Option<+T> = None | Some(value: T)

  /** The exception classes the core raises itself; anything a foreign call
      raises is `Raised(name)`. Only subclasses of `Exception` are modelled. */
  datatype ExceptionKind =
    | ValueError
    | FileNotFoundError
    | IndexError
    | KeyError
    | Raised(name: string)

  /** A raised exception; `message` is `str(e)`. */
  datatype Exception = Exception(kind: ExceptionKind, message: string)

  /** The result of a call that either returns a value or raises. */
  datatype Outcome<+T> = Ok(value: T) | Err(error: Exception)

  /** A Python argument whose type is checked at run time: a `str` or
      anything else. */
  datatype Value = Str(text: string) | NotStr

  /** What `seq[0]` raises on an empty list. */
  const IndexOutOfRange := Exception(IndexError, "list index out of range")

  /** What `d[key]` raises for a missing key: `str(KeyError(k))` is `repr(k)`. */
  function MissingKey(key: string): Exception {
    Exception(KeyError, Repr(key))
  }

  /** A key holding an apostrophe and no double quote is reported between
      double quotes. */
  lemma MissingKeyApostrophe()
    ensures MissingKey("it's").message == "\"it's\""
  {
    ReprQuoteChoice("it's");
  }
}
