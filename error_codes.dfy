/** The seven result codes shared by the whole application. In the source
    they are the integers 0..6, in this order; SUCCESS is 0 and is therefore
    the only code a Python truth test treats as false. */
module ErrorCodes {

  import opened Wrappers

  datatype ErrorCode =
    | Success
    | DirError
    | FileError
    | DbReadError
    | DbWriteError
    | JsonError
    | IdError

  /** The integer the source binds to each code. */
  function Code(e: ErrorCode): (n: nat)
    ensures n < 7
    ensures n == 0 <==> e == Success
  {
    match e
    case Success => 0
    case DirError => 1
    case FileError => 2
    case DbReadError => 3
    case DbWriteError => 4
    case JsonError => 5
    case IdError => 6
  }

  /** The code bound to an integer, if the integer is one of the seven. The
      application never converts this way; this inverse exists only to state
      that the binding is one-to-one (CodeRoundTrip). */
  function FromCode(n: int): (r: Option<ErrorCode>)
    ensures r.Some? <==> 0 <= n < 7
  {
    if n == 0 then Some(Success)
    else if n == 1 then Some(DirError)
    else if n == 2 then Some(FileError)
    else if n == 3 then Some(DbReadError)
    else if n == 4 then Some(DbWriteError)
    else if n == 5 then Some(JsonError)
    else if n == 6 then Some(IdError)
    else None
  }

  /** The codes are distinct integers: the binding goes both ways. */
  lemma CodeRoundTrip(e: ErrorCode, n: int)
    ensures FromCode(Code(e)) == Some(e)
    ensures 0 <= n < 7 ==> Code(FromCode(n).value) == n
  {
  }

  /** Distinct codes are distinct integers, so callers can tell every failure apart. */
  lemma CodeInjective(e1: ErrorCode, e2: ErrorCode)
    requires Code(e1) == Code(e2)
    ensures e1 == e2
  {
  }

  /** Python truth value of a code: every failure is truthy. */
  predicate IsFailure(e: ErrorCode): (failed: bool)
    ensures failed <==> e != Success
  {
    Code(e) != 0
  }
}
