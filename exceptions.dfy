/** The exceptions the modelled code raises, and the message texts it formats. */
module Exceptions {
  import opened Wrappers

  /** A raised Python exception, by class. `OtherException` stands for any class the
      services do not raise themselves (its name and an optional `status_code` attribute
      are what the error handlers look at). */
  datatype Exception =
    | HttpException(statusCode: int, detail: string)   // fastapi.HTTPException
    | ValueError(message: string)
    | IntegrityError(message: string)                  // sqlalchemy.exc.IntegrityError
    | AttributeError(message: string)
    | OtherException(typeName: string, statusCodeAttribute: Option<int>, message: string)

  /** `type(exc).__name__` */
  function TypeName(e: Exception): string {
    match e
    case HttpException(_, _) => "HTTPException"
    case ValueError(_) => "ValueError"
    case IntegrityError(_) => "IntegrityError"
    case AttributeError(_) => "AttributeError"
    case OtherException(name, _, _) => name
  }

  /** `getattr(exc, 'status_code', None)`: only HTTP exceptions and foreign classes carry one. */
  function StatusCode(e: Exception): Option<int> {
    match e
    case HttpException(code, _) => Some(code)
    case OtherException(_, code, _) => code
    case _ => None
  }

  /** `str(exc)` for the exceptions that reach a handler without a detail of their own. */
  function Describe(e: Exception): string {
    match e
    case HttpException(_, detail) => detail
    case ValueError(m) => m
    case IntegrityError(m) => m
    case AttributeError(m) => m
    case OtherException(_, _, m) => m
  }

  /** The decimal digits of a natural number, as Python's `str(n)` writes them. */
  function Digits(n: nat): (r: string)
    ensures |r| >= 1
    ensures forall i :: 0 <= i < |r| ==> '0' <= r[i] <= '9'
    decreases n
  {
    var d := ['0' + (n % 10) as char];
    if n < 10 then d else Digits(n / 10) + d
  }

  /** `str(n)` for an integer. */
  function IntText(n: int): string {
    if n < 0 then "-" + Digits(-n) else Digits(n)
  }

  /** `str(x)` for an optional integer: `None` prints as "None". */
  function OptionalIntText(x: Option<int>): string {
    match x
    case Some(n) => IntText(n)
    case None => "None"
  }

  /** What the database reports when an insert repeats a primary or unique key. */
  const DuplicateKeyMessage: string := "duplicate key value violates unique constraint"
}
