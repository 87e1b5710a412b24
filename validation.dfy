/** The field errors pydantic reports for the constraints the request schemas declare
    (`min_length`, `max_length`, `ge`, `le`, a required field left out). */
module Validation {
  import opened Wrappers

  datatype ErrorKind = StringTooShort | StringTooLong | GreaterThanEqual | LessThanEqual | Missing

  /** An error on a field of a schema; `F` enumerates that schema's fields. */
  datatype FieldError<F> = FieldError(field: F, kind: ErrorKind)

  /** Whether `errors` holds an error on `field`. */
  predicate Reports<F(==)>(errors: seq<FieldError<F>>, field: F) {
    exists i :: 0 <= i < |errors| && errors[i].field == field
  }

  lemma ReportsAppend<F>(a: seq<FieldError<F>>, b: seq<FieldError<F>>, field: F)
    ensures Reports(a + b, field) <==> Reports(a, field) || Reports(b, field)
  {
    if Reports(a + b, field) {
      var i :| 0 <= i < |a + b| && (a + b)[i].field == field;
      if i >= |a| {
        assert b[i - |a|].field == field;
      }
    }
    if Reports(a, field) {
      var i :| 0 <= i < |a| && a[i].field == field;
      assert (a + b)[i].field == field;
    }
    if Reports(b, field) {
      var i :| 0 <= i < |b| && b[i].field == field;
      assert (a + b)[|a| + i].field == field;
    }
  }

  /** An error list whose entries are all on `field` reports exactly that field, if any. */
  lemma ReportsOne<F>(r: seq<FieldError<F>>, field: F, other: F)
    requires forall i :: 0 <= i < |r| ==> r[i].field == field
    ensures Reports(r, other) <==> r != [] && other == field
  {
    if r != [] && other == field {
      assert r[0].field == other;
    }
  }

  /** The errors of five single-field validators, one after the other, report exactly the
      fields whose validator failed. */
  lemma ReportsFive<F>(a: seq<FieldError<F>>, b: seq<FieldError<F>>, c: seq<FieldError<F>>,
                           d: seq<FieldError<F>>, e: seq<FieldError<F>>,
                           fa: F, fb: F, fc: F, fd: F, fe: F, f: F)
    requires forall i :: 0 <= i < |a| ==> a[i].field == fa
    requires forall i :: 0 <= i < |b| ==> b[i].field == fb
    requires forall i :: 0 <= i < |c| ==> c[i].field == fc
    requires forall i :: 0 <= i < |d| ==> d[i].field == fd
    requires forall i :: 0 <= i < |e| ==> e[i].field == fe
    ensures Reports(a + b + c + d + e, f) <==>
              (a != [] && f == fa) || (b != [] && f == fb) || (c != [] && f == fc) ||
              (d != [] && f == fd) || (e != [] && f == fe)
  {
    ReportsAppend(a, b, f);
    ReportsAppend(a + b, c, f);
    ReportsAppend(a + b + c, d, f);
    ReportsAppend(a + b + c + d, e, f);
    ReportsOne(a, fa, f);
    ReportsOne(b, fb, f);
    ReportsOne(c, fc, f);
    ReportsOne(d, fd, f);
    ReportsOne(e, fe, f);
  }

  predicate LengthOk(s: string, min: nat, max: nat) {
    min <= |s| <= max
  }

  /** `Field(min_length=min, max_length=max)` on a string. */
  function LengthErrors<F>(field: F, s: string, min: nat, max: nat): (r: seq<FieldError<F>>)
    ensures |r| <= 1
    ensures r == [] <==> LengthOk(s, min, max)
    ensures forall i :: 0 <= i < |r| ==> r[i].field == field
    ensures r != [] ==> r[0].kind == (if |s| < min then StringTooShort else StringTooLong)
  {
    if |s| < min then [FieldError(field, StringTooShort)]
    else if |s| > max then [FieldError(field, StringTooLong)]
    else []
  }

  /** The same constraint on an optional string: `None` always passes. */
  function OptionalLengthErrors<F>(field: F, s: Option<string>, min: nat, max: nat): (r: seq<FieldError<F>>)
    ensures |r| <= 1
    ensures r == [] <==> (s.Some? ==> LengthOk(s.value, min, max))
    ensures forall i :: 0 <= i < |r| ==> r[i].field == field
  {
    match s
    case None => []
    case Some(v) => LengthErrors(field, v, min, max)
  }

  /** `Field(ge=low, le=high)` on an integer. */
  function RangeErrors<F>(field: F, n: int, low: int, high: int): (r: seq<FieldError<F>>)
    ensures |r| <= 1
    ensures r == [] <==> low <= n <= high
    ensures forall i :: 0 <= i < |r| ==> r[i].field == field
    ensures r != [] ==> r[0].kind == (if n < low then GreaterThanEqual else LessThanEqual)
  {
    if n < low then [FieldError(field, GreaterThanEqual)]
    else if n > high then [FieldError(field, LessThanEqual)]
    else []
  }

  /** A required field with no value. */
  function RequiredErrors<F, T>(field: F, x: Option<T>): (r: seq<FieldError<F>>)
    ensures |r| <= 1
    ensures r == [] <==> x.Some?
    ensures forall i :: 0 <= i < |r| ==> r[i].field == field && r[i].kind == Missing
  {
    if x.None? then [FieldError(field, Missing)] else []
  }
}
