/** The chain of responsibility that turns an exception into an error response
    (teams/src/services/error_handlers.py). Each handler either accepts the exception and
    answers, or passes it to the next handler. */
module ErrorHandlers {
  import opened Wrappers
  import opened Exceptions

  /** The four concrete handlers. */
  datatype HandlerKind = HttpHandler | ValidationHandler | DatabaseHandler | GenericHandler

  /** A JSON body `{"error": error}`, with `"details": ...` when present. */
  datatype ErrorBody = ErrorBody(error: string, details: Option<string>)

  datatype JsonResponse = JsonResponse(statusCode: int, content: ErrorBody)

  const ValidationMessage: string := "Validation error"
  const DatabaseMessage: string := "Database error"
  const InternalMessage: string := "Internal server error"
  const UnexpectedMessage: string := "Unexpected error occurred"

  /** The exception class names the database handler recognises. */
  const DatabaseErrorNames: seq<string> := ["IntegrityError", "OperationalError", "ProgrammingError"]

  /** `needle in hay` for strings: `needle` occurs at some position of `hay`. */
  predicate Contains(hay: string, needle: string)
    decreases |hay|
  {
    |needle| <= |hay| && (hay[..|needle|] == needle || Contains(hay[1..], needle))
  }

  predicate IsDatabaseError(exc: Exception) {
    exists j :: 0 <= j < |DatabaseErrorNames| && Contains(TypeName(exc), DatabaseErrorNames[j])
  }

  /** Each handler's `can_handle`. */
  predicate CanHandle(kind: HandlerKind, exc: Exception) {
    match kind
    case HttpHandler => exc.HttpException?
    case ValidationHandler => StatusCode(exc) == Some(422)
    case DatabaseHandler => IsDatabaseError(exc)
    case GenericHandler => true
  }

  /** Each handler's `process`. */
  function Process(kind: HandlerKind, exc: Exception): JsonResponse {
    match kind
    case HttpHandler =>
      if exc.HttpException? then JsonResponse(exc.statusCode, ErrorBody(exc.detail, None))
      else JsonResponse(500, ErrorBody(Describe(exc), None))
    case ValidationHandler => JsonResponse(422, ErrorBody(ValidationMessage, Some(Describe(exc))))
    case DatabaseHandler => JsonResponse(500, ErrorBody(DatabaseMessage, None))
    case GenericHandler => JsonResponse(500, ErrorBody(InternalMessage, None))
  }

  /** The answer of a chain of handlers of the given kinds, front to back: the first that
      accepts the exception answers; `None` when none does. */
  function Dispatch(kinds: seq<HandlerKind>, exc: Exception): (r: Option<JsonResponse>)
    ensures r.None? <==> forall i :: 0 <= i < |kinds| ==> !CanHandle(kinds[i], exc)
    ensures r.Some? ==> exists i :: 0 <= i < |kinds| && CanHandle(kinds[i], exc) &&
                          (forall j :: 0 <= j < i ==> !CanHandle(kinds[j], exc)) &&
                          r.value == Process(kinds[i], exc)
  {
    if kinds == [] then None
    else if CanHandle(kinds[0], exc) then Some(Process(kinds[0], exc))
    else
      var r := Dispatch(kinds[1..], exc);
      assert forall i :: 1 <= i < |kinds| ==> kinds[i] == kinds[1..][i - 1];
      if r.Some? then
        var i :| 0 <= i < |kinds[1..]| && CanHandle(kinds[1..][i], exc) &&
                 (forall j :: 0 <= j < i ==> !CanHandle(kinds[1..][j], exc)) &&
                 r.value == Process(kinds[1..][i], exc);
        assert CanHandle(kinds[i + 1], exc) && forall j :: 0 <= j < i + 1 ==> !CanHandle(kinds[j], exc);
        r
      else r
  }

  /** A chain that ends in the generic handler answers every exception. */
  lemma {:induction false} GenericLastIsTotal(kinds: seq<HandlerKind>, exc: Exception)
    requires kinds != [] && kinds[|kinds| - 1] == GenericHandler
    ensures Dispatch(kinds, exc).Some?
  {
    assert CanHandle(kinds[|kinds| - 1], exc);
  }

  class ErrorHandler {
    const kind: HandlerKind
    var next: ErrorHandler?
    /** The kinds of this handler and of every handler after it, in chain order. */
    ghost var Kinds: seq<HandlerKind>
    ghost var Repr: set<object>

    ghost predicate Valid()
      reads this, Repr
      decreases Repr
    {
      && this in Repr
      && (next == null ==> Kinds == [kind])
      && (next != null ==>
            && next in Repr && next.Repr <= Repr && this !in next.Repr
            && Kinds == [kind] + next.Kinds
            && next.Valid())
    }

    constructor (kind: HandlerKind)
      ensures Valid() && this.kind == kind && next == null
      ensures Kinds == [kind] && Repr == {this}
    {
      this.kind := kind;
      next := null;
      Kinds := [kind];
      Repr := {this};
    }

    /** Links `handler` after this one and returns it, so that links can be chained. */
    method SetNext(handler: ErrorHandler) returns (r: ErrorHandler)
      requires handler.Valid() && this !in handler.Repr
      modifies this
      ensures r == handler && next == handler
      ensures Valid() && Kinds == [kind] + handler.Kinds && Repr == {this} + handler.Repr
    {
      next := handler;
      Kinds := [kind] + handler.Kinds;
      Repr := {this} + handler.Repr;
      r := handler;
    }

    /** Re-derives this handler's view of the chain after a handler further on was linked. */
    ghost method Refresh()
      requires next != null && next.Valid() && this !in next.Repr
      modifies this
      ensures next == old(next) && Valid()
      ensures Kinds == [kind] + next.Kinds && Repr == {this} + next.Repr
    {
      Kinds := [kind] + next.Kinds;
      Repr := {this} + next.Repr;
    }

    /** `handle`: this handler answers if it accepts the exception, else it passes it on;
        the answer is the one of the first handler along the chain that accepts it. */
    function Handle(exc: Exception): (r: Option<JsonResponse>)
      reads this, Repr
      requires Valid()
      decreases Repr
      ensures r == Dispatch(Kinds, exc)
    {
      if CanHandle(kind, exc) then Some(Process(kind, exc))
      else if next != null then
        assert Kinds[1..] == next.Kinds;
        next.Handle(exc)
      else None
    }
  }

  /** The order `ErrorHandlerChain` links its handlers in. */
  const StandardKinds: seq<HandlerKind> := [HttpHandler, ValidationHandler, DatabaseHandler, GenericHandler]

  /** The classification the standard chain performs, written as one decision: an HTTP
      exception keeps its own status (even 422), any other exception with status 422 is a
      validation error, a database error class is a 500 "Database error", and everything
      else is a 500 "Internal server error". */
  function Classify(exc: Exception): (r: JsonResponse)
    ensures exc.HttpException? ==> r.statusCode == exc.statusCode && r.content == ErrorBody(exc.detail, None)
    ensures r.content.error != UnexpectedMessage || (exc.HttpException? && exc.detail == UnexpectedMessage)
    ensures !exc.HttpException? ==> r.statusCode == 422 || r.statusCode == 500
    ensures r.statusCode == 422 && !exc.HttpException? ==> r.content.details == Some(Describe(exc))
  {
    if exc.HttpException? then JsonResponse(exc.statusCode, ErrorBody(exc.detail, None))
    else if StatusCode(exc) == Some(422) then JsonResponse(422, ErrorBody(ValidationMessage, Some(Describe(exc))))
    else if IsDatabaseError(exc) then JsonResponse(500, ErrorBody(DatabaseMessage, None))
    else JsonResponse(500, ErrorBody(InternalMessage, None))
  }

  /** The standard chain answers exactly as the one-decision classification. */
  lemma StandardChainClassifies(exc: Exception)
    ensures Dispatch(StandardKinds, exc) == Some(Classify(exc))
  {
    var rest := [ValidationHandler, DatabaseHandler, GenericHandler];
    assert StandardKinds[1..] == rest && rest[1..] == [DatabaseHandler, GenericHandler];
    assert rest[1..][1..] == [GenericHandler];
    if !exc.HttpException? {
      assert Dispatch(StandardKinds, exc) == Dispatch(rest, exc);
      if StatusCode(exc) != Some(422) {
        assert Dispatch(rest, exc) == Dispatch(rest[1..], exc);
        if !IsDatabaseError(exc) {
          assert Dispatch(rest[1..], exc) == Dispatch(rest[1..][1..], exc);
        }
      }
    }
  }

  /** `a.set_next(b).set_next(c).set_next(d)` on four unlinked handlers: the chain from `a`
      is the four of them, in that order. */
  method LinkForward(a: ErrorHandler, b: ErrorHandler, c: ErrorHandler, d: ErrorHandler)
    requires a.Valid() && b.Valid() && c.Valid() && d.Valid()
    requires a.Repr == {a} && b.Repr == {b} && c.Repr == {c} && d.Repr == {d}
    requires a != b && a != c && a != d && b != c && b != d && c != d
    modifies a, b, c
    ensures a.Valid() && a.Repr == {a, b, c, d} && a.Kinds == [a.kind, b.kind, c.kind, d.kind]
  {
    var second := a.SetNext(b);
    var third := second.SetNext(c);
    var fourth := third.SetNext(d);
    b.Refresh();
    a.Refresh();
  }

  class ErrorHandlerChain {
    const chain: ErrorHandler

    ghost predicate Valid()
      reads chain, chain.Repr
    {
      chain.Valid() && chain.Kinds == StandardKinds
    }

    /** Links HTTP -> validation -> database -> generic, front to back. */
    constructor ()
      ensures Valid() && fresh(chain.Repr)
    {
      var http := new ErrorHandler(HttpHandler);
      var validation := new ErrorHandler(ValidationHandler);
      var database := new ErrorHandler(DatabaseHandler);
      var generic := new ErrorHandler(GenericHandler);
      LinkForward(http, validation, database, generic);
      chain := http;
    }

    /** `handle`: the chain's answer, or a 500 "Unexpected error occurred" when no handler
        accepts the exception, which the final generic handler rules out. */
    method Handle(exc: Exception) returns (r: JsonResponse)
      requires Valid()
      ensures r == Classify(exc)
      ensures r.content.error != UnexpectedMessage || exc.HttpException?
    {
      var result := chain.Handle(exc);
      StandardChainClassifies(exc);
      if result.Some? {
        r := result.value;
      } else {
        r := JsonResponse(500, ErrorBody(UnexpectedMessage, None));
      }
    }
  }
}
