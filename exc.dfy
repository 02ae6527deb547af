/** The client's exception classes, their hierarchy, and the status-code classification (typesense_aio/exc.py). */
module Exc {
  import opened Wrappers

  /**
   * The exception classes the client raises or catches. IOError is Python's built-in root of the
   * client's own classes; HttpxRequestError and HttpxConnectTimeout are the transport errors of the
   * HTTP library (the classes between them in that library's hierarchy are not modelled).
   */
  datatype ErrorClass =
    | IOError
    | TypesenseClientError
    | Timeout
    | RequestMalformed
    | RequestUnauthorized
    | RequestForbidden
    | ObjectNotFound
    | ObjectAlreadyExists
    | ObjectUnprocessable
    | ServerError
    | ServiceUnavailable
    | HTTPStatus0Error
    | InvalidParameter
    | HttpxRequestError
    | HttpxConnectTimeout

  /** How far a class is from the root of its hierarchy. */
  function Depth(c: ErrorClass): nat {
    match c
    case IOError | HttpxRequestError => 0
    case TypesenseClientError | HttpxConnectTimeout => 1
    case _ => 2
  }

  /** The base class each class is declared with. */
  function Parent(c: ErrorClass): (p: Option<ErrorClass>)
    ensures p.Some? ==> Depth(p.value) < Depth(c)
  {
    match c
    case IOError | HttpxRequestError => None
    case TypesenseClientError => Some(IOError)
    case HttpxConnectTimeout => Some(HttpxRequestError)
    case _ => Some(TypesenseClientError)
  }

  /** Python's `issubclass(c, base)`. */
  predicate IsSubclass(c: ErrorClass, base: ErrorClass)
    decreases Depth(c)
  {
    c == base || (Parent(c).Some? && IsSubclass(Parent(c).value, base))
  }

  /** The classes declared in exc.py itself. */
  predicate IsClientClass(c: ErrorClass) {
    c != IOError && c != HttpxRequestError && c != HttpxConnectTimeout
  }

  /** Every class of exc.py is a TypesenseClientError, and hence an IOError. */
  lemma ClientClassesAreIOErrors(c: ErrorClass)
    ensures IsSubclass(c, TypesenseClientError) <==> IsClientClass(c)
    ensures IsClientClass(c) ==> IsSubclass(c, IOError)
  {
  }

  /** The tuple `service_exceptions`: the kinds that blame the node rather than the request. */
  const ServiceExceptions: seq<ErrorClass> :=
    [HttpxRequestError, HttpxConnectTimeout, HTTPStatus0Error, ServerError, ServiceUnavailable]

  /** `error in service_exceptions`: membership of the class itself in the tuple. */
  predicate IsServiceException(c: ErrorClass) {
    c in ServiceExceptions
  }

  /** `except service_exceptions`: an exception of class `c` is caught when `c` subclasses one of them. */
  predicate CaughtAsService(c: ErrorClass) {
    exists s :: s in ServiceExceptions && IsSubclass(c, s)
  }

  /** The dict `exceptions_mapping`. */
  const ExceptionsMapping: map<int, ErrorClass> := map[
    0 := HTTPStatus0Error,
    400 := RequestMalformed,
    401 := RequestUnauthorized,
    403 := RequestForbidden,
    404 := ObjectNotFound,
    409 := ObjectAlreadyExists,
    422 := ObjectUnprocessable,
    500 := ServerError,
    503 := ServiceUnavailable
  ]

  /**
   * `resolve_exception`: total over status codes; the catch-all is TypesenseClientError; only
   * 0, 500 and 503 give a service kind; Timeout and InvalidParameter are never produced.
   */
  function ResolveException(status: int): (c: ErrorClass)
    ensures IsSubclass(c, TypesenseClientError) && IsSubclass(c, IOError)
    ensures c != Timeout && c != InvalidParameter
    ensures IsServiceException(c) <==> status == 0 || status == 500 || status == 503
    ensures c == TypesenseClientError <==> status !in ExceptionsMapping
  {
    if status in ExceptionsMapping then ExceptionsMapping[status] else TypesenseClientError
  }

  /** The status code a status-mapped class stands for: the inverse of the mapping. */
  function StatusCodeOf(c: ErrorClass): Option<int> {
    match c
    case HTTPStatus0Error => Some(0)
    case RequestMalformed => Some(400)
    case RequestUnauthorized => Some(401)
    case RequestForbidden => Some(403)
    case ObjectNotFound => Some(404)
    case ObjectAlreadyExists => Some(409)
    case ObjectUnprocessable => Some(422)
    case ServerError => Some(500)
    case ServiceUnavailable => Some(503)
    case _ => None
  }

  /** The mapping and StatusCodeOf are inverse: each mapped class comes from exactly one status. */
  lemma ResolveInverse(status: int, c: ErrorClass)
    ensures ResolveException(status) == c && c != TypesenseClientError <==> StatusCodeOf(c) == Some(status)
  {
    if StatusCodeOf(c) == Some(status) {
      assert status in ExceptionsMapping;
    }
  }

  /** A class lies at least as deep as each of its bases. */
  lemma {:induction false} SubclassDepth(c: ErrorClass, base: ErrorClass)
    requires IsSubclass(c, base)
    ensures Depth(base) <= Depth(c)
    ensures Depth(base) == Depth(c) ==> c == base
    decreases Depth(c)
  {
    if c != base {
      SubclassDepth(Parent(c).value, base);
    }
  }

  /** No class of exc.py derives from the transport errors. */
  lemma ClientNotTransport(c: ErrorClass)
    requires IsClientClass(c)
    ensures !IsSubclass(c, HttpxRequestError) && !IsSubclass(c, HttpxConnectTimeout)
  {
    ClientClassesAreIOErrors(c);
    if IsSubclass(c, HttpxRequestError) {
      SubclassRoot(c, HttpxRequestError, IOError);
    }
    if IsSubclass(c, HttpxConnectTimeout) {
      SubclassRoot(c, HttpxConnectTimeout, IOError);
    }
  }

  /** A class of exc.py is caught by a service class only when it is that class. */
  lemma CaughtOnlyBySelf(c: ErrorClass, s: ErrorClass)
    requires IsClientClass(c) && s in ServiceExceptions && IsSubclass(c, s)
    ensures c == s
  {
    ClientNotTransport(c);
    SubclassDepth(c, s);
  }

  /** For a class of exc.py, tuple membership and `isinstance` against the service classes agree. */
  lemma ServiceClassTests(c: ErrorClass)
    requires IsClientClass(c)
    ensures IsServiceException(c) <==> CaughtAsService(c)
  {
    if IsServiceException(c) {
      assert IsSubclass(c, c);
    }
    if CaughtAsService(c) {
      var s :| s in ServiceExceptions && IsSubclass(c, s);
      CaughtOnlyBySelf(c, s);
    }
  }

  /** For every class `resolve_exception` yields, tuple membership and `isinstance` agree. */
  lemma ServiceTestsAgree(status: int)
    ensures IsServiceException(ResolveException(status)) <==> CaughtAsService(ResolveException(status))
  {
    ClientClassesAreIOErrors(ResolveException(status));
    ServiceClassTests(ResolveException(status));
  }

  /** A class has one root: it cannot subclass two classes of depth 0, nor one below another root. */
  lemma {:induction false} SubclassRoot(c: ErrorClass, a: ErrorClass, b: ErrorClass)
    requires IsSubclass(c, a) && IsSubclass(c, b) && Depth(b) == 0
    ensures IsSubclass(a, b)
    decreases Depth(c)
  {
    if c != a {
      if c == b {
        SubclassDepth(c, a);
      } else {
        SubclassRoot(Parent(c).value, a, b);
      }
    }
  }

  /** Transport errors are service kinds but not TypesenseClientErrors. */
  lemma TransportErrorsAreService()
    ensures CaughtAsService(HttpxRequestError) && CaughtAsService(HttpxConnectTimeout)
    ensures !IsSubclass(HttpxRequestError, IOError) && !IsSubclass(HttpxConnectTimeout, TypesenseClientError)
  {
    assert IsSubclass(HttpxConnectTimeout, HttpxRequestError);
  }
}
