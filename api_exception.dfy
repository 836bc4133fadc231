/**
 * The client's exception hierarchy. Every exception wraps the HTTP
 * response it was raised for (or, where the client raises one itself, a
 * message string in that slot) and renders itself from that response.
 */
module ApiException {
  import opened Wrappers
  import opened PyStr

  /** The parts of an HTTP response an exception reads. */
  datatype Response = Response(statusCode: int, reason: string, text: string)

  /**
   * The exception classes. `APIHttpException` and `ContentTypeException`
   * are raised in `ornitho/api_requester.py` but not defined in
   * `ornitho/api_exception.py`; they are taken to derive from
   * `APIException` like the others.
   */
  datatype ExceptionClass =
    | APIException
    | APIConnectionException
    | AuthenticationException
    | GatewayTimeoutException
    | APIHttpException
    | ContentTypeException

  /** `__class__.__name__`. */
  function ClassName(c: ExceptionClass): string
  {
    match c
    case APIException => "APIException"
    case APIConnectionException => "APIConnectionException"
    case AuthenticationException => "AuthenticationException"
    case GatewayTimeoutException => "GatewayTimeoutException"
    case APIHttpException => "APIHttpException"
    case ContentTypeException => "ContentTypeException"
  }

  /** The direct base class inside the hierarchy; `APIException` derives from `Exception`. */
  function Base(c: ExceptionClass): Option<ExceptionClass>
  {
    if c == APIException then None else Some(APIException)
  }

  /** `issubclass(c, d)` within the hierarchy. */
  predicate IsSubclass(c: ExceptionClass, d: ExceptionClass)
  {
    c == d || (Base(c).Some? && Base(c).value == d)
  }

  /** Every exception the client raises can be caught as `APIException`. */
  lemma AllAreAPIExceptions(c: ExceptionClass)
    ensures IsSubclass(c, APIException)
    ensures IsSubclass(c, c)
    ensures c != APIException ==> !IsSubclass(APIException, c)
  {
  }

  /** What an exception was constructed with: a response, or a message passed in its place. */
  datatype Payload = FromResponse(response: Response) | FromMessage(message: string)

  datatype ApiError = ApiError(cls: ExceptionClass, payload: Payload)

  /** `__str__`: the reason phrase, or a placeholder when it is empty. */
  function Str(r: Response): (s: string)
    ensures s != ""
    ensures r.reason != "" ==> s == r.reason
    ensures r.reason == "" ==> s == "<empty message>"
  {
    if r.reason != "" then r.reason else "<empty message>"
  }

  /** `__repr__`: class name, status, reason and body. */
  function Repr(c: ExceptionClass, r: Response): string
  {
    ReprNamed(ClassName(c), r)
  }

  function ReprNamed(name: string, r: Response): string
  {
    name + ['('] + ("http_status=" + (IntToStr(r.statusCode) + [','] + ReprRest(r)))
  }

  /** The reason and body fields of the representation. */
  function ReprRest(r: Response): string
  {
    " reason='" + r.reason + "', body='" + r.text + "')"
  }

  /** The class a name belongs to, told apart by its length and first letter. */
  function ClassOfName(n: string): Option<ExceptionClass>
  {
    if |n| == 12 then Some(APIException)
    else if |n| == 22 then Some(APIConnectionException)
    else if |n| == 23 && n[0] == 'A' then Some(AuthenticationException)
    else if |n| == 23 then Some(GatewayTimeoutException)
    else if |n| == 16 then Some(APIHttpException)
    else if |n| == 20 then Some(ContentTypeException)
    else None
  }

  /** No class name contains an opening parenthesis. */
  lemma ClassNameNoParen(c: ExceptionClass)
    ensures '(' !in ClassName(c)
  {
    match c
    case APIException => NoParen("APIException");
    case APIConnectionException => NoParen("APIConnectionException");
    case AuthenticationException => NoParen("AuthenticationException");
    case GatewayTimeoutException => NoParen("GatewayTimeoutException");
    case APIHttpException => NoParen("APIHttpException");
    case ContentTypeException => NoParen("ContentTypeException");
  }

  /** A text none of whose characters is an opening parenthesis does not contain one. */
  lemma NoParen(s: string)
    requires forall i :: 0 <= i < |s| ==> s[i] != '('
    ensures '(' !in s
  {
  }

  /** Distinct classes have distinct names: the name gives the class back. */
  lemma ClassNameInjective(c: ExceptionClass, d: ExceptionClass)
    ensures ClassOfName(ClassName(c)) == Some(c)
    ensures ClassName(c) == ClassName(d) ==> c == d
  {
    assert ClassOfName(ClassName(d)) == Some(d);
  }

  /** The representation determines the exception class and the HTTP status. */
  lemma ReprDeterminesClassAndStatus(c1: ExceptionClass, r1: Response, c2: ExceptionClass, r2: Response)
    requires Repr(c1, r1) == Repr(c2, r2)
    ensures c1 == c2
    ensures r1.statusCode == r2.statusCode
  {
    ClassNameNoParen(c1);
    ClassNameNoParen(c2);
    ClassNameInjective(c1, c2);
    ReprNamedHead(ClassName(c1), r1, ClassName(c2), r2);
  }

  lemma ReprNamedHead(n1: string, r1: Response, n2: string, r2: Response)
    requires '(' !in n1 && '(' !in n2
    requires ReprNamed(n1, r1) == ReprNamed(n2, r2)
    ensures n1 == n2
    ensures r1.statusCode == r2.statusCode
  {
    var d1, d2 := IntToStr(r1.statusCode), IntToStr(r2.statusCode);
    var u1, u2 := d1 + [','] + ReprRest(r1), d2 + [','] + ReprRest(r2);
    SameHead(n1, "http_status=" + u1, n2, "http_status=" + u2, '(');
    assert u1 == ("http_status=" + u1)[12..];
    assert u2 == ("http_status=" + u2)[12..];
    NoCommaInInt(r1.statusCode);
    NoCommaInInt(r2.statusCode);
    SameHead(d1, ReprRest(r1), d2, ReprRest(r2), ',');
    IntToStrInjective(r1.statusCode, r2.statusCode);
  }

  /** Two strings that agree, each cut at its first `c`, agree on what comes before it. */
  lemma SameHead(a: string, x: string, b: string, y: string, c: char)
    requires c !in a && c !in b
    requires a + [c] + x == b + [c] + y
    ensures a == b && x == y
  {
    FindAfterFree(a, c, x);
    FindAfterFree(b, c, y);
    var s := a + [c] + x;
    assert a == s[..|a|];
    assert b == s[..|b|];
    assert x == s[|a| + 1..];
    assert y == s[|b| + 1..];
  }

  lemma NoCommaInInt(n: int)
    ensures ',' !in IntToStr(n)
  {
    var d := IntToStr(n);
    if n < 0 {
      assert d == [d[0]] + d[1..];
    }
  }
}
