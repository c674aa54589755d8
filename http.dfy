/** What the client sees of its HTTP transport: requests as values, axios
    rejections, the error kinds the client raises, and `Promise.all`. */
module Http {

  datatype Option<+T> = None | Some(value: T)

  datatype Result<+T, +E> = Success(value: T) | Failure(error: E)

  /** A rejected axios promise; `status` is `error.response.status`, absent when
      no response arrived. */
  datatype HttpError = HttpError(status: Option<int>)

  /** What a client operation throws: the axios rejection itself when it is not
      caught, a `NotFoundError`, or a plain `Error`. */
  datatype ClientError =
    | Transport(cause: HttpError)
    | NotFoundError(message: string)
    | PlainError(message: string)

  datatype Verb = Get | Post | Put | Patch | Delete

  /** One call through the client's axios instance, which attaches the value of
      its default `Authorization` header (absent until a token is set). */
  datatype Request<+B> = Request(verb: Verb, path: string, authorization: Option<string>, body: B)

  /** `Promise.all` over requests already issued, seen through the order of
      its results: all values in request order, or the first failure. */
  function JoinAll<T, E>(rs: seq<Result<T, E>>): (r: Result<seq<T>, E>)
    ensures r.Success? <==> forall i :: 0 <= i < |rs| ==> rs[i].Success?
    ensures r.Success? ==> |r.value| == |rs| && forall i :: 0 <= i < |rs| ==> r.value[i] == rs[i].value
    ensures r.Failure? ==> exists i :: 0 <= i < |rs| && rs[i] == Failure(r.error)
  {
    if rs == [] then Success([])
    else match rs[0]
      case Failure(e) => Failure(e)
      case Success(v) =>
        match JoinAll(rs[1..])
        case Failure(e) => assert rs[1..][0] == rs[1]; Failure(e)
        case Success(vs) => Success([v] + vs)
  }
}
