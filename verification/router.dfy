/**
 * The handlers registered on /mcp, with the bearer-token middleware in
 * front of all of them. What the protocol transport does with an accepted
 * POST is not modelled: only whether that processing completed or threw.
 */
module Router {
  import opened Protocol
  import AuthGate

  /**
   * The request's HTTP method. `OtherMethod` stands for a method with no
   * handler on /mcp; its name is never POST, GET or DELETE, and HEAD, which
   * the framework answers with the GET handler, is not modelled.
   */
  datatype HttpMethod = Post | Get | Delete | OtherMethod(name: string)

  datatype Request = Request(verb: HttpMethod, authorization: Option<string>)

  datatype Response =
    /** `c.json(body, status)` */
    | JsonError(status: int, body: ErrorResponse)
    /** The response the protocol transport wrote for an accepted POST. */
    | TransportResponse
    /** No handler on /mcp for this method: the framework's default answer. */
    | NotRouted

  const MethodNotAllowedMessage: string := "Method not allowed."
  const InternalErrorMessage: string := "Internal server error"

  /** The HTTP status paired with each protocol error code this server uses. */
  predicate StatusMatchesCode(status: int, code: int) {
    || (status == 401 && code == UnauthorizedCode)
    || (status == 405 && code == MethodNotAllowedCode)
    || (status == 500 && code == InternalErrorCode)
  }

  /**
   * One request on /mcp. `processingFailed` says whether connecting the
   * fresh server to its transport, reading the JSON body or handling the
   * message threw.
   */
  function Handle(request: Request, secret: Option<string>, processingFailed: bool): (r: Response)
    // the gate answers first, for every method
    ensures AuthGate.Check(request.authorization, secret).Reject? ==>
              r == JsonError(401, AuthGate.Check(request.authorization, secret).body)
    // only an admitted POST whose processing did not throw reaches the transport's answer
    ensures r.TransportResponse? <==>
              request.verb == Post && AuthGate.Check(request.authorization, secret).Proceed? && !processingFailed
    ensures AuthGate.Check(request.authorization, secret).Proceed? && request.verb == Post && processingFailed ==>
              r == JsonError(500, ServerError(InternalErrorCode, InternalErrorMessage))
    ensures AuthGate.Check(request.authorization, secret).Proceed? && request.verb in {Get, Delete} ==>
              r == JsonError(405, ServerError(MethodNotAllowedCode, MethodNotAllowedMessage))
    // any other method passes the gate and then finds no handler
    ensures AuthGate.Check(request.authorization, secret).Proceed? && request.verb.OtherMethod? ==> r == NotRouted
    ensures r.JsonError? ==> WellFormedError(r.body) && StatusMatchesCode(r.status, r.body.error.code)
  {
    match AuthGate.Check(request.authorization, secret)
    case Reject(body) => JsonError(401, body)
    case Proceed =>
      match request.verb
      case Post =>
        if processingFailed then JsonError(500, ServerError(InternalErrorCode, InternalErrorMessage))
        else TransportResponse
      case Get => JsonError(405, ServerError(MethodNotAllowedCode, MethodNotAllowedMessage))
      case Delete => JsonError(405, ServerError(MethodNotAllowedCode, MethodNotAllowedMessage))
      case OtherMethod(_) => NotRouted
  }

  /**
   * The server does protocol work only for a POST that the reference
   * definition of authorisation admits and whose processing completes.
   */
  lemma ProcessedExactlyWhenAuthorizedPost(request: Request, secret: Option<string>, processingFailed: bool)
    ensures Handle(request, secret, processingFailed).TransportResponse? <==>
              request.verb == Post && AuthGate.Authorized(request.authorization, secret) && !processingFailed
  {
    AuthGate.CheckAdmitsExactlyAuthorized(request.authorization, secret);
  }

  /**
   * GET and DELETE never reach a server or transport: the answer is 401
   * from the gate or 405, whatever the body, the header or the secret.
   */
  lemma GetAndDeleteNeverProcessed(request: Request, secret: Option<string>, processingFailed: bool)
    requires request.verb in {Get, Delete}
    ensures var r := Handle(request, secret, processingFailed);
            r.JsonError? && (r.status == 401 || r == JsonError(405, ServerError(MethodNotAllowedCode, MethodNotAllowedMessage)))
    ensures Handle(request, secret, processingFailed) == Handle(request, secret, !processingFailed)
  {
  }

  /**
   * With no secret configured, a request with no Authorization header is
   * still refused: the header test comes before the secret is consulted.
   */
  lemma MissingHeaderRefusedEvenWithoutSecret(verb: HttpMethod, secret: Option<string>, processingFailed: bool)
    ensures Handle(Request(verb, None), secret, processingFailed) ==
              JsonError(401, ServerError(UnauthorizedCode, AuthGate.TokenRequiredMessage))
  {
  }
}
