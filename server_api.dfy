/**
 * The request plumbing of the server's API: the response constructors, the
 * token guard of websocket connections, and the flow of a request through
 * token verification, context and transaction creation, the handler, commit
 * or rollback, and the response. Token verification, context creation, the
 * handler and the commit are collaborators whose outcomes are parameters;
 * what the exchange does is recorded as a sequence of effects.
 */
module ServerApi {
  import opened Wrappers

  const StatusOK: int := 200
  const StatusBadRequest: int := 400
  const StatusUnauthorized: int := 401
  const StatusInternalServerError: int := 500

  const InvalidTokenMessage: string := "No valid authentication token found"
  const NoContextMessage: string := "Unable to create context"
  const MissingTokenMessage: string := "could not establish websocket connection: query parameter 'token' not set"

  /** The `data` of a response: an error value or a value to encode as JSON. */
  datatype Data = ErrorValue(message: string) | Payload(json: string)

  datatype ApiResponse = ApiResponse(statusCode: int, data: Option<Data>)

  function BadRequestError(err: string): (r: ApiResponse)
    ensures r.statusCode == StatusBadRequest && r.data == Some(ErrorValue(err))
  {
    ApiResponse(StatusBadRequest, Some(ErrorValue(err)))
  }

  function InternalServerError(err: string): (r: ApiResponse)
    ensures r.statusCode == StatusInternalServerError && r.data == Some(ErrorValue(err))
  {
    ApiResponse(StatusInternalServerError, Some(ErrorValue(err)))
  }

  function JsonResponse(data: Data): (r: ApiResponse)
    ensures r.statusCode == StatusOK && r.data == Some(data)
  {
    ApiResponse(StatusOK, Some(data))
  }

  function EmptyResponse(): (r: ApiResponse)
    ensures r.statusCode == StatusOK && r.data.None?
  {
    ApiResponse(StatusOK, None)
  }

  /** Only the error constructors give a status other than 200, and both carry their error. */
  lemma ResponseStatusCodes(err: string, data: Data)
    ensures BadRequestError(err).statusCode != StatusOK && InternalServerError(err).statusCode != StatusOK
    ensures JsonResponse(data).statusCode == EmptyResponse().statusCode == StatusOK
    ensures BadRequestError(err).data == InternalServerError(err).data == Some(ErrorValue(err))
  {
  }

  /** What a handler does: return a response, or panic with a message. */
  datatype HandlerOutcome = Returned(response: ApiResponse) | Panicked(message: string)

  /** What the exchange does, in order. */
  datatype Effect =
    | RespondUnauthorized(message: string)
    | RespondInternalError(message: string)
    | VerifyToken(token: string)
    | OpenTransaction
    | CallHandler
    | Commit
    | Rollback
    | WriteBody(data: Data)

  datatype TxState = NoTransaction | Open | Committed | RolledBack

  /** The websocket token query parameter counts as missing when empty, `"null"` or `"\u009e"`. */
  predicate TokenMissing(t: string) {
    t == "" || t == "null" || t == "\U{009E}"
  }

  /**
   * The message a non-200 response panics with: its error, or the failure
   * of the type assertion `response.data.(error)` when the data is no error.
   * The text of that runtime failure is a placeholder: Go's own message
   * names the dynamic type of the data, which this model does not track.
   */
  function PanicMessage(response: ApiResponse): string
  {
    if response.data.Some? && response.data.value.ErrorValue? then response.data.value.message
    else "interface conversion: data is not error"
  }

  /** The body is written only for 200 responses that carry data. */
  function BodyOf(response: ApiResponse): (w: seq<Effect>)
    ensures w != [] <==> response.data.Some?
    ensures w != [] ==> w == [WriteBody(response.data.value)]
  {
    if response.data.Some? then [WriteBody(response.data.value)] else []
  }

  /** The handler returned a 200 response. */
  predicate Succeeded(outcome: HandlerOutcome) {
    outcome.Returned? && outcome.response.statusCode == StatusOK
  }

  /** The message of the panic that a handler outcome leads to, if any. */
  function PanicOf(outcome: HandlerOutcome): (m: Option<string>)
    ensures m.None? <==> Succeeded(outcome)
  {
    match outcome
    case Panicked(message) => Some(message)
    case Returned(response) => if response.statusCode != StatusOK then Some(PanicMessage(response)) else None
  }

  /**
   * What `handleRequest` does: an internal error response exactly when the
   * handler panics or does not return 200; a body only for a 200 response
   * with data.
   */
  function RequestEffects(outcome: HandlerOutcome): (e: seq<Effect>)
    ensures |e| >= 1 && e[0] == CallHandler
    ensures (exists m :: RespondInternalError(m) in e) <==> !Succeeded(outcome)
    ensures (exists d :: WriteBody(d) in e) <==> Succeeded(outcome) && outcome.response.data.Some?
    ensures Commit !in e && Rollback !in e
  {
    match PanicOf(outcome)
    case Some(message) =>
      var e := [CallHandler, RespondInternalError(message)];
      assert RespondInternalError(message) in e;
      e
    case None =>
      var e := [CallHandler] + BodyOf(outcome.response);
      assert outcome.response.data.Some? ==> WriteBody(outcome.response.data.value) in e;
      e
  }

  /**
   * What `handleAuthenticatedRequest` does. An invalid token gives only an
   * unauthorized response; a failed context creation only an internal
   * error. Otherwise the handler runs in a transaction, which is committed
   * exactly when the handler returns 200 and the commit succeeds, and
   * rolled back after an internal error response otherwise (a 400 as much
   * as a panic). A body is written only after the commit.
   */
  function AuthenticatedEffects(tokenValid: bool, contextError: Option<string>, outcome: HandlerOutcome,
                                commitError: Option<string>): (e: seq<Effect>)
    ensures !tokenValid ==> e == [RespondUnauthorized(InvalidTokenMessage)]
    ensures tokenValid && contextError.Some? ==> e == [RespondInternalError(NoContextMessage)]
    ensures CallHandler in e <==> tokenValid && contextError.None?
    ensures Commit in e <==> tokenValid && contextError.None? && Succeeded(outcome) && commitError.None?
    ensures Rollback in e <==> tokenValid && contextError.None? && !(Succeeded(outcome) && commitError.None?)
    ensures Rollback in e ==> |e| >= 2 && e[|e| - 1] == Rollback && e[|e| - 2].RespondInternalError?
    ensures forall j :: 0 <= j < |e| && e[j].WriteBody? ==> exists i :: 0 <= i < j && e[i] == Commit
  {
    if !tokenValid then [RespondUnauthorized(InvalidTokenMessage)]
    else if contextError.Some? then [RespondInternalError(NoContextMessage)]
    else match PanicOf(outcome)
      case Some(message) => [OpenTransaction, CallHandler, RespondInternalError(message), Rollback]
      case None =>
        if commitError.Some? then [OpenTransaction, CallHandler, RespondInternalError(commitError.value), Rollback]
        else
          var e := [OpenTransaction, CallHandler, Commit] + BodyOf(outcome.response);
          assert e[2] == Commit;
          e
  }

  class Exchange {
    var tx: TxState
    var effects: seq<Effect>

    constructor ()
      ensures tx == NoTransaction && effects == []
    {
      tx := NoTransaction;
      effects := [];
    }

    /**
     * `handleRequest`: the handler runs without a transaction; a panic or a
     * non-200 response is recovered into an internal error response.
     */
    method HandleRequest(outcome: HandlerOutcome)
      modifies this`effects
      ensures effects == old(effects) + RequestEffects(outcome)
    {
      effects := effects + [CallHandler];
      var panicked: Option<string> := None;
      match outcome {
        case Panicked(message) => panicked := Some(message);
        case Returned(response) =>
          if response.statusCode != StatusOK {
            panicked := Some(PanicMessage(response));
          } else if response.data.Some? {
            effects := effects + [WriteBody(response.data.value)];
          }
      }
      if panicked.Some? {
        effects := effects + [RespondInternalError(panicked.value)];
      }
    }

    /**
     * `handleAuthenticatedRequest`, with the deferred recovery: the
     * transaction ends committed only on the success path and rolled back
     * on every path that reaches the handler and fails.
     */
    method HandleAuthenticatedRequest(tokenValid: bool, contextError: Option<string>, outcome: HandlerOutcome,
                                      commitError: Option<string>)
      requires tx == NoTransaction
      modifies this
      ensures effects == old(effects) + AuthenticatedEffects(tokenValid, contextError, outcome, commitError)
      ensures tx == (if !tokenValid || contextError.Some? then NoTransaction
                     else if Succeeded(outcome) && commitError.None? then Committed
                     else RolledBack)
    {
      if !tokenValid {
        effects := effects + [RespondUnauthorized(InvalidTokenMessage)];
        return;
      }
      if contextError.Some? {
        effects := effects + [RespondInternalError(NoContextMessage)];
        return;
      }
      tx := Open;
      effects := effects + [OpenTransaction];

      effects := effects + [CallHandler];
      var panicked: Option<string> := None;
      match outcome {
        case Panicked(message) => panicked := Some(message);
        case Returned(response) =>
          if response.statusCode != StatusOK {
            panicked := Some(PanicMessage(response));
          } else if commitError.Some? {
            panicked := Some(commitError.value);
          } else {
            tx := Committed;
            effects := effects + [Commit] + BodyOf(response);
          }
      }
      if panicked.Some? {
        effects := effects + [RespondInternalError(panicked.value), Rollback];
        tx := RolledBack;
      }
    }

    /**
     * `authenticatedWebsocket`: a missing token is refused before anything
     * else happens; otherwise the token is verified, and only a valid one
     * reaches the handler.
     */
    method AuthenticatedWebsocket(token: string, tokenValid: bool)
      modifies this`effects
      ensures TokenMissing(token) ==> effects == old(effects) + [RespondUnauthorized(MissingTokenMessage)]
      ensures !TokenMissing(token) && !tokenValid ==>
                effects == old(effects) + [VerifyToken(token), RespondUnauthorized(InvalidTokenMessage)]
      ensures !TokenMissing(token) && tokenValid ==> effects == old(effects) + [VerifyToken(token), CallHandler]
    {
      if token == "" || token == "null" || token == "\U{009E}" {
        effects := effects + [RespondUnauthorized(MissingTokenMessage)];
        return;
      }
      effects := effects + [VerifyToken(token)];
      if !tokenValid {
        effects := effects + [RespondUnauthorized(InvalidTokenMessage)];
        return;
      }
      effects := effects + [CallHandler];
    }
  }
}
