/**
 The request gatekeeper of the authorization plugin (plugin.go): the validation client's
 `CheckToken` and the middleware's `handleRequest`.

 The gRPC call, the host's request and response objects and the `%v` rendering of claim
 values are outside the model: the RPC result is an input value, the validation client is a
 function from token to outcome, request headers are a map, and rendering is a parameter.
 */
module Plugin {
  import opened Wrappers
  import opened Mapper

  /** The `status` field of the service's reply. */
  datatype TokenStatus = Valid | Invalid

  /** A successful reply of the `CheckToken` RPC. */
  datatype RpcReply = RpcReply(status: TokenStatus, payload: map<string, AnyValue>)

  /** Why the RPC itself failed (transport error, deadline, remote error). */
  datatype RpcError = RpcError(message: string)

  /** The errors `Client.CheckToken` returns, in the order it can return them. */
  datatype ClientError =
    | CallFailed(rpcError: RpcError)       // "error calling CheckToken: %w"
    | MappingFailed(mapError: Mapper.Error)  // "error mapping payload: %w"

  /** The `(payload, isValid)` pair `Client.CheckToken` returns when it does not fail. */
  datatype Checked = Checked(claims: map<string, ClaimValue>, isValid: bool)

  /**
   `Client.CheckToken` once the RPC has answered with `reply`; `order` is the order in which
   the mapper happens to visit the reply's payload. An RPC failure is reported as such; a
   reply whose payload does not map fails whatever its status; otherwise the claims are the
   mapped payload and the token is valid exactly when the status is VALID.
   */
  function CheckToken(u: Unmarshalers, reply: Result<RpcReply, RpcError>, order: seq<string>)
    : (r: Result<Checked, ClientError>)
    requires reply.Success? ==> Enumerates(order, reply.value.payload)
    ensures reply.Failure? ==> r == Failure(CallFailed(reply.error))
    ensures reply.Success? && !AllSucceed(DecodeStep(u), reply.value.payload) ==>
              r.Failure? && r.error.MappingFailed?
    ensures reply.Success? && r.Failure? ==>
              && r.error.MappingFailed?
              && exists key :: key in reply.value.payload && DecodeEntry(u, reply.value.payload[key]) == Failure(r.error.mapError)
    ensures r.Success? <==> reply.Success? && AllSucceed(DecodeStep(u), reply.value.payload)
    ensures r.Success? ==>
              && r.value.claims.Keys == reply.value.payload.Keys
              && r.value.claims == Successes(DecodeStep(u), reply.value.payload)
              && (r.value.isValid <==> reply.value.status == Valid)
  {
    match reply
    case Failure(e) => Failure(CallFailed(e))
    case Success(resp) =>
      match ToPayload(u, resp.payload, order)
      case Failure(e) => Failure(MappingFailed(e))
      case Success(claims) => Success(Checked(claims, resp.status == Valid))
  }

  /** `strings.TrimPrefix`: `s` without one leading `prefix`, or `s` itself. */
  function TrimPrefix(s: string, prefix: string): (r: string)
    ensures prefix <= s ==> prefix + r == s
    ensures !(prefix <= s) ==> r == s
  {
    if prefix <= s then s[|prefix|..] else s
  }

  /**
   For a non-empty prefix, trimming leaves the string unchanged exactly when the prefix is
   absent: the `token == authHeader` test of `handleRequest` is a prefix test.
   */
  lemma TrimPrefixUnchangedIffAbsent(s: string, prefix: string)
    requires prefix != ""
    ensures TrimPrefix(s, prefix) == s <==> !(prefix <= s)
  {
  }

  const AuthorizationHeader := "Authorization"
  const Scheme := "JWT "

  const StatusUnauthorized := 401
  const StatusInternalServerError := 500

  const MissingHeaderBody := "Authorization header missing"
  const BadFormatBody := "Invalid Authorization header format"
  const ValidationErrorBody := "Error validating token"
  const InvalidTokenBody := "Invalid token"

  /**
   What `handleRequest` does with a request. `Deny` writes the status and body and returns
   `next = false`; `Forward` sets each listed header and returns `next = true`. Both return
   `reqCtx = 0`.
   */
  datatype Decision = Deny(status: int, body: string) | Forward(headerUpdates: map<string, string>)

  /**
   `AuthMiddleware.handleRequest` on a request with headers `headers`, where `check` stands
   for the validation client (`Client.CheckToken` on the connection) and `render` for the
   `%v` rendering of a claim value.
   */
  function HandleRequest(headers: map<string, string>, check: string -> Result<Checked, ClientError>,
                         render: ClaimValue -> string): (d: Decision)
    ensures AuthorizationHeader !in headers || headers[AuthorizationHeader] == "" ==>
              d == Deny(StatusUnauthorized, MissingHeaderBody)
    ensures AuthorizationHeader in headers && headers[AuthorizationHeader] != "" && !(Scheme <= headers[AuthorizationHeader]) ==>
              d == Deny(StatusUnauthorized, BadFormatBody)
    ensures AuthorizationHeader in headers && Scheme <= headers[AuthorizationHeader] ==>
              var outcome := check(headers[AuthorizationHeader][|Scheme|..]);
              && (outcome.Failure? ==> d == Deny(StatusInternalServerError, ValidationErrorBody))
              && (outcome.Success? && !outcome.value.isValid ==> d == Deny(StatusUnauthorized, InvalidTokenBody))
              && (outcome.Success? && outcome.value.isValid ==>
                    && d.Forward?
                    && d.headerUpdates.Keys == outcome.value.claims.Keys
                    && forall key :: key in d.headerUpdates ==> d.headerUpdates[key] == render(outcome.value.claims[key]))
  {
    if AuthorizationHeader !in headers || headers[AuthorizationHeader] == "" then
      Deny(StatusUnauthorized, MissingHeaderBody)
    else
      var authHeader := headers[AuthorizationHeader];
      var token := TrimPrefix(authHeader, Scheme);
      if token == authHeader then
        Deny(StatusUnauthorized, BadFormatBody)
      else
        match check(token)
        case Failure(_) => Deny(StatusInternalServerError, ValidationErrorBody)
        case Success(Checked(payload, isValid)) =>
          if !isValid then Deny(StatusUnauthorized, InvalidTokenBody)
          else Forward(map key | key in payload :: render(payload[key]))
  }

  /**
   The request headers after the decision: a denied request keeps its headers, a forwarded
   one has every listed header set (overwritten) and keeps all others.
   */
  function ApplyDecision(headers: map<string, string>, d: Decision): (r: map<string, string>)
    ensures d.Deny? ==> r == headers
    ensures d.Forward? ==>
              && r.Keys == headers.Keys + d.headerUpdates.Keys
              && (forall key :: key in d.headerUpdates ==> r[key] == d.headerUpdates[key])
              && (forall key :: key in headers && key !in d.headerUpdates ==> r[key] == headers[key])
  {
    match d
    case Deny(_, _) => headers
    case Forward(updates) => headers + updates
  }

  /** Without a well-formed `Authorization` header the validation client is never consulted. */
  lemma NoValidationWithoutScheme(headers: map<string, string>, check1: string -> Result<Checked, ClientError>,
                                  check2: string -> Result<Checked, ClientError>, render: ClaimValue -> string)
    requires AuthorizationHeader !in headers || !(Scheme <= headers[AuthorizationHeader])
    ensures HandleRequest(headers, check1, render) == HandleRequest(headers, check2, render)
    ensures HandleRequest(headers, check1, render).Deny?
  {
  }

  /**
   The token handed to the validation client is the header with exactly one leading
   "JWT " removed and nothing else changed: two clients that agree on that token lead to
   the same decision. A header of exactly "JWT " sends the empty token.
   */
  lemma TokenIsHeaderWithoutScheme(token: string, headers: map<string, string>,
                                   check1: string -> Result<Checked, ClientError>,
                                   check2: string -> Result<Checked, ClientError>, render: ClaimValue -> string)
    requires AuthorizationHeader in headers && headers[AuthorizationHeader] == Scheme + token
    requires check1(token) == check2(token)
    ensures HandleRequest(headers, check1, render) == HandleRequest(headers, check2, render)
  {
  }

  /** A validation error is a server error, never an authentication failure. */
  lemma ValidationErrorIsNeverUnauthorized(headers: map<string, string>, check: string -> Result<Checked, ClientError>,
                                           render: ClaimValue -> string)
    requires AuthorizationHeader in headers && Scheme <= headers[AuthorizationHeader]
    requires check(headers[AuthorizationHeader][|Scheme|..]).Failure?
    ensures HandleRequest(headers, check, render).Deny?
    ensures HandleRequest(headers, check, render).status == StatusInternalServerError
  {
  }

  /** Only a valid token forwards the request; every other path leaves the headers alone. */
  lemma OnlyValidTokenForwards(headers: map<string, string>, check: string -> Result<Checked, ClientError>,
                               render: ClaimValue -> string)
    ensures HandleRequest(headers, check, render).Forward? <==>
              && AuthorizationHeader in headers
              && Scheme <= headers[AuthorizationHeader]
              && check(headers[AuthorizationHeader][|Scheme|..]).Success?
              && check(headers[AuthorizationHeader][|Scheme|..]).value.isValid
    ensures HandleRequest(headers, check, render).Deny? ==>
              ApplyDecision(headers, HandleRequest(headers, check, render)) == headers
  {
  }

  /**
   End to end: a payload the mapper rejects surfaces as a server error, even when the
   service called the token valid.
   */
  lemma MappingFailureIsServerError(u: Unmarshalers, headers: map<string, string>, reply: RpcReply,
                                    order: seq<string>, render: ClaimValue -> string)
    requires AuthorizationHeader in headers && Scheme <= headers[AuthorizationHeader]
    requires Enumerates(order, reply.payload)
    requires !AllSucceed(DecodeStep(u), reply.payload)
    ensures HandleRequest(headers, (token: string) => CheckToken(u, Success(reply), order), render)
            == Deny(StatusInternalServerError, ValidationErrorBody)
  {
  }
}
