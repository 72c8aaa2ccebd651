/**
 Whole-request scenarios of the gatekeeper: the validation client is `CheckToken` over a
 fixed answer of the authorization service, which knows the single token "abc123".
 */
module Scenarios {
  import opened Wrappers
  import opened Mapper
  import opened Plugin

  /** A validation client whose service answers `reply` for "abc123" and fails for any other token. */
  function ClientFor(u: Unmarshalers, reply: RpcReply, order: seq<string>): (check: string -> Result<Checked, ClientError>)
    requires Enumerates(order, reply.payload)
    ensures check("abc123") == CheckToken(u, Success(reply), order)
    ensures forall token :: token != "abc123" ==> check(token).Failure? && check(token).error.CallFailed?
  {
    (token: string) =>
      CheckToken(u, if token == "abc123" then Success(reply) else Failure(RpcError("unauthenticated")), order)
  }

  /** A request carrying no `Authorization` header is refused before validation. */
  lemma MissingHeaderScenario(check: string -> Result<Checked, ClientError>, render: ClaimValue -> string)
    ensures HandleRequest(map["Accept" := "*/*"], check, render) == Deny(401, "Authorization header missing")
  {
  }

  /** A bearer token under another scheme is refused before validation. */
  lemma WrongSchemeScenario(check: string -> Result<Checked, ClientError>, render: ClaimValue -> string)
    ensures HandleRequest(map["Authorization" := "Bearer xyz"], check, render)
            == Deny(401, "Invalid Authorization header format")
  {
    assert "Bearer xyz"[0] != Scheme[0];
  }

  /** The claims the service returns in the valid-token scenario, and what they map to. */
  lemma ValidTokenClaims(u: Unmarshalers, sub: seq<byte>, exp: seq<byte>)
    requires u.stringValue(sub) == Some("u1")
    requires u.int64Value(exp) == Some(1700000000)
    ensures
      var payload := map["sub" := AnyValue(TypeUrl(String), sub), "exp" := AnyValue(TypeUrl(Int64), exp)];
      CheckToken(u, Success(RpcReply(Valid, payload)), ["sub", "exp"])
      == Success(Checked(map["sub" := StringValue("u1"), "exp" := Int64Value(1700000000)], true))
  {
    var payload := map["sub" := AnyValue(TypeUrl(String), sub), "exp" := AnyValue(TypeUrl(Int64), exp)];
    DecodeEntryRecognised(u, payload["sub"], String);
    DecodeEntryRecognised(u, payload["exp"], Int64);
    assert DecodeStep(u)(payload["sub"]) == Success(StringValue("u1"));
    assert DecodeStep(u)(payload["exp"]) == Success(Int64Value(1700000000));
    assert Successes(DecodeStep(u), payload) == map["sub" := StringValue("u1"), "exp" := Int64Value(1700000000)];
  }

  /**
   A valid token whose claims are the text "u1" under "sub" and the 64-bit integer
   1700000000 under "exp" forwards the request with exactly those two headers set.
   */
  lemma ValidTokenScenario(u: Unmarshalers, sub: seq<byte>, exp: seq<byte>, render: ClaimValue -> string)
    requires u.stringValue(sub) == Some("u1")
    requires u.int64Value(exp) == Some(1700000000)
    ensures
      var reply := RpcReply(Valid, map["sub" := AnyValue(TypeUrl(String), sub), "exp" := AnyValue(TypeUrl(Int64), exp)]);
      HandleRequest(map["Authorization" := "JWT abc123"], ClientFor(u, reply, ["sub", "exp"]), render)
      == Forward(map["sub" := render(StringValue("u1")), "exp" := render(Int64Value(1700000000))])
  {
  }

  /** A token the service calls INVALID is refused as unauthorized. */
  lemma InvalidTokenScenario(u: Unmarshalers, render: ClaimValue -> string)
    ensures HandleRequest(map["Authorization" := "JWT abc123"], ClientFor(u, RpcReply(Invalid, map[]), []), render)
            == Deny(401, "Invalid token")
  {
  }

  /** A service that cannot be reached makes the request fail as a server error. */
  lemma TransportErrorScenario(u: Unmarshalers, render: ClaimValue -> string)
    ensures HandleRequest(map["Authorization" := "JWT abc123"],
                          (token: string) => CheckToken(u, Failure(RpcError("connection refused")), []), render)
            == Deny(500, "Error validating token")
  {
  }

  /**
   A claim under an unsupported type URL is a server error, not an invalid token, even
   though the service called the token valid.
   */
  lemma UnsupportedClaimScenario(u: Unmarshalers, bytes: seq<byte>, render: ClaimValue -> string)
    ensures
      var reply := RpcReply(Valid, map["roles" := AnyValue("type.googleapis.com/google.protobuf.ListValue", bytes)]);
      HandleRequest(map["Authorization" := "JWT abc123"], ClientFor(u, reply, ["roles"]), render)
      == Deny(500, "Error validating token")
  {
    var v := AnyValue("type.googleapis.com/google.protobuf.ListValue", bytes);
    DecodeEntryUnsupported(u, v);
    assert forall k :: TypeUrl(k) != v.typeUrl;
    assert "JWT abc123"[|Scheme|..] == "abc123";
  }
}
