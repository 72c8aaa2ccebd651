# Traefik authorization plugin — Dafny model

A model of the request-time token gate of the Traefik authorization plugin, with proofs.
For each request the plugin reads the `Authorization` header and requires the `JWT ` scheme.
It asks a remote authorization service whether the token is valid. If so, it copies the
claims the service returns into request headers; otherwise it refuses the request with 401
or 500.

The model has four modules:

- `Wrappers` (wrappers.dfy): `Option`, for a decoder's result that may be absent, and
  `Result`, for Go's `(value, error)` returns.
- `Mapper` (mapper.dfy): `ToPayload` of mapper/token.go. It turns a map from claim name to
  protobuf `Any` into a map from claim name to a decoded scalar (`ClaimValue`, one
  constructor per wrapper message). The nine type URLs are dispatched on by exact string
  comparison. The per-kind `UnmarshalTo` is a record of uninterpreted partial decoders
  (`Unmarshalers`). Go visits a map in random order, so the order is an explicit parameter
  (`order`, any sequence that enumerates the payload's keys). The proofs show that success,
  and the claim set returned on success, do not depend on it.
- `Plugin` (plugin.dfy): `Client.CheckToken` and `AuthMiddleware.handleRequest` of
  plugin.go. The RPC's answer is an input value. `HandleRequest` receives the validation
  client as a function from token to outcome, so "the client is not consulted" can be
  stated as "the decision does not depend on the client". It returns a `Decision`:
  - `Deny(status, body)` is handleRequest's `return false, 0` after writing the status and
    body;
  - `Forward(headerUpdates)` is its `return true, 0` after setting the headers.
  `ApplyDecision` gives the request headers that result.
- `Scenarios` (scenarios.dfy): whole requests, from header to decision, through
  `CheckToken`.

## Model

| member | source | states |
|---|---|---|
| Mapper.KindOfUrl | mapper/token.go:16-82 | a URL is recognised only if it is exactly one kind's full type URL; it is rejected exactly when it equals none of the nine |
| Mapper.TypeUrlRoundTrip | mapper/token.go:16-73 | every kind's type URL is recognised as that same kind, so the nine cases never shadow each other |
| Mapper.TypeUrlInjective | mapper/token.go:16-73 | two kinds with the same type URL are the same kind |
| Mapper.Unmarshal | mapper/token.go:18-78 | unmarshalling as kind k yields exactly the value of kind k that kind k's decoder reads from the bytes, and nothing when that decoder fails: numeric kinds are never coerced into each other |
| Mapper.DecodeEntry | mapper/token.go:16-84 | a decoded entry's kind is the one its type URL names, and its value is that kind's decoder's output for the entry's bytes |
| Mapper.DecodeEntryRecognised | mapper/token.go:17-78 | an entry with a recognised URL decodes exactly when that kind's decoder accepts the bytes; otherwise the error names that kind |
| Mapper.DecodeEntryUnsupported | mapper/token.go:80-81 | an entry fails as "unsupported type URL" with its URL exactly when the URL is none of the nine |
| Mapper.Visit | mapper/token.go:12-85 | visiting keys in a given order succeeds exactly when every visited entry decodes; the result then has exactly the visited keys, each with its own decoded value; otherwise the error is the first failing entry's |
| Mapper.VisitEnumeration | mapper/token.go:11-86 | when the order covers every key, the outcome is the whole decoded map or the error of some entry, never a partial map |
| Mapper.ToPayload | mapper/token.go:10-87 | success exactly when every entry decodes; the result has the input's key set and each entry's decoded value; a failure carries the error of some input entry; an empty input gives an empty map |
| Mapper.ToPayloadOrderIndependent | mapper/token.go:12-85 | two visit orders agree on success and, on success, on the returned map |
| Mapper.UnsupportedUrlRejectsPayload | mapper/token.go:80-81 | one entry with an unknown type URL makes the whole call fail |
| Mapper.MalformedEntryRejectsPayload | mapper/token.go:17-78 | one recognised entry whose bytes do not unmarshal makes the whole call fail |
| Plugin.CheckToken | plugin.go:117-131 | an RPC failure is reported as a call failure; a payload that does not map fails whatever the status, wrapping the error of one of its entries; on success the claims are the mapped payload with the same keys and isValid holds exactly when the status is VALID |
| Plugin.TrimPrefix | plugin.go:70 | with the prefix present, the prefix followed by the result is the input; without it, the input is returned unchanged |
| Plugin.TrimPrefixUnchangedIffAbsent | plugin.go:70-71 | for a non-empty prefix, trimming leaves the string unchanged exactly when the prefix is absent |
| Plugin.HandleRequest | plugin.go:62-95 | a missing or empty header gives 401 "Authorization header missing"; a header not starting with "JWT " gives 401 "Invalid Authorization header format"; otherwise the client sees the header minus "JWT ": an error gives 500, an invalid token 401 "Invalid token", a valid one a forward setting exactly the claim names to their rendered values |
| Plugin.ApplyDecision | plugin.go:90-94 | a deny leaves the request headers as they were; a forward overwrites every claim header and keeps every other header |
| Plugin.NoValidationWithoutScheme | plugin.go:63-75 | without a header carrying the "JWT " scheme the decision is a deny that does not depend on the validation client |
| Plugin.TokenIsHeaderWithoutScheme | plugin.go:70-77 | the decision depends on the client only through its answer for the header with one leading "JWT " removed |
| Plugin.ValidationErrorIsNeverUnauthorized | plugin.go:77-82 | a validation error is answered with 500, never 401 |
| Plugin.OnlyValidTokenForwards | plugin.go:62-94 | the request is forwarded exactly when the header has the scheme and the client reports a valid token; every deny leaves the headers unchanged |
| Plugin.MappingFailureIsServerError | plugin.go:77-127 | a reply whose payload does not map gives 500 "Error validating token", even when the status is VALID |
| Scenarios.MissingHeaderScenario | plugin.go:63-67 | a request without the header is refused with 401 "Authorization header missing" |
| Scenarios.WrongSchemeScenario | plugin.go:70-74 | "Bearer xyz" is refused with 401 "Invalid Authorization header format" |
| Scenarios.ValidTokenClaims | plugin.go:117-131 | a VALID reply with a text "sub" and an int64 "exp" checks as valid with exactly those two typed claims |
| Scenarios.ValidTokenScenario | plugin.go:84-94 | "JWT abc123" with that reply forwards with exactly the headers "sub" and "exp" set to the rendered claims |
| Scenarios.InvalidTokenScenario | plugin.go:84-87 | an INVALID reply gives 401 "Invalid token" |
| Scenarios.TransportErrorScenario | plugin.go:77-81 | `CheckToken` over a failed RPC makes the request fail with 500 "Error validating token" |
| Scenarios.UnsupportedClaimScenario | mapper/token.go:80-81 | a VALID reply carrying a claim under an unknown type URL gives 500, not 401 |

## Left out

- Startup and configuration (`main`, `init`, the JSON config, `os.Exit`, host logging): process lifecycle and I/O.
- `New`, `NewAuthServiceClient` and `grpc.Dial`: connection setup in a library that is not part of this model.
- The gRPC transport, context cancellation and concurrent use of the connection. The RPC's answer is an input value (`Result<RpcReply, RpcError>`), and `HandleRequest` takes the client as a function.
- Protobuf wire decoding inside `anypb.UnmarshalTo`: each kind's decoder is an uninterpreted partial function (`Unmarshalers`). The protobuf error it wraps is not modelled, so `UnmarshalFailed` records only the kind named in the message.
- Error messages are modelled as error constructors, not formatted strings.
- Float and double claims are carried as their IEEE 754 bit patterns (`bv32`, `bv64`), with no floating-point semantics.
- The `%v` rendering of a claim value into a header value is the parameter `render`.
- The http-wasm host objects. Request headers are a `map<string, string>`, so multi-valued headers and case-insensitive header names are not modelled.
- Go's random map iteration order is the parameter `order`. The model also accepts an order that repeats keys, which Go never produces; repeats change nothing.
- A nil `*anypb.Any` in the payload (Go would panic reading its `TypeUrl`) is not modelled: every payload entry is a value.
- `TokenStatus` has only VALID and INVALID. The generated enum is not part of this model. Any other enum number would compare unequal to VALID and behave like INVALID.
- `next` and `reqCtx` are not separate values: `Deny` stands for `(false, 0)` and `Forward` for `(true, 0)`.

The mapper recognises nine type URLs. An unmarshal error names the wrapper kind, not the
claim. An unknown URL fails with "unsupported type URL: %s".
