/**
 The payload mapper of the authorization plugin (mapper/token.go).

 The remote authorization service returns its claims as a map from claim name to a
 protobuf `Any`: a type URL naming one of the nine well-known wrapper messages plus the
 encoded message. `ToPayload` decodes every entry into a plain scalar and returns the whole
 claim set, or fails as a whole.
 */
module Mapper {
  import opened Wrappers

  newtype int32 = x: int | -0x8000_0000 <= x < 0x8000_0000
  newtype int64 = x: int | -0x8000_0000_0000_0000 <= x < 0x8000_0000_0000_0000
  newtype uint32 = x: int | 0 <= x < 0x1_0000_0000
  newtype uint64 = x: int | 0 <= x < 0x1_0000_0000_0000_0000
  type byte = bv8

  /** IEEE 754 bit patterns of Go's float32 and float64; the model does no arithmetic on them. */
  type float32 = bv32
  type float64 = bv64

  /** The nine wrapper messages the mapper recognises. */
  datatype Kind = String | Int32 | Int64 | UInt32 | UInt64 | Float | Double | Bool | Bytes

  /** A decoded claim: the `Value` field of the wrapper message, of exactly its Go type. */
  datatype ClaimValue =
    | StringValue(str: string)
    | Int32Value(i32: int32)
    | Int64Value(i64: int64)
    | UInt32Value(u32: uint32)
    | UInt64Value(u64: uint64)
    | FloatValue(f32: float32)
    | DoubleValue(f64: float64)
    | BoolValue(b: bool)
    | BytesValue(bytes: seq<byte>)

  /** A protobuf `Any`: the type URL and the encoded message. */
  datatype AnyValue = AnyValue(typeUrl: string, value: seq<byte>)

  /**
   The per-wrapper `UnmarshalTo` of the protobuf runtime, one partial decoder per kind,
   each yielding the wrapper's `Value` field or `None` when the bytes do not decode.
   The wire format itself is not modelled: these are uninterpreted parameters.
   */
  datatype Unmarshalers = Unmarshalers(
    stringValue: seq<byte> -> Option<string>,
    int32Value: seq<byte> -> Option<int32>,
    int64Value: seq<byte> -> Option<int64>,
    uint32Value: seq<byte> -> Option<uint32>,
    uint64Value: seq<byte> -> Option<uint64>,
    floatValue: seq<byte> -> Option<float32>,
    doubleValue: seq<byte> -> Option<float64>,
    boolValue: seq<byte> -> Option<bool>,
    bytesValue: seq<byte> -> Option<seq<byte>>)

  /** Why a payload could not be mapped. */
  datatype Error =
    | UnsupportedTypeUrl(url: string)   // "unsupported type URL: %s"
    | UnmarshalFailed(kind: Kind)       // "failed to unmarshal <Kind>Value: %w"

  function KindOf(v: ClaimValue): Kind {
    match v
    case StringValue(_) => String
    case Int32Value(_) => Int32
    case Int64Value(_) => Int64
    case UInt32Value(_) => UInt32
    case UInt64Value(_) => UInt64
    case FloatValue(_) => Float
    case DoubleValue(_) => Double
    case BoolValue(_) => Bool
    case BytesValue(_) => Bytes
  }

  /** The type URL under which each wrapper message travels inside an `Any`. */
  function TypeUrl(k: Kind): string {
    match k
    case String => "type.googleapis.com/google.protobuf.StringValue"
    case Int32 => "type.googleapis.com/google.protobuf.Int32Value"
    case Int64 => "type.googleapis.com/google.protobuf.Int64Value"
    case UInt32 => "type.googleapis.com/google.protobuf.UInt32Value"
    case UInt64 => "type.googleapis.com/google.protobuf.UInt64Value"
    case Float => "type.googleapis.com/google.protobuf.FloatValue"
    case Double => "type.googleapis.com/google.protobuf.DoubleValue"
    case Bool => "type.googleapis.com/google.protobuf.BoolValue"
    case Bytes => "type.googleapis.com/google.protobuf.BytesValue"
  }

  /**
   The `switch anyValue.TypeUrl` of `ToPayload`: exact, case-sensitive comparison with
   each of the nine full type URLs in turn.
   */
  function KindOfUrl(url: string): (r: Option<Kind>)
    ensures r.Some? ==> TypeUrl(r.value) == url
    ensures r.None? <==> forall k :: TypeUrl(k) != url
  {
    if url == "type.googleapis.com/google.protobuf.StringValue" then Some(String)
    else if url == "type.googleapis.com/google.protobuf.Int32Value" then Some(Int32)
    else if url == "type.googleapis.com/google.protobuf.Int64Value" then Some(Int64)
    else if url == "type.googleapis.com/google.protobuf.UInt32Value" then Some(UInt32)
    else if url == "type.googleapis.com/google.protobuf.UInt64Value" then Some(UInt64)
    else if url == "type.googleapis.com/google.protobuf.FloatValue" then Some(Float)
    else if url == "type.googleapis.com/google.protobuf.DoubleValue" then Some(Double)
    else if url == "type.googleapis.com/google.protobuf.BoolValue" then Some(Bool)
    else if url == "type.googleapis.com/google.protobuf.BytesValue" then Some(Bytes)
    else None
  }

  /** Every kind's URL is recognised as that kind and no other: the nine URLs are distinct. */
  lemma TypeUrlRoundTrip(k: Kind)
    ensures KindOfUrl(TypeUrl(k)) == Some(k)
  {
  }

  /** Distinct kinds travel under distinct type URLs. */
  lemma TypeUrlInjective(k1: Kind, k2: Kind)
    ensures TypeUrl(k1) == TypeUrl(k2) ==> k1 == k2
  {
  }

  /** The decoder of `c`'s kind reads `bytes` as a wrapper message whose `Value` is `c`'s. */
  predicate Decodes(u: Unmarshalers, bytes: seq<byte>, c: ClaimValue) {
    match c
    case StringValue(x) => u.stringValue(bytes) == Some(x)
    case Int32Value(x) => u.int32Value(bytes) == Some(x)
    case Int64Value(x) => u.int64Value(bytes) == Some(x)
    case UInt32Value(x) => u.uint32Value(bytes) == Some(x)
    case UInt64Value(x) => u.uint64Value(bytes) == Some(x)
    case FloatValue(x) => u.floatValue(bytes) == Some(x)
    case DoubleValue(x) => u.doubleValue(bytes) == Some(x)
    case BoolValue(x) => u.boolValue(bytes) == Some(x)
    case BytesValue(x) => u.bytesValue(bytes) == Some(x)
  }

  /**
   Unmarshal the bytes as the wrapper message of kind `k` and take its `Value`: the result
   is a value of kind `k` that kind's decoder produced, and it is absent only when that
   decoder rejects the bytes.
   */
  function Unmarshal(u: Unmarshalers, k: Kind, bytes: seq<byte>): (r: Option<ClaimValue>)
    ensures r.Some? ==> KindOf(r.value) == k && Decodes(u, bytes, r.value)
    ensures forall c :: KindOf(c) == k && Decodes(u, bytes, c) ==> r == Some(c)
  {
    match k
    case String => (match u.stringValue(bytes) case Some(x) => Some(StringValue(x)) case None => None)
    case Int32 => (match u.int32Value(bytes) case Some(x) => Some(Int32Value(x)) case None => None)
    case Int64 => (match u.int64Value(bytes) case Some(x) => Some(Int64Value(x)) case None => None)
    case UInt32 => (match u.uint32Value(bytes) case Some(x) => Some(UInt32Value(x)) case None => None)
    case UInt64 => (match u.uint64Value(bytes) case Some(x) => Some(UInt64Value(x)) case None => None)
    case Float => (match u.floatValue(bytes) case Some(x) => Some(FloatValue(x)) case None => None)
    case Double => (match u.doubleValue(bytes) case Some(x) => Some(DoubleValue(x)) case None => None)
    case Bool => (match u.boolValue(bytes) case Some(x) => Some(BoolValue(x)) case None => None)
    case Bytes => (match u.bytesValue(bytes) case Some(x) => Some(BytesValue(x)) case None => None)
  }

  /**
   One iteration of the loop in `ToPayload`: dispatch on the type URL, then unmarshal.
   A recognised URL yields a value of exactly its kind; an unknown URL and a decoder
   failure are errors.
   */
  function DecodeEntry(u: Unmarshalers, v: AnyValue): (r: Result<ClaimValue, Error>)
    ensures r.Success? ==> v.typeUrl == TypeUrl(KindOf(r.value))
    ensures r.Success? ==> Unmarshal(u, KindOf(r.value), v.value) == Some(r.value)
    ensures r.Success? ==> Decodes(u, v.value, r.value)
  {
    match KindOfUrl(v.typeUrl)
    case None => Failure(UnsupportedTypeUrl(v.typeUrl))
    case Some(k) =>
      match Unmarshal(u, k, v.value)
      case None => Failure(UnmarshalFailed(k))
      case Some(c) => Success(c)
  }

  /**
   An entry tagged with one of the nine URLs decodes exactly when that kind's decoder
   accepts its bytes, and otherwise fails naming that kind.
   */
  lemma DecodeEntryRecognised(u: Unmarshalers, v: AnyValue, k: Kind)
    requires v.typeUrl == TypeUrl(k)
    ensures DecodeEntry(u, v).Success? <==> Unmarshal(u, k, v.value).Some?
    ensures DecodeEntry(u, v).Success? ==> DecodeEntry(u, v) == Success(Unmarshal(u, k, v.value).value)
    ensures DecodeEntry(u, v).Failure? ==> DecodeEntry(u, v).error == UnmarshalFailed(k)
  {
  }

  /** An entry fails as unsupported exactly when its URL is none of the nine. */
  lemma DecodeEntryUnsupported(u: Unmarshalers, v: AnyValue)
    ensures DecodeEntry(u, v) == Failure(UnsupportedTypeUrl(v.typeUrl)) <==> forall k :: TypeUrl(k) != v.typeUrl
  {
  }

  /** Every entry of `m` passes `step`. */
  predicate AllSucceed<V, W, E>(step: V -> Result<W, E>, m: map<string, V>) {
    forall key :: key in m ==> step(m[key]).Success?
  }

  /** What `step` makes of each entry of `m` that passes it, under the entry's own name. */
  function Successes<V, W, E>(step: V -> Result<W, E>, m: map<string, V>): map<string, W> {
    map key | key in m && step(m[key]).Success? :: step(m[key]).value
  }

  /** `order` visits exactly the keys of `m`: one of the orders Go's `range` may choose. */
  predicate Enumerates<V>(order: seq<string>, m: map<string, V>) {
    && (forall i | 0 <= i < |order| :: order[i] in m)
    && (forall key | key in m :: key in order)
  }

  /**
   The loop of `ToPayload`, visiting the keys in `order` and applying the per-entry step
   `decode`: it stops at the first entry that fails and returns that entry's error, and
   otherwise collects every visited entry under its own name.
   */
  function Visit<V, W, E>(decode: V -> Result<W, E>, payload: map<string, V>, order: seq<string>)
    : (r: Result<map<string, W>, E>)
    requires forall i | 0 <= i < |order| :: order[i] in payload
    ensures r.Success? <==> forall i | 0 <= i < |order| :: decode(payload[order[i]]).Success?
    ensures r.Success? ==> forall key :: key in r.value <==> key in order
    ensures r.Success? ==> forall key :: key in r.value ==> Success(r.value[key]) == decode(payload[key])
    ensures r.Failure? ==>
              exists i | 0 <= i < |order| ::
                && decode(payload[order[i]]) == Failure(r.error)
                && forall j | 0 <= j < i :: decode(payload[order[j]]).Success?
    decreases |order|
  {
    if |order| == 0 then Success(map[])
    else
      match decode(payload[order[0]])
      case Failure(e) => Failure(e)
      case Success(v) =>
        match Visit(decode, payload, order[1..])
        case Failure(e) => Failure(e)
        case Success(rest) => Success(rest[order[0] := v])
  }

  /**
   Visiting every key of the map, in whatever order, is all or nothing: it succeeds exactly
   when every entry passes, with every entry's result, and otherwise fails with the error
   of some entry.
   */
  lemma VisitEnumeration<V, W, E>(decode: V -> Result<W, E>, payload: map<string, V>, order: seq<string>)
    requires Enumerates(order, payload)
    ensures Visit(decode, payload, order).Success? <==> AllSucceed(decode, payload)
    ensures Visit(decode, payload, order).Success? ==> Visit(decode, payload, order).value == Successes(decode, payload)
    ensures Visit(decode, payload, order).Failure? ==>
              exists key :: key in payload && decode(payload[key]) == Failure(Visit(decode, payload, order).error)
  {
  }

  /** The per-entry step of the mapper, as a function value. */
  function DecodeStep(u: Unmarshalers): AnyValue -> Result<ClaimValue, Error> {
    v => DecodeEntry(u, v)
  }

  /**
   `ToPayload` with the iteration order Go happened to choose. The outcome is all or
   nothing: the complete claim set, with exactly the input's keys, or one error taken from
   an entry that does not decode.
   */
  function ToPayload(u: Unmarshalers, payload: map<string, AnyValue>, order: seq<string>)
    : (r: Result<map<string, ClaimValue>, Error>)
    requires Enumerates(order, payload)
    ensures r.Success? <==> AllSucceed(DecodeStep(u), payload)
    ensures r.Success? ==> r.value.Keys == payload.Keys && r.value == Successes(DecodeStep(u), payload)
    ensures r.Failure? ==> exists key :: key in payload && DecodeEntry(u, payload[key]) == Failure(r.error)
    ensures payload == map[] ==> r == Success(map[])
  {
    VisitEnumeration(DecodeStep(u), payload, order);
    Visit(DecodeStep(u), payload, order)
  }

  /** Whether and what `ToPayload` returns on success does not depend on the visit order. */
  lemma ToPayloadOrderIndependent(u: Unmarshalers, payload: map<string, AnyValue>, order1: seq<string>, order2: seq<string>)
    requires Enumerates(order1, payload) && Enumerates(order2, payload)
    ensures ToPayload(u, payload, order1).Success? == ToPayload(u, payload, order2).Success?
    ensures ToPayload(u, payload, order1).Success? ==> ToPayload(u, payload, order1) == ToPayload(u, payload, order2)
  {
  }

  /** A single entry with a type URL outside the nine makes the whole payload fail. */
  lemma UnsupportedUrlRejectsPayload(u: Unmarshalers, payload: map<string, AnyValue>, order: seq<string>, key: string)
    requires Enumerates(order, payload)
    requires key in payload && KindOfUrl(payload[key].typeUrl).None?
    ensures ToPayload(u, payload, order).Failure?
  {
  }

  /** A single recognised entry whose bytes do not unmarshal makes the whole payload fail. */
  lemma MalformedEntryRejectsPayload(u: Unmarshalers, payload: map<string, AnyValue>, order: seq<string>, key: string, k: Kind)
    requires Enumerates(order, payload)
    requires key in payload && payload[key].typeUrl == TypeUrl(k) && Unmarshal(u, k, payload[key].value).None?
    ensures ToPayload(u, payload, order).Failure?
  {
    DecodeEntryRecognised(u, payload[key], k);
  }
}
