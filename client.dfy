/**
 * The request pipeline (src/client.rs): URL assembly, the choice of the
 * signed payload, the authentication headers, dispatch and the decoding of
 * the response envelope.
 *
 * What the outside world contributes to one call is a parameter (`Env`):
 * the clock reading, HMAC-SHA256, the JSON and URL-encoding serialisers,
 * the JSON parser and the transport. The serialisers are functions, so the
 * JSON text that is signed is the JSON text that is sent.
 */
module Client {
  import opened Wrappers
  import opened Encoding
  import opened JsonValue
  import opened Auth
  import opened Errors
  import opened Types

  /** `RECV_WINDOW`: the receive window, in milliseconds, signed and sent with every authenticated call. */
  const RecvWindow: U64 := 5000

  const TestnetUrl: string := "https://api-testnet.bybit.com"
  const MainnetUrl: string := "https://api.bybit.com"

  /** The HTTP verb; the pipeline distinguishes GET and POST from every other verb. */
  datatype Method = Get | Post | Other(name: string)

  /** Query parameters, in the order they are sent. */
  type Query = seq<(string, string)>

  /** Header (name, value) pairs, in insertion order. */
  type Headers = seq<(string, string)>

  /** Outcome of parsing response text as JSON. */
  datatype ParseOutcome = Parsed(value: Json) | Malformed(detail: string)

  /**
   * The serialisation libraries: JSON text of a value, the
   * form-urlencoded text of a query, and the JSON parser.
   */
  datatype Serde = Serde(jsonText: Json -> string, urlEncode: Query -> string, parseJson: string -> ParseOutcome)

  /** What the transport gives back: the response body text, or a transport failure. */
  datatype Reply = Received(text: string) | Failed(detail: string)

  /** The request as it leaves the client. */
  datatype HttpRequest = HttpRequest(verb: Method, url: string, query: Option<Query>, headers: Headers, body: Option<string>)

  /** Everything one call takes from outside: clock, MAC, serialisers and transport. */
  datatype Env = Env(timestamp: I64, mac: Mac, serde: Serde, transport: HttpRequest -> Reply)

  // ---------------------------------------------------------------------
  // Signed payload
  // ---------------------------------------------------------------------

  /**
   * The payload that is signed: the urlencoded query for GET, the JSON text
   * of the body for POST, and the empty string for any other verb or when
   * the relevant part is absent.
   */
  function SigningPayload(verb: Method, query: Option<Query>, body: Option<Json>, serde: Serde): (p: string)
    ensures verb.Get? && query.Some? ==> p == serde.urlEncode(query.value)
    ensures verb.Post? && body.Some? ==> p == serde.jsonText(body.value)
    ensures (verb.Get? && query.None?) || (verb.Post? && body.None?) || verb.Other? ==> p == ""
  {
    match verb
    case Get => if query.Some? then serde.urlEncode(query.value) else ""
    case Post => if body.Some? then serde.jsonText(body.value) else ""
    case Other(_) => ""
  }

  /** The payload as it can be read off a request on the wire: its query text or its body text. */
  function WirePayload(req: HttpRequest, serde: Serde): string
  {
    match req.verb
    case Get => if req.query.Some? then serde.urlEncode(req.query.value) else ""
    case Post => req.body.UnwrapOr("")
    case Other(_) => ""
  }

  /**
   * What is signed is what can be read off the request that carries the
   * query and the JSON text of the body, whatever its URL and headers.
   */
  lemma SigningPayloadIsWirePayload(verb: Method, query: Option<Query>, body: Option<Json>, serde: Serde,
                                    url: string, headers: Headers)
    ensures SigningPayload(verb, query, body, serde)
         == WirePayload(HttpRequest(verb, url, query, headers,
                                    if body.Some? then Some(serde.jsonText(body.value)) else None), serde)
  {
  }

  // ---------------------------------------------------------------------
  // Header values
  // ---------------------------------------------------------------------

  /** A byte allowed in an HTTP field value: visible ASCII, space, tab, or obs-text (section 5.5 of RFC 9110). */
  predicate ValidHeaderByte(b: byte) { (b >= 32 && b != 127) || b == 9 }

  predicate ValidHeaderBytes(bs: seq<byte>) { forall i :: 0 <= i < |bs| ==> ValidHeaderByte(bs[i]) }

  /** A string that can be a header value: every byte of its UTF-8 form is allowed. */
  predicate ValidHeaderValue(s: string) { ValidHeaderBytes(Utf8(s)) }

  /** The same condition read per character: tab, or anything from space upwards except DEL. */
  predicate ValidHeaderChar(c: char) { c == '\t' || (' ' <= c && (c as int) != 127) }

  lemma {:induction false} HeaderValidityPerChar(s: string)
    ensures ValidHeaderValue(s) <==> forall i :: 0 <= i < |s| ==> ValidHeaderChar(s[i])
  {
    if s != [] {
      var head, tail := EncodeChar(s[0]), Utf8(s[1..]);
      assert Utf8(s) == head + tail;
      assert ValidHeaderBytes(head + tail) <==> ValidHeaderBytes(head) && ValidHeaderBytes(tail) by {
        if ValidHeaderBytes(head) && ValidHeaderBytes(tail) {
          forall i | 0 <= i < |head + tail| ensures ValidHeaderByte((head + tail)[i]) {
            if i >= |head| { assert (head + tail)[i] == tail[i - |head|]; }
          }
        }
        if ValidHeaderBytes(head + tail) {
          forall i | 0 <= i < |head| ensures ValidHeaderByte(head[i]) {
            assert head[i] == (head + tail)[i];
          }
          forall i | 0 <= i < |tail| ensures ValidHeaderByte(tail[i]) {
            assert tail[i] == (head + tail)[|head| + i];
          }
        }
      }
      assert ValidHeaderBytes(head) <==> ValidHeaderChar(s[0]);
      HeaderValidityPerChar(s[1..]);
      assert forall i :: 0 < i < |s| ==> s[i] == s[1..][i - 1];
    }
  }

  /** Decimal renderings and lowercase hex strings are always valid header values. */
  lemma GeneratedHeaderValuesValid(x: int, bs: seq<byte>)
    ensures ValidHeaderValue(IntToDecimal(x))
    ensures ValidHeaderValue(Hex(bs))
  {
    HeaderValidityPerChar(IntToDecimal(x));
    HeaderValidityPerChar(Hex(bs));
  }

  /** The text of the error the header library reports for a value it refuses. */
  const InvalidHeaderValueText: string := "failed to parse header value"

  // ---------------------------------------------------------------------
  // Authentication headers
  // ---------------------------------------------------------------------

  const ContentTypeJson: (string, string) := ("Content-Type", "application/json")

  /** The header set of an authenticated call, in the order it is built. */
  function SignedHeaders(apiKey: string, timestamp: I64, signature: string): (h: Headers)
    ensures |h| == 5
    ensures h[0] == ("X-BAPI-API-KEY", apiKey) && h[2] == ("X-BAPI-SIGN", signature)
  {
    [("X-BAPI-API-KEY", apiKey),
     ("X-BAPI-TIMESTAMP", IntToDecimal(timestamp)),
     ("X-BAPI-SIGN", signature),
     ("X-BAPI-RECV-WINDOW", NatToDecimal(RecvWindow)),
     ContentTypeJson]
  }

  /** The names of the headers only an authenticated call carries. */
  const AuthHeaderNames: set<string> := {"X-BAPI-API-KEY", "X-BAPI-TIMESTAMP", "X-BAPI-SIGN", "X-BAPI-RECV-WINDOW"}

  /**
   * The headers agree with what was signed: the timestamp header reads back
   * as the signed timestamp, the receive-window header is "5000", which is
   * the signed window, and the header names are exactly the four
   * authentication headers plus the content type.
   */
  lemma SignedHeadersConsistent(apiKey: string, timestamp: I64, signature: string)
    ensures var h := SignedHeaders(apiKey, timestamp, signature);
      && (set i | 0 <= i < |h| :: h[i].0) == AuthHeaderNames + {"Content-Type"}
      && h[1].0 == "X-BAPI-TIMESTAMP" && ParseInt(h[1].1) == Some(timestamp as int)
      && h[3] == ("X-BAPI-RECV-WINDOW", "5000") && ParseInt(h[3].1) == Some(RecvWindow as int)
      && h[4] == ("Content-Type", "application/json")
  {
    var h := SignedHeaders(apiKey, timestamp, signature);
    IntDecimalRoundTrip(timestamp);
    RecvWindowDecimal();
    IntDecimalRoundTrip(RecvWindow);
    assert (set i | 0 <= i < |h| :: h[i].0) == AuthHeaderNames + {"Content-Type"} by {
      assert h[0].0 == "X-BAPI-API-KEY" && h[1].0 == "X-BAPI-TIMESTAMP" && h[2].0 == "X-BAPI-SIGN";
      assert h[3].0 == "X-BAPI-RECV-WINDOW" && h[4].0 == "Content-Type";
    }
  }

  /** reqwest's `json`: a content type is added only when the request has none yet. */
  function WithJsonContentType(h: Headers): (r: Headers)
    ensures (exists i :: 0 <= i < |h| && h[i].0 == "Content-Type") ==> r == h
    ensures (forall i :: 0 <= i < |h| ==> h[i].0 != "Content-Type") ==> r == h + [ContentTypeJson]
    ensures |h| <= |r| <= |h| + 1 && r[..|h|] == h
    ensures exists i :: 0 <= i < |r| && r[i].0 == "Content-Type"
  {
    if exists i :: 0 <= i < |h| && h[i].0 == "Content-Type" then h
    else
      var r := h + [ContentTypeJson];
      assert r[|h|].0 == "Content-Type";
      r
  }

  // ---------------------------------------------------------------------
  // Response decoding
  // ---------------------------------------------------------------------

  /** Stand-in texts for the JSON library's messages when the shape does not match. */
  const EnvelopeMismatchText: string := "response does not match the envelope shape"
  const ResultMismatchText: string := "result does not match the expected shape"

  /**
   * Decoding as the client does it: the whole envelope, including the
   * result in its expected shape, is decoded first and the return code is
   * looked at only afterwards.
   */
  function DecodeResponseAsWritten<T>(text: string, parse: string -> ParseOutcome,
                                      decodeResult: Json -> Option<T>): (r: Result<T>)
    ensures parse(text).Malformed? ==> r == Err(SerializationError(parse(text).detail))
    ensures parse(text).Parsed? && DecodeApiResponse(parse(text).value, decodeResult).None? ==>
              r == Err(SerializationError(EnvelopeMismatchText))
    ensures parse(text).Parsed? && DecodeApiResponse(parse(text).value, decodeResult).Some? ==>
      var resp := DecodeApiResponse(parse(text).value, decodeResult).value;
      && (resp.retCode != 0 ==> r == Err(ApiError(resp.retCode, resp.retMsg)))
      && (resp.retCode == 0 ==> r == Ok(resp.result))
    ensures r.Ok? ==> parse(text).Parsed? && DecodeApiResponse(parse(text).value, decodeResult).Some?
                      && DecodeApiResponse(parse(text).value, decodeResult).value.retCode == 0
                      && DecodeApiResponse(parse(text).value, decodeResult).value.result == r.value
  {
    match parse(text)
    case Malformed(d) => Err(SerializationError(d))
    case Parsed(v) =>
      match DecodeApiResponse(v, decodeResult)
      case None => Err(SerializationError(EnvelopeMismatchText))
      case Some(resp) =>
        if resp.retCode != 0 then Err(ApiError(resp.retCode, resp.retMsg)) else Ok(resp.result)
  }

  /**
   * Decoding in two steps: the envelope with its result left as JSON, then
   * the return code, and only for code 0 the result in its expected shape.
   * A non-zero code is reported with its code and message whatever the
   * result holds.
   */
  function DecodeResponse<T>(text: string, parse: string -> ParseOutcome,
                             decodeResult: Json -> Option<T>): (r: Result<T>)
    ensures parse(text).Malformed? ==> r == Err(SerializationError(parse(text).detail))
    ensures parse(text).Parsed? && DecodeApiResponse(parse(text).value, Untyped).None? ==>
              r == Err(SerializationError(EnvelopeMismatchText))
    ensures parse(text).Parsed? && DecodeApiResponse(parse(text).value, Untyped).Some? ==>
      var raw := DecodeApiResponse(parse(text).value, Untyped).value;
      && (raw.retCode != 0 ==> r == Err(ApiError(raw.retCode, raw.retMsg)))
      && (raw.retCode == 0 && decodeResult(raw.result).Some? ==> r == Ok(decodeResult(raw.result).value))
      && (raw.retCode == 0 && decodeResult(raw.result).None? ==> r == Err(SerializationError(ResultMismatchText)))
    ensures r.Ok? ==> parse(text).Parsed? && DecodeApiResponse(parse(text).value, Untyped).Some?
                      && DecodeApiResponse(parse(text).value, Untyped).value.retCode == 0
    ensures r.Err? && r.error.ApiError? ==> r.error.retCode != 0
  {
    match parse(text)
    case Malformed(d) => Err(SerializationError(d))
    case Parsed(v) =>
      match DecodeApiResponse(v, Untyped)
      case None => Err(SerializationError(EnvelopeMismatchText))
      case Some(raw) =>
        if raw.retCode != 0 then Err(ApiError(raw.retCode, raw.retMsg))
        else match decodeResult(raw.result)
          case None => Err(SerializationError(ResultMismatchText))
          case Some(x) => Ok(x)
  }

  /** The JSON of a reply envelope with an empty `retExtInfo`. */
  function Envelope(retCode: I32, retMsg: string, result: Json, time: I64): (v: Json)
    ensures DecodeApiResponse(v, Untyped) == Some(ApiResponse(retCode, retMsg, result, JObject(map[]), time))
  {
    JObject(map["retCode" := JNumber(retCode), "retMsg" := JString(retMsg), "result" := result,
                "retExtInfo" := JObject(map[]), "time" := JNumber(time)])
  }

  /**
   * The two decoders succeed on the same replies with the same value, and
   * whenever the one as written reports an API error the two-step one
   * reports the same error. They differ only on a reply whose result does
   * not fit the expected shape.
   */
  lemma DecodersAgree<T>(text: string, parse: string -> ParseOutcome, decodeResult: Json -> Option<T>)
    ensures DecodeResponseAsWritten(text, parse, decodeResult).Ok? <==> DecodeResponse(text, parse, decodeResult).Ok?
    ensures DecodeResponseAsWritten(text, parse, decodeResult).Ok? ==>
              DecodeResponseAsWritten(text, parse, decodeResult) == DecodeResponse(text, parse, decodeResult)
    ensures DecodeResponseAsWritten(text, parse, decodeResult).Err?
            && DecodeResponseAsWritten(text, parse, decodeResult).error.ApiError? ==>
              DecodeResponseAsWritten(text, parse, decodeResult) == DecodeResponse(text, parse, decodeResult)
    ensures parse(text).Parsed? && DecodeApiResponse(parse(text).value, Untyped).Some?
            && decodeResult(DecodeApiResponse(parse(text).value, Untyped).value.result).Some? ==>
              DecodeResponseAsWritten(text, parse, decodeResult) == DecodeResponse(text, parse, decodeResult)
  {
    if parse(text).Parsed? {
      DecodeApiResponseFactors(parse(text).value, decodeResult);
    }
  }

  /**
   * A rate-limit reply whose `result` is an empty object: decoded as
   * written it surfaces as a serialization error and the code and message
   * are lost; decoded in two steps it is the API error it reports.
   */
  lemma RateLimitReplyAsWritten(text: string, parse: string -> ParseOutcome)
    requires parse(text) == Parsed(Envelope(10006, "Too many visits!", JObject(map[]), 1700000000000))
    ensures DecodeResponseAsWritten(text, parse, DecodeServerTime) == Err(SerializationError(EnvelopeMismatchText))
    ensures DecodeResponse(text, parse, DecodeServerTime) == Err(ApiError(10006, "Too many visits!"))
  {
    var v := Envelope(10006, "Too many visits!", JObject(map[]), 1700000000000);
    DecodeApiResponseFactors(v, DecodeServerTime);
    assert DecodeServerTime(JObject(map[])).None?;
  }

  /** A successful server-time reply decodes to its two fields. */
  lemma ServerTimeReply(text: string, parse: string -> ParseOutcome)
    requires parse(text) == Parsed(Envelope(0, "OK",
      JObject(map["timeSecond" := JString("1688639403"), "timeNano" := JString("1688639403423213947")]), 1688639403423))
    ensures DecodeResponse(text, parse, DecodeServerTime) == Ok(ServerTime("1688639403", "1688639403423213947"))
  {
    var res := JObject(map["timeSecond" := JString("1688639403"), "timeNano" := JString("1688639403423213947")]);
    assert DecodeServerTime(res) == Some(ServerTime("1688639403", "1688639403423213947"));
  }

  /**
   * Sending a request once and decoding what comes back in two steps; a
   * transport failure is a request error.
   */
  function Exchange<T>(req: HttpRequest, env: Env, decodeResult: Json -> Option<T>): Result<T>
  {
    match env.transport(req)
    case Failed(d) => Err(RequestError(d))
    case Received(text) => DecodeResponse(text, env.serde.parseJson, decodeResult)
  }

  /** The same exchange with the reply decoded as the client does it. */
  function ExchangeAsWritten<T>(req: HttpRequest, env: Env, decodeResult: Json -> Option<T>): Result<T>
  {
    match env.transport(req)
    case Failed(d) => Err(RequestError(d))
    case Received(text) => DecodeResponseAsWritten(text, env.serde.parseJson, decodeResult)
  }

  /**
   * How a two-step result `r` may differ from the as-written result `w`:
   * only where the as-written decoder reports a shape mismatch and the
   * two-step one reads the reply as an API error or as a result that does
   * not fit.
   */
  ghost predicate AgreesWithAsWritten<T>(r: Result<T>, w: Result<T>)
  {
    || r == w
    || (w == Err(SerializationError(EnvelopeMismatchText)) && r.Err?
        && (r.error.ApiError? || r.error == SerializationError(ResultMismatchText)))
  }

  /**
   * The two exchanges differ only on replies whose envelope the as-written
   * decoder refuses because of the result: a non-zero code with a result of
   * another shape, or code 0 with a result that does not fit.
   */
  lemma {:induction false} ExchangesAgree<T>(req: HttpRequest, env: Env, decodeResult: Json -> Option<T>)
    ensures AgreesWithAsWritten(Exchange(req, env, decodeResult), ExchangeAsWritten(req, env, decodeResult))
    ensures Exchange(req, env, decodeResult).Ok? <==> ExchangeAsWritten(req, env, decodeResult).Ok?
  {
    match env.transport(req)
    case Failed(_) =>
    case Received(text) =>
      var parse := env.serde.parseJson;
      DecodersAgree(text, parse, decodeResult);
      if parse(text).Parsed? {
        DecodeApiResponseFactors(parse(text).value, decodeResult);
      }
  }

  /**
   * The outcome of a call as the endpoints see it. The call stops before
   * dispatch exactly when stored credentials carry a key that is not a
   * valid header value. Otherwise the request sent has the verb, the URL,
   * the query and the body text given; it carries the signed headers, whose
   * signature is over the payload read off that very request, or, without
   * credentials, only the content type a body needs; and the result is the
   * reply to it.
   */
  ghost predicate Dispatched<T>(baseUrl: string, credentials: Option<Credentials>, verb: Method, path: string,
                          query: Option<Query>, body: Option<string>, env: Env, decodeResult: Json -> Option<T>,
                          sent: Option<HttpRequest>, r: Result<T>)
  {
    && (sent.None? <==> credentials.Some? && !ValidHeaderValue(credentials.value.apiKey))
    && (sent.None? ==> r == Err(InvalidParameter(InvalidHeaderValueText)))
    && (sent.Some? ==>
          var req := sent.value;
          && req.verb == verb && req.url == baseUrl + path && req.query == query && req.body == body
          && (credentials.None? ==> req.headers == (if body.Some? then [ContentTypeJson] else []))
          && (credentials.Some? ==> req.headers == SignedHeaders(credentials.value.apiKey, env.timestamp,
                GenerateSignature(env.timestamp, credentials.value.apiKey, RecvWindow, WirePayload(req, env.serde),
                                  credentials.value.apiSecret, env.mac)))
          && r == Exchange(req, env, decodeResult))
  }

  /** The value of the first parameter named `key`, as the server reads a query. */
  function Lookup(q: Query, key: string): Option<string>
  {
    if q == [] then None
    else if q[0].0 == key then Some(q[0].1)
    else Lookup(q[1..], key)
  }

  /** A lookup finds nothing exactly when no parameter has the key, and otherwise a pair of the query. */
  lemma {:induction false} LookupSpec(q: Query, key: string)
    ensures Lookup(q, key).None? <==> forall i :: 0 <= i < |q| ==> q[i].0 != key
    ensures Lookup(q, key).Some? ==> (key, Lookup(q, key).value) in q
  {
    if q != [] && q[0].0 != key {
      LookupSpec(q[1..], key);
      assert forall i :: 1 <= i < |q| ==> q[i] == q[1..][i - 1];
    }
  }

  /** Lookup yields the value at the first position carrying the key. */
  lemma {:induction false} LookupFindsFirst(q: Query, key: string, i: nat)
    requires i < |q| && q[i].0 == key
    requires forall j :: 0 <= j < i ==> q[j].0 != key
    ensures Lookup(q, key) == Some(q[i].1)
  {
    if i > 0 {
      assert forall j :: 0 <= j < i - 1 ==> q[1..][j] == q[j + 1];
      LookupFindsFirst(q[1..], key, i - 1);
    }
  }

  // ---------------------------------------------------------------------
  // The client
  // ---------------------------------------------------------------------

  /** A client: a base URL and, once set, credentials. */
  class BybitClient {
    var baseUrl: string
    var credentials: Option<Credentials>

    /** `new`: no credentials. */
    constructor (baseUrl: string)
      ensures this.baseUrl == baseUrl && credentials.None?
    {
      this.baseUrl := baseUrl;
      credentials := None;
    }

    constructor Testnet()
      ensures baseUrl == TestnetUrl && credentials.None?
    {
      baseUrl := TestnetUrl;
      credentials := None;
    }

    constructor Mainnet()
      ensures baseUrl == MainnetUrl && credentials.None?
    {
      baseUrl := MainnetUrl;
      credentials := None;
    }

    /** `with_credentials`: stores key and secret unchanged and keeps the base URL. */
    method WithCredentials(apiKey: string, apiSecret: string)
      modifies this
      ensures credentials == Some(Credentials(apiKey, apiSecret))
      ensures baseUrl == old(baseUrl)
    {
      credentials := Some(Credentials(apiKey, apiSecret));
    }

    /**
     * `build_auth_headers`: signs the payload chosen by the verb and builds
     * the five headers one at a time. Of the four checked values only the
     * API key can be refused; the path takes no part in the signature.
     */
    method BuildAuthHeaders(verb: Method, path: string, query: Option<Query>, body: Option<Json>,
                            creds: Credentials, env: Env) returns (r: Result<Headers>)
      ensures r.Ok? <==> ValidHeaderValue(creds.apiKey)
      ensures r.Ok? ==> r.value == SignedHeaders(creds.apiKey, env.timestamp,
        GenerateSignature(env.timestamp, creds.apiKey, RecvWindow, SigningPayload(verb, query, body, env.serde),
                          creds.apiSecret, env.mac))
      ensures r.Err? ==> r.error == InvalidParameter(InvalidHeaderValueText)
    {
      var timestamp := env.timestamp;
      var payload := SigningPayload(verb, query, body, env.serde);
      var signature := GenerateSignature(timestamp, creds.apiKey, RecvWindow, payload, creds.apiSecret, env.mac);

      var headers: Headers := [];
      if !ValidHeaderValue(creds.apiKey) {
        return Err(InvalidParameter(InvalidHeaderValueText));
      }
      headers := headers + [("X-BAPI-API-KEY", creds.apiKey)];
      // The timestamp, signature and receive-window checks cannot fail.
      GeneratedHeaderValuesValid(timestamp, []);
      headers := headers + [("X-BAPI-TIMESTAMP", IntToDecimal(timestamp))];
      GeneratedHeaderValuesValid(0, env.mac(Utf8(creds.apiSecret), Utf8(CanonicalMessage(timestamp, creds.apiKey, RecvWindow, payload))));
      headers := headers + [("X-BAPI-SIGN", signature)];
      GeneratedHeaderValuesValid(RecvWindow, []);
      headers := headers + [("X-BAPI-RECV-WINDOW", NatToDecimal(RecvWindow))];
      headers := headers + [ContentTypeJson];
      return Ok(headers);
    }

    /**
     * `request`: builds the request step by step, sends it once and decodes
     * the reply. `sent` is the request handed to the transport, `None` when
     * the call stopped before dispatch.
     */
    method Request<T>(verb: Method, path: string, query: Option<Query>, body: Option<Json>,
                      env: Env, decodeResult: Json -> Option<T>) returns (sent: Option<HttpRequest>, r: Result<T>)
      ensures Dispatched(baseUrl, credentials, verb, path, query,
                         if body.Some? then Some(env.serde.jsonText(body.value)) else None, env, decodeResult, sent, r)
      ensures sent.Some? ==> AgreesWithAsWritten(r, ExchangeAsWritten(sent.value, env, decodeResult))
    {
      var url := baseUrl + path;
      var builder := HttpRequest(verb, url, None, [], None);
      if query.Some? {
        builder := builder.(query := query);
      }
      if credentials.Some? {
        var headers := BuildAuthHeaders(verb, path, query, body, credentials.value, env);
        if headers.Err? {
          return None, Err(headers.error);
        }
        // The builder has no headers yet, so merging is replacing.
        builder := builder.(headers := headers.value);
      }
      if body.Some? {
        assert credentials.Some? ==> builder.headers[4].0 == "Content-Type";
        builder := builder.(body := Some(env.serde.jsonText(body.value)),
                            headers := WithJsonContentType(builder.headers));
      }
      sent := Some(builder);
      assert WirePayload(builder, env.serde) == SigningPayload(verb, query, body, env.serde);
      match env.transport(builder) {
        case Failed(d) => r := Err(RequestError(d));
        case Received(text) => r := DecodeResponse(text, env.serde.parseJson, decodeResult);
      }
      ExchangesAgree(builder, env, decodeResult);
    }

    /** `get`: a GET request with the query and never a body, signed over the urlencoded query. */
    method GetRequest<T>(path: string, query: Option<Query>, env: Env, decodeResult: Json -> Option<T>)
      returns (sent: Option<HttpRequest>, r: Result<T>)
      ensures Dispatched(baseUrl, credentials, Get, path, query, None, env, decodeResult, sent, r)
      ensures sent.Some? && credentials.Some? ==>
        sent.value.headers == SignedHeaders(credentials.value.apiKey, env.timestamp,
          GenerateSignature(env.timestamp, credentials.value.apiKey, RecvWindow,
            if query.Some? then env.serde.urlEncode(query.value) else "", credentials.value.apiSecret, env.mac))
      ensures sent.Some? ==> AgreesWithAsWritten(r, ExchangeAsWritten(sent.value, env, decodeResult))
    {
      sent, r := Request(Get, path, query, None, env, decodeResult);
    }

    /** `post`: a POST request with the body and never a query, signed over the body text sent. */
    method PostRequest<T>(path: string, body: Option<Json>, env: Env, decodeResult: Json -> Option<T>)
      returns (sent: Option<HttpRequest>, r: Result<T>)
      ensures Dispatched(baseUrl, credentials, Post, path, None,
                         if body.Some? then Some(env.serde.jsonText(body.value)) else None, env, decodeResult, sent, r)
      ensures sent.Some? && credentials.Some? ==>
        sent.value.headers == SignedHeaders(credentials.value.apiKey, env.timestamp,
          GenerateSignature(env.timestamp, credentials.value.apiKey, RecvWindow,
            if body.Some? then env.serde.jsonText(body.value) else "", credentials.value.apiSecret, env.mac))
      ensures sent.Some? ==> AgreesWithAsWritten(r, ExchangeAsWritten(sent.value, env, decodeResult))
    {
      sent, r := Request(Post, path, None, body, env, decodeResult);
    }
  }
}
