# rusty-bybit request pipeline, modelled in Dafny

This project models the core of `rusty-bybit`, an asynchronous client for
version 5 of the Bybit REST API. It covers:

- **Signing** (`Auth`). The canonical message is the decimal timestamp, the
  API key, the decimal receive window and the payload. The signature is the
  lowercase hex of HMAC-SHA256 over that message.
- **The error type** (`Errors`). Its nine variants and their display texts.
- **Wire shapes** (`Types`):
  - the five enumerations with their wire names;
  - the `retCode`/`retMsg`/`result`/`retExtInfo`/`time` response envelope;
  - the server-time result;
  - the order-creation request, its builder and its JSON form.
- **The client** (`Client`). A `BybitClient` class holding a base URL and
  optional credentials. Its pipeline:
  - builds the URL from the base URL and the path;
  - attaches the query;
  - chooses the payload to sign (the urlencoded query for GET, the JSON body
    for POST, nothing otherwise);
  - builds the five authentication headers and validates each value as an
    HTTP field value;
  - attaches the JSON body;
  - sends the request once and decodes the response envelope.
- **The endpoints** (`Market`, `Account`, `Trade`). Each assembles its query
  or body and hands it to `get` or `post`.

Supporting modules:

- `Encoding`: decimal rendering and parsing of integers, lowercase hex and
  its inverse, UTF-8.
- `JsonValue`: a JSON value type.
- `Wrappers`: `Option`.

What comes from outside a call is a parameter, bundled in `Client.Env`:

- the clock reading (`get_current_timestamp_ms`);
- HMAC-SHA256 (a function of key bytes and message bytes to a 32-byte
  digest);
- the JSON text serialiser, the urlencoded-query serialiser and the JSON
  parser (`Client.Serde`);
- the transport, which gives back the response body text or a failure.

The serialisers are functions. So the JSON text that is signed is, by
construction, the JSON text that is sent. `Client.BybitClient.Request`
states this on the request it hands to the transport: the signature header
is recomputed from the payload read off that request. `Client.Dispatched`
states this outcome once, and every endpoint promises it for its exact
query or body.

## Model

| member | source | states |
|---|---|---|
| `Encoding.NatToDecimal` | src/client.rs:175 | the decimal text of a natural: non-empty, digits only, no leading zero |
| `Encoding.DecimalRoundTrip` | src/client.rs:175 | the decimal text of a natural reads back as that natural |
| `Encoding.IntToDecimal` | src/client.rs:165 | the decimal text of an integer: an optional minus sign, then the digits |
| `Encoding.IntDecimalRoundTrip` | src/client.rs:165 | the decimal text of an integer parses back to that integer |
| `Encoding.IntDecimalInjective` | src/auth.rs:52 | distinct integers have distinct decimal texts |
| `Encoding.IntToDecimalChars` | src/client.rs:165 | a decimal text contains only digits and `-`, so never `)` or a control character |
| `Encoding.Hex` | src/auth.rs:57 | hex text is twice as long as its bytes and is all lowercase hex digits |
| `Encoding.HexRoundTrip` | src/auth.rs:57 | decoding the hex text gives the bytes back |
| `Encoding.HexInjective` | src/auth.rs:57 | distinct byte strings have distinct hex texts |
| `Encoding.EncodeChar` | src/auth.rs:54-55 | one character becomes 1 to 4 UTF-8 bytes; ASCII maps to itself; other characters give only bytes of 0x80 and above |
| `Encoding.Utf8` | src/auth.rs:54-55 | the UTF-8 bytes of a string number between its length and four times its length |
| `Encoding.EncodeCharDecodes` | src/auth.rs:54-55 | the first byte of an encoded character gives its length, and its bytes decode back to the character |
| `Encoding.Utf8Injective` | src/auth.rs:54-55 | distinct strings have distinct UTF-8 bytes, so distinct secrets or messages give the MAC distinct arguments |
| `JsonValue.StringObject` | src/account.rs:46-51 | an object literal of strings has exactly the given keys, each holding its string |
| `Auth.CanonicalMessage` | src/auth.rs:52 | the signed message is its four parts back to back, with nothing between them: the decimal timestamp, then the API key, then the decimal receive window, then the payload, and its length is the sum of theirs |
| `Auth.CanonicalMessageSensitiveToTimestamp` | src/auth.rs:52 | two messages that differ only in the timestamp differ |
| `Auth.CanonicalMessageSensitiveToKey` | src/auth.rs:52 | two messages that differ only in the API key differ |
| `Auth.CanonicalMessageSensitiveToRecvWindow` | src/auth.rs:52 | two messages that differ only in the receive window differ |
| `Auth.CanonicalMessageSensitiveToPayload` | src/auth.rs:52 | two messages that differ only in the payload differ |
| `Auth.GenerateSignature` | src/auth.rs:45-58 | the signature is 64 lowercase hex characters that decode to HMAC(secret bytes, message bytes) |
| `Auth.SignatureDeterminesDigest` | src/auth.rs:54-57 | two signatures are equal exactly when the two MAC digests are |
| `Auth.CanonicalMessageExample` | src/auth.rs:69-79 | the documented GET example signs "1658384314791" + "XXXXXXXXXX" + "5000" + the query string |
| `Errors.Render` | src/error.rs:62-91 | each variant's text starts with that variant's fixed prefix |
| `Errors.ApiErrorRenderingShowsCodeAndMessage` | src/error.rs:66-68 | an API error's text contains the decimal code and the message |
| `Errors.ApiErrorRenderingInjective` | src/error.rs:66-68 | an API error's text determines its code and its message |
| `Errors.RateLimitRenderingIgnoresReset` | src/error.rs:81-83 | a rate-limit text shows the limit type and does not depend on the reset time |
| `Errors.InvalidEnumValueRenderingShowsBoth` | src/error.rs:84-86 | an invalid-enum text contains both the enum name and the value |
| `Errors.MessageFollowsTag` | src/error.rs:64-90 | every text is its prefix followed by the variant's own detail |
| `Errors.RenderingRevealsVariant` | src/error.rs:64-90 | equal texts come from the same variant |
| `Errors.TagLettersDistinct` | src/error.rs:64-90 | the nine display prefixes already differ in their first, second or ninth letter |
| `Types.CategoryFromWire` | src/types.rs:29-40 | a recognised category name is the wire name of the category returned |
| `Types.CategoryRoundTrip` | src/types.rs:29-40 | every category's wire name reads back as that category |
| `Types.SideFromWire` | src/types.rs:174-181 | a recognised side name is the wire name of the side returned |
| `Types.SideRoundTrip` | src/types.rs:174-181 | every side's wire name reads back as that side |
| `Types.OrderTypeFromWire` | src/types.rs:183-190 | a recognised order-type name is the wire name of the type returned |
| `Types.OrderTypeRoundTrip` | src/types.rs:183-190 | every order type's wire name reads back as that type |
| `Types.TimeInForceFromWire` | src/types.rs:192-205 | a recognised time-in-force name is the wire name of the value returned |
| `Types.TimeInForceRoundTrip` | src/types.rs:192-205 | every time-in-force wire name reads back as that value |
| `Types.OrderStatusFromWire` | src/types.rs:207-220 | a recognised status name is the wire name of the status returned |
| `Types.OrderStatusRoundTrip` | src/types.rs:207-220 | every status wire name reads back as that status |
| `Types.WireNamesInjective` | src/types.rs:29-220 | within each enumeration, distinct variants have distinct wire names |
| `Types.I32Member` | src/types.rs:45-46 | an `i32` member is found exactly when the key holds a number in the 32-bit range |
| `Types.I64Member` | src/types.rs:52 | an `i64` member is found exactly when the key holds a number in the 64-bit range |
| `Types.DecodeApiResponse` | src/types.rs:42-53 | the envelope decodes exactly when `retCode`, `retMsg`, `result` (in its shape) and `time` are present and well typed; `retExtInfo` defaults to null; the decoded fields are the JSON's |
| `Types.DecodeApiResponseFactors` | src/types.rs:42-53 | decoding with a typed result is decoding with an untyped one and then decoding the result |
| `Types.DecodeServerTime` | src/types.rs:16-23 | a server time decodes exactly when `timeSecond` and `timeNano` are strings, and holds them |
| `Types.OrderRequestJson` | src/types.rs:262-305 | the JSON object always has the four required keys; it has each optional key exactly when that field is set, with the field's value; it has no other key |
| `Types.MinimalOrderRequestJson` | src/types.rs:262-305 | a request with no optional field set is written with exactly the four required keys |
| `Types.OrderRequestBuilder.SetCategory` | src/types.rs:341-344 | sets the category and leaves every other field alone |
| `Types.OrderRequestBuilder.SetSymbol` | src/types.rs:346-349 | sets the symbol and leaves every other field alone |
| `Types.OrderRequestBuilder.SetSide` | src/types.rs:351-354 | sets the side and leaves every other field alone |
| `Types.OrderRequestBuilder.SetOrderType` | src/types.rs:356-359 | sets the order type and leaves every other field alone |
| `Types.OrderRequestBuilder.SetQty` | src/types.rs:361-364 | sets the quantity and leaves every other field alone |
| `Types.OrderRequestBuilder.SetPrice` | src/types.rs:366-369 | sets the price and leaves every other field alone |
| `Types.OrderRequestBuilder.SetTimeInForce` | src/types.rs:371-374 | sets the time in force and leaves every other field alone |
| `Types.OrderRequestBuilder.SetPositionIdx` | src/types.rs:376-379 | sets the position index and leaves every other field alone |
| `Types.OrderRequestBuilder.SetOrderLinkId` | src/types.rs:381-384 | sets the order link id and leaves every other field alone |
| `Types.OrderRequestBuilder.SetTriggerPrice` | src/types.rs:386-389 | sets the trigger price and leaves every other field alone |
| `Types.OrderRequestBuilder.SetTakeProfit` | src/types.rs:391-394 | sets the take-profit and leaves every other field alone |
| `Types.OrderRequestBuilder.SetStopLoss` | src/types.rs:396-399 | sets the stop-loss and leaves every other field alone |
| `Types.OrderRequestBuilder.SetReduceOnly` | src/types.rs:401-404 | sets reduce-only and leaves every other field alone |
| `Types.OrderRequestBuilder.SetCloseOnTrigger` | src/types.rs:406-409 | sets close-on-trigger and leaves every other field alone |
| `Types.OrderRequestBuilder.SetTriggerBy` | src/types.rs:411-414 | sets the trigger source and leaves every other field alone |
| `Types.OrderRequestBuilder.SetTpTriggerBy` | src/types.rs:416-419 | sets the take-profit trigger source and leaves every other field alone |
| `Types.OrderRequestBuilder.SetSlTriggerBy` | src/types.rs:421-424 | sets the stop-loss trigger source and leaves every other field alone |
| `Types.OrderRequestBuilder.SetMarketUnit` | src/types.rs:426-429 | sets the market unit and leaves every other field alone |
| `Types.OrderRequestBuilder.SetSlippageToleranceType` | src/types.rs:431-434 | sets the slippage tolerance type and leaves every other field alone |
| `Types.OrderRequestBuilder.SetSlippageTolerance` | src/types.rs:436-439 | sets the slippage tolerance and leaves every other field alone |
| `Types.OrderRequestBuilder.SetTriggerDirection` | src/types.rs:441-444 | sets the trigger direction and leaves every other field alone |
| `Types.OrderRequestBuilder.SetOrderFilter` | src/types.rs:446-449 | sets the order filter and leaves every other field alone |
| `Types.OrderRequestBuilder.Build` | src/types.rs:451-476 | with symbol, side and order type set: the category defaults to "linear", and every other field is copied unchanged |
| `Types.BuildRoundTrip` | src/types.rs:451-476 | building from a request's own fields gives that request back |
| `Types.LastWriteWins` | src/types.rs:341-449 | for each of the 22 setters, setting a field twice keeps the second value |
| `Types.BuildDefaultsCategory` | src/types.rs:721-730 | without a category the built request is "linear"; with one it is that category |
| `Types.MarketOrderJsonExample` | src/types.rs:751-764 | the builder chain symbol/side/Market gives JSON with category "linear" and exactly the required keys, so no price and no qty |
| `Client.SigningPayloadIsWirePayload` | src/client.rs:131-147 | the payload chosen for signing (urlencoded query for GET, JSON body text for POST, "" otherwise) is exactly the payload read off the request that carries that query and body text |
| `Client.HeaderValidityPerChar` | src/client.rs:158-162 | a string is a valid header value exactly when each character is a tab, or a space or above other than DEL |
| `Client.GeneratedHeaderValuesValid` | src/client.rs:163-177 | decimal and lowercase-hex texts are always valid header values, so only the API key can be refused |
| `Client.SignedHeaders` | src/client.rs:157-178 | an authenticated call carries five headers: the API key first and the signature third |
| `Client.SignedHeadersConsistent` | src/client.rs:157-178 | the headers carry exactly the four authentication names and the content type; the timestamp header parses back to the signed timestamp; the window header is "5000" and parses back to the signed window |
| `Client.WithJsonContentType` | src/client.rs:84-86 | attaching a JSON body keeps every header already set, adds at most one, and afterwards a content type is always present: `application/json` when there was none |
| `Client.DecodeResponseAsWritten` | src/client.rs:91-100 | as written: text that does not parse, or parses to something that is not the envelope with its result in the expected shape, is a serialization error; a decoded envelope with a non-zero code is the API error with that code and message; with code 0 it is its result |
| `Client.DecodeResponse` | src/client.rs:91-100 | text that does not parse, or is not an envelope, is a serialization error; a non-zero code is an API error carrying that code and message, whatever the result holds; code 0 with a fitting result is that result, and with a result that does not fit a serialization error |
| `Client.Envelope` | src/types.rs:42-53 | an envelope written out decodes back to the same code, message, result and time |
| `Client.DecodersAgree` | src/client.rs:91-100 | the two decoders succeed on the same replies with the same value, agree on every API error reported as written, and agree whenever the result fits |
| `Client.RateLimitReplyAsWritten` | src/client.rs:91-98 | a 10006 reply whose result is `{}`: as written a serialization error for server time, in two steps the API error |
| `Client.ExchangesAgree` | src/client.rs:88-100 | sending a request and decoding in two steps succeeds exactly when decoding as written does, and differs from it only where the as-written decode reports a shape mismatch and the two-step one an API error or a result that does not fit |
| `Client.ServerTimeReply` | src/client.rs:91-100 | a successful server-time reply decodes to its two strings |
| `Client.LookupSpec` | src/client.rs:75-77 | reading the attached query as the server does (a reading the source has no function for): a lookup fails exactly when no parameter has the key, and otherwise yields a pair of the query |
| `Client.LookupFindsFirst` | src/client.rs:75-77 | reading the attached query as the server does (a reading the source has no function for): a lookup yields the first parameter with the key |
| `Client.BybitClient.constructor` | src/client.rs:39-49 | a new client has the given base URL and no credentials |
| `Client.BybitClient.Testnet` | src/client.rs:56-58 | the testnet client's base URL is https://api-testnet.bybit.com, with no credentials |
| `Client.BybitClient.Mainnet` | src/client.rs:60-62 | the mainnet client's base URL is https://api.bybit.com, with no credentials |
| `Client.BybitClient.WithCredentials` | src/client.rs:51-54 | stores the key and secret as given and keeps the base URL |
| `Client.BybitClient.BuildAuthHeaders` | src/client.rs:121-181 | succeeds exactly when the API key is a valid header value, and then gives the five headers with the signature over the chosen payload; otherwise the invalid-parameter error |
| `Client.BybitClient.Request` | src/client.rs:64-101 | stops before sending exactly when the key is not a valid header value, with the invalid-parameter error; otherwise the request sent has the verb, base URL + path, the query, and the JSON body text; without credentials it has only the content type (when there is a body); with credentials its headers carry the signature over the payload read off that request; the result is the two-step decode of the reply (a request error on transport failure), which agrees with the decode as written except on replies whose result does not fit |
| `Client.BybitClient.GetRequest` | src/client.rs:103-110 | the outcome of `request` for a GET with the query and no body; its signature is over the urlencoded query |
| `Client.BybitClient.PostRequest` | src/client.rs:112-119 | the outcome of `request` for a POST with the body and no query; its signature is over the body text sent |
| `Market.GetServerTime` | src/market.rs:23-25 | the outcome of `get` on /v5/market/time with no query, the reply decoded as a server time |
| `Market.GetKline` | src/market.rs:27-55 | the outcome of `get` on /v5/market/kline with exactly the query category, symbol, interval, then `start` and `end` in decimal, each only when given; that query reads back as the arguments, each bound parsing back to its instant |
| `Market.KlineQueryReadsBack` | src/market.rs:35-47 | the query as pushed satisfies the read-back description for every combination of bounds |
| `Market.KlineNoBounds` | src/market.rs:86-102 | with no bound the query has three parameters and neither bound |
| `Market.KlineStartOnly` | src/market.rs:105-125 | with a start only: four parameters, the start reading back |
| `Market.KlineEndOnly` | src/market.rs:128-148 | with an end only: four parameters, the end reading back |
| `Market.KlineBothBounds` | src/market.rs:151-175 | with both: five parameters, both bounds reading back |
| `Market.GetTickers` | src/market.rs:57-60 | the outcome of `get` on /v5/market/tickers with the category as the only parameter |
| `Market.GetOrderbook` | src/market.rs:62-75 | the outcome of `get` on /v5/market/orderbook with exactly the query category, symbol, and the limit in decimal; the limit reads back as the limit asked for |
| `Market.GetInstruments` | src/market.rs:77-80 | the outcome of `get` on /v5/market/instruments-info with the category as the only parameter |
| `Account.GetWalletBalance` | src/account.rs:26-29 | the outcome of `get` on /v5/account/wallet-balance; a query exactly when an account type is given, holding only that |
| `Account.CategoryQuery` | src/account.rs:32-35 | the query is the category, followed by the symbol exactly when one is given; it reads back as those arguments |
| `Account.GetPosition` | src/account.rs:31-37 | the outcome of `get` on /v5/position/list with the category query, category first |
| `Account.GetExecutionList` | src/account.rs:55-65 | the outcome of `get` on /v5/execution/list with the category query, category first, untyped result |
| `Account.GetClosedPnl` | src/account.rs:67-77 | the outcome of `get` on /v5/position/closed-pnl with the category query, category first, untyped result |
| `Account.SetLeverageBody` | src/account.rs:46-51 | the body has exactly the keys category, symbol, buyLeverage and sellLeverage, each holding its argument |
| `Account.SetLeverage` | src/account.rs:39-53 | the outcome of `post` on /v5/position/set-leverage with the JSON text of that body |
| `Trade.CreateOrder` | src/trade.rs:33-36 | the outcome of `post` on /v5/order/create whose body is the JSON text of the request's JSON form |
| `Trade.CancelOrderBody` | src/trade.rs:44-48 | the body has exactly the keys category, orderId and symbol, each holding its argument |
| `Trade.CancelOrder` | src/trade.rs:38-50 | the outcome of `post` on /v5/order/cancel with the JSON text of that body |
| `Trade.CancelAllBody` | src/trade.rs:57-60 | the body has exactly the keys category and symbol, each holding its argument |
| `Trade.CancelAllOrders` | src/trade.rs:52-62 | the outcome of `post` on /v5/order/cancel-all with the JSON text of that body |
| `Trade.GetOrder` | src/trade.rs:64-67 | the outcome of `get` on /v5/order/realtime with exactly the query category then orderId, each reading back |
| `Trade.GetOpenOrders` | src/trade.rs:69-72 | the outcome of `get` on /v5/order/realtime with the category as the only parameter |

## Left out

- Networking, `async`, and the reqwest client object. The transport is a parameter that returns the body text or a failure. A failure in sending and a failure in reading the text both map to a request error.
- The clock. `get_current_timestamp_ms` is the `timestamp` field of `Client.Env`.
- HMAC-SHA256 and SHA-256 internals. The MAC is a parameter whose only known property is its 32-byte output.
- The `expect("Invalid key length")` on the HMAC key. HMAC accepts keys of any length, so it never fires.
- serde internals: the JSON text serialiser, the urlencoded-query serialiser and the JSON parser are parameters.
  - Both serialisers are total on the values they receive. So the `unwrap_or_default` fall-backs in the payload choice are never taken and are not modelled.
  - For the same reason the `?` on `serde_json::to_value` in `create_order` is not modelled.
- `Client.DecodeResponse`: the error texts for a JSON value of the wrong shape are fixed stand-ins, not serde's messages.
- `Client.DecodeResponseAsWritten`: same stand-in error texts as `Client.DecodeResponse`.
- `Client.BybitClient.Request`: decodes the reply in two steps (`Client.DecodeResponse`), not in one step as `request` does at src/client.rs:91. So every endpoint built on `get` and `post` reports a non-zero `retCode` as an API error even when the reply's `result` does not fit the expected shape. The source reports a serialization error there; for example, `get_server_time` does so on the rate-limit reply of the finding below. `Client.ExchangesAgree` states that these replies, and code-0 replies whose result does not fit, are the only ones on which the two differ.
- `Market.GetServerTime`: its result has a typed shape, so it inherits the two-step decode of `Client.BybitClient.Request`: a non-zero `retCode` with a `result` that does not fit is an API error here and a serialization error in the source.
- `Market.GetTickers`: its result has a typed shape, so it inherits the two-step decode of `Client.BybitClient.Request`: a non-zero `retCode` with a `result` that does not fit is an API error here and a serialization error in the source.
- `Market.GetOrderbook`: its result has a typed shape, so it inherits the two-step decode of `Client.BybitClient.Request`: a non-zero `retCode` with a `result` that does not fit is an API error here and a serialization error in the source.
- `Market.GetInstruments`: its result has a typed shape, so it inherits the two-step decode of `Client.BybitClient.Request`: a non-zero `retCode` with a `result` that does not fit is an API error here and a serialization error in the source.
- `Account.GetWalletBalance`: its result has a typed shape, so it inherits the two-step decode of `Client.BybitClient.Request`: a non-zero `retCode` with a `result` that does not fit is an API error here and a serialization error in the source.
- `Account.GetPosition`: its result has a typed shape, so it inherits the two-step decode of `Client.BybitClient.Request`: a non-zero `retCode` with a `result` that does not fit is an API error here and a serialization error in the source.
- `Trade.CreateOrder`: its result has a typed shape, so it inherits the two-step decode of `Client.BybitClient.Request`: a non-zero `retCode` with a `result` that does not fit is an API error here and a serialization error in the source.
- `Trade.GetOrder`: its result has a typed shape, so it inherits the two-step decode of `Client.BybitClient.Request`: a non-zero `retCode` with a `result` that does not fit is an API error here and a serialization error in the source.
- `Trade.GetOpenOrders`: its result has a typed shape, so it inherits the two-step decode of `Client.BybitClient.Request`: a non-zero `retCode` with a `result` that does not fit is an API error here and a serialization error in the source.
- `Types.DecodeApiResponse`: only the JSON object form of the envelope is accepted. serde's derived `Deserialize` also accepts a struct written as a positional JSON array, and the model refuses that form.
- `Types.DecodeServerTime`: only the JSON object form is accepted, not serde's positional-array form of the struct.
- `Client.BybitClient.WithCredentials`: modelled as an in-place update. The source consumes the client and returns it, which no caller can observe differently.
- `Client.BybitClient.constructor`: the panic when the HTTP client cannot be built is not modelled.
- `Client.BybitClient.BuildAuthHeaders`: headers form a list in insertion order. The source's `HeaderMap` is unordered, and its names are case-insensitive.
- `Types.OrderRequestBuilder.Build`: the source panics when symbol, side or order type is missing. The model makes setting them a precondition.
- JSON numbers are integers. Floating-point JSON is not modelled.
- The typed result shapes are not modelled: tickers, order book, instruments, wallet balance, positions, order list and order response. Each endpoint takes its result decoder as a parameter; only the server time is decoded concretely.
- `Debug` and `Clone` derivations, `EmptyResult`, and the re-exports of `lib.rs`.
- The eight snake_case keys of the order request (`trigger_by` … `order_filter`) are kept as the source writes them, although the exchange documents camelCase.

## Findings

| source | as written | input that shows it | evidently intended | confidence | as-written member | corrected member |
|---|---|---|---|---|---|---|
| src/client.rs:91-98 | `request` decodes the whole `ApiResponse<T>`, including `result` as `T`, before it looks at `retCode`. An error reply whose `result` is `{}` therefore fails to decode whenever `T` has required fields, and it surfaces as a serialization error. | `get_server_time` receiving `{"retCode":10006,"retMsg":"Too many visits!","result":{},"retExtInfo":{},"time":1700000000000}` gives a serialization error | a non-zero `retCode` reaches the caller as `ApiError { ret_code: 10006, .. }`, as the rate-limit handling in the example at src/error.rs:14-24 expects | not executed | `Client.DecodeResponseAsWritten`, `Client.RateLimitReplyAsWritten` | `Client.DecodeResponse`, `Client.DecodersAgree` |
