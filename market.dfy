/**
 * Public market-data endpoints (src/market.rs). Each one assembles its
 * query and hands it to the client's GET; none sends a body. The shapes
 * of the ticker, order-book and instrument results are the caller's
 * decoders; klines come back as untyped JSON.
 */
module Market {
  import opened Wrappers
  import opened Encoding
  import opened JsonValue
  import opened Errors
  import opened Types
  import opened Client

  const ServerTimePath: string := "/v5/market/time"
  const KlinePath: string := "/v5/market/kline"
  const TickersPath: string := "/v5/market/tickers"
  const OrderbookPath: string := "/v5/market/orderbook"
  const InstrumentsPath: string := "/v5/market/instruments-info"

  /** `get_server_time`: no query at all. */
  method GetServerTime(client: BybitClient, env: Env) returns (sent: Option<HttpRequest>, r: Result<ServerTime>)
    ensures Dispatched(client.baseUrl, client.credentials, Get, ServerTimePath, None, None, env, DecodeServerTime, sent, r)
  {
    sent, r := client.GetRequest(ServerTimePath, None, env, DecodeServerTime);
  }

  /**
   * What the server reads from a kline query: category, symbol and interval
   * under their names, and each bound present exactly when it was given,
   * parsing back to the same instant; one parameter per value, no more.
   */
  predicate KlineParams(q: Query, category: string, symbol: string, interval: string,
                        start: Option<I64>, end: Option<I64>)
  {
    && |q| == 3 + (if start.Some? then 1 else 0) + (if end.Some? then 1 else 0)
    && Lookup(q, "category") == Some(category)
    && Lookup(q, "symbol") == Some(symbol)
    && Lookup(q, "interval") == Some(interval)
    && BoundParam(q, "start", start)
    && BoundParam(q, "end", end)
  }

  /** An optional millisecond bound, as read from a query. */
  predicate BoundParam(q: Query, key: string, bound: Option<I64>)
  {
    match bound
    case None => Lookup(q, key).None?
    case Some(b) => Lookup(q, key).Some? && ParseInt(Lookup(q, key).value) == Some(b as int)
  }

  /** `get_kline`: the parameter list grows by one push per bound that is given. */
  method GetKline(client: BybitClient, category: string, symbol: string, interval: string,
                  start: Option<I64>, end: Option<I64>, env: Env) returns (sent: Option<HttpRequest>, r: Result<Json>)
    ensures Dispatched(client.baseUrl, client.credentials, Get, KlinePath,
                       Some([("category", category), ("symbol", symbol), ("interval", interval)]
                            + (if start.Some? then [("start", IntToDecimal(start.value))] else [])
                            + (if end.Some? then [("end", IntToDecimal(end.value))] else [])),
                       None, env, Untyped, sent, r)
    ensures sent.Some? ==> KlineParams(sent.value.query.value, category, symbol, interval, start, end)
  {
    var params: Query := [("category", category), ("symbol", symbol), ("interval", interval)];
    if start.Some? {
      params := params + [("start", IntToDecimal(start.value))];
    }
    if end.Some? {
      params := params + [("end", IntToDecimal(end.value))];
    }
    KlineQueryReadsBack(params, category, symbol, interval, start, end);
    sent, r := client.GetRequest(KlinePath, Some(params), env, Untyped);
  }

  /** The query as the pushes build it satisfies `KlineParams`. */
  lemma KlineQueryReadsBack(q: Query, category: string, symbol: string, interval: string,
                            start: Option<I64>, end: Option<I64>)
    requires q == [("category", category), ("symbol", symbol), ("interval", interval)]
                  + (if start.Some? then [("start", IntToDecimal(start.value))] else [])
                  + (if end.Some? then [("end", IntToDecimal(end.value))] else [])
    ensures KlineParams(q, category, symbol, interval, start, end)
  {
    if start.Some? && end.Some? {
      KlineBothBounds(q, category, symbol, interval, start.value, end.value);
    } else if start.Some? {
      KlineStartOnly(q, category, symbol, interval, start.value);
    } else if end.Some? {
      KlineEndOnly(q, category, symbol, interval, end.value);
    } else {
      KlineNoBounds(q, category, symbol, interval);
    }
  }

  /** Neither bound given: three parameters. */
  lemma KlineNoBounds(q: Query, category: string, symbol: string, interval: string)
    requires q == [("category", category), ("symbol", symbol), ("interval", interval)]
    ensures KlineParams(q, category, symbol, interval, None, None)
  {
    BaseParamsReadBack(q, category, symbol, interval);
    LookupSpec(q, "start");
    LookupSpec(q, "end");
  }

  /** Only the start given: four parameters, the start last. */
  lemma KlineStartOnly(q: Query, category: string, symbol: string, interval: string, start: I64)
    requires q == [("category", category), ("symbol", symbol), ("interval", interval), ("start", IntToDecimal(start))]
    ensures KlineParams(q, category, symbol, interval, Some(start), None)
  {
    BaseParamsReadBack(q, category, symbol, interval);
    BoundReadBack(q, "start", start, 3);
    LookupSpec(q, "end");
  }

  /** Only the end given: four parameters, the end last. */
  lemma KlineEndOnly(q: Query, category: string, symbol: string, interval: string, end: I64)
    requires q == [("category", category), ("symbol", symbol), ("interval", interval), ("end", IntToDecimal(end))]
    ensures KlineParams(q, category, symbol, interval, None, Some(end))
  {
    BaseParamsReadBack(q, category, symbol, interval);
    BoundReadBack(q, "end", end, 3);
    LookupSpec(q, "start");
  }

  /** Both bounds given: five parameters, start before end. */
  lemma KlineBothBounds(q: Query, category: string, symbol: string, interval: string, start: I64, end: I64)
    requires q == [("category", category), ("symbol", symbol), ("interval", interval),
                   ("start", IntToDecimal(start)), ("end", IntToDecimal(end))]
    ensures KlineParams(q, category, symbol, interval, Some(start), Some(end))
  {
    BaseParamsReadBack(q, category, symbol, interval);
    BoundReadBack(q, "start", start, 3);
    BoundReadBack(q, "end", end, 4);
  }

  /** The three fixed parameters of a kline query, and no bound among them. */
  lemma BaseParamsReadBack(q: Query, category: string, symbol: string, interval: string)
    requires 3 <= |q| && q[0] == ("category", category) && q[1] == ("symbol", symbol) && q[2] == ("interval", interval)
    ensures Lookup(q, "category") == Some(category)
    ensures Lookup(q, "symbol") == Some(symbol)
    ensures Lookup(q, "interval") == Some(interval)
  {
    LookupFindsFirst(q, "symbol", 1);
    LookupFindsFirst(q, "interval", 2);
  }

  /** A bound pushed at position `at`, after parameters of other names, reads back as its value. */
  lemma BoundReadBack(q: Query, key: string, bound: I64, at: nat)
    requires at < |q| && q[at] == (key, IntToDecimal(bound))
    requires forall i :: 0 <= i < at ==> q[i].0 != key
    ensures Lookup(q, key).Some? && ParseInt(Lookup(q, key).value) == Some(bound as int)
  {
    LookupFindsFirst(q, key, at);
    IntDecimalRoundTrip(bound);
  }

  /** `get_tickers`: the category only. */
  method GetTickers<T>(client: BybitClient, category: string, env: Env, decodeResult: Json -> Option<T>)
    returns (sent: Option<HttpRequest>, r: Result<T>)
    ensures Dispatched(client.baseUrl, client.credentials, Get, TickersPath, Some([("category", category)]), None,
                       env, decodeResult, sent, r)
  {
    var query := [("category", category)];
    sent, r := client.GetRequest(TickersPath, Some(query), env, decodeResult);
  }

  /** `get_orderbook`: category, symbol, and the depth limit in decimal, which reads back as the limit. */
  method GetOrderbook<T>(client: BybitClient, category: string, symbol: string, limit: U32, env: Env,
                         decodeResult: Json -> Option<T>) returns (sent: Option<HttpRequest>, r: Result<T>)
    ensures Dispatched(client.baseUrl, client.credentials, Get, OrderbookPath,
                       Some([("category", category), ("symbol", symbol), ("limit", NatToDecimal(limit))]), None,
                       env, decodeResult, sent, r)
    ensures sent.Some? ==> Lookup(sent.value.query.value, "category") == Some(category)
                           && Lookup(sent.value.query.value, "symbol") == Some(symbol)
                           && Lookup(sent.value.query.value, "limit").Some?
                           && ParseInt(Lookup(sent.value.query.value, "limit").value) == Some(limit as int)
  {
    var limitText := NatToDecimal(limit);
    var query := [("category", category), ("symbol", symbol), ("limit", limitText)];
    IntDecimalRoundTrip(limit);
    LookupFindsFirst(query, "symbol", 1);
    LookupFindsFirst(query, "limit", 2);
    sent, r := client.GetRequest(OrderbookPath, Some(query), env, decodeResult);
  }

  /** `get_instruments`: the category only. */
  method GetInstruments<T>(client: BybitClient, category: string, env: Env, decodeResult: Json -> Option<T>)
    returns (sent: Option<HttpRequest>, r: Result<T>)
    ensures Dispatched(client.baseUrl, client.credentials, Get, InstrumentsPath, Some([("category", category)]), None,
                       env, decodeResult, sent, r)
  {
    var query := [("category", category)];
    sent, r := client.GetRequest(InstrumentsPath, Some(query), env, decodeResult);
  }
}
